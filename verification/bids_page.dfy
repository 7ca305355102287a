/** The Bids page: bid totals, the average bid, the per-row auction status
    and the Winning/Outbid label. */
module BidsPage {

  import opened Types
  import opened JsNumber
  import opened AuctionStatus

  /** Sum of the bid amounts, starting at 0: the `reduce` of the page, which
      adds left to right; over exact reals the order of the additions does
      not matter. */
  function TotalBidValue(bids: seq<Bid>): real
  {
    if bids == [] then 0.0 else bids[0].amount + TotalBidValue(bids[1..])
  }

  function MinAmount(bids: seq<Bid>): (m: real)
    requires bids != []
    ensures forall i :: 0 <= i < |bids| ==> m <= bids[i].amount
    ensures exists i :: 0 <= i < |bids| && m == bids[i].amount
  {
    if |bids| == 1 then bids[0].amount
    else
      var rest := MinAmount(bids[1..]);
      assert forall i :: 1 <= i < |bids| ==> bids[i] == bids[1..][i - 1];
      if bids[0].amount <= rest then bids[0].amount else rest
  }

  function MaxAmount(bids: seq<Bid>): (m: real)
    requires bids != []
    ensures forall i :: 0 <= i < |bids| ==> bids[i].amount <= m
    ensures exists i :: 0 <= i < |bids| && m == bids[i].amount
  {
    if |bids| == 1 then bids[0].amount
    else
      var rest := MaxAmount(bids[1..]);
      assert forall i :: 1 <= i < |bids| ==> bids[i] == bids[1..][i - 1];
      if bids[0].amount >= rest then bids[0].amount else rest
  }

  /** The total over a concatenation is the sum of the parts' totals. */
  lemma {:induction false} TotalOfConcat(a: seq<Bid>, b: seq<Bid>)
    ensures TotalBidValue(a + b) == TotalBidValue(a) + TotalBidValue(b)
  {
    if a == [] {
      assert a + b == b;
    } else {
      assert (a + b)[1..] == a[1..] + b;
      TotalOfConcat(a[1..], b);
    }
  }

  /** With no negative amounts the total is non-negative, and it is zero
      exactly when every amount is zero. */
  lemma {:induction false} TotalNonNegative(bids: seq<Bid>)
    requires forall i :: 0 <= i < |bids| ==> bids[i].amount >= 0.0
    ensures TotalBidValue(bids) >= 0.0
    ensures TotalBidValue(bids) == 0.0 <==> forall i :: 0 <= i < |bids| ==> bids[i].amount == 0.0
  {
    if bids != [] {
      assert forall i :: 0 <= i < |bids[1..]| ==> bids[1..][i] == bids[i + 1];
      TotalNonNegative(bids[1..]);
      if TotalBidValue(bids) == 0.0 {
        assert forall i :: 1 <= i < |bids| ==> bids[i] == bids[1..][i - 1];
      }
    }
  }

  /** The total is bracketed by count times the smallest and largest amount. */
  lemma {:induction false} TotalBetweenExtremes(bids: seq<Bid>, lo: real, hi: real)
    requires forall i :: 0 <= i < |bids| ==> lo <= bids[i].amount <= hi
    ensures |bids| as real * lo <= TotalBidValue(bids) <= |bids| as real * hi
  {
    if bids != [] {
      assert forall i :: 0 <= i < |bids[1..]| ==> bids[1..][i] == bids[i + 1];
      TotalBetweenExtremes(bids[1..], lo, hi);
    }
  }

  /** `totalBidValue / bids.length` with no guard: NaN for an empty list,
      otherwise the mean amount. */
  function AverageBid(bids: seq<Bid>): (avg: Number)
    ensures avg == NaN <==> bids == []
    ensures bids != [] ==> avg.Finite?
  {
    Divide(TotalBidValue(bids), |bids| as real)
  }

  /** The average, times the number of bids, is the total. */
  lemma AverageTimesCount(bids: seq<Bid>)
    requires bids != []
    ensures AverageBid(bids).Finite?
    ensures AverageBid(bids).value * (|bids| as real) == TotalBidValue(bids)
  {
  }

  /** If every amount lies in [lo, hi], so does the average. */
  lemma AverageWithin(bids: seq<Bid>, lo: real, hi: real)
    requires bids != []
    requires forall i :: 0 <= i < |bids| ==> lo <= bids[i].amount <= hi
    ensures lo <= AverageBid(bids).value <= hi
  {
    TotalBetweenExtremes(bids, lo, hi);
    AverageTimesCount(bids);
    MeanBetween(AverageBid(bids).value, |bids| as real, TotalBidValue(bids), lo, hi);
  }

  /** For a non-empty list the average lies between the smallest and the
      largest bid amount. */
  lemma AverageBidBetween(bids: seq<Bid>)
    requires bids != []
    ensures MinAmount(bids) <= AverageBid(bids).value <= MaxAmount(bids)
  {
    AverageWithin(bids, MinAmount(bids), MaxAmount(bids));
  }

  /** A value whose n-fold multiple is bracketed by n*lo and n*hi lies in
      [lo, hi]. */
  lemma MeanBetween(q: real, n: real, total: real, lo: real, hi: real)
    requires n > 0.0 && q * n == total && n * lo <= total <= n * hi
    ensures lo <= q <= hi
  {
  }

  /** The guarded average: 0 for no bids, the true mean otherwise. */
  function AverageBidOrZero(bids: seq<Bid>): (avg: real)
    ensures bids == [] ==> avg == 0.0
    ensures bids != [] ==> MinAmount(bids) <= avg <= MaxAmount(bids)
    ensures AverageBid(bids).Finite? ==> avg == AverageBid(bids).value
  {
    if bids == [] then 0.0
    else
      AverageBidBetween(bids);
      AverageBid(bids).value
  }

  /** On an empty list the unguarded average is NaN, which the page renders. */
  lemma EmptyAverageIsNaN()
    ensures AverageBid([]) == NaN
    ensures AverageBidOrZero([]) == 0.0
  {
  }

  /** The status badge of a bid's auction. Reading the window of an absent
      auction throws during rendering, shown here as `None`. */
  function BidAuctionStatus(b: Bid, now: Timestamp): (s: Option<Status>)
    ensures s.None? <==> b.auction.None?
    ensures b.auction.Some? ==> s.value == Resolve(b.auction.value.startTime, b.auction.value.endTime, now)
  {
    match b.auction
    case None => None
    case Some(d) =>
      if now < d.startTime then Some(Upcoming)
      else if now >= d.startTime && now <= d.endTime then Some(Active)
      else Some(Completed)
  }

  datatype Label = Winning | Outbid

  /** `bid?.amount === bid?.auction?.currentBid?.amount`: an absent auction or
      current bid yields `undefined`, which never equals a number. */
  function BidLabel(b: Bid): (l: Label)
    ensures l == Winning <==> b.auction.Some? && b.auction.value.currentBid.Some? && b.auction.value.currentBid.value == b.amount
  {
    match b.auction
    case None => Outbid
    case Some(d) =>
      match d.currentBid
      case None => Outbid
      case Some(amount) => if b.amount == amount then Winning else Outbid
  }

  /** Winning compares amounts, not ids: two bids on the same auction with the
      same amount are both labelled Winning, even when only one of them is the
      auction's current bid. */
  lemma EqualAmountsBothWinning(b1: Bid, b2: Bid)
    requires b1.auction == b2.auction && b1.amount == b2.amount
    requires BidLabel(b1) == Winning
    ensures BidLabel(b2) == Winning
  {
  }

  /** A bid on an auction that has no current bid is Outbid. */
  lemma AbsentCurrentBidIsOutbid(b: Bid)
    requires b.auction.Some? && b.auction.value.currentBid.None?
    ensures BidLabel(b) == Outbid
  {
  }

  /** A bid with no auction never reaches its label: the row's status cell,
      rendered first, reads the window of the absent auction and throws. */
  lemma AbsentAuctionRowFails(b: Bid, now: Timestamp)
    requires b.auction.None?
    ensures BidAuctionStatus(b, now) == None
  {
  }
}
