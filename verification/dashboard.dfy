/** The Dashboard: the sequential fetch-then-dispatch chain that fills the
    store, the four stat cards, the active-auction list and the recent-bid
    list. */
module Dashboard {

  import opened Types
  import opened AuctionStatus
  import opened ListSlices
  import AuctionsPage
  import UsersPage
  import CallLogsPage

  /** The part of the Redux store the Dashboard reads and writes. */
  datatype Store = Store(
    users: UserSlice,
    auctions: AuctionSlice,
    bids: BidSlice,
    callLogs: CallLogSlice)

  function InitialStore(): (s: Store)
    ensures s.users.items == [] && s.auctions.items == [] && s.bids.items == [] && s.callLogs.items == []
  {
    Store(Initial(), Initial(), Initial(), Initial())
  }

  datatype Collection = Users | Auctions | Bids | CallLogs

  /** The fixed order of the chain. */
  const Chain: seq<Collection> := [Users, Auctions, Bids, CallLogs]

  /** What each service call resolved to; `None` stands for a falsy value or
      a thrown error, both of which end the chain in the same catch. An empty
      list is a truthy response. */
  datatype Responses = Responses(
    users: Option<seq<UserRecord>>,
    auctions: Option<seq<Auction>>,
    bids: Option<seq<Bid>>,
    callLogs: Option<seq<CallLog>>)

  predicate Present(r: Responses, c: Collection)
  {
    match c
    case Users => r.users.Some?
    case Auctions => r.auctions.Some?
    case Bids => r.bids.Some?
    case CallLogs => r.callLogs.Some?
  }

  predicate AllPresent(r: Responses)
    ensures AllPresent(r) <==> forall d :: Present(r, d)
  {
    assert Present(r, Users) && Present(r, Auctions) && Present(r, Bids) && Present(r, CallLogs) ==> forall d :: Present(r, d);
    r.users.Some? && r.auctions.Some? && r.bids.Some? && r.callLogs.Some?
  }

  /** The final store, the service calls issued (in order) and the collection
      whose response aborted the chain, if any. */
  datatype FetchOutcome = FetchOutcome(store: Store, requested: seq<Collection>, failedAt: Option<Collection>)

  /** `fetchDashboardData`: each response is awaited, then dispatched when
      truthy; the first falsy response throws and skips the rest. */
  function FetchDashboardData(s: Store, r: Responses): (o: FetchOutcome)
    ensures o.failedAt.None? <==> AllPresent(r)
    ensures o.failedAt.None? ==> o.requested == Chain
    ensures o.failedAt.Some? ==> !Present(r, o.failedAt.value)
  {
    match r.users
    case None => FetchOutcome(s, [Users], Some(Users))
    case Some(u) =>
      var s1 := s.(users := SetUsers(s.users, u));
      match r.auctions
      case None => FetchOutcome(s1, [Users, Auctions], Some(Auctions))
      case Some(a) =>
        var s2 := s1.(auctions := SetAuctions(s1.auctions, a));
        match r.bids
        case None => FetchOutcome(s2, [Users, Auctions, Bids], Some(Bids))
        case Some(b) =>
          var s3 := s2.(bids := SetBids(s2.bids, b));
          match r.callLogs
          case None => FetchOutcome(s3, Chain, Some(CallLogs))
          case Some(c) => FetchOutcome(s3.(callLogs := SetCallLogs(s3.callLogs, c)), Chain, None)
  }

  /** Position of a collection in the chain. */
  function Position(c: Collection): (i: nat)
    ensures i < |Chain| && Chain[i] == c
  {
    match c
    case Users => 0
    case Auctions => 1
    case Bids => 2
    case CallLogs => 3
  }

  /** The collection's slice after the outcome holds the response. */
  predicate Dispatched(s: Store, r: Responses, c: Collection)
    requires Present(r, c)
  {
    match c
    case Users => s.users.items == r.users.value
    case Auctions => s.auctions.items == r.auctions.value
    case Bids => s.bids.items == r.bids.value
    case CallLogs => s.callLogs.items == r.callLogs.value
  }

  /** The collection's slice is as it was before the chain ran. */
  predicate Untouched(before: Store, after: Store, c: Collection)
  {
    match c
    case Users => after.users == before.users
    case Auctions => after.auctions == before.auctions
    case Bids => after.bids == before.bids
    case CallLogs => after.callLogs == before.callLogs
  }

  /** The chain stops at the first absent response in chain order: the calls
      up to and including it are issued, every earlier collection is
      dispatched, and it and every later collection keep their old slices. */
  lemma ChainAbortsAtFirstMissing(s: Store, r: Responses, c: Collection)
    requires !Present(r, c)
    requires forall d :: Position(d) < Position(c) ==> Present(r, d)
    ensures FetchDashboardData(s, r).failedAt == Some(c)
    ensures FetchDashboardData(s, r).requested == Chain[..Position(c) + 1]
    ensures forall d :: Position(d) < Position(c) ==> Present(r, d) && Dispatched(FetchDashboardData(s, r).store, r, d)
    ensures forall d :: Position(d) >= Position(c) ==> Untouched(s, FetchDashboardData(s, r).store, d)
  {
    assert Position(Users) == 0 && Position(Auctions) == 1 && Position(Bids) == 2;
  }

  /** With every response present all four calls are issued and all four
      slices replaced. */
  lemma ChainCompletes(s: Store, r: Responses)
    requires AllPresent(r)
    ensures FetchDashboardData(s, r).failedAt == None
    ensures FetchDashboardData(s, r).requested == Chain
    ensures forall d :: Present(r, d) && Dispatched(FetchDashboardData(s, r).store, r, d)
  {
  }

  /** Whatever the responses, the calls issued are a non-empty prefix of the
      chain, ending at the failing collection when there is one. */
  lemma RequestedIsPrefix(s: Store, r: Responses)
    ensures var o := FetchDashboardData(s, r);
      0 < |o.requested| <= |Chain| && o.requested == Chain[..|o.requested|]
      && (o.failedAt.Some? ==> o.requested[|o.requested| - 1] == o.failedAt.value)
      && (o.failedAt.None? <==> AllPresent(r))
  {
  }

  datatype StatCards = StatCards(totalUsers: nat, totalAuctions: nat, totalBids: nat, callLogs: nat)

  /** The four cards. The users and call-log cards agree with the totals
      the Users and Call Logs pages show for the same slices. */
  function Cards(s: Store): (c: StatCards)
    ensures c.totalUsers == UsersPage.TotalUsers(s.users.items)
    ensures c.callLogs == CallLogsPage.TotalCalls(s.callLogs.items)
    ensures s == InitialStore() ==> c == StatCards(0, 0, 0, 0)
  {
    StatCards(|s.users.items|, |s.auctions.items|, |s.bids.items|, |s.callLogs.items|)
  }

  /** After a complete chain the stat cards show the sizes of the responses. */
  lemma CardsAfterCompleteChain(s: Store, r: Responses)
    requires AllPresent(r)
    ensures Cards(FetchDashboardData(s, r).store)
      == StatCards(|r.users.value|, |r.auctions.value|, |r.bids.value|, |r.callLogs.value|)
  {
    ChainCompletes(s, r);
    assert Dispatched(FetchDashboardData(s, r).store, r, Users);
    assert Dispatched(FetchDashboardData(s, r).store, r, Auctions);
    assert Dispatched(FetchDashboardData(s, r).store, r, Bids);
    assert Dispatched(FetchDashboardData(s, r).store, r, CallLogs);
  }

  /** `bids.slice(0, 5)`: the first five bids in stored order, no sorting. */
  function RecentBids(bids: seq<Bid>): (r: seq<Bid>)
    ensures |r| == if |bids| < 5 then |bids| else 5
    ensures forall i :: 0 <= i < |r| ==> r[i] == bids[i]
  {
    if |bids| <= 5 then bids else bids[..5]
  }

  /** Bids appended after the first five never reach the recent list. */
  lemma RecentBidsIgnoresLater(bids: seq<Bid>, later: seq<Bid>)
    requires |bids| >= 5
    ensures RecentBids(bids + later) == RecentBids(bids)
  {
    assert (bids + later)[..5] == bids[..5];
  }

  /** Order-preserving subsequence. */
  predicate IsSubsequence<T(==)>(xs: seq<T>, ys: seq<T>)
    decreases |ys|
  {
    xs == [] || (ys != [] && ((xs[0] == ys[0] && IsSubsequence(xs[1..], ys[1..])) || IsSubsequence(xs, ys[1..])))
  }

  /** `auctions.filter(a => now >= start && now <= end)`. */
  function ActiveAuctions(auctions: seq<Auction>, now: Timestamp): (r: seq<Auction>)
    ensures |r| <= |auctions|
    ensures forall a :: a in r <==> a in auctions && InWindow(a.startTime, a.endTime, now)
    ensures IsSubsequence(r, auctions)
  {
    if auctions == [] then []
    else
      var rest := ActiveAuctions(auctions[1..], now);
      if InWindow(auctions[0].startTime, auctions[0].endTime, now) then
        var r := [auctions[0]] + rest;
        assert r[1..] == rest;
        r
      else
        SubsequenceSkip(rest, auctions);
        rest
  }

  lemma SubsequenceSkip<T>(xs: seq<T>, ys: seq<T>)
    requires ys != [] && IsSubsequence(xs, ys[1..])
    ensures IsSubsequence(xs, ys)
  {
  }

  /** The Dashboard's filter keeps exactly the auctions the resolver calls Active. */
  lemma ActiveFilterMatchesResolver(auctions: seq<Auction>, now: Timestamp)
    ensures forall a :: a in ActiveAuctions(auctions, now) <==> a in auctions && AuctionStatusAt(a, now) == Active
  {
  }

  function CountActive(col: seq<Status>): nat
  {
    if col == [] then 0 else (if col[0] == Active then 1 else 0) + CountActive(col[1..])
  }

  /** The Dashboard lists as many active auctions as the Auctions page shows
      Active badges. */
  lemma {:induction false} ActiveCountMatchesAuctionsPage(auctions: seq<Auction>, now: Timestamp)
    ensures |ActiveAuctions(auctions, now)| == CountActive(AuctionsPage.StatusColumn(auctions, now))
  {
    if auctions != [] {
      var col := AuctionsPage.StatusColumn(auctions, now);
      assert col[1..] == AuctionsPage.StatusColumn(auctions[1..], now);
      ActiveCountMatchesAuctionsPage(auctions[1..], now);
    }
  }
}
