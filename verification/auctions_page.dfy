/** The Auctions page: the status column and the auction detail dialog's
    bid summary and bidding history. */
module AuctionsPage {

  import opened Types
  import opened AuctionStatus

  /** One row of the bidding history: bidder name and amount. */
  datatype HistoryRow = HistoryRow(bidId: string, bidder: Option<string>, amount: real)

  /** What the detail dialog shows about the bids of the selected auction. */
  datatype BidSummary = BidSummary(count: nat, history: seq<HistoryRow>, showNoBids: bool)

  function Row(b: HistoryBid): HistoryRow
  {
    HistoryRow(b.id, b.user.name, b.amount)
  }

  function Rows(bids: seq<HistoryBid>): (rows: seq<HistoryRow>)
    ensures |rows| == |bids|
    ensures forall i :: 0 <= i < |bids| ==> rows[i] == Row(bids[i])
  {
    if bids == [] then [] else [Row(bids[0])] + Rows(bids[1..])
  }

  /** The dialog's bid count, history list and "No bids yet" placeholder. */
  function Summary(a: Auction): (s: BidSummary)
    ensures s.count == |a.bids| == |s.history|
    ensures s.showNoBids <==> s.history == []
    ensures forall i :: 0 <= i < |s.history| ==>
      && s.history[i].bidId == a.bids[i].id
      && s.history[i].bidder == a.bids[i].user.name
      && s.history[i].amount == a.bids[i].amount
  {
    BidSummary(|a.bids|, Rows(a.bids), |a.bids| == 0)
  }

  /** The status badge of every listed auction, in list order. */
  function StatusColumn(auctions: seq<Auction>, now: Timestamp): (col: seq<Status>)
    ensures |col| == |auctions|
    ensures forall i :: 0 <= i < |auctions| ==> col[i] == AuctionStatusAt(auctions[i], now)
    ensures forall i :: 0 <= i < |auctions| ==>
      (col[i] == Active <==> auctions[i].startTime <= now <= auctions[i].endTime)
  {
    if auctions == [] then [] else [AuctionStatusAt(auctions[0], now)] + StatusColumn(auctions[1..], now)
  }
}
