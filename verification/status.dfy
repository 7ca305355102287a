/** The auction status resolver. The Auctions page, the Bids page and the
    Dashboard's active-auction filter each compare the current instant with
    the auction window [startTime, endTime]; both ends are inclusive. */
module AuctionStatus {

  import opened Types

  datatype Status = Upcoming | Active | Completed

  /** Position of a status along the timeline. */
  function Rank(s: Status): nat
  {
    match s
    case Upcoming => 0
    case Active => 1
    case Completed => 2
  }

  /** The window condition the Dashboard filter and the resolver's second branch share. */
  predicate InWindow(startTime: Timestamp, endTime: Timestamp, now: Timestamp)
  {
    now >= startTime && now <= endTime
  }

  /** `getStatusBadge` of the Auctions page: the first condition that holds wins. */
  function Resolve(startTime: Timestamp, endTime: Timestamp, now: Timestamp): (s: Status)
    ensures s == Upcoming <==> now < startTime
    ensures s == Active <==> startTime <= now <= endTime
    ensures s == Completed <==> startTime <= now && endTime < now
  {
    if now < startTime then Upcoming
    else if InWindow(startTime, endTime, now) then Active
    else Completed
  }

  function AuctionStatusAt(a: Auction, now: Timestamp): Status
  {
    Resolve(a.startTime, a.endTime, now)
  }

  /** An inverted window (end before start) is never reported Active. */
  lemma InvertedWindowNeverActive(startTime: Timestamp, endTime: Timestamp, now: Timestamp)
    requires endTime < startTime
    ensures Resolve(startTime, endTime, now) != Active
    ensures Resolve(startTime, endTime, now) == (if now < startTime then Upcoming else Completed)
  {
  }

  /** As time advances the status only moves forward:
      Upcoming, then Active, then Completed, never back. */
  lemma {:induction false} ResolveMonotone(startTime: Timestamp, endTime: Timestamp, now1: Timestamp, now2: Timestamp)
    requires now1 <= now2
    ensures Rank(Resolve(startTime, endTime, now1)) <= Rank(Resolve(startTime, endTime, now2))
  {
    if startTime <= endTime {
      // the three cases partition the timeline in order
    } else {
      InvertedWindowNeverActive(startTime, endTime, now1);
      InvertedWindowNeverActive(startTime, endTime, now2);
    }
  }

  /** The window boundaries themselves resolve to Active. */
  lemma BoundariesAreActive(startTime: Timestamp, endTime: Timestamp)
    requires startTime <= endTime
    ensures Resolve(startTime, endTime, startTime) == Active
    ensures Resolve(startTime, endTime, endTime) == Active
    ensures Resolve(startTime, endTime, startTime - 1) == Upcoming
    ensures Resolve(startTime, endTime, endTime + 1) == Completed
  {
  }
}
