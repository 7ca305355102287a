/** The auction, bid and call-log slices of the Redux store (and the users
    slice the Dashboard dispatches to): each holds one list, starts empty and
    has a single reducer that replaces the list wholesale with the payload. */
module ListSlices {

  import opened Types

  datatype ListSlice<T> = ListSlice(items: seq<T>)

  function Initial<T>(): (s: ListSlice<T>)
    ensures |s.items| == 0
  {
    ListSlice([])
  }

  /** The one reducer: `state.<list> = action.payload`. */
  function Set<T>(s: ListSlice<T>, payload: seq<T>): (r: ListSlice<T>)
    ensures r.items == payload
  {
    ListSlice(payload)
  }

  /** The state after dispatching a sequence of set actions, in order. */
  function Replay<T>(s: ListSlice<T>, payloads: seq<seq<T>>): ListSlice<T>
    decreases |payloads|
  {
    if payloads == [] then s else Replay(Set(s, payloads[0]), payloads[1..])
  }

  /** Last write wins, with nothing from earlier lists merged in. */
  lemma LastWriteWins<T>(s: ListSlice<T>, a: seq<T>, b: seq<T>)
    ensures Set(Set(s, a), b) == Set(s, b)
    ensures Set(Set(s, a), a) == Set(s, a)
  {
  }

  /** Replacement ignores the previous state entirely. */
  lemma SetForgetsPrevious<T>(s1: ListSlice<T>, s2: ListSlice<T>, payload: seq<T>)
    ensures Set(s1, payload) == Set(s2, payload)
  {
  }

  /** After any non-empty sequence of set actions the list is the last payload. */
  lemma {:induction false} ReplayIsLastPayload<T>(s: ListSlice<T>, payloads: seq<seq<T>>)
    requires payloads != []
    ensures Replay(s, payloads).items == payloads[|payloads| - 1]
    decreases |payloads|
  {
    if |payloads| > 1 {
      ReplayIsLastPayload(Set(s, payloads[0]), payloads[1..]);
    }
  }

  type AuctionSlice = ListSlice<Auction>
  type BidSlice = ListSlice<Bid>
  type CallLogSlice = ListSlice<CallLog>
  type UserSlice = ListSlice<UserRecord>

  function SetAuctions(s: AuctionSlice, payload: seq<Auction>): (r: AuctionSlice)
    ensures r.items == payload
    ensures r == Set(Initial(), payload)
  {
    Set(s, payload)
  }

  function SetBids(s: BidSlice, payload: seq<Bid>): (r: BidSlice)
    ensures r.items == payload
    ensures r == Set(Initial(), payload)
  {
    Set(s, payload)
  }

  function SetCallLogs(s: CallLogSlice, payload: seq<CallLog>): (r: CallLogSlice)
    ensures r.items == payload
    ensures r == Set(Initial(), payload)
  {
    Set(s, payload)
  }

  function SetUsers(s: UserSlice, payload: seq<UserRecord>): (r: UserSlice)
    ensures r.items == payload
    ensures r == Set(Initial(), payload)
  {
    Set(s, payload)
  }
}
