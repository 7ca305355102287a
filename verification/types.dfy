/** Entities of the auction dashboard's read model, as the pages receive them
    from the backend. Timestamps are instants in milliseconds (the value a
    JavaScript `Date` compares by); monetary amounts are JavaScript numbers,
    modelled as rationals. Fields the pages read with optional chaining
    (`?.`) are `Option`s, because the pages treat them as possibly absent. */
module Types {

  datatype Option<+T> = None | Some(value: T)

  type Timestamp = int

  datatype Product = Product(name: string, description: string, imageUrl: Option<string>)

  /** The auction's standing highest bid, embedded in an `Auction`. */
  datatype CurrentBid = CurrentBid(id: string, amount: real, userId: string, auctionId: string, createdAt: Timestamp)

  /** Denormalised snapshot of the bidder inside an auction's bid history. */
  datatype Bidder = Bidder(id: string, name: Option<string>, picture: Option<string>)

  datatype HistoryBid = HistoryBid(id: string, amount: real, createdAt: Timestamp, user: Bidder)

  datatype Auction = Auction(
    id: string,
    productId: string,
    startTime: Timestamp,
    endTime: Timestamp,
    currentBidId: string,
    createdAt: Timestamp,
    updatedAt: Timestamp,
    product: Product,
    currentBid: CurrentBid,
    bids: seq<HistoryBid>)

  /** The auction summary embedded in a flat `Bid`. */
  datatype ProductSummary = ProductSummary(name: Option<string>, imageUrl: Option<string>)

  datatype AuctionDetails = AuctionDetails(
    id: string,
    startTime: Timestamp,
    endTime: Timestamp,
    product: ProductSummary,
    currentBid: Option<real>)

  datatype BidUser = BidUser(id: string, name: Option<string>, phone: string, email: Option<string>, picture: Option<string>)

  datatype Bid = Bid(
    id: string,
    amount: real,
    userId: string,
    auctionId: string,
    createdAt: Timestamp,
    user: BidUser,
    product: ProductSummary,
    auction: Option<AuctionDetails>)

  datatype User = User(
    id: string,
    name: string,
    email: string,
    phone: string,
    totalBids: int,
    registeredAt: Timestamp,
    avatar: Option<string>)

  /** A call log as received. The declared status union is
      'answered' | 'missed' | 'busy' | 'ongoing', but the page compares the
      raw string, so the status is kept as a string. */
  datatype CallLog = CallLog(
    id: string,
    userId: string,
    user: User,
    startedAt: Timestamp,
    endedAt: Option<Timestamp>,
    duration: Option<int>,
    status: string,
    phoneNumber: string)

  /** The user record the Users page lists: a user with the ids of their bids. */
  datatype UserRecord = UserRecord(
    id: string,
    name: Option<string>,
    email: Option<string>,
    phone: string,
    picture: Option<string>,
    createdAt: Timestamp,
    bids: seq<string>)

  /** The signed-in user's data as held by the auth slice and the header. */
  datatype Account = Account(
    id: string,
    name: string,
    email: string,
    dob: string,
    picture: Option<string>,
    username: string)
}
