/** Shapes of the marketplace entities (users, auctions, bids, notifications,
    token packages, chat messages).  Timestamps are kept as opaque strings or
    numbers of milliseconds; amounts, weights and ratings are integers. */
module Types {

  datatype Option<T> = None | Some(value: T)

  datatype UserType = Shipper | Transporter

  datatype AuctionStatus = Active | Completed | Cancelled

  datatype BidStatus = Pending | Accepted | Rejected

  datatype NotificationType = AuctionNote | BidNote | TokenNote | SystemNote

  datatype User = User(
    id: string,
    name: string,
    email: string,
    userType: UserType,
    tokenBalance: int,
    rating: int,
    reviewCount: int)

  datatype Bid = Bid(
    id: string,
    auctionId: string,
    transporterId: string,
    transporterName: string,
    transporterRating: int,
    amount: int,
    notes: string,
    createdAt: string,
    status: BidStatus)

  datatype Auction = Auction(
    id: string,
    title: string,
    description: string,
    origin: string,
    destination: string,
    weight: int,
    dimensions: string,
    budget: int,
    createdAt: string,
    endTime: string,
    status: AuctionStatus,
    shipperId: string,
    shipperName: string,
    shipperRating: int,
    winningBidId: Option<string>,
    winningTransporterId: Option<string>,
    bids: seq<Bid>)

  datatype Notification = Notification(
    id: string,
    userId: string,
    title: string,
    message: string,
    read: bool,
    createdAt: string,
    kind: NotificationType,
    linkTo: Option<string>)

  datatype TokenPackage = TokenPackage(
    id: string,
    name: string,
    description: string,
    tokenAmount: nat,
    price: nat,
    popular: bool)

  datatype Message = Message(
    id: string,
    senderId: string,
    receiverId: string,
    auctionId: string,
    content: string,
    createdAt: string,
    read: bool)

  /** A parameter with a default value: the default applies when the caller
      passes nothing. */
  function OrDefault(given: Option<int>, fallback: int): (v: int)
    ensures given.Some? ==> v == given.value
    ensures given.None? ==> v == fallback
  {
    match given
    case Some(x) => x
    case None => fallback
  }

  /** `Array.find`: the first element that matches, if any. */
  function FindFirst<T>(xs: seq<T>, matches: T -> bool): (r: Option<T>)
    ensures r.None? <==> forall i :: 0 <= i < |xs| ==> !matches(xs[i])
    ensures r.Some? ==> FirstMatchAt(xs, matches, r.value)
  {
    if xs == [] then None
    else if matches(xs[0]) then Some(xs[0])
    else
      var r := FindFirst(xs[1..], matches);
      if r.Some? then
        assert FirstMatchAt(xs, matches, r.value) by {
          var i :| 0 <= i < |xs[1..]| && xs[1..][i] == r.value && FirstAt(xs[1..], matches, i);
          assert xs[i + 1] == r.value && FirstAt(xs, matches, i + 1);
        }
        r
      else r
  }

  /** Element i matches and none before it does. */
  ghost predicate FirstAt<T>(xs: seq<T>, matches: T -> bool, i: int)
  {
    0 <= i < |xs| && matches(xs[i]) && forall j :: 0 <= j < i ==> !matches(xs[j])
  }

  /** x is the first element of xs that matches. */
  ghost predicate FirstMatchAt<T>(xs: seq<T>, matches: T -> bool, x: T)
  {
    exists i :: 0 <= i < |xs| && xs[i] == x && FirstAt(xs, matches, i)
  }

  function Min(a: int, b: int): (m: int)
    ensures m <= a && m <= b && (m == a || m == b)
  {
    if a <= b then a else b
  }
}
