/** The auction detail view: who is offered "Place Bid", "Accept Bid" and the
    chat buttons, the status badge and label, the timeline line, and the
    bid-details dialog with its own accept button. */
module AuctionDetails {
  import opened Types

  /** "Place Bid": a viewer who is not a shipper, on an active auction. */
  predicate PlaceBidOffered(viewer: UserType, a: Auction)
  {
    viewer != Shipper && a.status == Active
  }

  /** "Chat" and "Accept Bid" on a bid of the list: a shipper, an active
      auction, a pending bid. */
  predicate AcceptOffered(viewer: UserType, a: Auction, bid: Bid)
  {
    viewer == Shipper && a.status == Active && bid.status == Pending
  }

  /** "Chat with Shipper": a viewer who is not a shipper, on an accepted bid,
      whatever the auction's status. */
  predicate ChatWithShipperOffered(viewer: UserType, bid: Bid)
  {
    viewer != Shipper && bid.status == Accepted
  }

  /** A shipper is never offered bidding or the shipper chat; a transporter
      is never offered acceptance; and no bid carries both button rows. */
  lemma GuardsByRole(viewer: UserType, a: Auction, bid: Bid)
    ensures AcceptOffered(viewer, a, bid) ==> viewer == Shipper && !PlaceBidOffered(viewer, a)
    ensures PlaceBidOffered(viewer, a) ==> viewer == Transporter
    ensures !(AcceptOffered(viewer, a, bid) && ChatWithShipperOffered(viewer, bid))
    ensures a.status != Active ==> !AcceptOffered(viewer, a, bid) && !PlaceBidOffered(viewer, a)
  {
  }

  /** The shipper chat stays available after the auction has ended. */
  lemma ChatWithShipperIgnoresStatus(bid: Bid)
    requires bid.status == Accepted
    ensures ChatWithShipperOffered(Transporter, bid)
    ensures !ChatWithShipperOffered(Shipper, bid)
  {
  }

  /** What a button in a bid row or in the header asks of the parent. */
  datatype Request = PlaceBid(auctionId: string) | AcceptBid(bidId: string) | Chat(userId: string)

  /** The header's Place Bid button: a transporter on an active auction
      asks to bid on this auction; nobody else sees it. */
  function HeaderRequests(viewer: UserType, a: Auction): (rs: seq<Request>)
    ensures PlaceBidOffered(viewer, a) ==> rs == [PlaceBid(a.id)]
    ensures !PlaceBidOffered(viewer, a) ==> rs == []
    ensures forall r :: r in rs ==> r.PlaceBid? && viewer == Transporter && a.status == Active
  {
    if viewer != Shipper && a.status == Active then [PlaceBid(a.id)] else []
  }

  /** The buttons of one bid row and the requests they send. */
  function BidRowRequests(viewer: UserType, a: Auction, bid: Bid): (rs: seq<Request>)
    ensures AcceptOffered(viewer, a, bid) ==> rs == [Chat(bid.transporterId), AcceptBid(bid.id)]
    ensures ChatWithShipperOffered(viewer, bid) ==> rs == [Chat(a.shipperId)]
    ensures !AcceptOffered(viewer, a, bid) && !ChatWithShipperOffered(viewer, bid) ==> rs == []
  {
    (if viewer == Shipper && a.status == Active && bid.status == Pending
     then [Chat(bid.transporterId), AcceptBid(bid.id)] else [])
    + (if viewer != Shipper && bid.status == Accepted then [Chat(a.shipperId)] else [])
  }

  /** An accept request names exactly the bid of its row, and only a row
      that offers acceptance sends one. */
  lemma AcceptRequestNamesItsBid(viewer: UserType, a: Auction, bid: Bid, r: Request)
    requires r in BidRowRequests(viewer, a, bid) && r.AcceptBid?
    ensures r == AcceptBid(bid.id)
    ensures AcceptOffered(viewer, a, bid)
  {
  }

  datatype BadgeVariant = Default | Success | Destructive

  function StatusVariant(s: AuctionStatus): BadgeVariant
  {
    if s == Active then Default else if s == Completed then Success else Destructive
  }

  function StatusLabel(s: AuctionStatus): (l: string)
  {
    if s == Active then "Active" else if s == Completed then "Completed" else "Cancelled"
  }

  /** Different statuses get different labels and different badge colours. */
  lemma StatusLabelInjective(s: AuctionStatus, t: AuctionStatus)
    ensures StatusLabel(s) == StatusLabel(t) <==> s == t
    ensures StatusVariant(s) == StatusVariant(t) <==> s == t
    ensures StatusLabel(Cancelled) == "Cancelled" && StatusVariant(Cancelled) == Destructive
  {
  }

  /** The second timeline line: the time left while active (rendered by a
      date library from `endTime`), the end date otherwise. */
  datatype TimelineEnd = EndsIn(endTime: string) | Ended(endTime: string)

  function Timeline(a: Auction): TimelineEnd
  {
    if a.status == Active then EndsIn(a.endTime) else Ended(a.endTime)
  }

  lemma TimelineFollowsStatus(a: Auction)
    ensures Timeline(a).EndsIn? <==> a.status == Active
    ensures Timeline(a).EndsIn? <==> PlaceBidOffered(Transporter, a)
    ensures Timeline(a).endTime == a.endTime
  {
  }

  /** The bid-details dialog: open exactly while a bid is selected. */
  class BidDialog {
    var selectedBid: Option<Bid>

    constructor ()
      ensures selectedBid == None
    {
      selectedBid := None;
    }

    predicate IsOpen()
      reads this
    {
      selectedBid.Some?
    }

    /** The dialog's own accept row uses the same rule as the list. */
    predicate AcceptShown(viewer: UserType, a: Auction)
      reads this
    {
      selectedBid.Some? && viewer == Shipper && a.status == Active && selectedBid.value.status == Pending
    }

    /** `onOpenChange` and the Close button both clear the selection. */
    method Close()
      modifies this
      ensures selectedBid == None && !IsOpen()
    {
      selectedBid := None;
    }

    /** The dialog's Accept Bid: requests acceptance of the selected bid and
        closes; the auction passed in is only read. */
    method AcceptSelected(viewer: UserType, a: Auction) returns (r: Request)
      requires AcceptShown(viewer, a)
      modifies this
      ensures r == AcceptBid(old(selectedBid).value.id)
      ensures AcceptOffered(viewer, a, old(selectedBid).value)
      ensures !IsOpen()
    {
      r := AcceptBid(selectedBid.value.id);
      selectedBid := None;
    }
  }

  /** The dialog offers acceptance of its bid exactly when that bid's row in
      the list does. */
  lemma DialogAgreesWithList(viewer: UserType, a: Auction, d: BidDialog)
    requires d.selectedBid.Some?
    ensures d.AcceptShown(viewer, a) <==> AcceptOffered(viewer, a, d.selectedBid.value)
  {
  }
}
