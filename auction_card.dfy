/** The auction card of the lists: the truncated description, the status
    label, and the controls each role gets. */
module AuctionCard {
  import opened Types
  import opened Text
  import AuctionDetails

  /** The card's description line: the first 60 characters, and "..." when
      something was cut. */
  function ShownDescription(d: string): (r: string)
    ensures |d| <= 60 ==> r == d
    ensures |d| > 60 ==> r == d[..60] + "..." && |r| == 63
    ensures IsPrefix(d[..Min(60, |d|)], r)
  {
    Substring(d, 0, 60) + (if |d| > 60 then "..." else "")
  }

  /** Nothing is lost for a short text, and a long one keeps exactly its first
      60 characters: the shown text is never longer than 63 characters, and
      it differs from the description only when that is longer than 60
      characters (a 63-character description already ending in "..." is
      shown unchanged). */
  lemma ShownDescriptionBounds(d: string)
    ensures |ShownDescription(d)| <= 63
    ensures |ShownDescription(d)| <= |d| + 3
    ensures ShownDescription(d) != d ==> |d| > 60
    ensures |d| > 60 ==> (ShownDescription(d) == d <==> |d| == 63 && d[60..] == "...")
  {
    if |d| > 60 {
      var r := ShownDescription(d);
      assert |r| == 63;
      if |d| == 63 && d[60..] == "..." {
        assert d == d[..60] + d[60..];
      }
    }
  }

  function StatusLabel(s: AuctionStatus): (l: string)
  {
    match s
    case Active => "Active"
    case Completed => "Completed"
    case Cancelled => "Cancelled"
  }

  /** The card and the detail view name every status alike. */
  lemma StatusLabelMatchesDetails(s: AuctionStatus)
    ensures StatusLabel(s) == AuctionDetails.StatusLabel(s)
  {
  }

  /** What the card shows for a viewer role. */
  datatype Controls = Controls(
    viewDetails: bool,
    bidCountLine: bool,
    placeBid: bool,
    placeBidDisabled: bool,
    shipperLine: bool)

  function CardControls(viewer: UserType, status: AuctionStatus): (c: Controls)
    ensures c.viewDetails <==> viewer == Shipper
    ensures c.bidCountLine <==> viewer == Shipper
    ensures c.placeBid <==> viewer != Shipper
    ensures c.shipperLine <==> viewer != Shipper
    ensures c.placeBidDisabled <==> status != Active
  {
    var isShipper := viewer == Shipper;
    Controls(isShipper, isShipper, !isShipper, status != Active, !isShipper)
  }

  /** Each role sees exactly one of the two buttons, and a transporter's
      Place Bid is enabled exactly when the detail view offers it. */
  lemma ControlsAgreeWithDetails(viewer: UserType, a: Auction)
    ensures CardControls(viewer, a.status).viewDetails != CardControls(viewer, a.status).placeBid
    ensures (CardControls(viewer, a.status).placeBid && !CardControls(viewer, a.status).placeBidDisabled)
      <==> AuctionDetails.PlaceBidOffered(viewer, a)
  {
  }
}
