/** The notification bell: the unread count, which requests a click on a
    notification issues, and when the badge and "Mark all as read" show. */
module NotificationList {
  import opened Types

  /** `notifications.filter((n) => !n.read).length`. */
  function UnreadCount(ns: seq<Notification>): (c: nat)
    ensures c <= |ns|
    ensures c == 0 <==> forall i :: 0 <= i < |ns| ==> ns[i].read
  {
    if ns == [] then 0
    else (if ns[0].read then 0 else 1) + UnreadCount(ns[1..])
  }

  /** The count splits over concatenation. */
  lemma {:induction false} UnreadCountAppend(xs: seq<Notification>, ys: seq<Notification>)
    ensures UnreadCount(xs + ys) == UnreadCount(xs) + UnreadCount(ys)
  {
    if xs != [] {
      assert (xs + ys)[1..] == xs[1..] + ys;
      UnreadCountAppend(xs[1..], ys);
    } else {
      assert xs + ys == ys;
    }
  }

  /** The bell's badge and the "Mark all as read" button are shown exactly
      when something is unread. */
  predicate ShowUnreadBadge(ns: seq<Notification>) { UnreadCount(ns) > 0 }

  predicate ShowMarkAll(ns: seq<Notification>) { UnreadCount(ns) > 0 }

  lemma BadgeIffSomeUnread(ns: seq<Notification>)
    ensures ShowUnreadBadge(ns) <==> exists i :: 0 <= i < |ns| && !ns[i].read
    ensures ShowMarkAll(ns) <==> ShowUnreadBadge(ns)
  {
  }

  /** What `handleNotificationClick` asks of its parent. */
  datatype ClickRequests = ClickRequests(markAsRead: Option<string>, navigateTo: Option<string>)

  /** `if (notification.linkTo)`: an absent or empty link is falsy. */
  predicate HasLink(n: Notification)
  {
    n.linkTo.Some? && n.linkTo.value != ""
  }

  function ClickEffect(n: Notification): (r: ClickRequests)
    ensures r.markAsRead.Some? <==> !n.read
    ensures r.markAsRead.Some? ==> r.markAsRead.value == n.id
    ensures r.navigateTo.Some? <==> HasLink(n)
    ensures r.navigateTo.Some? ==> Some(r.navigateTo.value) == n.linkTo
  {
    ClickRequests(
      if !n.read then Some(n.id) else None,
      if HasLink(n) then n.linkTo else None)
  }

  /** A click handler stops before closing when a callback it calls throws. */
  predicate Stopped(n: Notification, markThrows: bool, navigateThrows: bool)
  {
    (!n.read && markThrows) || (HasLink(n) && navigateThrows)
  }

  /** The popover's `open` flag. */
  class Popover {
    var open: bool

    constructor ()
      ensures !open
    {
      open := false;
    }

    method SetOpen(o: bool)
      modifies this
      ensures open == o
    {
      open := o;
    }

    /** A click issues its requests in order and then closes the popover.
        A parent callback that throws stops the handler: a throwing
        `onMarkAsRead` prevents the navigation, and either failure leaves
        the popover as it was. */
    method Click(n: Notification, markThrows: bool, navigateThrows: bool) returns (r: ClickRequests)
      modifies this
      ensures r.markAsRead == ClickEffect(n).markAsRead
      ensures !(markThrows && !n.read) ==> r == ClickEffect(n)
      ensures markThrows && !n.read ==> r.navigateTo == None
      ensures Stopped(n, markThrows, navigateThrows) ==> open == old(open)
      ensures !Stopped(n, markThrows, navigateThrows) ==> !open
      ensures !markThrows && !navigateThrows ==> r == ClickEffect(n) && !open
    {
      var mark: Option<string> := None;
      if !n.read {
        mark := Some(n.id);
        if markThrows {
          return ClickRequests(mark, None);
        }
      }
      var nav: Option<string> := None;
      if n.linkTo.Some? && n.linkTo.value != "" {
        nav := n.linkTo;
        if navigateThrows {
          return ClickRequests(mark, nav);
        }
      }
      open := false;
      r := ClickRequests(mark, nav);
    }
  }
}
