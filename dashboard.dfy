/** The dashboard page: the token balance and how a purchase credits it, the
    notification list with mark-one and mark-all read, and the
    shipper/transporter role switch with its saved preference. */
module Dashboard {
  import opened Types
  import opened NotificationList

  /** The role as stored under the "userRole" key. */
  function RoleName(r: UserType): string
  {
    match r
    case Shipper => "shipper"
    case Transporter => "transporter"
  }

  /** The first role: transporter only when the saved value is exactly
      "transporter"; no saved value or any other value gives shipper. */
  function InitialRole(saved: Option<string>): (r: UserType)
    ensures r == Transporter <==> saved == Some("transporter")
  {
    if saved == Some("transporter") then Transporter else Shipper
  }

  function Switched(r: UserType): (s: UserType)
    ensures s != r
  {
    if r == Shipper then Transporter else Shipper
  }

  lemma SwitchTwiceRestores(r: UserType)
    ensures Switched(Switched(r)) == r
  {
  }

  /** Saving the switched role and reading it back on the next visit gives
      the switched role. */
  lemma SavedRoleRoundTrip(r: UserType)
    ensures InitialRole(Some(RoleName(Switched(r)))) == Switched(r)
    ensures InitialRole(Some(RoleName(r))) == r
  {
  }

  /** The credit table of `handlePurchaseTokens`, as written: keyed by
      "basic", "premium" and "enterprise", with 50 for every other id. */
  function PackageAmount(packageId: string): (n: nat)
    ensures packageId == "basic" ==> n == 50
    ensures packageId == "premium" ==> n == 150
    ensures packageId == "enterprise" ==> n == 500
    ensures packageId !in {"basic", "premium", "enterprise"} ==> n == 50
  {
    if packageId == "premium" then 150
    else if packageId == "enterprise" then 500
    else 50
  }

  /** The packages the token-management card offers; it passes a package's
      `id` to the purchase handler. */
  const ManagementPackages: seq<TokenPackage> := [
    TokenPackage("1", "Basic", "50 tokens for occasional use", 50, 50000, false),
    TokenPackage("2", "Premium", "150 tokens with 10% bonus", 150, 135000, true),
    TokenPackage("3", "Enterprise", "500 tokens with 20% bonus", 500, 400000, false)
  ]

  /** As written, every package the token-management card sends is credited
      50 tokens, although Premium advertises 150 and Enterprise 500. */
  lemma ManagementPurchasesCreditFifty()
    ensures forall p :: p in ManagementPackages ==> PackageAmount(p.id) == 50
    ensures PackageAmount(ManagementPackages[1].id) != ManagementPackages[1].tokenAmount
    ensures PackageAmount(ManagementPackages[2].id) != ManagementPackages[2].tokenAmount
  {
  }

  /** The intended credit: a package the card offers credits its advertised
      token amount; any other id keeps the as-written table. */
  function CreditAmount(packageId: string): (c: nat)
    ensures forall p :: p in ManagementPackages && p.id == packageId ==> c == p.tokenAmount
    ensures c >= 50
  {
    match FindFirst(ManagementPackages, (p: TokenPackage) => p.id == packageId)
    case Some(p) => p.tokenAmount
    case None => PackageAmount(packageId)
  }

  /** The corrected credit gives every offered package its advertised amount,
      agrees with the written table on every key of that table, and is
      always positive. */
  lemma CreditAmountCorrect(packageId: string)
    ensures forall p :: p in ManagementPackages ==> CreditAmount(p.id) == p.tokenAmount
    ensures packageId in {"basic", "premium", "enterprise"} ==> CreditAmount(packageId) == PackageAmount(packageId)
    ensures CreditAmount(packageId) >= 50
  {
  }

  /** `handleMarkAsRead`: the notifications carrying that id become read. */
  function MarkRead(ns: seq<Notification>, id: string): (r: seq<Notification>)
    ensures |r| == |ns|
  {
    seq(|ns|, i requires 0 <= i < |ns| => if ns[i].id == id then ns[i].(read := true) else ns[i])
  }

  /** `handleMarkAllAsRead`. */
  function MarkAllRead(ns: seq<Notification>): (r: seq<Notification>)
    ensures |r| == |ns|
  {
    seq(|ns|, i requires 0 <= i < |ns| => ns[i].(read := true))
  }

  /** Mark-one-read changes the read flag of the matching notifications and
      nothing else: same length, same order, other notifications and other
      fields untouched. */
  lemma MarkReadOnlyTouchesId(ns: seq<Notification>, id: string)
    ensures forall i :: 0 <= i < |ns| && ns[i].id == id ==> MarkRead(ns, id)[i].read
    ensures forall i :: 0 <= i < |ns| && ns[i].id != id ==> MarkRead(ns, id)[i] == ns[i]
    ensures forall i :: 0 <= i < |ns| ==> MarkRead(ns, id)[i].(read := ns[i].read) == ns[i]
  {
  }

  lemma MarkReadIdempotent(ns: seq<Notification>, id: string)
    ensures MarkRead(MarkRead(ns, id), id) == MarkRead(ns, id)
  {
  }

  /** Mark-all-read leaves everything read, changes no other field, and is
      idempotent. */
  lemma MarkAllReadSpec(ns: seq<Notification>)
    ensures forall i :: 0 <= i < |ns| ==> MarkAllRead(ns)[i].read
    ensures forall i :: 0 <= i < |ns| ==> MarkAllRead(ns)[i].(read := ns[i].read) == ns[i]
    ensures MarkAllRead(MarkAllRead(ns)) == MarkAllRead(ns)
    ensures UnreadCount(MarkAllRead(ns)) == 0
  {
  }

  predicate UniqueIds(ns: seq<Notification>)
  {
    forall i, j :: 0 <= i < j < |ns| ==> ns[i].id != ns[j].id
  }

  lemma MarkReadTail(ns: seq<Notification>, id: string)
    requires ns != []
    ensures MarkRead(ns, id) == [MarkRead(ns, id)[0]] + MarkRead(ns[1..], id)
  {
    assert MarkRead(ns, id)[1..] == MarkRead(ns[1..], id);
  }

  lemma MarkReadAbsent(ns: seq<Notification>, id: string)
    requires forall i :: 0 <= i < |ns| ==> ns[i].id != id
    ensures MarkRead(ns, id) == ns
  {
  }

  /** Marking never raises the unread count. */
  lemma {:induction false} MarkReadNeverRaises(ns: seq<Notification>, id: string)
    ensures UnreadCount(MarkRead(ns, id)) <= UnreadCount(ns)
  {
    if ns != [] {
      MarkReadTail(ns, id);
      MarkReadNeverRaises(ns[1..], id);
    }
  }

  /** With unique ids, clicking an unread notification in the bell (which
      asks this page to mark exactly its id) lowers the unread count by one. */
  lemma {:induction false} ClickLowersUnreadByOne(ns: seq<Notification>, k: nat)
    requires UniqueIds(ns) && k < |ns| && !ns[k].read
    ensures ClickEffect(ns[k]).markAsRead == Some(ns[k].id)
    ensures UnreadCount(MarkRead(ns, ns[k].id)) == UnreadCount(ns) - 1
  {
    var id := ns[k].id;
    MarkReadTail(ns, id);
    if k == 0 {
      MarkReadAbsent(ns[1..], id);
    } else {
      assert ns[0].id != id;
      ClickLowersUnreadByOne(ns[1..], k - 1);
    }
  }

  /** Clicking a notification that is already read requests nothing, so the
      list and its count stay as they are. */
  lemma ClickOnReadChangesNothing(n: Notification)
    requires n.read
    ensures ClickEffect(n).markAsRead == None
  {
  }

  /** The sample notifications the page loads when it mounts. */
  const MockNotifications: seq<Notification> := [
    Notification("1", "", "New Bid", "Penawaran baru untuk lelang \"Pengiriman Elektronik\"", false, "", SystemNote, Some("/auctions/1")),
    Notification("2", "", "Auction Completed", "Lelang \"Pengiriman Makanan\" telah selesai", false, "", SystemNote, Some("/auctions/4")),
    Notification("3", "", "Token Alert", "Token Anda akan segera habis", true, "", SystemNote, Some("/tokens"))
  ]

  lemma MockNotificationsUnread()
    ensures UniqueIds(MockNotifications)
    ensures UnreadCount(MockNotifications) == 2
    ensures UnreadCount(MarkRead(MockNotifications, "1")) == 1
  {
    ClickLowersUnreadByOne(MockNotifications, 0);
  }

  class Page {
    var userRole: UserType
    var tokenBalance: int
    var notifications: seq<Notification>

    /** The page as first rendered, given the stored role (if any). */
    constructor (savedRole: Option<string>)
      ensures userRole == InitialRole(savedRole)
      ensures tokenBalance == 120 && notifications == []
    {
      userRole := InitialRole(savedRole);
      tokenBalance := 120;
      notifications := [];
    }

    /** The mount effect that installs the fetched notifications. */
    method LoadNotifications(ns: seq<Notification>)
      modifies this
      ensures notifications == ns
      ensures userRole == old(userRole) && tokenBalance == old(tokenBalance)
    {
      notifications := ns;
    }

    /** `handlePurchaseTokens` with the corrected credit: the balance rises by
        exactly the credited amount, which agrees with the written table on
        the table's own keys. */
    method PurchaseTokens(packageId: string)
      modifies this
      ensures tokenBalance == old(tokenBalance) + CreditAmount(packageId)
      ensures packageId in {"basic", "premium", "enterprise"} ==>
        tokenBalance == old(tokenBalance) + PackageAmount(packageId)
      ensures tokenBalance >= old(tokenBalance) + 50
      ensures userRole == old(userRole) && notifications == old(notifications)
    {
      var packageAmount := CreditAmount(packageId);
      CreditAmountCorrect(packageId);
      tokenBalance := tokenBalance + packageAmount;
    }

    method MarkAsRead(notificationId: string)
      modifies this
      ensures notifications == MarkRead(old(notifications), notificationId)
      ensures userRole == old(userRole) && tokenBalance == old(tokenBalance)
    {
      notifications := MarkRead(notifications, notificationId);
    }

    method MarkAllAsRead()
      modifies this
      ensures notifications == MarkAllRead(old(notifications))
      ensures userRole == old(userRole) && tokenBalance == old(tokenBalance)
    {
      notifications := MarkAllRead(notifications);
    }

    /** `handleSwitchRole`: flips the role and returns the value it stores. */
    method SwitchRole() returns (saved: string)
      modifies this
      ensures userRole == Switched(old(userRole))
      ensures saved == RoleName(userRole)
      ensures tokenBalance == old(tokenBalance) && notifications == old(notifications)
    {
      var newRole := if userRole == Shipper then Transporter else Shipper;
      userRole := newRole;
      saved := RoleName(newRole);
    }
  }
}
