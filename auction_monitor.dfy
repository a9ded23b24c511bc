/** The live auction monitor: a countdown of hours, minutes and seconds that
    ticks once per second and stops at 0:00:00, a bid list to which a new bid
    is prepended, the winner-selection dialog, and the rules for which
    controls a viewer is offered. */
module AuctionMonitor {
  import opened Types
  import opened Text

  datatype Time = Time(hours: int, minutes: int, seconds: int)

  const Zero := Time(0, 0, 0)

  /** The countdown the monitor starts from: 5:30:00. */
  const InitialTime := Time(5, 30, 0)

  function TotalSeconds(t: Time): int
  {
    t.hours * 3600 + t.minutes * 60 + t.seconds
  }

  predicate InRange(t: Time)
  {
    t.hours >= 0 && 0 <= t.minutes < 60 && 0 <= t.seconds < 60
  }

  /** One countdown tick: the state 0:00:00 is returned unchanged; otherwise
      the seconds drop by one, and a field that goes below zero becomes 59
      and borrows one from the next larger field. */
  function Next(t: Time): Time
  {
    if t.hours == 0 && t.minutes == 0 && t.seconds == 0 then t
    else
      var s := t.seconds - 1;
      var m := if s < 0 then t.minutes - 1 else t.minutes;
      var s' := if s < 0 then 59 else s;
      var h := if m < 0 then t.hours - 1 else t.hours;
      var m' := if m < 0 then 59 else m;
      Time(h, m', s')
  }

  /** `n` ticks in a row. */
  function Iterate(t: Time, n: nat): Time
    decreases n
  {
    if n == 0 then t else Iterate(Next(t), n - 1)
  }

  lemma TickAtZeroIsFixed()
    ensures Next(Zero) == Zero
  {
  }

  /** From an in-range non-zero state one tick stays in range and lowers the
      total number of seconds by exactly one. */
  lemma TickDecrements(t: Time)
    requires InRange(t) && t != Zero
    ensures InRange(Next(t))
    ensures TotalSeconds(Next(t)) == TotalSeconds(t) - 1
  {
  }

  /** A borrow leaves the lower field at 59. */
  lemma TickBorrows(t: Time)
    requires InRange(t) && t != Zero
    ensures t.seconds == 0 ==> Next(t).seconds == 59 && Next(t).minutes == (if t.minutes == 0 then 59 else t.minutes - 1)
    ensures t.seconds == 0 && t.minutes == 0 ==> Next(t).hours == t.hours - 1
    ensures t.seconds > 0 ==> Next(t) == Time(t.hours, t.minutes, t.seconds - 1)
  {
  }

  lemma {:induction false} IterateZero(n: nat)
    ensures Iterate(Zero, n) == Zero
  {
    if n > 0 {
      IterateZero(n - 1);
    }
  }

  /** After k ticks from an in-range state, no more than its total, the
      state is still in range and the total has dropped by exactly k. */
  lemma {:induction false} IterateCountsDown(t: Time, k: nat)
    requires InRange(t) && k <= TotalSeconds(t)
    ensures InRange(Iterate(t, k))
    ensures TotalSeconds(Iterate(t, k)) == TotalSeconds(t) - k
    decreases k
  {
    if k > 0 {
      TickDecrements(t);
      IterateCountsDown(Next(t), k - 1);
    }
  }

  lemma InRangeZeroTotal(t: Time)
    requires InRange(t)
    ensures TotalSeconds(t) == 0 <==> t == Zero
    ensures TotalSeconds(t) >= 0
  {
    assert t.hours * 3600 >= 0;
    if t.hours > 0 {
      assert t.hours * 3600 >= 3600;
    }
  }

  /** Fewer than TotalSeconds(t) ticks never reach 0:00:00. */
  lemma NotZeroBeforeTotal(t: Time, k: nat)
    requires InRange(t) && k < TotalSeconds(t)
    ensures Iterate(t, k) != Zero
  {
    IterateCountsDown(t, k);
    InRangeZeroTotal(Iterate(t, k));
  }

  /** TotalSeconds(t) ticks, or more, leave an in-range state at 0:00:00. */
  lemma ZeroFromTotal(t: Time, k: nat)
    requires InRange(t) && k >= TotalSeconds(t)
    ensures Iterate(t, k) == Zero
  {
    InRangeZeroTotal(t);
    var n: nat := TotalSeconds(t);
    IterateCountsDown(t, n);
    InRangeZeroTotal(Iterate(t, n));
    StaysZero(t, n, k);
  }

  lemma StaysZero(t: Time, n: nat, k: nat)
    requires Iterate(t, n) == Zero && n <= k
    ensures Iterate(t, k) == Zero
  {
    IterateSplit(t, n, k - n);
    IterateZero(k - n);
  }

  /** Exactly TotalSeconds(t) ticks bring an in-range state to 0:00:00:
      fewer ticks never reach it, and every later tick stays there. */
  lemma TicksToZero(t: Time, k: nat)
    requires InRange(t)
    ensures TotalSeconds(t) >= 0
    ensures k < TotalSeconds(t) ==> Iterate(t, k) != Zero
    ensures k >= TotalSeconds(t) ==> Iterate(t, k) == Zero
  {
    InRangeZeroTotal(t);
    if k < TotalSeconds(t) {
      NotZeroBeforeTotal(t, k);
    } else {
      ZeroFromTotal(t, k);
    }
  }

  lemma {:induction false} IterateSplit(t: Time, a: nat, b: nat)
    ensures Iterate(t, a + b) == Iterate(Iterate(t, a), b)
    decreases a
  {
    if a > 0 {
      IterateSplit(Next(t), a - 1, b);
    }
  }

  /** The initial 5:30:00 reaches zero after 19800 ticks and not before. */
  lemma InitialCountdownLength()
    ensures TotalSeconds(InitialTime) == 19800
    ensures Iterate(InitialTime, 19800) == Zero
    ensures Iterate(InitialTime, 19799) != Zero
  {
    TicksToZero(InitialTime, 19800);
    TicksToZero(InitialTime, 19799);
  }

  /** `formatTime`: a "0" in front of values below ten. */
  function FormatTime(n: int): string
  {
    if n < 10 then "0" + IntToString(n) else IntToString(n)
  }

  /** Every minute or second value renders as two digits, starting with '0'
      exactly when it is below ten, and reads back as the same number. */
  lemma FormatTimeTwoDigits(n: int)
    requires 0 <= n < 60
    ensures |FormatTime(n)| == 2
    ensures FormatTime(n)[0] == '0' <==> n < 10
    ensures forall i :: 0 <= i < 2 ==> IsDigit(FormatTime(n)[i])
    ensures ParseNat(FormatTime(n)) == n
  {
    var s := FormatTime(n);
    ParseNatToString(n);
    if n < 10 {
      assert s[..1] == "0";
      assert ParseNat("0") == 0;
    } else {
      assert s == NatToString(n);
    }
  }

  /** The clock text HH:MM:SS. */
  function Clock(t: Time): string
  {
    FormatTime(t.hours) + ":" + FormatTime(t.minutes) + ":" + FormatTime(t.seconds)
  }

  lemma ClockLength(t: Time)
    requires InRange(t) && t.hours < 60
    ensures |Clock(t)| == 8 && Clock(t)[2] == ':' && Clock(t)[5] == ':'
  {
    FormatTimeTwoDigits(t.hours);
    FormatTimeTwoDigits(t.minutes);
    FormatTimeTwoDigits(t.seconds);
  }

  /** A bid as the monitor lists it. */
  datatype MonitorBid = MonitorBid(
    id: string,
    userId: string,
    userName: string,
    amount: int,
    timestamp: int,
    notes: string)

  /** The bid `handleBidSubmit` builds at time `now` (milliseconds). */
  function NewBid(amount: int, notes: string, now: nat): MonitorBid
  {
    MonitorBid("bid-" + NatToString(now), "current-user", "Anda", amount, now, notes)
  }

  /** "Select winner" is shown only to the owner of an active auction. */
  predicate SelectWinnerOffered(isOwner: bool, status: AuctionStatus)
  {
    isOwner && status == Active
  }

  /** "Make bid" is shown only to a transporter on an active auction. */
  predicate MakeBidOffered(viewer: UserType, status: AuctionStatus)
  {
    viewer == Transporter && status == Active
  }

  /** Both guards need an active auction; a shipper never gets "make bid"
      and only the owner gets "select winner". */
  lemma GuardsNeedActive(isOwner: bool, viewer: UserType, status: AuctionStatus)
    ensures status != Active ==> !SelectWinnerOffered(isOwner, status) && !MakeBidOffered(viewer, status)
    ensures !MakeBidOffered(Shipper, status)
    ensures SelectWinnerOffered(isOwner, status) ==> isOwner
  {
  }

  /** The header badge's text: only an active auction reads "Aktif". */
  function StatusLabel(s: AuctionStatus): (l: string)
    ensures l == "Aktif" <==> s == Active
  {
    if s == Active then "Aktif" else "Selesai"
  }

  /** Unlike the detail view, the monitor does not tell a completed auction
      from a cancelled one. */
  lemma StatusLabelMergesEnded()
    ensures StatusLabel(Completed) == StatusLabel(Cancelled) == "Selesai"
  {
  }

  /** The header badge is urgent while less than an hour remains. */
  predicate UrgentBadge(t: Time)
  {
    t.hours < 1
  }

  lemma {:induction false} UrgentOnceUrgent(t: Time, k: nat)
    requires InRange(t) && UrgentBadge(t)
    ensures UrgentBadge(Iterate(t, k))
    decreases k
  {
    if k > 0 {
      if t != Zero {
        TickDecrements(t);
      }
      UrgentOnceUrgent(Next(t), k - 1);
    }
  }

  lemma InitialNotUrgent()
    ensures !UrgentBadge(InitialTime)
  {
  }

  class Monitor {
    var hours: int
    var minutes: int
    var seconds: int
    var bids: seq<MonitorBid>
    var showBidForm: bool
    var showWinnerDialog: bool
    var selectedBid: Option<MonitorBid>
    const isOwner: bool
    const viewer: UserType
    const status: AuctionStatus

    function Remaining(): Time
      reads this
    {
      Time(hours, minutes, seconds)
    }

    /** The monitor as first rendered at time `now`: 5:30:00 left and the
        three sample bids, newest first. */
    constructor (isOwner: bool, viewer: UserType, now: int)
      ensures Remaining() == InitialTime
      ensures |bids| == 3 && bids[0].amount == 2500000 && bids[1].amount == 2750000 && bids[2].amount == 3000000
      ensures !showBidForm && !showWinnerDialog && selectedBid == None
      ensures this.isOwner == isOwner && this.viewer == viewer && status == Active
    {
      hours, minutes, seconds := 5, 30, 0;
      bids := [
        MonitorBid("1", "user1", "PT Logistik Cepat", 2500000, now - 1800000, "Termasuk asuransi pengiriman"),
        MonitorBid("2", "user2", "Ekspedisi Andalan", 2750000, now - 2700000, "Pengiriman cepat 2 hari"),
        MonitorBid("3", "user3", "Cargo Express", 3000000, now - 3600000, "Termasuk layanan bongkar muat")
      ];
      showBidForm, showWinnerDialog, selectedBid := false, false, None;
      this.isOwner, this.viewer, status := isOwner, viewer, Active;
    }

    /** One timer callback. */
    method Tick()
      modifies this
      ensures Remaining() == Next(old(Remaining()))
      ensures bids == old(bids) && showBidForm == old(showBidForm)
      ensures showWinnerDialog == old(showWinnerDialog) && selectedBid == old(selectedBid)
    {
      if hours == 0 && minutes == 0 && seconds == 0 {
        return;
      }
      var newHours := hours;
      var newMinutes := minutes;
      var newSeconds := seconds - 1;
      if newSeconds < 0 {
        newSeconds := 59;
        newMinutes := newMinutes - 1;
      }
      if newMinutes < 0 {
        newMinutes := 59;
        newHours := newHours - 1;
      }
      hours, minutes, seconds := newHours, newMinutes, newSeconds;
    }

    method OpenBidForm()
      requires MakeBidOffered(viewer, status)
      modifies this
      ensures showBidForm
      ensures Remaining() == old(Remaining()) && bids == old(bids)
      ensures showWinnerDialog == old(showWinnerDialog) && selectedBid == old(selectedBid)
    {
      showBidForm := true;
    }

    /** `handleBidSubmit`: the new bid goes first, every earlier bid follows
        in its old order, and the form closes. */
    method SubmitBid(amount: int, notes: string, now: nat)
      modifies this
      ensures bids == [NewBid(amount, notes, now)] + old(bids)
      ensures |bids| == |old(bids)| + 1 && bids[1..] == old(bids)
      ensures !showBidForm
      ensures Remaining() == old(Remaining())
      ensures showWinnerDialog == old(showWinnerDialog) && selectedBid == old(selectedBid)
    {
      var newBid := NewBid(amount, notes, now);
      bids := [newBid] + bids;
      showBidForm := false;
    }

    /** `handleSelectWinner`: remembers the bid and opens the dialog. */
    method SelectWinner(bid: MonitorBid)
      requires SelectWinnerOffered(isOwner, status)
      modifies this
      ensures selectedBid == Some(bid) && showWinnerDialog
      ensures bids == old(bids) && Remaining() == old(Remaining()) && showBidForm == old(showBidForm)
    {
      selectedBid := Some(bid);
      showWinnerDialog := true;
    }

    /** `confirmWinner`: only closes the dialog; no bid and no status changes. */
    method ConfirmWinner()
      modifies this
      ensures !showWinnerDialog
      ensures selectedBid == old(selectedBid) && bids == old(bids)
      ensures Remaining() == old(Remaining()) && showBidForm == old(showBidForm)
    {
      showWinnerDialog := false;
    }
  }
}
