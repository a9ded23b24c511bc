/** The bid dialog: its schema, its defaults taken from the auction, and
    the submission guarded by the token balance. */
module BidForm {
  import opened Types
  import opened FormSubmission

  datatype Values = Values(amount: int, notes: string)

  /** The schema: an amount of at least 1 and at least ten characters of
      notes. Nothing relates the amount to the auction's budget. */
  predicate Valid(v: Values)
  {
    v.amount >= 1 && |v.notes| >= 10
  }

  /** The amount starts at the auction's budget and the notes are empty. */
  function Defaults(a: Auction): (v: Values)
    ensures v.amount == a.budget && v.notes == ""
  {
    Values(a.budget, "")
  }

  const DefaultTokenCost := 10

  /** Whatever the auction, the defaults never validate: the notes are
      empty. */
  lemma DefaultsNeverValid(a: Auction)
    ensures !Valid(Defaults(a))
    ensures Valid(Defaults(a).(notes := "0123456789")) <==> a.budget >= 1
  {
  }

  /** Any amount of at least 1 validates with long enough notes, including
      amounts above the budget. */
  lemma NoBudgetCap(a: Auction, amount: int, notes: string)
    requires amount >= 1 && |notes| >= 10
    ensures Valid(Values(amount, notes))
    ensures Valid(Values(if a.budget >= 0 then a.budget + 1 else 1, notes))
  {
  }

  class Dialog {
    var values: Values
    var isSubmitting: bool
    var open: bool
    /** The values handed to the delayed part of a running submission. */
    var inFlight: Option<Values>
    const tokenCost: int

    predicate Inv()
      reads this
    {
      (isSubmitting <==> inFlight.Some?) && (inFlight.Some? ==> Valid(inFlight.value))
    }

    /** The auction whose budget gives the default amount. */
    const auction: Auction

    constructor (auction: Auction, tokenCost: Option<int>, open: bool)
      ensures Inv() && values == Defaults(auction) && !isSubmitting && inFlight == None
      ensures this.auction == auction
      ensures this.open == open && this.tokenCost == OrDefault(tokenCost, DefaultTokenCost)
    {
      this.auction := auction;
      values := Defaults(auction);
      isSubmitting := false;
      this.open := open;
      inFlight := None;
      this.tokenCost := OrDefault(tokenCost, DefaultTokenCost);
    }

    /** Typing into the fields. */
    method Edit(v: Values)
      modifies this
      ensures values == v
      ensures isSubmitting == old(isSubmitting) && open == old(open) && inFlight == old(inFlight)
    {
      values := v;
    }

    /** Cancel, or dismissing the dialog: the dialog asks to close. */
    method Cancel()
      modifies this
      ensures !open
      ensures values == old(values) && isSubmitting == old(isSubmitting) && inFlight == old(inFlight)
    {
      open := false;
    }

    /** Pressing submit with the current balance; the button is disabled
        while a submission runs. Nothing changes unless it starts. */
    method Submit(tokenBalance: int) returns (o: Outcome)
      requires Inv() && !isSubmitting
      modifies this
      ensures Inv()
      ensures o == Decide(Valid(old(values)), tokenBalance, tokenCost)
      ensures o == Started ==> isSubmitting && inFlight == Some(old(values))
      ensures o != Started ==> !isSubmitting && inFlight == None
      ensures values == old(values) && open == old(open)
    {
      if !Valid(values) {
        return Invalid;
      }
      if tokenBalance < tokenCost {
        return InsufficientTokens;
      }
      isSubmitting := true;
      inFlight := Some(values);
      o := Started;
    }

    /** The delay ends: the values go to the parent; unless the parent's
        handler throws, the form is reset and the dialog asks to close.
        Either way the submission ends. */
    method Complete(parentThrows: bool) returns (submitted: Values)
      requires Inv() && inFlight.Some?
      modifies this
      ensures Inv() && !isSubmitting && inFlight == None
      ensures submitted == old(inFlight).value && Valid(submitted)
      ensures !parentThrows ==> values == Defaults(auction) && !open
      ensures parentThrows ==> values == old(values) && open == old(open)
    {
      submitted := inFlight.value;
      if !parentThrows {
        values := Defaults(auction);
        open := false;
      }
      isSubmitting := false;
      inFlight := None;
    }
  }
}
