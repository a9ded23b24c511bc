/** The create-auction dialog: its schema, its default values, and the
    submission that is guarded by the token balance and resets the form. */
module AuctionForm {
  import opened Types
  import opened FormSubmission

  datatype Values = Values(
    title: string,
    description: string,
    origin: string,
    destination: string,
    weight: int,
    dimensions: string,
    budget: int)

  /** The schema: minimum lengths for the texts, at least 1 kg and at least
      Rp 100000. */
  predicate Valid(v: Values)
  {
    |v.title| >= 5 && |v.description| >= 10 && |v.origin| >= 2 && |v.destination| >= 2
    && v.weight >= 1 && |v.dimensions| >= 3 && v.budget >= 100000
  }

  const Defaults := Values("", "", "", "", 0, "", 0)

  const DefaultTokenCost := 20

  /** The defaults fail every field of the schema, so an untouched form is
      never submitted. */
  lemma DefaultsNeverValid()
    ensures !Valid(Defaults)
    ensures |Defaults.title| < 5 && |Defaults.description| < 10 && |Defaults.origin| < 2
    ensures |Defaults.destination| < 2 && Defaults.weight < 1 && |Defaults.dimensions| < 3
    ensures Defaults.budget < 100000
  {
  }

  /** Each requirement is needed: a valid form that loses any one of them
      by a single step is no longer valid. */
  lemma BoundsAreTight(v: Values)
    requires Valid(v)
    ensures !Valid(v.(weight := 0)) && !Valid(v.(budget := 99999))
    ensures !Valid(v.(title := v.title[..4])) && !Valid(v.(description := v.description[..9]))
    ensures !Valid(v.(origin := v.origin[..1])) && !Valid(v.(destination := v.destination[..1]))
    ensures !Valid(v.(dimensions := v.dimensions[..2]))
  {
  }

  class Dialog {
    var values: Values
    var isSubmitting: bool
    var open: bool
    /** The values handed to the delayed part of a running submission. */
    var inFlight: Option<Values>
    const tokenCost: int

    predicate Inv()
      reads this
    {
      (isSubmitting <==> inFlight.Some?) && (inFlight.Some? ==> Valid(inFlight.value))
    }

    constructor (tokenCost: Option<int>, open: bool)
      ensures Inv() && values == Defaults && !isSubmitting && inFlight == None
      ensures this.open == open && this.tokenCost == OrDefault(tokenCost, DefaultTokenCost)
    {
      values := Defaults;
      isSubmitting := false;
      this.open := open;
      inFlight := None;
      this.tokenCost := OrDefault(tokenCost, DefaultTokenCost);
    }

    /** Typing into the fields. */
    method Edit(v: Values)
      modifies this
      ensures values == v
      ensures isSubmitting == old(isSubmitting) && open == old(open) && inFlight == old(inFlight)
    {
      values := v;
    }

    /** Cancel, or dismissing the dialog: the dialog asks to close. */
    method Cancel()
      modifies this
      ensures !open
      ensures values == old(values) && isSubmitting == old(isSubmitting) && inFlight == old(inFlight)
    {
      open := false;
    }

    /** Pressing submit with the current balance; the button is disabled
        while a submission runs. Nothing changes unless it starts. */
    method Submit(tokenBalance: int) returns (o: Outcome)
      requires Inv() && !isSubmitting
      modifies this
      ensures Inv()
      ensures o == Decide(Valid(old(values)), tokenBalance, tokenCost)
      ensures o == Started ==> isSubmitting && inFlight == Some(old(values))
      ensures o != Started ==> !isSubmitting && inFlight == None
      ensures values == old(values) && open == old(open)
    {
      if !Valid(values) {
        return Invalid;
      }
      if tokenBalance < tokenCost {
        return InsufficientTokens;
      }
      isSubmitting := true;
      inFlight := Some(values);
      o := Started;
    }

    /** The delay ends: the values go to the parent; unless the parent's
        handler throws, the form is reset and the dialog asks to close.
        Either way the submission ends. */
    method Complete(parentThrows: bool) returns (submitted: Values)
      requires Inv() && inFlight.Some?
      modifies this
      ensures Inv() && !isSubmitting && inFlight == None
      ensures submitted == old(inFlight).value && Valid(submitted)
      ensures !parentThrows ==> values == Defaults && !open
      ensures parentThrows ==> values == old(values) && open == old(open)
    {
      submitted := inFlight.value;
      if !parentThrows {
        values := Defaults;
        open := false;
      }
      isSubmitting := false;
      inFlight := None;
    }
  }
}
