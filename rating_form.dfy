/** The rating dialog: five stars driven by hover and click, the label under
    them, the schema, and the submission (which, unlike the auction and bid
    forms, has no token guard). */
module RatingForm {
  import opened Types

  datatype Values = Values(rating: int, review: string)

  /** The schema: a rating from 1 to 5 and a review of at least ten
      characters. */
  predicate Valid(v: Values)
  {
    1 <= v.rating <= 5 && |v.review| >= 10
  }

  const Defaults := Values(0, "")

  lemma DefaultsNeverValid()
    ensures !Valid(Defaults) && Defaults.rating == 0
  {
  }

  /** `hoverRating || field.value`: a hover of 0 is falsy and gives way to
      the chosen rating. */
  function Shown(hoverRating: int, rating: int): (s: int)
    ensures hoverRating != 0 ==> s == hoverRating
    ensures hoverRating == 0 ==> s == rating
  {
    if hoverRating != 0 then hoverRating else rating
  }

  predicate StarFilled(hoverRating: int, rating: int, star: int)
  {
    Shown(hoverRating, rating) >= star
  }

  /** The number of filled stars among stars 1..k. */
  function FilledAmong(hoverRating: int, rating: int, k: nat): (n: nat)
    ensures n <= k
  {
    if k == 0 then 0
    else FilledAmong(hoverRating, rating, k - 1) + (if StarFilled(hoverRating, rating, k) then 1 else 0)
  }

  function Clamp(x: int, lo: int, hi: int): int
    requires lo <= hi
  {
    if x < lo then lo else if x > hi then hi else x
  }

  /** The filled stars form a prefix: stars 1..s are filled and the rest are
      not, where s is the shown value clamped to the star count. */
  lemma {:induction false} FilledPrefix(hoverRating: int, rating: int, k: nat)
    ensures FilledAmong(hoverRating, rating, k) == Clamp(Shown(hoverRating, rating), 0, k)
    ensures forall star :: 1 <= star <= k ==>
      (StarFilled(hoverRating, rating, star) <==> star <= Shown(hoverRating, rating))
  {
    if k > 0 {
      FilledPrefix(hoverRating, rating, k - 1);
    }
  }

  /** While hovering, the stars follow the hover and ignore the rating;
      otherwise they show exactly the rating. */
  lemma HoverOverrides(hoverRating: int, rating: int, other: int)
    requires 1 <= hoverRating <= 5
    ensures FilledAmong(hoverRating, rating, 5) == hoverRating
    ensures FilledAmong(hoverRating, rating, 5) == FilledAmong(hoverRating, other, 5)
    ensures 0 <= rating <= 5 ==> FilledAmong(0, rating, 5) == rating
  {
    FilledPrefix(hoverRating, rating, 5);
    FilledPrefix(hoverRating, other, 5);
    FilledPrefix(0, rating, 5);
  }

  /** The text under the stars; no text for any other value. */
  function Label(rating: int): (l: Option<string>)
    ensures l.Some? <==> 1 <= rating <= 5
  {
    if rating == 1 then Some("Poor")
    else if rating == 2 then Some("Fair")
    else if rating == 3 then Some("Good")
    else if rating == 4 then Some("Very Good")
    else if rating == 5 then Some("Excellent")
    else None
  }

  /** Distinct ratings get distinct labels, and a label is shown exactly for
      the ratings the schema accepts. */
  lemma LabelInjective(a: int, b: int)
    requires Label(a).Some?
    ensures Label(a) == Label(b) <==> a == b
    ensures Valid(Values(a, "0123456789"))
  {
  }

  predicate SubmitDisabled(isSubmitting: bool, rating: int)
  {
    isSubmitting || rating == 0
  }

  /** Ratings only come from the five stars, so an enabled submit button
      means the rating satisfies the schema; the review is left to the
      schema. */
  lemma EnabledMeansRatingInRange(isSubmitting: bool, rating: int)
    requires 0 <= rating <= 5
    ensures !SubmitDisabled(isSubmitting, rating) ==> 1 <= rating <= 5 && Label(rating).Some?
    ensures SubmitDisabled(false, rating) <==> Label(rating).None?
  {
  }

  class Dialog {
    var hoverRating: int
    var values: Values
    var isSubmitting: bool
    var open: bool
    var inFlight: Option<Values>

    /** Ratings and hovers only take star numbers (or 0), and a running
        submission carries values the schema accepted. */
    predicate Inv()
      reads this
    {
      0 <= hoverRating <= 5 && 0 <= values.rating <= 5
      && (isSubmitting <==> inFlight.Some?) && (inFlight.Some? ==> Valid(inFlight.value))
    }

    /** How many of the five stars are drawn filled. */
    function StarsFilled(): nat
      reads this
    {
      FilledAmong(hoverRating, values.rating, 5)
    }

    constructor (open: bool)
      ensures Inv() && hoverRating == 0 && values == Defaults
      ensures !isSubmitting && inFlight == None && this.open == open
    {
      hoverRating := 0;
      values := Defaults;
      isSubmitting := false;
      this.open := open;
      inFlight := None;
    }

    method MouseEnter(star: int)
      requires Inv() && 1 <= star <= 5
      modifies this
      ensures Inv() && hoverRating == star && StarsFilled() == star
      ensures values == old(values) && isSubmitting == old(isSubmitting) && open == old(open) && inFlight == old(inFlight)
    {
      hoverRating := star;
      HoverOverrides(star, values.rating, 0);
    }

    method MouseLeave()
      requires Inv()
      modifies this
      ensures Inv() && hoverRating == 0 && StarsFilled() == values.rating
      ensures values == old(values) && isSubmitting == old(isSubmitting) && open == old(open) && inFlight == old(inFlight)
    {
      hoverRating := 0;
      HoverOverrides(1, values.rating, 0);
    }

    /** Clicking star k chooses rating k. */
    method ClickStar(star: int)
      requires Inv() && 1 <= star <= 5
      modifies this
      ensures Inv() && values == old(values).(rating := star) && Label(values.rating).Some?
      ensures hoverRating == old(hoverRating) && isSubmitting == old(isSubmitting) && open == old(open) && inFlight == old(inFlight)
    {
      values := values.(rating := star);
    }

    method EditReview(review: string)
      requires Inv()
      modifies this
      ensures Inv() && values == old(values).(review := review)
      ensures hoverRating == old(hoverRating) && isSubmitting == old(isSubmitting) && open == old(open) && inFlight == old(inFlight)
    {
      values := values.(review := review);
    }

    method Cancel()
      modifies this
      ensures !open
      ensures values == old(values) && hoverRating == old(hoverRating)
      ensures isSubmitting == old(isSubmitting) && inFlight == old(inFlight)
    {
      open := false;
    }

    /** Pressing submit: a submission starts exactly when the values pass
        the schema; there is no token check. */
    method Submit() returns (started: bool)
      requires Inv() && !SubmitDisabled(isSubmitting, values.rating)
      modifies this
      ensures Inv()
      ensures started <==> Valid(old(values))
      ensures started ==> isSubmitting && inFlight == Some(old(values))
      ensures !started ==> !isSubmitting && inFlight == None
      ensures values == old(values) && hoverRating == old(hoverRating) && open == old(open)
    {
      if !Valid(values) {
        return false;
      }
      isSubmitting := true;
      inFlight := Some(values);
      started := true;
    }

    /** The delay ends: the values go to the parent and, unless the parent's
        handler throws, the form is reset and the dialog asks to close. */
    method Complete(parentThrows: bool) returns (submitted: Values)
      requires Inv() && inFlight.Some?
      modifies this
      ensures Inv() && !isSubmitting && inFlight == None
      ensures submitted == old(inFlight).value && Valid(submitted)
      ensures !parentThrows ==> values == Defaults && !open
      ensures parentThrows ==> values == old(values) && open == old(open)
      ensures hoverRating == old(hoverRating)
    {
      submitted := inFlight.value;
      if !parentThrows {
        values := Defaults;
        open := false;
      }
      isSubmitting := false;
      inFlight := None;
    }
  }
}
