/** The submission rule the auction and bid forms share: a form whose values
    pass its schema is submitted only when the token balance covers the
    cost, and its submit button is disabled while a submission runs or the
    balance falls short. */
module FormSubmission {

  predicate HasEnoughTokens(tokenBalance: int, tokenCost: int)
  {
    tokenBalance >= tokenCost
  }

  predicate SubmitDisabled(isSubmitting: bool, tokenBalance: int, tokenCost: int)
  {
    isSubmitting || !HasEnoughTokens(tokenBalance, tokenCost)
  }

  /** What pressing submit does: the schema check comes first (the handler
      is only called with values that pass it), then the token guard. */
  datatype Outcome = Invalid | InsufficientTokens | Started

  function Decide(valid: bool, tokenBalance: int, tokenCost: int): (o: Outcome)
    ensures o == Started <==> valid && HasEnoughTokens(tokenBalance, tokenCost)
    ensures o == InsufficientTokens <==> valid && tokenBalance < tokenCost
    ensures o == Invalid <==> !valid
  {
    if !valid then Invalid
    else if tokenBalance < tokenCost then InsufficientTokens
    else Started
  }

  /** The handler's early return and the disabled button use the same
      condition: whenever the guard would stop a submission the button is
      already disabled, and an enabled button with valid values always
      starts one. */
  lemma GuardAgreesWithButton(valid: bool, isSubmitting: bool, tokenBalance: int, tokenCost: int)
    ensures Decide(valid, tokenBalance, tokenCost) == InsufficientTokens ==>
      SubmitDisabled(isSubmitting, tokenBalance, tokenCost)
    ensures valid && !SubmitDisabled(isSubmitting, tokenBalance, tokenCost) ==>
      Decide(valid, tokenBalance, tokenCost) == Started
    ensures !isSubmitting ==>
      (SubmitDisabled(isSubmitting, tokenBalance, tokenCost) <==> !HasEnoughTokens(tokenBalance, tokenCost))
  {
  }
}
