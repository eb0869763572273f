/**
 * The shape shared by the four category forms: an ordered list of
 * required-field checks where the first unfilled field wins, followed by a
 * set of benefit cards and a "not eligible" card.
 */
module Validation {
  import opened Options
  import opened Text

  /** One required-field check: whether the field is filled, and which
      field it is (each form maps its fields to the alert it shows). */
  datatype Check<F> = Check(filled: bool, field: F)

  /** A numeric form field: the text typed (used for the emptiness check)
      and the number `Number(text)` read from it. Parsing is not modelled. */
  datatype Entry = Entry(text: string, value: real)

  /** What submitting a category form produces: the alert of the first
      unfilled field, or the benefit cards and whether the "not eligible"
      card shows. */
  datatype Outcome<F, B> =
    | Rejected(field: F)
    | Evaluated(benefits: set<B>, notEligible: bool)

  /** A text field checked with `!field.trim()`. */
  function TextCheck<F>(text: string, field: F): Check<F> {
    Check(!IsBlank(text), field)
  }

  /** A radio answer checked with `!answer` (no trimming). */
  function AnswerCheck<F>(answer: string, field: F): Check<F> {
    Check(answer != "", field)
  }

  /** The position of the first unfilled field, or None when all are filled. */
  function FirstMissing<F>(checks: seq<Check<F>>): (r: Option<nat>)
    ensures r.None? <==> forall i :: 0 <= i < |checks| ==> checks[i].filled
    ensures r.Some? ==> r.value < |checks| && !checks[r.value].filled
    ensures r.Some? ==> forall j :: 0 <= j < r.value ==> checks[j].filled
  {
    if checks == [] then None
    else if !checks[0].filled then Some(0)
    else
      match FirstMissing(checks[1..])
      case None => None
      case Some(i) => Some(i + 1)
  }

  /** Runs the checks in order; on success evaluates the cards. The "not
      eligible" card is derived from the same benefits. */
  function Submit<F, B>(checks: seq<Check<F>>, benefits: set<B>): (r: Outcome<F, B>)
    ensures r.Rejected? <==> exists i :: 0 <= i < |checks| && !checks[i].filled
    ensures r.Rejected? ==> exists i :: 0 <= i < |checks| && !checks[i].filled
                              && r.field == checks[i].field
                              && forall j :: 0 <= j < i ==> checks[j].filled
    ensures r.Evaluated? ==> r.benefits == benefits && (r.notEligible <==> benefits == {})
  {
    match FirstMissing(checks)
    case Some(i) => Rejected(checks[i].field)
    case None => Evaluated(benefits, benefits == {})
  }

  /** The field at position `i` is the first unfilled one, so its alert is
      the one shown, whatever the later fields hold. */
  lemma FirstUnfilledWins<F, B>(checks: seq<Check<F>>, benefits: set<B>, i: nat)
    requires i < |checks| && !checks[i].filled
    requires forall j :: 0 <= j < i ==> checks[j].filled
    ensures Submit(checks, benefits) == Rejected(checks[i].field)
  {
  }

  /** With every field filled, the form is evaluated. */
  lemma AllFilledEvaluates<F, B>(checks: seq<Check<F>>, benefits: set<B>)
    requires forall i :: 0 <= i < |checks| ==> checks[i].filled
    ensures Submit(checks, benefits) == Evaluated(benefits, benefits == {})
  {
  }
}
