/** The structured reply of the chat bot (`BotResponse`) and its field constraints. */
module Schema {
  import opened Failures

  const AnswerMaxLength := 500
  const ToneMaxLength := 200
  const ActionsMaxItems := 3

  datatype BotResponse = BotResponse(answer: string, tone: string, actions: seq<string>)

  datatype FieldName = Answer | Tone | Actions

  datatype Violation =
    | Missing(field: FieldName)
    | TooShort(field: FieldName)
    | TooLong(field: FieldName)
    | TooMany(field: FieldName)

  /** A required string field with `min_length=1` and the given `max_length`. */
  predicate TextFieldValid(v: Option<string>, maxLength: nat)
  {
    v.Some? && 1 <= |v.value| <= maxLength
  }

  /** The required list field with `max_items=3`; its items are not constrained. */
  predicate ActionsValid(v: Option<seq<string>>)
  {
    v.Some? && |v.value| <= ActionsMaxItems
  }

  function CheckText(field: FieldName, v: Option<string>, maxLength: nat): (r: seq<Violation>)
    ensures r == [] <==> TextFieldValid(v, maxLength)
    ensures |r| <= 1 && forall x :: x in r ==> x.field == field
    ensures v.Some? && |v.value| > maxLength ==> r == [TooLong(field)]
  {
    match v
    case None => [Missing(field)]
    case Some(s) =>
      if |s| < 1 then [TooShort(field)]
      else if |s| > maxLength then [TooLong(field)]
      else []
  }

  function CheckActions(v: Option<seq<string>>): (r: seq<Violation>)
    ensures r == [] <==> ActionsValid(v)
    ensures |r| <= 1 && forall x :: x in r ==> x.field == Actions
  {
    match v
    case None => [Missing(Actions)]
    case Some(xs) => if |xs| > ActionsMaxItems then [TooMany(Actions)] else []
  }

  predicate Reported(errors: seq<Violation>, f: FieldName)
  {
    exists x :: x in errors && x.field == f
  }

  /** Constructing a `BotResponse` from possibly absent fields: it succeeds
      exactly when every field is present and within its bounds, stores the
      values unchanged, and otherwise reports each failing field once, in
      declaration order. Nothing is ever truncated. */
  function Validate(answer: Option<string>, tone: Option<string>, actions: Option<seq<string>>)
    : (r: Result<BotResponse, seq<Violation>>)
    ensures r.Ok? <==> TextFieldValid(answer, AnswerMaxLength) && TextFieldValid(tone, ToneMaxLength)
                       && ActionsValid(actions)
    ensures r.Ok? ==> r.value.answer == answer.value && r.value.tone == tone.value
                      && r.value.actions == actions.value
    ensures r.Err? ==> 1 <= |r.error| <= 3
    ensures r.Err? ==> (Reported(r.error, Answer) <==> !TextFieldValid(answer, AnswerMaxLength))
    ensures r.Err? ==> (Reported(r.error, Tone) <==> !TextFieldValid(tone, ToneMaxLength))
    ensures r.Err? ==> (Reported(r.error, Actions) <==> !ActionsValid(actions))
  {
    var errors := CheckText(Answer, answer, AnswerMaxLength) + CheckText(Tone, tone, ToneMaxLength)
                  + CheckActions(actions);
    if errors == [] then Ok(BotResponse(answer.value, tone.value, actions.value)) else Err(errors)
  }

  /** A reply is well-formed when it is one `Validate` accepts. */
  predicate WellFormed(b: BotResponse)
  {
    1 <= |b.answer| <= AnswerMaxLength && 1 <= |b.tone| <= ToneMaxLength
    && |b.actions| <= ActionsMaxItems
  }

  /** Validation and well-formedness agree, in both directions. */
  lemma ValidateWellFormed(b: BotResponse)
    ensures Validate(Some(b.answer), Some(b.tone), Some(b.actions)) == Ok(b) <==> WellFormed(b)
  {
  }

  /** An over-long answer is rejected rather than cut to 500 characters. */
  lemma LongAnswerRejected(answer: string, tone: string, actions: seq<string>)
    requires |answer| > AnswerMaxLength
    ensures Validate(Some(answer), Some(tone), Some(actions)).Err?
    ensures TooLong(Answer) in Validate(Some(answer), Some(tone), Some(actions)).error
  {
  }
}
