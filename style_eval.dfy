/** The offline style evaluation: deterministic rule checks, the grading model's
    range-checked score, the weighted final score and the batch driver. The chat
    call (`ask`) and the grading model call are given as functions. */
module StyleEval {
  import opened Failures
  import opened Text
  import opened Schema

  const FullScore := 100
  const EmojiPenalty := 20
  const ShoutPenalty := 10
  const LengthPenalty := 10
  const LengthLimit := 600
  const Shout := "!!!"

  /** A code point of the block U+1F300..U+1FAFF the rule checks treat as emoji. */
  predicate IsEmoji(c: char)
  {
    0x1F300 <= c as int <= 0x1FAFF
  }

  predicate HasEmoji(text: string): (r: bool)
    ensures r ==> text != []
  {
    exists i | 0 <= i < |text| :: IsEmoji(text[i])
  }

  /** The score as a sum of independent deductions from 100. */
  function RuleScore(text: string): (r: int)
    ensures 60 <= r <= 100
    ensures r == FullScore <==> !HasEmoji(text) && !Contains(text, Shout) && |text| <= LengthLimit
  {
    FullScore
    - (if HasEmoji(text) then EmojiPenalty else 0)
    - (if Contains(text, Shout) then ShoutPenalty else 0)
    - (if |text| > LengthLimit then LengthPenalty else 0)
  }

  /** `rule_checks`: deducts step by step and clamps at 0; the clamp never
      changes the value, so the result is exactly the sum of the deductions. */
  method RuleChecks(text: string) returns (score: int)
    ensures score == RuleScore(text)
    ensures 60 <= score <= 100
  {
    score := FullScore;
    if HasEmoji(text) {
      score := score - EmojiPenalty;
    }
    if Contains(text, Shout) {
      score := score - ShoutPenalty;
    }
    if |text| > LengthLimit {
      score := score - LengthPenalty;
    }
    score := if score < 0 then 0 else score;
  }

  /** Plain short text keeps the full score. */
  lemma PlainShortText()
    ensures RuleScore("plain short text") == 100
  {
    var t := "plain short text";
    forall i | 0 <= i < |t| ensures !IsEmoji(t[i]) {
    }
    assert !Contains(t, Shout) by {
      forall i | 0 <= i <= |t| - 3 ensures !OccursAt(t, Shout, i) {
        assert t[i] != '!';
      }
    }
  }

  function Repeat(c: char, n: nat): (r: string)
    ensures |r| == n
  {
    if n == 0 then "" else [c] + Repeat(c, n - 1)
  }

  /** All three deductions together: an emoji, a shout and more than 600 characters. */
  lemma AllDeductions()
    ensures RuleScore("Wow!!! \U{1F600}" + Repeat('x', 600)) == 60
  {
    var t := "Wow!!! \U{1F600}" + Repeat('x', 600);
    assert IsEmoji(t[7]);
    assert t[3..6] == Shout;
    assert OccursAt(t, Shout, 3);
  }

  /** The limit is strict: exactly 600 characters are not penalised. */
  lemma LengthLimitIsStrict(text: string)
    requires |text| == LengthLimit && !HasEmoji(text) && !Contains(text, Shout)
    ensures RuleScore(text) == 100
    ensures RuleScore(text + "x") == 90
  {
    assert !HasEmoji(text + "x") by {
      forall i | 0 <= i < |text| + 1 ensures !IsEmoji((text + "x")[i]) {
        if i < |text| {
          assert (text + "x")[i] == text[i];
        }
      }
    }
    assert !Contains(text + "x", Shout) by {
      forall i | 0 <= i <= |text| + 1 - 3 ensures !OccursAt(text + "x", Shout, i) {
        if i + 3 <= |text| {
          assert !OccursAt(text, Shout, i);
          assert (text + "x")[i..i + 3] == text[i..i + 3];
        } else {
          assert (text + "x")[i + 2] == 'x';
        }
      }
    }
  }

  /** The grading model's verdict; `score` is accepted only in 0..100. */
  datatype Grade = Grade(score: int, notes: string)

  function MakeGrade(score: int, notes: string): (r: Result<Grade, Error>)
    ensures r.Ok? <==> 0 <= score <= 100
    ensures r.Ok? ==> r.value == Grade(score, notes)
  {
    if 0 <= score <= 100 then Ok(Grade(score, notes))
    else Err(ValidationError("score must be between 0 and 100"))
  }

  /** `int(0.4 * rule + 0.6 * llm)` in exact arithmetic, floored: a weighted
      mean never leaves the range spanned by its two inputs. */
  function FinalScore(rule: int, llm: int): (r: int)
    ensures (if rule <= llm then rule else llm) <= r <= (if rule <= llm then llm else rule)
    ensures 0 <= rule <= 100 && 0 <= llm <= 100 ==> 0 <= r <= 100
  {
    (4 * rule + 6 * llm) / 10
  }

  lemma FinalScoreExample()
    ensures FinalScore(100, 80) == 88
  {
  }

  /** One entry of the report. */
  datatype EvalItem = EvalItem(
    prompt: string,
    answer: string,
    actions: seq<string>,
    toneModel: string,
    ruleScore: int,
    llmScore: int,
    final: int,
    notes: string)

  datatype Report = Report(meanFinal: real, items: seq<EvalItem>)

  /** The chat call: a structured reply and its token count, or the exception it raised. */
  type Ask = string -> Result<(BotResponse, int), Error>
  /** The grading call: the raw score and notes, before `Grade` validates them. */
  type Grader = string -> Result<(int, string), Error>

  /** Evaluating one prompt: the first failing step's exception, or the item
      with this prompt, its reply, and its rule, grader and final scores. */
  function ItemOf(p: string, ask: Ask, grader: Grader): (r: Result<EvalItem, Error>)
    ensures r.Ok? ==> && r.value.prompt == p
                      && ask(p).Ok? && r.value.answer == ask(p).value.0.answer
                      && r.value.ruleScore == RuleScore(r.value.answer)
                      && 60 <= r.value.ruleScore <= 100
                      && 0 <= r.value.llmScore <= 100
                      && r.value.final == FinalScore(r.value.ruleScore, r.value.llmScore)
                      && 0 <= r.value.final <= 100
    ensures ask(p).Err? ==> r == Err(ask(p).error)
  {
    match ask(p)
    case Err(e) => Err(e)
    case Ok(asked) =>
      var reply := asked.0;
      var rule := RuleScore(reply.answer);
      match grader(reply.answer)
      case Err(e) => Err(e)
      case Ok(raw) =>
        match MakeGrade(raw.0, raw.1)
        case Err(e) => Err(e)
        case Ok(g) =>
          Ok(EvalItem(p, reply.answer, reply.actions, reply.tone, rule, g.score,
                      FinalScore(rule, g.score), g.notes))
  }

  /** The grading step of one item: the grading model's exception is the item's
      error, a score outside 0..100 is rejected, and an accepted item carries
      the grading model's score and notes and the reply's actions and tone. */
  lemma ItemOfGrading(p: string, ask: Ask, grader: Grader)
    requires ask(p).Ok?
    ensures var reply := ask(p).value.0;
            var g := grader(reply.answer);
            var r := ItemOf(p, ask, grader);
      && (r.Ok? <==> g.Ok? && 0 <= g.value.0 <= 100)
      && (g.Err? ==> r == Err(g.error))
      && (g.Ok? && !(0 <= g.value.0 <= 100) ==> r.Err? && r.error.ValidationError?)
      && (r.Ok? ==> && r.value.llmScore == g.value.0 && r.value.notes == g.value.1
                    && r.value.actions == reply.actions && r.value.toneModel == reply.tone)
  {
  }

  /** The sum of the final scores. */
  function SumFinals(items: seq<EvalItem>): int
  {
    if items == [] then 0 else SumFinals(items[..|items| - 1]) + items[|items| - 1].final
  }

  lemma {:induction false} SumFinalsBounds(items: seq<EvalItem>)
    requires forall i :: 0 <= i < |items| ==> 0 <= items[i].final <= 100
    ensures 0 <= SumFinals(items) <= 100 * |items|
  {
    if items != [] {
      SumFinalsBounds(items[..|items| - 1]);
    }
  }

  lemma SumFinalsSnoc(items: seq<EvalItem>, item: EvalItem)
    ensures SumFinals(items + [item]) == SumFinals(items) + item.final
  {
    assert (items + [item])[..|items|] == items;
  }

  /** The mean of final scores that each lie in 0..100 lies in 0..100. */
  lemma MeanBounds(items: seq<EvalItem>)
    requires items != []
    requires forall i :: 0 <= i < |items| ==> 0 <= items[i].final <= 100
    ensures 0.0 <= SumFinals(items) as real / |items| as real <= 100.0
  {
    SumFinalsBounds(items);
    QuotientBounds(SumFinals(items) as real, |items| as real);
  }

  lemma QuotientBounds(s: real, n: real)
    requires 1.0 <= n && 0.0 <= s <= 100.0 * n
    ensures 0.0 <= s / n <= 100.0
  {
    assert s / n <= 100.0 * n / n;
  }

  const EmptyMeanMessage := "mean requires at least one data point"

  /** Prompt `k` is the first whose evaluation fails. */
  predicate FirstFailure(prompts: seq<string>, ask: Ask, grader: Grader, k: int)
  {
    && 0 <= k < |prompts|
    && ItemOf(prompts[k], ask, grader).Err?
    && forall j :: 0 <= j < k ==> ItemOf(prompts[j], ask, grader).Ok?
  }

  /** One pass of the `eval_batch` loop: the prompt is asked, the answer is
      rule-checked and graded, and the item is assembled; the first exception
      is the result. */
  method EvalPrompt(p: string, ask: Ask, grader: Grader) returns (r: Result<EvalItem, Error>)
    ensures r == ItemOf(p, ask, grader)
  {
    var asked := ask(p);
    if asked.Err? {
      return Err(asked.error);
    }
    var reply := asked.value.0;
    var rule := RuleChecks(reply.answer);
    var graded := grader(reply.answer);
    if graded.Err? {
      return Err(graded.error);
    }
    var g := MakeGrade(graded.value.0, graded.value.1);
    if g.Err? {
      return Err(g.error);
    }
    var final := FinalScore(rule, g.value.score);
    r := Ok(EvalItem(p, reply.answer, reply.actions, reply.tone, rule, g.value.score, final, g.value.notes));
  }

  /** `eval_batch`: one item per prompt, in input order, each the evaluation of
      that prompt, and the exact mean of their final scores. The first
      exception aborts the batch; an empty batch fails as the mean of nothing. */
  method EvalBatch(prompts: seq<string>, ask: Ask, grader: Grader) returns (r: Result<Report, Error>)
    ensures r.Ok? <==> |prompts| > 0 && forall i :: 0 <= i < |prompts| ==> ItemOf(prompts[i], ask, grader).Ok?
    ensures r.Ok? ==> |r.value.items| == |prompts|
    ensures r.Ok? ==> forall i :: 0 <= i < |prompts| ==>
      ItemOf(prompts[i], ask, grader).Ok? && r.value.items[i] == ItemOf(prompts[i], ask, grader).value
    ensures r.Ok? ==> r.value.meanFinal == SumFinals(r.value.items) as real / |prompts| as real
    ensures prompts == [] ==> r == Err(StatisticsError(EmptyMeanMessage))
    ensures r.Err? && prompts != [] ==>
      exists k :: FirstFailure(prompts, ask, grader, k) && r.error == ItemOf(prompts[k], ask, grader).error
  {
    var results: seq<EvalItem> := [];
    var total := 0;
    var i := 0;
    while i < |prompts|
      invariant 0 <= i <= |prompts|
      invariant |results| == i
      invariant forall j :: 0 <= j < i ==>
        ItemOf(prompts[j], ask, grader).Ok? && results[j] == ItemOf(prompts[j], ask, grader).value
      invariant total == SumFinals(results)
    {
      var evaluated := EvalPrompt(prompts[i], ask, grader);
      if evaluated.Err? {
        assert FirstFailure(prompts, ask, grader, i);
        return Err(evaluated.error);
      }
      var item := evaluated.value;
      SumFinalsSnoc(results, item);
      results := results + [item];
      total := total + item.final;
      i := i + 1;
    }
    if results == [] {
      return Err(StatisticsError(EmptyMeanMessage));
    }
    r := Ok(Report(total as real / |results| as real, results));
  }
}
