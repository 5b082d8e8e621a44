/**
 * The schema a poll submission must satisfy (`createQuestionValidator`): the
 * question text is 5 to 500 characters long, there are 2 to 20 options, and
 * each option's text is 1 to 200 characters long. Lengths are sequence lengths,
 * as Zod's string bounds count the string's length.
 */
module QuestionValidator {
  import opened Zod

  datatype OptionInput = OptionInput(option: string)

  datatype QuestionInput = QuestionInput(question: string, options: seq<OptionInput>)

  const QuestionMinLength: nat := 5
  const QuestionMaxLength: nat := 500
  const OptionsMinCount: nat := 2
  const OptionsMaxCount: nat := 20
  const OptionMinLength: nat := 1
  const OptionMaxLength: nat := 200

  predicate QuestionTextOk(question: string) {
    QuestionMinLength <= |question| <= QuestionMaxLength
  }

  predicate OptionCountOk(options: seq<OptionInput>) {
    OptionsMinCount <= |options| <= OptionsMaxCount
  }

  predicate OptionTextOk(o: OptionInput) {
    OptionMinLength <= |o.option| <= OptionMaxLength
  }

  /** The declarative reading of the schema: the conjunction of its three rules. */
  predicate ValidQuestionInput(x: QuestionInput) {
    && QuestionTextOk(x.question)
    && OptionCountOk(x.options)
    && forall i :: 0 <= i < |x.options| ==> OptionTextOk(x.options[i])
  }

  const QuestionPath: seq<PathElem> := [Key("question")]
  const OptionsPath: seq<PathElem> := [Key("options")]

  function OptionPath(i: nat): seq<PathElem> {
    [Key("options"), Index(i), Key("option")]
  }

  /** An issue that points at a field of `x` which really breaks its rule. */
  predicate Blames(issue: Issue, x: QuestionInput) {
    || (issue.path == QuestionPath && !QuestionTextOk(x.question))
    || (issue.path == OptionsPath && !OptionCountOk(x.options))
    || (exists i :: 0 <= i < |x.options| && issue.path == OptionPath(i) && !OptionTextOk(x.options[i]))
  }

  /** The issues of `z.string().min(5).max(500)` on the question text. */
  function QuestionIssues(question: string): (r: seq<Issue>)
    ensures r == [] <==> QuestionTextOk(question)
    ensures forall k :: 0 <= k < |r| ==> r[k].path == QuestionPath
  {
    LengthIssues(StringValue, |question|, QuestionMinLength, QuestionMaxLength, QuestionPath)
  }

  /** The issues of the option elements `options[i..]`, element by element. */
  function ElementIssues(options: seq<OptionInput>, i: nat): (r: seq<Issue>)
    requires i <= |options|
    decreases |options| - i
    ensures r == [] <==> forall j :: i <= j < |options| ==> OptionTextOk(options[j])
    ensures forall k :: 0 <= k < |r| ==>
      exists j :: i <= j < |options| && r[k].path == OptionPath(j) && !OptionTextOk(options[j])
  {
    if i == |options| then []
    else
      LengthIssues(StringValue, |options[i].option|, OptionMinLength, OptionMaxLength, OptionPath(i))
      + ElementIssues(options, i + 1)
  }

  /** Every issue the schema reports for `x`, in the order of its fields. */
  function Issues(x: QuestionInput): seq<Issue> {
    QuestionIssues(x.question)
    + LengthIssues(ArrayValue, |x.options|, OptionsMinCount, OptionsMaxCount, OptionsPath)
    + ElementIssues(x.options, 0)
  }

  /** Every reported issue names a field that breaks its rule. */
  lemma IssuesSound(x: QuestionInput)
    ensures Issues(x) == [] <==> ValidQuestionInput(x)
    ensures forall k :: 0 <= k < |Issues(x)| ==> Blames(Issues(x)[k], x)
  {
  }

  /**
   * `createQuestionValidator.safeParse(x)`: accepts exactly the inputs meeting
   * all three rules, returns them unchanged, and otherwise reports at least one
   * issue, each of which names a field that breaks its rule.
   */
  function SafeParse(x: QuestionInput): (r: ParseResult<QuestionInput>)
    ensures r.Success? <==> ValidQuestionInput(x)
    ensures r.Success? ==> r.value == x
    ensures r.Failure? ==> r.issues != [] && forall k :: 0 <= k < |r.issues| ==> Blames(r.issues[k], x)
  {
    IssuesSound(x);
    var issues := Issues(x);
    if issues == [] then Success(x) else Failure(issues)
  }

  /** An option element that breaks its rule is reported at its own path. */
  lemma {:induction false} ElementIssueReported(options: seq<OptionInput>, i: nat, j: nat)
    requires i <= j < |options|
    requires !OptionTextOk(options[j])
    ensures exists k :: 0 <= k < |ElementIssues(options, i)| && ElementIssues(options, i)[k].path == OptionPath(j)
    decreases j - i
  {
    var head: seq<Issue> := LengthIssues(StringValue, |options[i].option|, OptionMinLength, OptionMaxLength, OptionPath(i));
    var rest: seq<Issue> := ElementIssues(options, i + 1);
    assert ElementIssues(options, i) == head + rest;
    if i == j {
      assert head != [];
      assert (head + rest)[0].path == OptionPath(j);
    } else {
      ElementIssueReported(options, i + 1, j);
      var k :| 0 <= k < |rest| && rest[k].path == OptionPath(j);
      assert (head + rest)[|head| + k] == rest[k];
    }
  }

  /**
   * Every broken rule is reported: a short or long question text, a wrong
   * number of options, and each single option whose text is empty or too long.
   */
  lemma IssuesComplete(x: QuestionInput)
    ensures !QuestionTextOk(x.question) ==>
      exists k :: 0 <= k < |Issues(x)| && Issues(x)[k].path == QuestionPath
    ensures !OptionCountOk(x.options) ==>
      exists k :: 0 <= k < |Issues(x)| && Issues(x)[k].path == OptionsPath
    ensures forall i :: 0 <= i < |x.options| && !OptionTextOk(x.options[i]) ==>
      exists k :: 0 <= k < |Issues(x)| && Issues(x)[k].path == OptionPath(i)
  {
    var q := QuestionIssues(x.question);
    var c := LengthIssues(ArrayValue, |x.options|, OptionsMinCount, OptionsMaxCount, OptionsPath);
    var e := ElementIssues(x.options, 0);
    assert Issues(x) == q + c + e;
    if !QuestionTextOk(x.question) {
      assert Issues(x)[0] == q[0];
    }
    if !OptionCountOk(x.options) {
      assert Issues(x)[|q|] == c[0];
    }
    forall i | 0 <= i < |x.options| && !OptionTextOk(x.options[i])
      ensures exists k :: 0 <= k < |Issues(x)| && Issues(x)[k].path == OptionPath(i)
    {
      ElementIssueReported(x.options, 0, i);
      var k :| 0 <= k < |e| && e[k].path == OptionPath(i);
      assert Issues(x)[|q| + |c| + k] == e[k];
    }
  }

  /** The only-if half: an accepted input meets each of the three bounds. */
  lemma AcceptedMeetsBounds(x: QuestionInput)
    requires SafeParse(x).Success?
    ensures 5 <= |x.question| <= 500
    ensures 2 <= |x.options| <= 20
    ensures forall i :: 0 <= i < |x.options| ==> 1 <= |x.options[i].option| <= 200
  {
  }

  /** The if half: an input meeting all three bounds is accepted as it is. */
  lemma BoundsAccepted(x: QuestionInput)
    requires 5 <= |x.question| <= 500
    requires 2 <= |x.options| <= 20
    requires forall i :: 0 <= i < |x.options| ==> 1 <= |x.options[i].option| <= 200
    ensures SafeParse(x) == Success(x)
  {
  }

  /** A single empty or over-long option rejects the whole input, and is named. */
  lemma OneBadOptionRejects(x: QuestionInput, i: nat)
    requires i < |x.options|
    requires |x.options[i].option| == 0 || 200 < |x.options[i].option|
    ensures SafeParse(x).Failure?
    ensures exists k :: 0 <= k < |SafeParse(x).issues| && SafeParse(x).issues[k].path == OptionPath(i)
  {
    IssuesComplete(x);
  }

  /** The question form's default options. */
  const DefaultOptions: seq<OptionInput> := [OptionInput("Yes"), OptionInput("No")]

  /**
   * The default options meet the option-count and option-length rules, so the
   * form with its defaults is accepted exactly when the question text is.
   */
  lemma DefaultOptionsAccepted(question: string)
    ensures OptionCountOk(DefaultOptions)
    ensures forall i :: 0 <= i < |DefaultOptions| ==> OptionTextOk(DefaultOptions[i])
    ensures SafeParse(QuestionInput(question, DefaultOptions)).Success? <==> QuestionTextOk(question)
  {
  }

  /** Appending an option to a list at the maximum count makes the input invalid. */
  lemma AppendBeyondMaximum(x: QuestionInput, o: OptionInput)
    requires |x.options| == OptionsMaxCount
    ensures SafeParse(QuestionInput(x.question, x.options + [o])).Failure?
  {
  }

  /** Removing an option from a list at the minimum count makes the input invalid. */
  lemma RemoveBelowMinimum(x: QuestionInput, i: nat)
    requires |x.options| == OptionsMinCount && i < |x.options|
    ensures SafeParse(QuestionInput(x.question, x.options[..i] + x.options[i + 1..])).Failure?
  {
  }

}
