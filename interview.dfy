/** The interview tool's input and output schemas (src/lib/interview-tool.ts)
    as decoders from parsed JSON: a value passes `safeParse` exactly when
    the decoder returns a value. Unknown object keys are dropped, as zod's
    object schemas do. */
module InterviewTool {
  import opened Common
  import opened Json

  const ToolName := "interview"
  const MaxHeaderLength := 12
  const MinOptions := 2
  const MaxOptions := 4
  const MinQuestions := 1
  const MaxQuestions := 4

  /** An option; `labelText` is the `label` field (`label` is a Dafny keyword). */
  datatype InterviewOption = InterviewOption(labelText: string, description: string)

  datatype InterviewQuestion = InterviewQuestion(
    question: string,
    header: string,
    multiSelect: bool,
    options: seq<InterviewOption>)

  datatype InterviewInput = InterviewInput(questions: seq<InterviewQuestion>)

  /** A chosen label or custom text, or several of them. */
  datatype Answer = Single(text: string) | Several(texts: seq<string>)

  datatype InterviewOutput = InterviewOutput(answers: map<string, Answer>)

  /** `s.length`: UTF-16 code units, two for a character outside the Basic
      Multilingual Plane. */
  function Utf16Length(s: string): (n: nat)
    ensures |s| <= n <= 2 * |s|
    decreases |s|
  {
    if |s| == 0 then 0
    else Utf16Length(s[..|s| - 1]) + (if s[|s| - 1] as int > 0xFFFF then 2 else 1)
  }

  predicate ValidQuestion(q: InterviewQuestion) {
    Utf16Length(q.header) <= MaxHeaderLength && MinOptions <= |q.options| <= MaxOptions
  }

  predicate ValidInput(input: InterviewInput) {
    && MinQuestions <= |input.questions| <= MaxQuestions
    && forall k :: 0 <= k < |input.questions| ==> ValidQuestion(input.questions[k])
  }

  // ---------------------------------------------------------------------
  // Decoding (safeParse)

  function Field(v: JsonValue, key: string): Option<JsonValue> {
    if v.JObject? && key in v.fields then Some(v.fields[key]) else None
  }

  function StringField(v: JsonValue, key: string): (r: Option<string>)
    ensures r.Some? <==> Field(v, key).Some? && Field(v, key).value.JString?
  {
    match Field(v, key)
    case Some(JString(s)) => Some(s)
    case _ => None
  }

  function DecodeOption(v: JsonValue): Option<InterviewOption> {
    match (StringField(v, "label"), StringField(v, "description"))
    case (Some(text), Some(description)) => Some(InterviewOption(text, description))
    case _ => None
  }

  /** Every element must decode, or the array fails. */
  function DecodeOptions(items: seq<JsonValue>): (r: Option<seq<InterviewOption>>)
    ensures r.Some? ==> |r.value| == |items|
    decreases |items|
  {
    if |items| == 0 then Some([])
    else match (DecodeOptions(items[..|items| - 1]), DecodeOption(items[|items| - 1]))
      case (Some(init), Some(last)) => Some(init + [last])
      case _ => None
  }

  function DecodeQuestion(v: JsonValue): (r: Option<InterviewQuestion>)
    ensures r.Some? ==> ValidQuestion(r.value)
  {
    match (StringField(v, "question"), StringField(v, "header"), Field(v, "multiSelect"), Field(v, "options"))
    case (Some(question), Some(header), Some(JBool(multiSelect)), Some(JArray(items))) =>
      if Utf16Length(header) > MaxHeaderLength || |items| < MinOptions || |items| > MaxOptions then None
      else
        (match DecodeOptions(items)
         case None => None
         case Some(options) => Some(InterviewQuestion(question, header, multiSelect, options)))
    case _ => None
  }

  function DecodeQuestions(items: seq<JsonValue>): (r: Option<seq<InterviewQuestion>>)
    ensures r.Some? ==> |r.value| == |items| && forall k :: 0 <= k < |items| ==> ValidQuestion(r.value[k])
    decreases |items|
  {
    if |items| == 0 then Some([])
    else match (DecodeQuestions(items[..|items| - 1]), DecodeQuestion(items[|items| - 1]))
      case (Some(init), Some(last)) => Some(init + [last])
      case _ => None
  }

  /** `interviewInputSchema.safeParse`: anything it accepts is valid. */
  function DecodeInput(v: JsonValue): (r: Option<InterviewInput>)
    ensures r.Some? ==> ValidInput(r.value)
  {
    match Field(v, "questions")
    case Some(JArray(items)) =>
      if |items| < MinQuestions || |items| > MaxQuestions then None
      else
        (match DecodeQuestions(items)
         case None => None
         case Some(questions) => Some(InterviewInput(questions)))
    case _ => None
  }

  function DecodeStrings(items: seq<JsonValue>): (r: Option<seq<string>>)
    ensures r.Some? ==> |r.value| == |items| && forall k :: 0 <= k < |items| ==> items[k] == JString(r.value[k])
    decreases |items|
  {
    if |items| == 0 then Some([])
    else match (DecodeStrings(items[..|items| - 1]), items[|items| - 1])
      case (Some(init), JString(last)) => Some(init + [last])
      case _ => None
  }

  /** `z.union([z.string(), z.array(z.string())])` */
  function DecodeAnswer(v: JsonValue): Option<Answer> {
    match v
    case JString(s) => Some(Single(s))
    case JArray(items) =>
      (match DecodeStrings(items) case Some(texts) => Some(Several(texts)) case None => None)
    case _ => None
  }

  /** `interviewOutputSchema.safeParse`: `answers` is an object every value
      of which is an answer. */
  function DecodeOutput(v: JsonValue): (r: Option<InterviewOutput>)
    ensures r.Some? ==> Field(v, "answers").Some? && Field(v, "answers").value.JObject?
    ensures r.Some? ==> r.value.answers.Keys == Field(v, "answers").value.fields.Keys
  {
    match Field(v, "answers")
    case Some(JObject(fields)) =>
      if forall k :: k in fields ==> DecodeAnswer(fields[k]).Some?
      then Some(InterviewOutput(map k | k in fields :: DecodeAnswer(fields[k]).value))
      else None
    case _ => None
  }

  // ---------------------------------------------------------------------
  // Encoding, the JSON a caller writes for a value

  function EncodeOption(o: InterviewOption): JsonValue {
    JObject(map["label" := JString(o.labelText), "description" := JString(o.description)])
  }

  function EncodeOptions(options: seq<InterviewOption>): seq<JsonValue> {
    seq(|options|, k requires 0 <= k < |options| => EncodeOption(options[k]))
  }

  function EncodeQuestion(q: InterviewQuestion): JsonValue {
    JObject(map[
      "question" := JString(q.question),
      "header" := JString(q.header),
      "multiSelect" := JBool(q.multiSelect),
      "options" := JArray(EncodeOptions(q.options))])
  }

  function EncodeQuestions(questions: seq<InterviewQuestion>): seq<JsonValue> {
    seq(|questions|, k requires 0 <= k < |questions| => EncodeQuestion(questions[k]))
  }

  function EncodeInput(input: InterviewInput): JsonValue {
    JObject(map["questions" := JArray(EncodeQuestions(input.questions))])
  }

  function EncodeAnswer(a: Answer): JsonValue {
    match a
    case Single(s) => JString(s)
    case Several(texts) => JArray(seq(|texts|, k requires 0 <= k < |texts| => JString(texts[k])))
  }

  function EncodeOutput(output: InterviewOutput): JsonValue {
    JObject(map["answers" := JObject(map k | k in output.answers :: EncodeAnswer(output.answers[k]))])
  }

  lemma {:induction false} DecodeEncodedOptions(options: seq<InterviewOption>)
    ensures DecodeOptions(EncodeOptions(options)) == Some(options)
    decreases |options|
  {
    var items := EncodeOptions(options);
    if |options| > 0 {
      var init := options[..|options| - 1];
      DecodeEncodedOptions(init);
      assert items[..|items| - 1] == EncodeOptions(init);
      DropLastSnoc(options);
    }
  }

  /** A question's JSON decodes back to it exactly when it is valid. */
  lemma QuestionRoundTrip(q: InterviewQuestion)
    ensures DecodeQuestion(EncodeQuestion(q)) == if ValidQuestion(q) then Some(q) else None
  {
    var v := EncodeQuestion(q);
    var items := EncodeOptions(q.options);
    assert Field(v, "question") == Some(JString(q.question));
    assert Field(v, "header") == Some(JString(q.header));
    assert Field(v, "multiSelect") == Some(JBool(q.multiSelect));
    assert Field(v, "options") == Some(JArray(items));
    DecodeEncodedOptions(q.options);
  }

  lemma {:induction false} DecodeEncodedQuestions(questions: seq<InterviewQuestion>)
    requires forall k :: 0 <= k < |questions| ==> ValidQuestion(questions[k])
    ensures DecodeQuestions(EncodeQuestions(questions))
      == Some(questions)
    decreases |questions|
  {
    var items := EncodeQuestions(questions);
    if |questions| > 0 {
      var init := questions[..|questions| - 1];
      DecodeEncodedQuestions(init);
      assert items[..|items| - 1] == EncodeQuestions(init);
      QuestionRoundTrip(questions[|questions| - 1]);
      DropLastSnoc(questions);
    }
  }

  /** One invalid question rejects the whole list. */
  lemma {:induction false} InvalidQuestionRejectsAll(questions: seq<InterviewQuestion>, k: nat)
    requires k < |questions| && !ValidQuestion(questions[k])
    ensures DecodeQuestions(EncodeQuestions(questions)).None?
    decreases |questions|
  {
    var items := EncodeQuestions(questions);
    var init := questions[..|questions| - 1];
    assert items[..|items| - 1] == EncodeQuestions(init);
    if k == |questions| - 1 {
      QuestionRoundTrip(questions[k]);
    } else {
      InvalidQuestionRejectsAll(init, k);
    }
  }

  /** An input written as JSON passes the schema exactly when it is valid
      (one to four questions, each with a header of at most twelve UTF-16
      units and two to four options), and then decodes back to itself. */
  lemma InputRoundTrip(input: InterviewInput)
    ensures DecodeInput(EncodeInput(input)) == if ValidInput(input) then Some(input) else None
  {
    var qs := input.questions;
    var items := EncodeQuestions(qs);
    assert Field(EncodeInput(input), "questions") == Some(JArray(items));
    if ValidInput(input) {
      DecodeEncodedQuestions(qs);
    } else if MinQuestions <= |qs| <= MaxQuestions {
      var k :| 0 <= k < |qs| && !ValidQuestion(qs[k]);
      InvalidQuestionRejectsAll(qs, k);
    }
  }

  lemma {:induction false} DecodeEncodedStrings(texts: seq<string>)
    ensures DecodeStrings(seq(|texts|, k requires 0 <= k < |texts| => JString(texts[k]))) == Some(texts)
    decreases |texts|
  {
    var items := seq(|texts|, k requires 0 <= k < |texts| => JString(texts[k]));
    if |texts| > 0 {
      var init := texts[..|texts| - 1];
      DecodeEncodedStrings(init);
      assert items[..|items| - 1] == seq(|init|, k requires 0 <= k < |init| => JString(init[k]));
      DropLastSnoc(texts);
    }
  }

  /** Any answers object written as JSON passes the output schema and
      decodes back to itself. */
  lemma OutputRoundTrip(output: InterviewOutput)
    ensures DecodeOutput(EncodeOutput(output)) == Some(output)
  {
    var fields := map k | k in output.answers :: EncodeAnswer(output.answers[k]);
    forall k | k in fields
      ensures DecodeAnswer(fields[k]) == Some(output.answers[k])
    {
      match output.answers[k]
      case Single(_) =>
      case Several(texts) => DecodeEncodedStrings(texts);
    }
    var decoded := map k | k in fields :: DecodeAnswer(fields[k]).value;
    assert decoded == output.answers;
  }

  /** A header is measured in UTF-16 units: twelve characters from the
      Basic Multilingual Plane fit, a thirteenth does not. */
  lemma HeaderLimitCountsUnits(header: string)
    requires forall i :: 0 <= i < |header| ==> header[i] as int <= 0xFFFF
    ensures Utf16Length(header) == |header|
    decreases |header|
  {
    if |header| > 0 {
      HeaderLimitCountsUnits(header[..|header| - 1]);
    }
  }
}
