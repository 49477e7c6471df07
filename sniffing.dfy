/** Reading token usage out of a provider response, and the request a
    wrapped call records (src/guard.ts). A response is modelled as a small
    record of the optional fields the heuristics look at. */
module Sniffing {
  import opened Wrappers
  import opened Types

  /** A property value, by what the heuristics test about it. A `Num` is a
      finite number; NaN and infinities are `Other`. */
  datatype Field = Absent | Num(n: real) | Str(s: string) | Other

  /** The token-count fields of a `usage` or `usageMetadata` object. */
  datatype UsageRecord = UsageRecord(
    prompt_tokens: Field,
    input_tokens: Field,
    promptTokenCount: Field,
    inputTokenCount: Field,
    completion_tokens: Field,
    output_tokens: Field,
    candidatesTokenCount: Field,
    outputTokenCount: Field,
    totalTokenCount: Field,
    total_tokens: Field)

  /** The value of `usage` or `usageMetadata`: missing (`undefined`/`null`),
      an object, or some other non-nullish value. */
  datatype UsageSlot = Missing | Record(record: UsageRecord) | NonRecord

  /** A response: not an object at all, or an object with these fields. */
  datatype Payload = NotObject | Object(model: Field, usage: UsageSlot, usageMetadata: UsageSlot)

  /** The first argument of a wrapped call: not a (non-null) object, or a request object. */
  datatype Argument = NotRequest | Request(model: Field, modelId: Field)

  datatype UsageData = UsageData(model: string, inputTokens: real, outputTokens: real)

  /** `toNumber`: the value when it is a finite number. */
  function ToNumber(f: Field): (r: Option<real>)
    ensures r.Some? <==> f.Num?
    ensures r.Some? ==> r.value == f.n
  {
    if f.Num? then Some(f.n) else None
  }

  /** `toNumber(a) ?? toNumber(b) ?? ...`: the first finite number of the
      fields, in order. */
  function FirstNumber(fields: seq<Field>): (r: Option<real>)
    ensures r.None? <==> forall k :: 0 <= k < |fields| ==> !fields[k].Num?
    ensures r.Some? ==> exists k :: 0 <= k < |fields| && fields[k] == Num(r.value)
                          && forall j :: 0 <= j < k ==> !fields[j].Num?
  {
    if fields == [] then None
    else
      match ToNumber(fields[0])
      case Some(n) => Some(n)
      case None =>
        var rest := FirstNumber(fields[1..]);
        assert forall k :: 1 <= k < |fields| ==> fields[k] == fields[1..][k - 1];
        if rest.Some? then
          var k :| 0 <= k < |fields[1..]| && fields[1..][k] == Num(rest.value)
                   && forall j :: 0 <= j < k ==> !fields[1..][j].Num?;
          assert fields[k + 1] == Num(rest.value);
          rest
        else rest
  }

  function InputFields(u: UsageRecord): seq<Field> {
    [u.prompt_tokens, u.input_tokens, u.promptTokenCount, u.inputTokenCount]
  }

  function OutputFields(u: UsageRecord): seq<Field> {
    [u.completion_tokens, u.output_tokens, u.candidatesTokenCount, u.outputTokenCount]
  }

  function TotalFields(u: UsageRecord): seq<Field> {
    [u.totalTokenCount, u.total_tokens]
  }

  /** `... ?? 0`. */
  function OrZero(r: Option<real>): real {
    if r.Some? then r.value else 0.0
  }

  /** `obj.usage ?? obj.usageMetadata`. */
  function UsageOf(obj: Payload): UsageSlot
    requires obj.Object?
  {
    if obj.usage.Missing? then obj.usageMetadata else obj.usage
  }

  /** `(typeof obj.model === "string" ? obj.model : fallbackModel) ?? ""`. */
  function ModelOf(obj: Payload, fallbackModel: Option<string>): string
    requires obj.Object?
  {
    if obj.model.Str? then obj.model.s
    else if fallbackModel.Some? then fallbackModel.value
    else ""
  }

  /** `getUsageDataFromResponse`. A result always names a model and has a
      positive input or output count; there is none without an object, a
      model or a usage object. */
  function GetUsageDataFromResponse(payload: Payload, fallbackModel: Option<string>): (r: Option<UsageData>)
    ensures payload.NotObject? ==> r.None?
    ensures payload.Object? && ModelOf(payload, fallbackModel) == "" ==> r.None?
    ensures payload.Object? && !UsageOf(payload).Record? ==> r.None?
    ensures r.Some? ==> r.value.model == ModelOf(payload, fallbackModel) != ""
    ensures r.Some? ==> r.value.inputTokens > 0.0 || r.value.outputTokens > 0.0
  {
    if payload.NotObject? then None
    else
      var model := ModelOf(payload, fallbackModel);
      if model == "" then None
      else
        match UsageOf(payload)
        case Record(u) =>
          var input := OrZero(FirstNumber(InputFields(u)));
          var output := OrZero(FirstNumber(OutputFields(u)));
          if input > 0.0 || output > 0.0 then Some(UsageData(model, input, output))
          else
            var total := FirstNumber(TotalFields(u));
            if total.Some? && total.value > 0.0 then Some(UsageData(model, total.value, 0.0))
            else None
        case _ => None
  }

  /** When the input or the output count is positive, both are taken from the
      first finite field of their lists (0 when there is none). */
  lemma CountsFromFirstFiniteField(payload: Payload, fallbackModel: Option<string>, u: UsageRecord)
    requires payload.Object? && UsageOf(payload) == Record(u) && ModelOf(payload, fallbackModel) != ""
    requires OrZero(FirstNumber(InputFields(u))) > 0.0 || OrZero(FirstNumber(OutputFields(u))) > 0.0
    ensures GetUsageDataFromResponse(payload, fallbackModel)
         == Some(UsageData(ModelOf(payload, fallbackModel), OrZero(FirstNumber(InputFields(u))), OrZero(FirstNumber(OutputFields(u)))))
  {
  }

  /** When neither count is positive, a positive total (`totalTokenCount`,
      else `total_tokens`) is booked entirely as input; otherwise nothing is
      recorded. */
  lemma TotalBecomesInput(payload: Payload, fallbackModel: Option<string>, u: UsageRecord)
    requires payload.Object? && UsageOf(payload) == Record(u) && ModelOf(payload, fallbackModel) != ""
    requires OrZero(FirstNumber(InputFields(u))) <= 0.0 && OrZero(FirstNumber(OutputFields(u))) <= 0.0
    ensures var total := FirstNumber(TotalFields(u));
      GetUsageDataFromResponse(payload, fallbackModel)
        == if total.Some? && total.value > 0.0 then Some(UsageData(ModelOf(payload, fallbackModel), total.value, 0.0)) else None
  {
  }

  /** An OpenAI-style response `{ model: "gpt-4o-mini", usage: { prompt_tokens:
      100, completion_tokens: 200 } }` yields 100 input and 200 output tokens. */
  lemma OpenAiResponseExample()
    ensures var u := UsageRecord(Num(100.0), Absent, Absent, Absent, Num(200.0), Absent, Absent, Absent, Absent, Absent);
      GetUsageDataFromResponse(Object(Str("gpt-4o-mini"), Record(u), Missing), None)
        == Some(UsageData("gpt-4o-mini", 100.0, 200.0))
  {
  }

  /** A Gemini-style response with only `usageMetadata.totalTokenCount` books
      the total as input, under the model named in the request. */
  lemma TotalOnlyExample()
    ensures var u := UsageRecord(Absent, Absent, Absent, Absent, Absent, Absent, Absent, Absent, Num(42.0), Absent);
      GetUsageDataFromResponse(Object(Absent, Missing, Record(u)), Some("gemini-2.5-pro"))
        == Some(UsageData("gemini-2.5-pro", 42.0, 0.0))
  {
  }

  /** `asModelFromArgs`: the request's `model` string, else its `modelId` string. */
  function AsModelFromArgs(args: seq<Argument>): (r: Option<string>)
    ensures |args| == 0 || args[0].NotRequest? ==> r.None?
    ensures r.Some? ==>
      || (args[0].model.Str? && r.value == args[0].model.s)
      || (!args[0].model.Str? && args[0].modelId.Str? && r.value == args[0].modelId.s)
    ensures |args| > 0 && args[0].Request? && (args[0].model.Str? || args[0].modelId.Str?) ==> r.Some?
  {
    if |args| == 0 || args[0].NotRequest? then None
    else if args[0].model.Str? then Some(args[0].model.s)
    else if args[0].modelId.Str? then Some(args[0].modelId.s)
    else None
  }

  /** `a ?? b` on optional strings. */
  function Coalesce(a: Option<string>, b: Option<string>): (r: Option<string>)
    ensures a.Some? ==> r == a
    ensures a.None? ==> r == b
  {
    if a.Some? then a else b
  }

  /** The request a wrapped call records, if its response carries usage: the
      response's model (else the request's), its token counts, and for user
      and feature the extractor's value, else the static option. */
  function WrappedTrackRequest(response: Payload, args: seq<Argument>, options: Attribution, extracted: Option<Attribution>): (r: Option<TrackRequest>)
    ensures r.Some? <==> GetUsageDataFromResponse(response, AsModelFromArgs(args)).Some?
    ensures r.Some? ==>
      var usage := GetUsageDataFromResponse(response, AsModelFromArgs(args)).value;
      var ex := if extracted.Some? then extracted.value else Attribution(None, None);
      && r.value.model == usage.model
      && r.value.inputTokens == usage.inputTokens
      && r.value.outputTokens == usage.outputTokens
      && r.value.userId == (if ex.userId.Some? then ex.userId else options.userId)
      && r.value.feature == (if ex.feature.Some? then ex.feature else options.feature)
      && r.value.timestamp.None?
  {
    match GetUsageDataFromResponse(response, AsModelFromArgs(args))
    case None => None
    case Some(usage) =>
      var ex := if extracted.Some? then extracted.value else Attribution(None, None);
      Some(TrackRequest(usage.model, usage.inputTokens, usage.outputTokens,
        Coalesce(ex.userId, options.userId), Coalesce(ex.feature, options.feature), None))
  }
}
