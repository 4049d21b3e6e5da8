/**
 * Structured output: cut the JSON object out of a model response (the regular expression
 * `\{[\s\S]*\}`, i.e. from the first `{` to the last `}`), parse it, and check it against
 * the two-field report schema. `JSON.parse` is a parameter: any partial function from
 * text to a JSON value.
 */
module StructuredOutput {
  import opened Wrappers

  /** A parsed JSON value; an object is a map from keys to values. */
  datatype Json =
    | JNull
    | JBool(b: bool)
    | JNumber(n: real)
    | JString(s: string)
    | JArray(items: seq<Json>)
    | JObject(fields: map<string, Json>)

  /** The `Report` interface: a name and a list of suggestions. */
  datatype Report = Report(name: string, suggestionList: seq<string>)

  /** Why `parseStructuredOutput` throws. */
  datatype ParseError =
    | ModelFailed(message: string)
    | NoJsonFound
    | InvalidJson
    | SchemaMismatch

  /** The report `chatForReport` returns on any failure. */
  const FallbackReport := Report("学习报告", ["解析失败，请重试"])

  /** The first position of `c` in `s`. */
  function FirstIndex(s: string, c: char): (r: Option<nat>)
    ensures r.None? <==> forall k :: 0 <= k < |s| ==> s[k] != c
    ensures r.Some? ==> r.value < |s| && s[r.value] == c && forall k :: 0 <= k < r.value ==> s[k] != c
  {
    if s == [] then None
    else if s[0] == c then Some(0)
    else
      match FirstIndex(s[1..], c)
      case None => None
      case Some(k) => Some(k + 1)
  }

  /** The last position of `c` in `s`. */
  function LastIndex(s: string, c: char): (r: Option<nat>)
    ensures r.None? <==> forall k :: 0 <= k < |s| ==> s[k] != c
    ensures r.Some? ==> r.value < |s| && s[r.value] == c && forall k :: r.value < k < |s| ==> s[k] != c
  {
    if s == [] then None
    else if s[|s| - 1] == c then Some(|s| - 1)
    else LastIndex(s[..|s| - 1], c)
  }

  /**
   * `content.match(/\{[\s\S]*\}/)`: the text from the first `{` to the last `}`. There is no
   * match exactly when no `}` follows a `{`.
   */
  function ExtractJson(content: string): (r: Option<string>)
    ensures r.None? <==> forall i, j :: 0 <= i < j < |content| ==> !(content[i] == '{' && content[j] == '}')
    ensures r.Some? ==> |r.value| >= 2 && r.value[0] == '{' && r.value[|r.value| - 1] == '}'
  {
    match FirstIndex(content, '{')
    case None => None
    case Some(i) =>
      match LastIndex(content, '}')
      case None => None
      case Some(j) =>
        if j < i then None
        else
          Some(content[i..j + 1])
  }

  /**
   * A JSON object wrapped in prose or a code fence is extracted exactly: text before it
   * without `{` and text after it without `}` are cut away.
   */
  lemma ExtractFromProse(before: string, body: string, after: string)
    requires '{' !in before && '}' !in after
    requires |body| >= 2 && body[0] == '{' && body[|body| - 1] == '}'
    ensures ExtractJson(before + body + after) == Some(body)
  {
    var s := before + body + after;
    var i := |before|;
    var j := |before| + |body| - 1;
    assert s[i] == '{' && s[j] == '}';
    assert forall k :: 0 <= k < i ==> s[k] == before[k];
    assert forall k :: j < k < |s| ==> s[k] == after[k - j - 1];
    assert s[i..j + 1] == body;
  }

  /** `z.array(z.string())` on the items of an array: all strings, or a schema failure. */
  function StringItems(items: seq<Json>): (r: Option<seq<string>>)
    ensures r.Some? <==> forall k :: 0 <= k < |items| ==> items[k].JString?
    ensures r.Some? ==> |r.value| == |items| && forall k :: 0 <= k < |items| ==> items[k] == JString(r.value[k])
  {
    if items == [] then Some([])
    else if !items[0].JString? then None
    else
      match StringItems(items[1..])
      case None => None
      case Some(rest) => Some([items[0].s] + rest)
  }

  /**
   * `ReportSchema.parse`: an object whose `name` is a string and whose `suggestionList` is an
   * array of strings; other keys are ignored.
   */
  function ValidateReport(j: Json): (r: Option<Report>)
    ensures r.Some? <==>
              && j.JObject?
              && "name" in j.fields && j.fields["name"].JString?
              && "suggestionList" in j.fields && j.fields["suggestionList"].JArray?
              && (forall k :: 0 <= k < |j.fields["suggestionList"].items| ==> j.fields["suggestionList"].items[k].JString?)
    ensures r.Some? ==> r.value.name == j.fields["name"].s
    ensures r.Some? ==>
              var items := j.fields["suggestionList"].items;
              |r.value.suggestionList| == |items| &&
              forall k :: 0 <= k < |items| ==> items[k] == JString(r.value.suggestionList[k])
  {
    if !j.JObject? then None
    else if "name" !in j.fields || !j.fields["name"].JString? then None
    else if "suggestionList" !in j.fields || !j.fields["suggestionList"].JArray? then None
    else
      match StringItems(j.fields["suggestionList"].items)
      case None => None
      case Some(list) => Some(Report(j.fields["name"].s, list))
  }

  /** The JSON body a report is written as. */
  function ReportToJson(report: Report): (j: Json)
    ensures j.JObject? && j.fields.Keys == {"name", "suggestionList"}
  {
    JObject(map["name" := JString(report.name), "suggestionList" := JArray(StringsToJson(report.suggestionList))])
  }

  function StringsToJson(list: seq<string>): (r: seq<Json>)
    ensures |r| == |list| && forall k :: 0 <= k < |list| ==> r[k] == JString(list[k])
  {
    if list == [] then [] else [JString(list[0])] + StringsToJson(list[1..])
  }

  /** The schema accepts every report's JSON form and reads back the same report, empty list included. */
  lemma ValidateReportToJson(report: Report)
    ensures ValidateReport(ReportToJson(report)) == Some(report)
  {
    var items := StringsToJson(report.suggestionList);
    var list := StringItems(items);
    assert list.Some?;
    assert list.value == report.suggestionList;
  }

  /**
   * `parseStructuredOutput`: extract, parse and validate with `schema`; each failing stage,
   * and a failing model call, is an error (nothing falls back).
   */
  function ParseStructuredOutput<T>(response: Result<string, string>, parse: string -> Option<Json>,
                                    schema: Json -> Option<T>): (r: Result<T, ParseError>)
    ensures response.Failure? ==> r == Failure(ModelFailed(response.error))
    ensures response.Success? && ExtractJson(response.value).None? ==> r == Failure(NoJsonFound)
    ensures r.Success? ==>
              && response.Success?
              && ExtractJson(response.value).Some?
              && parse(ExtractJson(response.value).value).Some?
              && schema(parse(ExtractJson(response.value).value).value) == Some(r.value)
    ensures response.Success? && ExtractJson(response.value).Some? ==>
              var text := ExtractJson(response.value).value;
              && (parse(text).None? ==> r == Failure(InvalidJson))
              && (parse(text).Some? && schema(parse(text).value).None? ==> r == Failure(SchemaMismatch))
              && (parse(text).Some? && schema(parse(text).value).Some? ==> r == Success(schema(parse(text).value).value))
  {
    match response
    case Failure(message) => Failure(ModelFailed(message))
    case Success(content) =>
      match ExtractJson(content)
      case None => Failure(NoJsonFound)
      case Some(text) =>
        match parse(text)
        case None => Failure(InvalidJson)
        case Some(parsed) =>
          match schema(parsed)
          case None => Failure(SchemaMismatch)
          case Some(value) => Success(value)
  }

  /** `chatForReport`: the validated report, or the fallback report on any failure; never an error. */
  function ChatForReport(response: Result<string, string>, parse: string -> Option<Json>): (r: Report)
    ensures ParseStructuredOutput(response, parse, ValidateReport).Failure? ==> r == FallbackReport
    ensures ParseStructuredOutput(response, parse, ValidateReport).Success? ==>
              r == ParseStructuredOutput(response, parse, ValidateReport).value
  {
    match ParseStructuredOutput(response, parse, ValidateReport)
    case Success(report) => report
    case Failure(_) => FallbackReport
  }

  /**
   * A model answer holding a report's JSON, bare or wrapped in prose, yields exactly that
   * report, whatever its name and suggestions.
   */
  lemma ChatForReportReadsReport(before: string, text: string, after: string, report: Report,
                                 parse: string -> Option<Json>)
    requires '{' !in before && '}' !in after
    requires |text| >= 2 && text[0] == '{' && text[|text| - 1] == '}'
    requires parse(text) == Some(ReportToJson(report))
    ensures ChatForReport(Success(before + text + after), parse) == report
  {
    ExtractFromProse(before, text, after);
    ValidateReportToJson(report);
  }

  /** A response without a `{` ... `}` pair gives the fallback report. */
  lemma ChatForReportWithoutJson(content: string, parse: string -> Option<Json>)
    requires forall i, j :: 0 <= i < j < |content| ==> !(content[i] == '{' && content[j] == '}')
    ensures ChatForReport(Success(content), parse) == FallbackReport
  {
  }
}
