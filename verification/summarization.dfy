/**
 * `summarize_transcript`: ask the language model for a JSON summary and fall
 * back, layer by layer, to a placeholder. The HTTP call together with
 * `response.json()['response']` is the oracle `complete`; `json.loads` is the
 * oracle `loads`.
 */
module Summarization {
  import opened Wrappers
  import opened JsonValues
  import Text

  /** The fields the prompt asks for, in the order the code tests them. */
  const RequiredKeys: seq<string> := ["overview", "key_points", "action_items", "decisions"]

  const ErrorPrefix := "Error generating summary: "
  const SeeTranscript := "See full transcript"
  const PlaceholderOverview := "See full transcript for details"

  /** The AttributeError raised by calling `.split` on the list that `str.split` returns. */
  const SplitOnListError := "'list' object has no attribute 'split'"

  /** The shape of a summary (the `SummaryData` schema). */
  datatype SummaryData = SummaryData(overview: string, keyPoints: seq<string>, actionItems: seq<string>, decisions: seq<string>)
  {
    /** The dictionary the code returns for this summary. */
    function ToJson(): (j: Json)
      ensures j.JObj? && j.fields.Keys == {"overview", "key_points", "action_items", "decisions"}
      ensures j.fields["overview"] == JStr(overview)
      ensures j.fields["key_points"] == StrArray(keyPoints)
      ensures j.fields["action_items"] == StrArray(actionItems)
      ensures j.fields["decisions"] == StrArray(decisions)
    {
      JObj(map[
        "overview" := JStr(overview),
        "key_points" := StrArray(keyPoints),
        "action_items" := StrArray(actionItems),
        "decisions" := StrArray(decisions)])
    }
  }

  /** The placeholder both fallbacks build, with the given overview. */
  function Degraded(overview: string): SummaryData
  {
    SummaryData(overview, [SeeTranscript], [], [])
  }

  /** The summary the outer handler returns for an exception with message `message`. */
  function ErrorSummary(message: string): Json
  {
    Degraded(ErrorPrefix + message).ToJson()
  }

  /** The summary returned when no JSON could be recovered from the response. */
  function Placeholder(): Json
  {
    Degraded(PlaceholderOverview).ToJson()
  }

  /**
   * `all(k in summary for k in keys)`: stops at the first key that is absent,
   * and raises the TypeError of the first test when `summary` cannot be searched.
   */
  function AllIn(keys: seq<string>, summary: Json): (r: Result<bool, string>)
    ensures r.Failure? <==> |keys| > 0 && !Iterable(summary)
    ensures r.Failure? ==> r == In(keys[0], summary)
    ensures r.Success? ==> (r.value <==> forall i :: 0 <= i < |keys| ==> In(keys[i], summary) == Success(true))
  {
    if |keys| == 0 then Success(true)
    else
      match In(keys[0], summary)
      case Failure(e) => Failure(e)
      case Success(false) => Success(false)
      case Success(true) => AllIn(keys[1..], summary)
  }

  /** An opening brace at `i` and a closing brace after it, at `j`. */
  predicate BracePair(s: string, i: int, j: int)
  {
    0 <= i < j < |s| && s[i] == '{' && s[j] == '}'
  }

  /**
   * `re.search(r'\{[\s\S]*\}', s)`: the leftmost, longest text that opens with
   * '{' and closes with '}' — from the first '{' to the last '}' — if the last
   * '}' comes after the first '{'.
   */
  function BraceSpan(s: string): (r: Option<string>)
    ensures r.None? <==> !exists i, j :: BracePair(s, i, j)
    ensures r.Some? ==> exists i, j ::
      && BracePair(s, i, j) && r.value == s[i..j + 1]
      && '{' !in s[..i] && '}' !in s[j + 1..]
  {
    BracePairsWithinExtremes(s);
    match (Text.IndexOf(s, '{'), Text.LastIndexOf(s, '}'))
    case (Some(i), Some(j)) =>
      if i < j then
        assert BracePair(s, i, j);
        Some(s[i..j + 1])
      else None
    case _ => None
  }

  /** Every brace pair lies between the first '{' and the last '}'. */
  lemma BracePairsWithinExtremes(s: string)
    ensures forall a, b :: BracePair(s, a, b) ==>
      && Text.IndexOf(s, '{').Some? && Text.IndexOf(s, '{').value <= a
      && Text.LastIndexOf(s, '}').Some? && b <= Text.LastIndexOf(s, '}').value
  {
    forall a, b | BracePair(s, a, b)
      ensures Text.IndexOf(s, '{').Some? && Text.IndexOf(s, '{').value <= a
      ensures Text.LastIndexOf(s, '}').Some? && b <= Text.LastIndexOf(s, '}').value
    {
      assert s[a] in s && s[b] in s;
    }
  }

  /** The regex fallback: a span that decodes is returned as it is, without the key check. */
  function SpanFallback(result: string, loads: string -> Option<Json>): (r: Json)
    ensures BraceSpan(result).Some? && loads(BraceSpan(result).value).Some? ==> r == loads(BraceSpan(result).value).value
    ensures BraceSpan(result).None? || loads(BraceSpan(result).value).None? ==> r == Placeholder()
  {
    match BraceSpan(result)
    case None => Placeholder()
    case Some(span) =>
      match loads(span)
      case None => Placeholder()
      case Some(summary) => summary
  }

  /**
   * `summarize_transcript(transcript)`. Every path returns a summary: the
   * remote failure and any exception outside the inner handler give
   * `ErrorSummary`, a fenced response always raises AttributeError (the code
   * calls `.split` on a list), a decoded response with all four keys is
   * returned, and otherwise the regex fallback decides.
   */
  function SummarizeTranscript(transcript: string, complete: string -> Result<string, string>, loads: string -> Option<Json>): (r: Json)
    ensures complete(transcript).Failure? ==> r == ErrorSummary(complete(transcript).error)
    ensures complete(transcript).Success? ==>
      var result := complete(transcript).value;
      && (Text.Contains(result, "```") ==> r == ErrorSummary(SplitOnListError))
      && (!Text.Contains(result, "```") ==>
            match loads(result)
            case None => r == SpanFallback(result, loads)
            case Some(summary) =>
              && (!Iterable(summary) ==> r == ErrorSummary("argument of type '" + TypeName(summary) + "' is not iterable"))
              && (Iterable(summary) && AllIn(RequiredKeys, summary) == Success(true) ==> r == summary)
              && (Iterable(summary) && AllIn(RequiredKeys, summary) == Success(false) ==> r == SpanFallback(result, loads)))
  {
    match complete(transcript)
    case Failure(e) => ErrorSummary(e)
    case Success(result) =>
      if Text.Contains(result, "```json") then
        Text.ContainsPrefix(result, "```json", "```");
        ErrorSummary(SplitOnListError)
      else if Text.Contains(result, "```") then ErrorSummary(SplitOnListError)
      else
        match loads(result)
        case None => SpanFallback(result, loads)
        case Some(summary) =>
          match AllIn(RequiredKeys, summary)
          case Failure(e) => ErrorSummary(e)
          case Success(true) => summary
          case Success(false) => SpanFallback(result, loads)
  }

  /**
   * Where a summary for the response `result` may come from: the response
   * decoded whole and holding every required key, the greedy brace span
   * decoded, the placeholder, the fence handling's AttributeError, or the
   * TypeError of a decoded value that cannot be searched.
   */
  predicate Recovered(r: Json, result: string, loads: string -> Option<Json>)
  {
    || (loads(result) == Some(r) && AllIn(RequiredKeys, r) == Success(true))
    || (BraceSpan(result).Some? && loads(BraceSpan(result).value) == Some(r))
    || r == Placeholder()
    || r == ErrorSummary(SplitOnListError)
    || (loads(result).Some? && !Iterable(loads(result).value)
        && r == ErrorSummary("argument of type '" + TypeName(loads(result).value) + "' is not iterable"))
  }

  /** `summarize_transcript` never fails: its value is always recovered from the response or a placeholder. */
  lemma SummaryAlwaysRecovered(transcript: string, complete: string -> Result<string, string>, loads: string -> Option<Json>)
    ensures complete(transcript).Failure? ==> SummarizeTranscript(transcript, complete, loads) == ErrorSummary(complete(transcript).error)
    ensures complete(transcript).Success? ==> Recovered(SummarizeTranscript(transcript, complete, loads), complete(transcript).value, loads)
  {
  }

  /** Every degraded summary points the reader at the transcript and lists no actions or decisions. */
  lemma DegradedShape(msg: string)
    ensures ErrorSummary(msg).fields["key_points"] == JArr([JStr(SeeTranscript)])
    ensures ErrorSummary(msg).fields["action_items"] == JArr([])
    ensures ErrorSummary(msg).fields["decisions"] == JArr([])
    ensures ErrorSummary(msg).fields["overview"] == JStr("Error generating summary: " + msg)
    ensures Placeholder().fields["overview"] == JStr("See full transcript for details")
    ensures Placeholder().fields["key_points"] == JArr([JStr(SeeTranscript)])
    ensures Placeholder().fields["action_items"] == JArr([])
    ensures Placeholder().fields["decisions"] == JArr([])
  {
    assert StrArray([SeeTranscript]).items == [JStr(SeeTranscript)];
  }

  /** A remote failure (a timeout, say) still yields a summary, with the exception text in the overview. */
  lemma RemoteFailureDegrades(transcript: string, complete: string -> Result<string, string>, loads: string -> Option<Json>, msg: string)
    requires complete(transcript) == Failure(msg)
    ensures var r := SummarizeTranscript(transcript, complete, loads);
      r.JObj? && r.fields["overview"] == JStr(ErrorPrefix + msg) && r.fields["key_points"] == JArr([JStr(SeeTranscript)])
  {
    DegradedShape(msg);
  }

  /**
   * A response that wraps JSON in a code fence is never decoded, whatever JSON it
   * carries and whatever `loads` would make of it: the fence handling raises first.
   */
  lemma FencedResponseDegrades(transcript: string, complete: string -> Result<string, string>, loads: string -> Option<Json>, body: string)
    requires complete(transcript) == Success("```json\n" + body + "\n```")
    ensures SummarizeTranscript(transcript, complete, loads) == ErrorSummary(SplitOnListError)
  {
    var result := "```json\n" + body + "\n```";
    assert result[..3] == "```";
    Text.PrefixIsContained(result, "```");
  }

  /**
   * The regex path returns what it decodes without checking the keys: prose
   * before a bare `{}` gives a summary with no overview.
   */
  lemma SpanSkipsKeyCheck(transcript: string, complete: string -> Result<string, string>, loads: string -> Option<Json>)
    requires complete(transcript) == Success("a{}")
    requires loads("a{}").None? && loads("{}") == Some(JObj(map[]))
    ensures SummarizeTranscript(transcript, complete, loads) == JObj(map[])
    ensures Field(SummarizeTranscript(transcript, complete, loads), "overview").None?
  {
    var result := "a{}";
    assert result[0] == 'a' && result[1] == '{' && result[2] == '}';
    assert Text.IndexOf(result, '{') == Some(1);
    assert Text.LastIndexOf(result, '}') == Some(2);
    assert result[1..3] == "{}";
    assert BraceSpan(result) == Some("{}");
    assert !Text.Contains(result, "```");
  }
}
