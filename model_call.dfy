/** The way every agent talks to the generative model: with no API key the rule-based
    fallback is used without a call; otherwise the reply text is cut from its first
    '{' to its last '}' and that span is parsed as JSON. An exception from the call or
    the parse, an empty reply, or a reply without such a span all fall back too.

    The model call is an oracle reply (`None` when the call raised) and `json.loads`
    followed by reading the stage's fields is an abstract partial function
    (`None` when it raised). */
module ModelCall {
  import opened Wrappers
  import opened Text

  /** `find('{')` and `rfind('}') + 1`, accepted when the start is found and the end
      lies after it. */
  function JsonBounds(text: string): (r: Option<(nat, nat)>)
    ensures r.Some? ==> var (s, e) := r.value;
      s < e <= |text| && text[s] == '{' && text[e - 1] == '}'
      && (forall k :: 0 <= k < s ==> text[k] != '{')
      && (forall k :: e <= k < |text| ==> text[k] != '}')
    ensures r.Some? <==> exists i, j :: 0 <= i < j < |text| && text[i] == '{' && text[j] == '}'
  {
    var start := FindChar(text, '{');
    var end := RFind(text, '}') + 1;
    if start != -1 && end > start then Some((start, end)) else None
  }

  /** The text handed to `json.loads`, when there is one. */
  function JsonSpan(text: string): (r: Option<string>)
    ensures r.Some? ==> |r.value| >= 2 && r.value[0] == '{' && r.value[|r.value| - 1] == '}'
    ensures r.Some? <==> JsonBounds(text).Some?
  {
    match JsonBounds(text)
    case None => None
    case Some((s, e)) => Some(text[s..e])
  }

  /** A span that is already a single object, with no braces around it, is its own span. */
  lemma JsonSpanOfObject(prefix: string, body: string, suffix: string)
    requires forall k :: 0 <= k < |prefix| ==> prefix[k] != '{'
    requires forall k :: 0 <= k < |suffix| ==> suffix[k] != '}'
    ensures JsonSpan(prefix + "{" + body + "}" + suffix) == Some("{" + body + "}")
  {
    var t := prefix + "{" + body + "}" + suffix;
    var s := |prefix|;
    var e := |prefix| + |body| + 2;
    assert t[s] == '{' && t[e - 1] == '}';
    var b := JsonBounds(t);
    assert b.Some?;
    assert forall k :: 0 <= k < s ==> t[k] == prefix[k];
    assert forall k :: e <= k < |t| ==> t[k] == suffix[k - e];
    assert t[s..e] == "{" + body + "}";
  }

  /** The outcome of one guarded model call: `Some` with the parsed value, or `None`
      when the agent falls back to its rule-based answer. */
  function ModelJson<R>(hasKey: bool, reply: Option<string>, parse: string -> Option<R>): (r: Option<R>)
    ensures !hasKey || reply.None? ==> r.None?
    ensures hasKey && reply.Some? && JsonSpan(reply.value).Some? ==> r == parse(JsonSpan(reply.value).value)
    ensures hasKey && reply.Some? && JsonSpan(reply.value).None? ==> r.None?
  {
    if !hasKey then None
    else match reply
      case None => None
      case Some(text) =>
        if text == "" then None
        else match JsonSpan(text)
          case None => None
          case Some(span) => parse(span)
  }

  /** An empty reply never reaches the parser. */
  lemma EmptyReplyFallsBack<R>(parse: string -> Option<R>)
    ensures ModelJson(true, Some(""), parse) == None
  {
  }

  /** The oracle for one model call: its reply and the parse of its JSON. */
  datatype Oracle<R> = Oracle(reply: Option<string>, parse: string -> Option<R>)
  {
    function Answer(hasKey: bool): Option<R> {
      ModelJson(hasKey, reply, parse)
    }
  }
}
