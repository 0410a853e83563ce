/**
 * The response parser shared by the structured agents: the span matched by
 * the regular expression /\{[\s\S]*\}/ is handed to an abstract JSON parser,
 * and a role-specific default is used when there is no span or it does not parse.
 */
module ResponseParser {
  import opened Wrappers

  /** `s.indexOf(c)`. */
  function FirstIndex(s: string, c: char): (r: Option<nat>)
    ensures r.None? ==> forall k :: 0 <= k < |s| ==> s[k] != c
    ensures r.Some? ==> r.value < |s| && s[r.value] == c && forall k :: 0 <= k < r.value ==> s[k] != c
  {
    if s == [] then None
    else if s[0] == c then Some(0)
    else
      var r := FirstIndex(s[1..], c);
      assert forall k :: 1 <= k < |s| ==> s[k] == s[1..][k - 1];
      if r.None? then None else Some(r.value + 1)
  }

  /** `s.lastIndexOf(c)`. */
  function LastIndex(s: string, c: char): (r: Option<nat>)
    ensures r.None? ==> forall k :: 0 <= k < |s| ==> s[k] != c
    ensures r.Some? ==> r.value < |s| && s[r.value] == c && forall k :: r.value < k < |s| ==> s[k] != c
  {
    if s == [] then None
    else if s[|s| - 1] == c then Some(|s| - 1)
    else
      var r := LastIndex(s[..|s| - 1], c);
      assert forall k :: 0 <= k < |s| - 1 ==> s[k] == s[..|s| - 1][k];
      r
  }

  /**
   * The text matched by /\{[\s\S]*\}/: the leftmost match starts at the first
   * '{' and the greedy body runs to the last '}', provided that '}' comes after it.
   */
  function ExtractSpan(text: string): (r: Option<string>)
    ensures r.Some? <==> exists i, j :: 0 <= i < j < |text| && text[i] == '{' && text[j] == '}'
    ensures r.Some? ==> exists i, j :: 0 <= i < j < |text| && text[i] == '{' && text[j] == '}' &&
                                       r.value == text[i..j + 1] &&
                                       (forall k :: 0 <= k < i ==> text[k] != '{') &&
                                       (forall k :: j < k < |text| ==> text[k] != '}')
  {
    var first := FirstIndex(text, '{');
    var last := LastIndex(text, '}');
    if first.Some? && last.Some? && first.value < last.value then
      Some(text[first.value..last.value + 1])
    else
      None
  }

  /** The structured result of a reply: the parsed span, or `default` on any failure. */
  function ParseOr<T>(text: string, parse: string -> Option<T>, default: T): T
  {
    match ExtractSpan(text)
    case None => default
    case Some(span) =>
      match parse(span)
      case None => default
      case Some(v) => v
  }

  /**
   * An object embedded in prose that contains no '{' before it and no '}'
   * after it is exactly the span that is parsed.
   */
  lemma EmbeddedObjectIsSpan(pre: string, obj: string, post: string)
    requires '{' !in pre && '}' !in post
    requires |obj| >= 2 && obj[0] == '{' && obj[|obj| - 1] == '}'
    ensures ExtractSpan(pre + obj + post) == Some(obj)
  {
    var text := pre + obj + post;
    var i, j := |pre|, |pre| + |obj| - 1;
    assert text[i] == '{' && text[j] == '}';
    assert forall k :: 0 <= k < i ==> text[k] == pre[k];
    assert forall k :: j < k < |text| ==> text[k] == post[k - j - 1];
    assert text[i..j + 1] == obj;
  }

  /** Round trip: an embedded object that the parser accepts is what the agent receives. */
  lemma EmbeddedObjectParses<T>(pre: string, obj: string, post: string,
                                parse: string -> Option<T>, v: T, default: T)
    requires '{' !in pre && '}' !in post
    requires |obj| >= 2 && obj[0] == '{' && obj[|obj| - 1] == '}'
    requires parse(obj) == Some(v)
    ensures ParseOr(pre + obj + post, parse, default) == v
  {
    EmbeddedObjectIsSpan(pre, obj, post);
  }

  /** Text without any '{' that precedes a '}' yields the default, whatever the parser. */
  lemma NoBracePairGivesDefault<T>(text: string, parse: string -> Option<T>, default: T)
    requires forall i, j :: 0 <= i < j < |text| && text[i] == '{' ==> text[j] != '}'
    ensures ParseOr(text, parse, default) == default
  {
  }

  /** A '}' in the prose after the object widens the greedy span past the object. */
  lemma TrailingBraceWidensSpan()
    ensures ExtractSpan("{\"a\":1} (see }") == Some("{\"a\":1} (see }")
  {
    var text := "{\"a\":1} (see }";
    assert text[0] == '{' && text[|text| - 1] == '}';
    assert text[0..|text|] == text;
  }
}
