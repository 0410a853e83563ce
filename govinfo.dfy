/** Speech text normalisation (the pure part of the GovInfo client). */
module GovInfo {
  import opened Wrappers
  import opened Text

  // ---------------------------------------------------------------------
  // htmlToPlainText
  // ---------------------------------------------------------------------

  predicate StartsWithIgnoringCase(s: string, prefix: string)
  {
    |prefix| <= |s| && EqualIgnoringCase(s[..|prefix|], prefix)
  }

  /** The first index at or after `from` holding `c`. */
  function FirstFrom(s: string, c: char, from: nat): (r: Option<nat>)
    ensures r.Some? ==> from <= r.value < |s| && s[r.value] == c
    ensures r.Some? ==> forall k :: from <= k < r.value ==> s[k] != c
    ensures r.None? ==> forall k :: from <= k < |s| ==> s[k] != c
    decreases |s| - from
  {
    if from >= |s| then None else if s[from] == c then Some(from) else FirstFrom(s, c, from + 1)
  }

  /** The first index at or after `from` where `sub` occurs, ignoring case. */
  function FindIgnoringCase(s: string, sub: string, from: nat): (r: Option<nat>)
    ensures r.Some? ==> from <= r.value && r.value + |sub| <= |s|
    decreases |s| - from
  {
    if from + |sub| > |s| then None
    else if EqualIgnoringCase(s[from..from + |sub|], sub) then Some(from)
    else FindIgnoringCase(s, sub, from + 1)
  }

  /**
   * The length of a match of /<open[^>]*>[\s\S]*?close/i at the start of `s`:
   * the opening tag runs to the first '>', the body to the first closing tag.
   */
  function BlockAt(s: string, open: string, close: string): (r: Option<nat>)
    ensures r.Some? ==> 0 < r.value <= |s|
  {
    if !StartsWithIgnoringCase(s, open) then None
    else
      match FirstFrom(s, '>', |open|)
      case None => None
      case Some(k) =>
        match FindIgnoringCase(s, close, k + 1)
        case None => None
        case Some(j) => Some(j + |close|)
  }

  /** `s.replace(/<open[^>]*>[\s\S]*?close/gi, "")`. */
  function StripBlocks(s: string, open: string, close: string): (r: string)
    ensures |r| <= |s| && forall c :: c in r ==> c in s
    decreases |s|
  {
    if s == [] then []
    else
      match BlockAt(s, open, close)
      case Some(n) => StripBlocks(s[n..], open, close)
      case None => [s[0]] + StripBlocks(s[1..], open, close)
  }

  /** The length of a match of /<[^>]+>/ at the start of `s`: a '<', at least one other character, the first '>'. */
  function TagAt(s: string): (r: Option<nat>)
    ensures r.Some? ==> 3 <= r.value <= |s|
  {
    if s == [] || s[0] != '<' then None
    else
      match FirstFrom(s, '>', 1)
      case None => None
      case Some(j) => if j >= 2 then Some(j + 1) else None
  }

  /** `s.replace(/<[^>]+>/g, " ")`. */
  function StripTags(s: string): (r: string)
    ensures |r| <= |s| && forall c :: c in r ==> c in s || c == ' '
    decreases |s|
  {
    if s == [] then []
    else
      match TagAt(s)
      case Some(n) => " " + StripTags(s[n..])
      case None => [s[0]] + StripTags(s[1..])
  }

  /** `s.replace(/pat/g, rep)` for a literal pattern: non-overlapping, left to right. */
  function ReplaceAll(s: string, pat: string, rep: string): (r: string)
    requires |pat| > 0
    ensures |rep| <= |pat| ==> |r| <= |s|
    decreases |s|
  {
    if StartsWith(s, pat) then rep + ReplaceAll(s[|pat|..], pat, rep)
    else if s == [] then []
    else [s[0]] + ReplaceAll(s[1..], pat, rep)
  }

  /** The six entity replacements, in the source's order (`&amp;` before `&lt;`). */
  function DecodeEntities(s: string): (r: string)
    ensures |r| <= |s|
  {
    var s1 := ReplaceAll(s, "&nbsp;", " ");
    var s2 := ReplaceAll(s1, "&amp;", "&");
    var s3 := ReplaceAll(s2, "&lt;", "<");
    var s4 := ReplaceAll(s3, "&gt;", ">");
    var s5 := ReplaceAll(s4, "&quot;", "\"");
    ReplaceAll(s5, "&#39;", "'")
  }

  /** No two white-space characters are adjacent. */
  predicate NoDoubleSpace(s: string)
  {
    forall i :: 0 <= i < |s| - 1 ==> !(IsSpace(s[i]) && IsSpace(s[i + 1]))
  }

  /** The only white space is the plain space. */
  predicate OnlyPlainSpaces(s: string)
  {
    forall i :: 0 <= i < |s| ==> IsSpace(s[i]) ==> s[i] == ' '
  }

  /** `s.replace(/\s+/g, " ")`: every run of white space becomes one space. */
  function Collapse(s: string): (r: string)
    ensures NoDoubleSpace(r) && OnlyPlainSpaces(r)
    ensures s != [] && !IsSpace(s[0]) ==> r != [] && r[0] == s[0]
    ensures forall c :: c in r ==> c in s || c == ' '
    decreases |s|
  {
    if s == [] then []
    else if IsSpace(s[0]) then
      var rest := TrimStart(s);
      var r := " " + Collapse(rest);
      assert forall c :: c in rest ==> c in s;
      r
    else
      var r := [s[0]] + Collapse(s[1..]);
      assert forall c :: c in s[1..] ==> c in s;
      r
  }

  /** `htmlToPlainText`. */
  function HtmlToPlainText(html: string): (r: string)
    ensures r == [] || (!IsSpace(r[0]) && !IsSpace(r[|r| - 1]))
    ensures NoDoubleSpace(r)
  {
    var noStyle := StripBlocks(html, "<style", "</style>");
    var noScript := StripBlocks(noStyle, "<script", "</script>");
    var collapsed := Collapse(DecodeEntities(StripTags(noScript)));
    TrimPreservesNoDoubleSpace(collapsed);
    Trim(collapsed)
  }

  lemma SliceKeepsSpacing(s: string, lo: nat, hi: nat)
    requires lo <= hi <= |s|
    ensures NoDoubleSpace(s) ==> NoDoubleSpace(s[lo..hi])
    ensures OnlyPlainSpaces(s) ==> OnlyPlainSpaces(s[lo..hi])
    ensures forall c :: c in s[lo..hi] ==> c in s
  {
    var t := s[lo..hi];
    assert forall i :: 0 <= i < |t| ==> t[i] == s[lo + i];
  }

  lemma TrimPreservesNoDoubleSpace(s: string)
    requires NoDoubleSpace(s)
    ensures NoDoubleSpace(Trim(s))
    ensures OnlyPlainSpaces(s) ==> OnlyPlainSpaces(Trim(s))
    ensures forall c :: c in Trim(s) ==> c in s
  {
    var lo := TrimIsSlice(s);
    SliceKeepsSpacing(s, lo, lo + |Trim(s)|);
  }

  /** The trimmed text is a slice of the text. */
  lemma TrimIsSlice(s: string) returns (lo: nat)
    ensures lo + |Trim(s)| <= |s| && Trim(s) == s[lo..lo + |Trim(s)|]
  {
    var a := TrimStart(s);
    var b := TrimEnd(a);
    lo := |s| - |a|;
    PrefixOfSuffix(s, lo, b);
  }

  lemma PrefixOfSuffix(s: string, lo: nat, b: string)
    requires lo <= |s| && |b| <= |s| - lo && b == s[lo..][..|b|]
    ensures b == s[lo..lo + |b|]
  {
  }

  lemma {:induction false} StripTagsKeepsPlain(a: string, x: string)
    requires '<' !in a
    ensures StripTags(a + x) == a + StripTags(x)
  {
    if a == [] {
      assert a + x == x;
    } else {
      assert (a + x)[0] == a[0] && a[0] in a;
      assert (a + x)[1..] == a[1..] + x;
      StripTagsKeepsPlain(a[1..], x);
    }
  }

  /** Each tag becomes one space, so the words around it stay apart. */
  lemma TagBecomesSpace(a: string, t: string, c: string)
    requires '<' !in a && |t| >= 1 && '>' !in t
    ensures StripTags(a + "<" + t + ">" + c) == a + " " + StripTags(c)
  {
    var tag := "<" + t + ">" + c;
    assert tag[|t| + 1] == '>';
    assert forall k :: 1 <= k < |t| + 1 ==> tag[k] == t[k - 1];
    assert FirstFrom(tag, '>', 1) == Some(|t| + 1);
    assert tag[|t| + 2..] == c;
    assert a + "<" + t + ">" + c == a + tag;
    StripTagsKeepsPlain(a, tag);
  }

  lemma {:induction false} ShortTextHasNoBlock(s: string, open: string, close: string)
    requires |s| < |open|
    ensures StripBlocks(s, open, close) == s
  {
    if s != [] {
      ShortTextHasNoBlock(s[1..], open, close);
    }
  }

  lemma {:induction false} ReplaceAllWithoutAmpersand(s: string, pat: string, rep: string)
    requires |pat| > 0 && pat[0] == '&' && '&' !in s
    ensures ReplaceAll(s, pat, rep) == s
  {
    if s != [] {
      assert !StartsWith(s, pat) by { assert s[0] != pat[0]; }
      ReplaceAllWithoutAmpersand(s[1..], pat, rep);
    }
  }

  lemma DecodeWithoutAmpersand(s: string)
    requires '&' !in s
    ensures DecodeEntities(s) == s
  {
    ReplaceAllWithoutAmpersand(s, "&nbsp;", " ");
    ReplaceAllWithoutAmpersand(s, "&amp;", "&");
    ReplaceAllWithoutAmpersand(s, "&lt;", "<");
    ReplaceAllWithoutAmpersand(s, "&gt;", ">");
    ReplaceAllWithoutAmpersand(s, "&quot;", "\"");
    ReplaceAllWithoutAmpersand(s, "&#39;", "'");
  }

  lemma {:induction false} CollapseFixed(s: string)
    requires NoDoubleSpace(s) && OnlyPlainSpaces(s)
    ensures Collapse(s) == s
  {
    if s != [] {
      SliceKeepsSpacing(s, 1, |s|);
      CollapseFixed(s[1..]);
      if IsSpace(s[0]) {
        assert s[1..] == [] || !IsSpace(s[1..][0]);
        assert TrimStart(s) == s[1..];
      }
    }
  }

  /** "a<b>c" becomes "a c": the tag turns into a separating space. */
  lemma TagExample()
    ensures HtmlToPlainText("a<b>c") == "a c"
  {
    ShortTextHasNoBlock("a<b>c", "<style", "</style>");
    ShortTextHasNoBlock("a<b>c", "<script", "</script>");
    TagExampleStripped();
    TagExampleClean();
  }

  lemma TagExampleStripped()
    ensures StripTags("a<b>c") == "a c"
  {
    TagBecomesSpace("a", "b", "c");
    StripTagsKeepsPlain("c", "");
    assert "a" + "<" + "b" + ">" + "c" == "a<b>c";
    assert "c" + "" == "c";
    assert "a" + " " + "c" == "a c";
  }

  lemma TagExampleClean()
    ensures Trim(Collapse(DecodeEntities("a c"))) == "a c"
  {
    DecodeWithoutAmpersand("a c");
    assert NoDoubleSpace("a c") && OnlyPlainSpaces("a c");
    CollapseFixed("a c");
    TrimmedIsFixed("a c");
  }

  lemma NbspStep()
    ensures ReplaceAll("&amp;lt;", "&nbsp;", " ") == "&amp;lt;"
  {
    assert "&amp;lt;" == "&" + "amp;lt;";
    LoneAmpersandKept("amp;lt;", "&nbsp;", " ");
  }

  /** An ampersand not followed by the rest of the pattern, and no other ampersand, leaves the text unchanged. */
  lemma LoneAmpersandKept(t: string, pat: string, rep: string)
    requires |pat| > 1 && pat[0] == '&' && '&' !in t && (t == [] || t[0] != pat[1])
    ensures ReplaceAll("&" + t, pat, rep) == "&" + t
  {
    var s := "&" + t;
    assert !StartsWith(s, pat) by {
      if |pat| <= |s| {
        assert s[1] == t[0] && s[..|pat|][1] == s[1];
      }
    }
    assert s[1..] == t;
    ReplaceAllWithoutAmpersand(t, pat, rep);
    assert s == [s[0]] + t;
  }

  lemma AmpStep()
    ensures ReplaceAll("&amp;lt;", "&amp;", "&") == "&lt;"
  {
    var s := "&amp;lt;";
    assert s[..5] == "&amp;";
    assert s[5..] == "lt;";
    ReplaceAllWithoutAmpersand("lt;", "&amp;", "&");
    assert "&" + "lt;" == "&lt;";
  }

  lemma LtStep()
    ensures ReplaceAll("&lt;", "&lt;", "<") == "<"
  {
    var s := "&lt;";
    assert s[..4] == "&lt;";
    assert s[4..] == "";
    assert ReplaceAll("", "&lt;", "<") == "";
  }

  /** `&amp;` is decoded before `&lt;`, so "&amp;lt;" decodes twice, to "<". */
  lemma DoubleDecoding()
    ensures DecodeEntities("&amp;lt;") == "<"
  {
    NbspStep();
    AmpStep();
    LtStep();
    ReplaceAllWithoutAmpersand("<", "&gt;", ">");
    ReplaceAllWithoutAmpersand("<", "&quot;", "\"");
    ReplaceAllWithoutAmpersand("<", "&#39;", "'");
  }

  lemma {:induction false} StripTagsWithoutLess(s: string)
    requires '<' !in s
    ensures StripTags(s) == s
  {
    StripTagsKeepsPlain(s, "");
    assert s + "" == s;
  }

  lemma {:induction false} StripBlocksWithoutLess(s: string, open: string, close: string)
    requires '<' !in s && |open| > 0 && open[0] == '<'
    ensures StripBlocks(s, open, close) == s
  {
    if s != [] {
      assert s[0] in s;
      assert |open| <= |s| ==> s[..|open|][0] == s[0] && LowerChar(s[0]) != LowerChar(open[0]);
      assert !StartsWithIgnoringCase(s, open);
      StripBlocksWithoutLess(s[1..], open, close);
    }
  }

  /**
   * Without '<' and '&' only white space is touched: the result is the
   * collapsed, trimmed input, and normalising again changes nothing.
   */
  lemma PlainTextIdempotent(s: string)
    requires '<' !in s && '&' !in s
    ensures HtmlToPlainText(s) == Trim(Collapse(s))
    ensures HtmlToPlainText(HtmlToPlainText(s)) == HtmlToPlainText(s)
  {
    StripBlocksWithoutLess(s, "<style", "</style>");
    StripBlocksWithoutLess(s, "<script", "</script>");
    StripTagsWithoutLess(s);
    DecodeWithoutAmpersand(s);
    var u := Trim(Collapse(s));
    TrimPreservesNoDoubleSpace(Collapse(s));
    assert '<' !in u && '&' !in u;
    StripBlocksWithoutLess(u, "<style", "</style>");
    StripBlocksWithoutLess(u, "<script", "</script>");
    StripTagsWithoutLess(u);
    DecodeWithoutAmpersand(u);
    CollapseFixed(u);
    TrimmedIsFixed(u);
  }

  // ---------------------------------------------------------------------
  // parseSpeaker
  // ---------------------------------------------------------------------

  /** The end of the run of white space starting at `i`. */
  function SpaceRunEnd(s: string, i: nat): (r: nat)
    requires i <= |s|
    ensures i <= r <= |s|
    ensures forall k :: i <= k < r ==> IsSpace(s[k])
    ensures r == |s| || !IsSpace(s[r])
    decreases |s| - i
  {
    if i == |s| || !IsSpace(s[i]) then i else SpaceRunEnd(s, i + 1)
  }

  /** The length of the honorific that opens the first pattern (the four alternatives exclude each other). */
  function TitleLength(s: string): (r: Option<nat>)
    ensures r.Some? ==> r.value <= |s|
  {
    if StartsWith(s, "Mr.") then Some(3)
    else if StartsWith(s, "Ms.") then Some(3)
    else if StartsWith(s, "Mrs.") then Some(4)
    else if StartsWith(s, "Miss") then Some(4)
    else None
  }

  /**
   * Where the lazy name group stops: the first '.' or white space at or after
   * `e`, provided only capitals come before it.
   */
  function NameEnd(s: string, e: nat): (r: Option<nat>)
    ensures r.Some? ==> e <= r.value < |s| && (s[r.value] == '.' || IsSpace(s[r.value]))
    ensures r.Some? ==> forall k :: e <= k < r.value ==> IsUpper(s[k])
    decreases |s| - e
  {
    if e >= |s| then None
    else if s[e] == '.' || IsSpace(s[e]) then Some(e)
    else if IsUpper(s[e]) then NameEnd(s, e + 1)
    else None
  }

  /**
   * The capture of /^(?:Mr\.|Ms\.|Mrs\.|Miss)\s+([A-Z][A-Z\s]+?)(?:\s+of\s+\w+)?[.\s]/:
   * a capital, one capital or space, then capitals up to the first '.' or
   * white space. The optional "of <state>" part never changes the capture.
   */
  function TitledName(s: string): (r: Option<string>)
    ensures r.Some? ==> TitleLength(s).Some? && |r.value| >= 2 && IsUpper(r.value[0])
  {
    match TitleLength(s)
    case None => None
    case Some(t) =>
      var q := SpaceRunEnd(s, t);
      if q == t || q + 1 >= |s| || !IsUpper(s[q]) || !(IsUpper(s[q + 1]) || IsSpace(s[q + 1])) then None
      else
        match NameEnd(s, q + 2)
        case None => None
        case Some(e) => Some(s[q..e])
  }

  /** The length of SPEAKER, PRESIDENT or CHAIR (any case) at the start of `s`. */
  function OfficeLength(s: string): Option<nat>
  {
    if StartsWithIgnoringCase(s, "SPEAKER") then Some(7)
    else if StartsWithIgnoringCase(s, "PRESIDENT") then Some(9)
    else if StartsWithIgnoringCase(s, "CHAIR") then Some(5)
    else None
  }

  /** The length of the optional /\s+pro\s+tempore/i at `o`, or 0. */
  function TemporeLength(s: string, o: nat): (r: nat)
    requires o <= |s|
    ensures o + r <= |s|
  {
    var a := SpaceRunEnd(s, o);
    if a > o && StartsWithIgnoringCase(s[a..], "pro") then
      var b := SpaceRunEnd(s, a + 3);
      if b > a + 3 && StartsWithIgnoringCase(s[b..], "tempore") then b + 7 - o else 0
    else 0
  }

  /** The capture of /^(The\s+(?:SPEAKER|PRESIDENT|CHAIR)(?:\s+pro\s+tempore)?)/i. */
  function OfficeHolder(s: string): (r: Option<string>)
    ensures r.Some? ==> StartsWithIgnoringCase(s, "The") && r.value <= s
  {
    if !StartsWithIgnoringCase(s, "The") then None
    else
      var p := SpaceRunEnd(s, 3);
      if p == 3 then None else OfficeAt(s, p)
  }

  /** The office named at `p` and the optional "pro tempore" after it, as a prefix of `s`. */
  function OfficeAt(s: string, p: nat): (r: Option<string>)
    requires p <= |s|
    ensures r.Some? ==> r.value <= s
  {
    match OfficeLength(s[p..])
    case None => None
    case Some(n) =>
      var o := p + n;
      Some(s[..o + TemporeLength(s, o)])
  }

  /** `parseSpeaker`: the first pattern wins; the capture is trimmed. */
  function ParseSpeaker(text: string): (r: Option<string>)
    ensures r.Some? ==> TitleLength(text).Some? || StartsWithIgnoringCase(text, "The")
    ensures TitledName(text).Some? ==> r.Some? && r.value != [] && IsUpper(r.value[0])
  {
    match TitledName(text)
    case Some(name) => Some(Trim(name))
    case None =>
      match OfficeHolder(text)
      case Some(holder) => Some(Trim(holder))
      case None => None
  }

  predicate AllUpper(s: string)
  {
    forall k :: 0 <= k < |s| ==> IsUpper(s[k])
  }

  predicate AllSpace(s: string)
  {
    forall k :: 0 <= k < |s| ==> IsSpace(s[k])
  }

  predicate IsTitle(t: string)
  {
    t == "Mr." || t == "Ms." || t == "Mrs." || t == "Miss"
  }

  lemma {:induction false} NameEndAt(s: string, from: nat, e: nat)
    requires from <= e < |s| && (s[e] == '.' || IsSpace(s[e]))
    requires forall k :: from <= k < e ==> IsUpper(s[k])
    ensures NameEnd(s, from) == Some(e)
    decreases e - from
  {
    if from < e {
      assert IsUpper(s[from]);
      NameEndAt(s, from + 1, e);
    }
  }

  lemma TitleLengthOf(t: string, rest: string)
    requires IsTitle(t)
    ensures TitleLength(t + rest) == Some(|t|)
  {
    var s := t + rest;
    assert s[..|t|] == t;
    if t == "Mrs." {
      assert s[2] == 's';
    } else if t == "Miss" {
      assert s[1] == 'i';
    }
  }

  lemma TitledNameAt(s: string, t: nat, q: nat, e: nat)
    requires TitleLength(s) == Some(t)
    requires t < q && q + 2 <= e < |s|
    requires forall k :: t <= k < q ==> IsSpace(s[k])
    requires forall k :: q <= k < e ==> IsUpper(s[k])
    requires s[e] == '.' || IsSpace(s[e])
    ensures TitledName(s) == Some(s[q..e])
  {
    assert !IsSpace(s[q]);
    assert SpaceRunEnd(s, t) == q;
    NameEndAt(s, q + 2, e);
  }

  /**
   * After an honorific and white space, the speaker is the run of capitals up to
   * the first '.' or white space: the lazy group stops there, so whatever
   * follows ("of Texas", "LA CRUZ") is not part of the name.
   */
  lemma NameIsCapitalRun(title: string, gap: string, name: string, rest: string)
    requires IsTitle(title) && |gap| >= 1 && AllSpace(gap)
    requires |name| >= 2 && AllUpper(name)
    requires |rest| >= 1 && (rest[0] == '.' || IsSpace(rest[0]))
    ensures ParseSpeaker(title + gap + name + rest) == Some(name)
  {
    CapitalRunCaptured(title, gap, name, rest);
    assert !IsSpace(name[0]) && !IsSpace(name[|name| - 1]);
    TrimmedIsFixed(name);
  }

  lemma CapitalRunCaptured(title: string, gap: string, name: string, rest: string)
    requires IsTitle(title) && |gap| >= 1 && AllSpace(gap)
    requires |name| >= 2 && AllUpper(name)
    requires |rest| >= 1 && (rest[0] == '.' || IsSpace(rest[0]))
    ensures TitledName(title + gap + name + rest) == Some(name)
  {
    TitleLengthOf(title, gap + name + rest);
    assert title + gap + name + rest == title + (gap + name + rest);
    CapitalRunAt(title + gap + name + rest, |title|, gap, name, rest);
  }

  lemma CapitalRunAt(s: string, t: nat, gap: string, name: string, rest: string)
    requires TitleLength(s) == Some(t) && t <= |s| && s[t..] == gap + name + rest
    requires |gap| >= 1 && AllSpace(gap)
    requires |name| >= 2 && AllUpper(name)
    requires |rest| >= 1 && (rest[0] == '.' || IsSpace(rest[0]))
    ensures TitledName(s) == Some(name)
  {
    var q, e := t + |gap|, t + |gap| + |name|;
    assert forall k :: t <= k < q ==> s[k] == s[t..][k - t] == gap[k - t];
    assert forall k :: q <= k < e ==> s[k] == s[t..][k - t] == name[k - q];
    assert s[e] == s[t..][e - t] == rest[0];
    TitledNameAt(s, t, q, e);
    assert s[q..e] == s[t..][|gap|..|gap| + |name|] == name;
  }

  /** "Mr. SMITH of Texas." yields "SMITH". */
  lemma SmithOfTexas()
    ensures ParseSpeaker("Mr. SMITH of Texas.") == Some("SMITH")
  {
    assert "Mr. SMITH of Texas." == "Mr." + " " + "SMITH" + " of Texas.";
    NameIsCapitalRun("Mr.", " ", "SMITH", " of Texas.");
  }

  /** "Mr. DE LA CRUZ." yields only "DE". */
  lemma DeLaCruz()
    ensures ParseSpeaker("Mr. DE LA CRUZ.") == Some("DE")
  {
    assert "Mr. DE LA CRUZ." == "Mr." + " " + "DE" + " LA CRUZ.";
    NameIsCapitalRun("Mr.", " ", "DE", " LA CRUZ.");
  }

  predicate IsOffice(o: string)
  {
    o == "SPEAKER" || o == "PRESIDENT" || o == "CHAIR"
  }

  lemma OfficeLengthOf(office: string, rest: string)
    requires IsOffice(office)
    ensures OfficeLength(office + rest) == Some(|office|)
  {
    var u := office + rest;
    assert u[..|office|] == office;
    assert EqualIgnoringCase(office, office);
    if office != "SPEAKER" {
      assert u[0] != 'S' && LowerChar(u[0]) != 's';
    }
    if office == "CHAIR" {
      assert LowerChar(u[0]) != 'p';
    }
  }

  lemma OfficeHolderAt(s: string, gap: string, office: string, rest: string)
    requires s == "The" + gap + office + rest
    requires |gap| >= 1 && AllSpace(gap) && IsOffice(office)
    requires rest == [] || !IsSpace(rest[0])
    ensures OfficeHolder(s) == Some("The" + gap + office)
  {
    var p := 3 + |gap|;
    var o := p + |office|;
    OpeningLayout(s, gap, office, rest);
    OfficeLengthOf(office, rest);
    OfficeHolderFrom(s, p, |office|);
    assert s[..o] == "The" + gap + office;
  }

  /** "The", the white space after it and the office in `"The" + gap + office + rest`. */
  lemma OpeningLayout(s: string, gap: string, office: string, rest: string)
    requires s == "The" + gap + office + rest
    requires |gap| >= 1 && AllSpace(gap) && office != [] && !IsSpace(office[0])
    requires rest == [] || !IsSpace(rest[0])
    ensures StartsWithIgnoringCase(s, "The") && SpaceRunEnd(s, 3) == 3 + |gap|
    ensures s[3 + |gap|..] == office + rest
    ensures var o := 3 + |gap| + |office|; o == |s| || !IsSpace(s[o])
  {
    var p := 3 + |gap|;
    var o := p + |office|;
    assert s[..3] == "The" && EqualIgnoringCase("The", "The");
    assert forall k :: 3 <= k < p ==> s[k] == gap[k - 3];
    assert s[p..] == office + rest;
    assert office[0] == s[p];
    assert o == |s| || s[o] == rest[0];
  }

  lemma OfficeHolderFrom(s: string, p: nat, n: nat)
    requires StartsWithIgnoringCase(s, "The") && 3 < p <= |s| && SpaceRunEnd(s, 3) == p
    requires OfficeLength(s[p..]) == Some(n) && p + n <= |s| && (p + n == |s| || !IsSpace(s[p + n]))
    ensures OfficeHolder(s) == Some(s[..p + n])
  {
    OfficeWithoutTempore(s, p, n);
  }

  lemma OfficeWithoutTempore(s: string, p: nat, n: nat)
    requires p + n <= |s| && OfficeLength(s[p..]) == Some(n) && (p + n == |s| || !IsSpace(s[p + n]))
    ensures OfficeAt(s, p) == Some(s[..p + n])
  {
    TemporeAbsent(s, p + n);
  }

  lemma TemporeAbsent(s: string, o: nat)
    requires o <= |s| && (o == |s| || !IsSpace(s[o]))
    ensures TemporeLength(s, o) == 0
  {
    assert SpaceRunEnd(s, o) == o;
  }

  /**
   * Text without an honorific that opens with "The", white space and one of
   * the three offices yields that prefix (the optional "pro tempore" absent).
   */
  lemma PresidingOfficer(gap: string, office: string, rest: string)
    requires |gap| >= 1 && AllSpace(gap) && IsOffice(office)
    requires rest == [] || !IsSpace(rest[0])
    ensures ParseSpeaker("The" + gap + office + rest) == Some("The" + gap + office)
  {
    var s := "The" + gap + office + rest;
    assert s[0] == 'T';
    assert TitleLength(s).None?;
    OfficeHolderAt(s, gap, office, rest);
    var h := "The" + gap + office;
    assert h[0] == 'T' && h[|h| - 1] == office[|office| - 1];
    TrimmedIsFixed(h);
  }
}
