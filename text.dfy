/** String helpers mirroring the JavaScript string operations the source uses. */
module Text {

  /** `xs.join(sep)`. */
  function Join(xs: seq<string>, sep: string): string
  {
    if |xs| == 0 then "" else if |xs| == 1 then xs[0] else xs[0] + sep + Join(xs[1..], sep)
  }

  lemma {:induction false} JoinSnoc(xs: seq<string>, x: string, sep: string)
    requires xs != []
    ensures Join(xs + [x], sep) == Join(xs, sep) + sep + x
  {
    if |xs| == 1 {
      assert (xs + [x])[1..] == [x];
    } else {
      assert (xs + [x])[1..] == xs[1..] + [x];
      JoinSnoc(xs[1..], x, sep);
    }
  }

  /** `s.slice(0, n)`: the first `n` characters, or all of `s` when it is shorter. */
  function Take(s: string, n: nat): (r: string)
    ensures |r| == if |s| <= n then |s| else n
    ensures r <= s
  {
    if |s| <= n then s else s[..n]
  }

  predicate StartsWith(s: string, prefix: string)
  {
    |prefix| <= |s| && s[..|prefix|] == prefix
  }

  /** `sub` occurs in `s` starting at index `i`. */
  predicate OccursAt(s: string, sub: string, i: nat)
  {
    i + |sub| <= |s| && s[i..i + |sub|] == sub
  }

  /** `s.includes(sub)`, written as a search from the left. */
  function Contains(s: string, sub: string): (b: bool)
    ensures b <==> exists i: nat :: OccursAt(s, sub, i)
    decreases |s|
  {
    if |sub| > |s| then false
    else if s[..|sub|] == sub then assert OccursAt(s, sub, 0); true
    else
      var b := Contains(s[1..], sub);
      assert forall i: nat :: OccursAt(s[1..], sub, i) <==> OccursAt(s, sub, i + 1);
      assert !OccursAt(s, sub, 0);
      assert forall i: nat :: OccursAt(s, sub, i) && i > 0 ==> OccursAt(s[1..], sub, i - 1);
      b
  }

  function DigitChar(d: nat): char
    requires d < 10
  {
    "0123456789"[d]
  }

  /** `String(n)` for a non-negative integer: its decimal digits, most significant first. */
  function NatToString(n: nat): (r: string)
    ensures |r| >= 1
    ensures forall i :: 0 <= i < |r| ==> '0' <= r[i] <= '9'
    ensures n < 10 ==> r == [DigitChar(n)]
  {
    if n < 10 then [DigitChar(n)] else NatToString(n / 10) + [DigitChar(n % 10)]
  }

  /** `String(i)` for an integer. */
  function IntToString(i: int): (r: string)
    ensures i >= 0 ==> r == NatToString(i)
    ensures i < 0 ==> r == "-" + NatToString(-i)
  {
    if i < 0 then "-" + NatToString(-i) else NatToString(i)
  }

  /**
   * The characters JavaScript treats as white space in `\s` and `trim()`:
   * the WhiteSpace and LineTerminator code points of ECMAScript.
   */
  predicate IsSpace(c: char)
  {
    var n := c as int;
    (9 <= n <= 13) || n == 32 || n == 0xA0 || n == 0x1680 || (0x2000 <= n <= 0x200A) ||
    n == 0x2028 || n == 0x2029 || n == 0x202F || n == 0x205F || n == 0x3000 || n == 0xFEFF
  }

  predicate IsUpper(c: char)
  {
    'A' <= c <= 'Z'
  }

  predicate IsWordChar(c: char)
  {
    ('A' <= c <= 'Z') || ('a' <= c <= 'z') || ('0' <= c <= '9') || c == '_'
  }

  function LowerChar(c: char): char
  {
    if 'A' <= c <= 'Z' then (c as int + 32) as char else c
  }

  function UpperChar(c: char): char
  {
    if 'a' <= c <= 'z' then (c as int - 32) as char else c
  }

  /** `s.toLowerCase()` on the ASCII letters. */
  function ToLower(s: string): (r: string)
    ensures |r| == |s|
    ensures forall i :: 0 <= i < |s| ==> r[i] == LowerChar(s[i])
  {
    if s == [] then [] else [LowerChar(s[0])] + ToLower(s[1..])
  }

  /** `s.toUpperCase()` on the ASCII letters. */
  function ToUpper(s: string): (r: string)
    ensures |r| == |s|
    ensures forall i :: 0 <= i < |s| ==> r[i] == UpperChar(s[i])
  {
    if s == [] then [] else [UpperChar(s[0])] + ToUpper(s[1..])
  }

  /** True when `s` and `t` are equal up to the case of ASCII letters (the regex `i` flag). */
  predicate EqualIgnoringCase(s: string, t: string)
  {
    |s| == |t| && forall i :: 0 <= i < |s| ==> LowerChar(s[i]) == LowerChar(t[i])
  }

  /** Everything before the first occurrence of `c` (`s.split(c)[0]`). */
  function Before(s: string, c: char): (r: string)
    ensures r <= s
    ensures c !in r
    ensures |r| < |s| ==> s[|r|] == c
  {
    if s == [] then "" else if s[0] == c then "" else [s[0]] + Before(s[1..], c)
  }

  /** Everything after the first occurrence of `c`, or "" when there is none. */
  function After(s: string, c: char): (r: string)
  {
    if s == [] then "" else if s[0] == c then s[1..] else After(s[1..], c)
  }

  lemma {:induction false} BeforeAfterSplit(s: string, c: char)
    requires c in s
    ensures s == Before(s, c) + [c] + After(s, c)
  {
    if s[0] != c {
      BeforeAfterSplit(s[1..], c);
    }
  }

  lemma {:induction false} BeforeWithout(s: string, c: char)
    requires c !in s
    ensures Before(s, c) == s
  {
    if s != [] {
      assert c !in s[1..];
      BeforeWithout(s[1..], c);
    }
  }

  lemma {:induction false} BeforeJoined(a: string, c: char, b: string)
    requires c !in a
    ensures Before(a + [c] + b, c) == a
    ensures After(a + [c] + b, c) == b
  {
    if a != [] {
      assert (a + [c] + b)[1..] == a[1..] + [c] + b;
      BeforeJoined(a[1..], c, b);
    }
  }

  /** `xs.map((x, i) => open + (i + 1) + close + x)`: the items numbered from 1, in order. */
  function Numbered(xs: seq<string>, open: string, close: string): (r: seq<string>)
    ensures |r| == |xs|
    ensures forall i :: 0 <= i < |xs| ==> r[i] == open + NatToString(i + 1) + close + xs[i]
  {
    seq(|xs|, i requires 0 <= i < |xs| => open + NatToString(i + 1) + close + xs[i])
  }

  /** Speeches numbered "[1] ", "[2] ", ... and separated by blank lines, as both steelman prompts render them. */
  function SpeechList(speeches: seq<string>): string
  {
    Join(Numbered(speeches, "[", "] "), "\n\n")
  }

  /** The middle piece of a three-part concatenation occurs right after the first; a layout helper. */
  lemma OccursInConcat(a: string, b: string, c: string)
    ensures OccursAt(a + b + c, b, |a|)
  {
    assert (a + b + c)[|a|..|a| + |b|] == b;
  }

  /** The second piece of a concatenation occurs right after the first; a layout helper. */
  lemma OccursAtEnd(a: string, b: string)
    ensures OccursAt(a + b, b, |a|)
  {
    assert (a + b)[|a|..|a| + |b|] == b;
  }

  /** An occurrence survives appending; a layout helper. */
  lemma OccursExtended(s: string, t: string, sub: string, i: nat)
    requires OccursAt(s, sub, i)
    ensures OccursAt(s + t, sub, i)
  {
    assert (s + t)[i..i + |sub|] == s[i..i + |sub|];
  }

  /**
   * In `a + h + b + x + c + y + d + e`, the pieces h, b, c and y sit at the
   * offsets their prefixes add up to.
   */
  lemma FourPiecesInOrder(a: string, h: string, b: string, x: string, c: string, y: string, d: string, e: string)
    ensures var p := a + h + b + x + c + y + d + e;
            OccursAt(p, h, |a|) && OccursAt(p, b, |a| + |h|) &&
            OccursAt(p, c, |a| + |h| + |b| + |x|) && OccursAt(p, y, |a| + |h| + |b| + |x| + |c|)
  {
    var p := a + h + b + x + c + y + d + e;
    assert p[|a|..|a| + |h|] == h;
    assert p[|a| + |h|..|a| + |h| + |b|] == b;
    assert p[|a| + |h| + |b| + |x|..|a| + |h| + |b| + |x| + |c|] == c;
    assert p[|a| + |h| + |b| + |x| + |c|..|a| + |h| + |b| + |x| + |c| + |y|] == y;
  }

  /**
   * The same, stated as "h followed by b occurs before c followed by y", with
   * a the opening text of the whole.
   */
  lemma TwoSectionsInOrder(a: string, h: string, b: string, x: string, c: string, y: string, d: string, e: string)
    ensures var p := a + h + b + x + c + y + d + e;
            StartsWith(p, a) &&
            exists i: nat, j: nat ::
              OccursAt(p, h, i) && OccursAt(p, b, i + |h|) &&
              OccursAt(p, c, j) && OccursAt(p, y, j + |c|) &&
              i + |h| + |b| <= j
  {
    FourPiecesInOrder(a, h, b, x, c, y, d, e);
    var p := a + h + b + x + c + y + d + e;
    assert p[..|a|] == a;
    var i: nat, j: nat := |a|, |a| + |h| + |b| + |x|;
    assert OccursAt(p, h, i) && OccursAt(p, b, i + |h|) && OccursAt(p, c, j) && OccursAt(p, y, j + |c|);
  }

  /** An occurrence moves right by the length of a prefix; a layout helper. */
  lemma OccursShifted(pre: string, s: string, sub: string, i: nat)
    requires OccursAt(s, sub, i)
    ensures OccursAt(pre + s, sub, |pre| + i)
  {
    assert (pre + s)[|pre| + i..|pre| + i + |sub|] == s[i..i + |sub|];
  }

  /** An occurrence inside an occurrence. */
  lemma OccursNested(s: string, t: string, sub: string, i: nat, j: nat)
    requires OccursAt(s, t, i) && OccursAt(t, sub, j)
    ensures OccursAt(s, sub, i + j)
  {
    forall m | 0 <= m < |sub|
      ensures s[i + j + m] == sub[m]
    {
      assert s[i + j + m] == s[i..i + |t|][j + m] == t[j + m];
      assert t[j + m] == t[j..j + |sub|][m];
    }
    assert s[i + j..i + j + |sub|] == sub;
  }

  lemma {:induction false} JoinAppend(a: seq<string>, b: seq<string>, sep: string)
    requires a != [] && b != []
    ensures Join(a + b, sep) == Join(a, sep) + sep + Join(b, sep)
  {
    if |a| == 1 {
      assert (a + b)[1..] == b;
    } else {
      assert (a + b)[1..] == a[1..] + b;
      JoinAppend(a[1..], b, sep);
    }
  }

  /** Where the k-th item starts in `Join(xs, sep)`. */
  function JoinOffset(xs: seq<string>, sep: string, k: nat): nat
    requires k <= |xs|
  {
    if k == 0 then 0 else |Join(xs[..k], sep)| + |sep|
  }

  /** Each item of a join sits at its offset. */
  lemma JoinItemAt(xs: seq<string>, sep: string, k: nat)
    requires k < |xs|
    ensures OccursAt(Join(xs, sep), xs[k], JoinOffset(xs, sep, k))
  {
    var upTo := xs[..k + 1];
    if k == 0 {
      assert Join(upTo, sep) == xs[k];
    } else {
      assert xs[..k + 1] == xs[..k] + [xs[k]];
      JoinSnoc(xs[..k], xs[k], sep);
    }
    assert OccursAt(Join(upTo, sep), xs[k], JoinOffset(xs, sep, k));
    if k + 1 < |xs| {
      assert xs == upTo + xs[k + 1..];
      JoinAppend(upTo, xs[k + 1..], sep);
      OccursExtended(Join(upTo, sep), sep + Join(xs[k + 1..], sep), xs[k], JoinOffset(xs, sep, k));
    } else {
      assert xs == upTo;
    }
  }

  /** The same after a prefix. */
  lemma JoinItemAfter(head: string, xs: seq<string>, sep: string, k: nat)
    requires k < |xs|
    ensures OccursAt(head + Join(xs, sep), xs[k], |head| + JoinOffset(xs, sep, k))
  {
    JoinItemAt(xs, sep, k);
    OccursShifted(head, Join(xs, sep), xs[k], JoinOffset(xs, sep, k));
  }

  lemma JoinOffsetNext(xs: seq<string>, sep: string, k: nat)
    requires k + 1 < |xs|
    ensures JoinOffset(xs, sep, k + 1) == JoinOffset(xs, sep, k) + |xs[k]| + |sep|
  {
    if k > 0 {
      assert xs[..k + 1] == xs[..k] + [xs[k]];
      JoinSnoc(xs[..k], xs[k], sep);
    } else {
      assert xs[..1] == [xs[0]];
    }
  }

  /** Items of a join appear in their order and do not overlap. */
  lemma {:induction false} JoinItemsInOrder(xs: seq<string>, sep: string, i: nat, j: nat)
    requires i < j < |xs|
    ensures JoinOffset(xs, sep, i) + |xs[i]| <= JoinOffset(xs, sep, j)
  {
    JoinOffsetNext(xs, sep, j - 1);
    if i < j - 1 {
      JoinItemsInOrder(xs, sep, i, j - 1);
    }
  }

  /** Items numbered "1. ", "2. ", ... one per line, as the guard and drafter prompts list compromise paths. */
  function PathList(paths: seq<string>): string
  {
    Join(Numbered(paths, "", ". "), "\n")
  }

  /** The line for the k-th path. */
  function PathLine(k: nat, path: string): string
  {
    NatToString(k) + ". " + path
  }

  /** Text found in the body of a section is found in the joined sections. */
  lemma InSection(xs: seq<string>, sep: string, i: nat, header: string, body: string, sub: string, at: nat)
    requires i < |xs| && xs[i] == header + body && OccursAt(body, sub, at)
    ensures OccursAt(Join(xs, sep), sub, JoinOffset(xs, sep, i) + (|header| + at))
  {
    OccursShifted(header, body, sub, at);
    JoinItemAt(xs, sep, i);
    OccursNested(Join(xs, sep), xs[i], sub, JoinOffset(xs, sep, i), |header| + at);
  }

  /** The k-th path (from 1) appears in the list as the line "k. path". */
  lemma PathListed(paths: seq<string>, k: nat)
    requires 1 <= k <= |paths|
    ensures OccursAt(PathList(paths), PathLine(k, paths[k - 1]), JoinOffset(Numbered(paths, "", ". "), "\n", k - 1))
  {
    var items := Numbered(paths, "", ". ");
    JoinItemAt(items, "\n", k - 1);
    assert items[k - 1] == "" + NatToString(k) + ". " + paths[k - 1];
    assert "" + NatToString(k) == NatToString(k);
  }

  /** `s` without its leading white space. */
  function TrimStart(s: string): (r: string)
    ensures |r| <= |s| && r == s[|s| - |r|..]
    ensures r == [] || !IsSpace(r[0])
    ensures forall k :: 0 <= k < |s| - |r| ==> IsSpace(s[k])
  {
    if s == [] || !IsSpace(s[0]) then s else TrimStart(s[1..])
  }

  /** `s` without its trailing white space. */
  function TrimEnd(s: string): (r: string)
    ensures |r| <= |s| && r == s[..|r|]
    ensures r == [] || !IsSpace(r[|r| - 1])
    ensures forall k :: |r| <= k < |s| ==> IsSpace(s[k])
  {
    if s == [] || !IsSpace(s[|s| - 1]) then s else TrimEnd(s[..|s| - 1])
  }

  /** `s.trim()`. */
  function Trim(s: string): (r: string)
    ensures r == [] || (!IsSpace(r[0]) && !IsSpace(r[|r| - 1]))
  {
    TrimEnd(TrimStart(s))
  }

  /** A string that neither starts nor ends with white space is its own trim. */
  lemma TrimmedIsFixed(s: string)
    requires s == [] || (!IsSpace(s[0]) && !IsSpace(s[|s| - 1]))
    ensures Trim(s) == s
  {
  }
}
