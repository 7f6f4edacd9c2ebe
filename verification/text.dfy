/** The JavaScript string operations the handlers and tables rely on:
    `startsWith`, `includes`, `trim`, `toLowerCase`, `split(c)[0]`,
    a global `replace` and `join`. */
module Text {
  import opened Wrappers

  /** A request field is truthy: present and not the empty string. */
  predicate Given(s: Option<string>)
  {
    s.Some? && s.value != ""
  }

  /** `x || "-"` on a text cell. */
  function OrDash(s: Option<string>): (r: string)
    ensures Given(s) ==> r == s.value
    ensures !Given(s) ==> r == "-"
  {
    if Given(s) then s.value else "-"
  }

  /** The characters matched by `\s` in a JavaScript regular expression and
      removed by `String.prototype.trim`. */
  predicate IsSpace(c: char) {
    || c == '\t' || c == '\n' || c == '\U{000B}' || c == '\U{000C}' || c == '\r'
    || c == ' ' || c == '\U{00A0}' || c == '\U{1680}'
    || ('\U{2000}' <= c <= '\U{200A}')
    || c == '\U{2028}' || c == '\U{2029}' || c == '\U{202F}' || c == '\U{205F}'
    || c == '\U{3000}' || c == '\U{FEFF}'
  }

  /** Every character is white space (the empty string included). */
  predicate IsBlank(s: string) {
    forall i :: 0 <= i < |s| ==> IsSpace(s[i])
  }

  predicate StartsWith(s: string, prefix: string) {
    |prefix| <= |s| && s[..|prefix|] == prefix
  }

  /** `sub` occurs in `s` starting at index `i`. */
  predicate MatchAt(s: string, sub: string, i: int) {
    0 <= i && i + |sub| <= |s| && s[i..i + |sub|] == sub
  }

  /** `s.includes(sub)`, as the scan the runtime performs. */
  predicate Includes(s: string, sub: string)
    decreases |s|
  {
    StartsWith(s, sub) || (|s| > 0 && Includes(s[1..], sub))
  }

  /** A joined text includes each of its parts. */
  lemma IncludesPart(x: string, b: string, y: string)
    ensures Includes(x + b + y, b)
  {
    var s := x + b + y;
    assert s[|x|..|x| + |b|] == b;
    assert MatchAt(s, b, |x|);
    IncludesIffMatch(s, b);
  }

  /** The scan finds `sub` exactly when some window of `s` equals it. */
  lemma {:induction false} IncludesIffMatch(s: string, sub: string)
    ensures Includes(s, sub) <==> exists i :: MatchAt(s, sub, i)
    decreases |s|
  {
    if StartsWith(s, sub) {
      assert MatchAt(s, sub, 0);
    } else if |s| > 0 {
      IncludesIffMatch(s[1..], sub);
      if exists i :: MatchAt(s, sub, i) {
        var i :| MatchAt(s, sub, i);
        assert s[..|sub|] == s[0..0 + |sub|];
        assert i > 0;
        assert s[1..][i - 1..i - 1 + |sub|] == s[i..i + |sub|];
        assert MatchAt(s[1..], sub, i - 1);
      }
      if Includes(s[1..], sub) {
        var i :| MatchAt(s[1..], sub, i);
        assert s[i + 1..i + 1 + |sub|] == s[1..][i..i + |sub|];
        assert MatchAt(s, sub, i + 1);
      }
    }
  }

  /** A string that lacks one of the characters of `sub` does not include it. */
  lemma MissingCharExcludes(s: string, sub: string, c: char)
    requires c in sub && c !in s
    ensures !Includes(s, sub)
  {
    IncludesIffMatch(s, sub);
  }

  /** The empty string is included in every string, so an empty search
      keeps every row. */
  lemma IncludesEmpty(s: string)
    ensures Includes(s, "")
  {
    assert StartsWith(s, "");
  }

  /** `s.trimStart()`: the text after its leading white space. */
  function TrimStart(s: string): (r: string)
    ensures |r| <= |s| && r == s[|s| - |r|..]
    ensures r == [] || !IsSpace(r[0])
  {
    if |s| > 0 && IsSpace(s[0]) then
      var r := TrimStart(s[1..]);
      assert s[1..][|s| - 1 - |r|..] == s[|s| - |r|..];
      r
    else s
  }

  /** What `TrimStart` removes is blank, and it removes everything exactly
      when the text is blank. */
  lemma {:induction false} TrimStartBlanks(s: string)
    ensures IsBlank(s[..|s| - |TrimStart(s)|])
    ensures TrimStart(s) == [] <==> IsBlank(s)
  {
    if |s| > 0 && IsSpace(s[0]) {
      TrimStartBlanks(s[1..]);
      BlankCons(s, |s| - |TrimStart(s)|);
    } else if |s| > 0 {
      assert !IsSpace(s[0]);
    }
  }

  /** A blank prefix of `s[1..]`, after a leading blank, is a blank prefix of
      `s`; and `s` is blank exactly when `s[1..]` is. */
  lemma BlankCons(s: string, k: nat)
    requires |s| > 0 && IsSpace(s[0]) && 0 < k <= |s|
    requires IsBlank(s[1..][..k - 1])
    ensures IsBlank(s[..k])
    ensures IsBlank(s) <==> IsBlank(s[1..])
  {
    forall i | 0 <= i < k
      ensures IsSpace(s[..k][i])
    {
      if i > 0 {
        assert s[..k][i] == s[1..][..k - 1][i - 1];
      }
    }
    forall i | 1 <= i < |s|
      ensures s[i] == s[1..][i - 1]
    {
    }
  }

  /** `s.trimEnd()`: the text before its trailing white space. */
  function TrimEnd(s: string): (r: string)
    ensures |r| <= |s| && r == s[..|r|]
    ensures r == [] || !IsSpace(r[|r| - 1])
  {
    if |s| > 0 && IsSpace(s[|s| - 1]) then
      var r := TrimEnd(s[..|s| - 1]);
      assert s[..|s| - 1][..|r|] == s[..|r|];
      r
    else s
  }

  /** What `TrimEnd` removes is blank, and it removes everything exactly
      when the text is blank. */
  lemma {:induction false} TrimEndBlanks(s: string)
    ensures IsBlank(s[|TrimEnd(s)|..])
    ensures TrimEnd(s) == [] <==> IsBlank(s)
  {
    if |s| > 0 && IsSpace(s[|s| - 1]) {
      var init := s[..|s| - 1];
      TrimEndBlanks(init);
      var k := |TrimEnd(s)|;
      forall j | 0 <= j < |s| - k
        ensures IsSpace(s[k..][j])
      {
        if j < |s| - 1 - k {
          assert s[k..][j] == init[k..][j];
        }
      }
      forall i | 0 <= i < |s| - 1
        ensures s[i] == init[i]
      {
      }
    } else if |s| > 0 {
      assert !IsSpace(s[|s| - 1]);
    }
  }

  /** `s.trim()`. */
  function Trim(s: string): (r: string)
  {
    TrimEnd(TrimStart(s))
  }

  /** A trimmed text starts and ends with a character that is not white
      space. */
  lemma TrimEdges(s: string)
    ensures Trim(s) != [] ==> !IsSpace(Trim(s)[0])
    ensures Trim(s) != [] ==> !IsSpace(Trim(s)[|Trim(s)| - 1])
  {
    var t := Trim(s);
    if t != [] {
      assert t[0] == TrimStart(s)[0];
    }
  }

  /** `s.trim() === ""` exactly when every character of `s` is white space. */
  lemma TrimEmptyIffBlank(s: string)
    ensures Trim(s) == "" <==> IsBlank(s)
  {
    TrimStartBlanks(s);
    TrimEndBlanks(TrimStart(s));
  }

  function LowerChar(c: char): char {
    if 'A' <= c <= 'Z' then (c as int + 32) as char else c
  }

  /** `s.toLowerCase()`, restricted to the ASCII letters. */
  function ToLower(s: string): (r: string)
    ensures |r| == |s|
    ensures forall i :: 0 <= i < |s| ==> r[i] == LowerChar(s[i])
  {
    if s == [] then [] else [LowerChar(s[0])] + ToLower(s[1..])
  }

  /** `s.toLowerCase().includes(sub.toLowerCase())`: the tables' search
      test. */
  predicate ContainsIgnoringCase(s: string, sub: string)
  {
    Includes(ToLower(s), ToLower(sub))
  }

  /** The empty search is contained in every text. */
  lemma EmptySearchMatches(s: string)
    ensures ContainsIgnoringCase(s, "")
  {
    IncludesEmpty(ToLower(s));
  }

  /** `s.split(c)[0]`: everything before the first `c`, or all of `s`. */
  function BeforeFirst(s: string, c: char): (r: string)
    ensures StartsWith(s, r)
    ensures c !in r
    ensures |r| < |s| ==> s[|r|] == c
  {
    if s == [] then []
    else if s[0] == c then []
    else [s[0]] + BeforeFirst(s[1..], c)
  }

  /** `s.replace(/p/g, r)`: scans left to right and replaces every
      non-overlapping occurrence of `p` by `r`; the text of `r` is never
      scanned again. */
  function ReplaceAll(s: string, p: string, r: string): string
    requires |p| > 0
    decreases |s|
  {
    if |s| < |p| then s
    else if s[..|p|] == p then r + ReplaceAll(s[|p|..], p, r)
    else [s[0]] + ReplaceAll(s[1..], p, r)
  }

  /** No occurrence of `p` starts inside `x`, not even one that runs on into a
      `p` written right after `x`. */
  predicate Literal(x: string, p: string) {
    forall j :: 0 <= j < |x| ==> !MatchAt(x + p, p, j)
  }

  lemma {:induction false} LiteralTail(x: string, p: string)
    requires |x| > 0 && Literal(x, p)
    ensures Literal(x[1..], p)
  {
    forall j | 0 <= j < |x| - 1 ensures !MatchAt(x[1..] + p, p, j) {
      assert (x[1..] + p)[j..j + |p|] == (x + p)[j + 1..j + 1 + |p|];
      assert !MatchAt(x + p, p, j + 1);
    }
  }

  /** A literal piece of text is left as it is. */
  lemma {:induction false} ReplaceAllLiteral(x: string, p: string, r: string)
    requires |p| > 0 && Literal(x, p)
    ensures ReplaceAll(x, p, r) == x
    decreases |x|
  {
    if |x| >= |p| {
      assert (x + p)[0..|p|] == x[..|p|];
      assert !MatchAt(x + p, p, 0);
      LiteralTail(x, p);
      ReplaceAllLiteral(x[1..], p, r);
      assert x == [x[0]] + x[1..];
    }
  }

  /** The first occurrence after a literal prefix is replaced, and the scan
      goes on after it. */
  lemma {:induction false} ReplaceAllAfterLiteral(x: string, y: string, p: string, r: string)
    requires |p| > 0 && Literal(x, p)
    ensures ReplaceAll(x + p + y, p, r) == x + r + ReplaceAll(y, p, r)
    decreases |x|
  {
    var s := x + p + y;
    if |x| == 0 {
      assert s == p + y && s[..|p|] == p && s[|p|..] == y;
    } else {
      assert s[..|p|] == (x + p)[0..|p|];
      assert !MatchAt(x + p, p, 0);
      assert s[1..] == x[1..] + p + y;
      LiteralTail(x, p);
      ReplaceAllAfterLiteral(x[1..], y, p, r);
      assert x + r + ReplaceAll(y, p, r) == [x[0]] + (x[1..] + r + ReplaceAll(y, p, r));
    }
  }

  /** `parts.join(sep)`. */
  function Join(parts: seq<string>, sep: string): string
  {
    if |parts| == 0 then ""
    else if |parts| == 1 then parts[0]
    else parts[0] + sep + Join(parts[1..], sep)
  }

  /** A text included in `y` is included in `x + y`. */
  lemma IncludesAfter(x: string, y: string, sub: string)
    requires Includes(y, sub)
    ensures Includes(x + y, sub)
  {
    IncludesIffMatch(y, sub);
    var i :| MatchAt(y, sub, i);
    assert (x + y)[|x| + i..|x| + i + |sub|] == y[i..i + |sub|];
    assert MatchAt(x + y, sub, |x| + i);
    IncludesIffMatch(x + y, sub);
  }

  /** A text is included in any text that starts with it. */
  lemma IncludesPrefix(s: string, rest: string)
    ensures Includes(s + rest, s)
  {
    assert (s + rest)[..|s|] == s;
  }

  /** `parts.join(sep)` includes every part. */
  lemma {:induction false} JoinIncludesParts(parts: seq<string>, sep: string)
    ensures forall k :: 0 <= k < |parts| ==> Includes(Join(parts, sep), parts[k])
  {
    if |parts| == 1 {
      IncludesPrefix(parts[0], "");
      assert parts[0] + "" == parts[0];
    } else if |parts| > 1 {
      var tail := Join(parts[1..], sep);
      JoinIncludesParts(parts[1..], sep);
      assert Join(parts, sep) == parts[0] + (sep + tail);
      IncludesPrefix(parts[0], sep + tail);
      forall k | 1 <= k < |parts|
        ensures Includes(Join(parts, sep), parts[k])
      {
        assert parts[1..][k - 1] == parts[k];
        IncludesAfter(sep, tail, parts[k]);
        IncludesAfter(parts[0], sep + tail, parts[k]);
      }
    }
  }

  /** With a non-empty separator the join is empty only for no parts or one
      empty part. */
  lemma JoinEmpty(parts: seq<string>, sep: string)
    requires sep != ""
    ensures Join(parts, sep) == "" <==> |parts| == 0 || (|parts| == 1 && parts[0] == "")
  {
    if |parts| > 1 {
      assert |Join(parts, sep)| >= |sep|;
    }
  }

  /** Every occurrence of a placeholder is replaced: a text made of literal
      pieces separated by the placeholder becomes the same pieces separated
      by the replacement. */
  lemma {:induction false} ReplaceAllEveryOccurrence(parts: seq<string>, p: string, r: string)
    requires |p| > 0
    requires forall i :: 0 <= i < |parts| ==> Literal(parts[i], p)
    ensures ReplaceAll(Join(parts, p), p, r) == Join(parts, r)
  {
    if |parts| == 0 {
    } else if |parts| == 1 {
      ReplaceAllLiteral(parts[0], p, r);
    } else {
      ReplaceAllAfterLiteral(parts[0], Join(parts[1..], p), p, r);
      ReplaceAllEveryOccurrence(parts[1..], p, r);
    }
  }
}
