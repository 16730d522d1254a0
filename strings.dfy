/**
 * JavaScript string primitives the job-hunt assistant relies on: the `\s`
 * character class, `trim`, `toLowerCase`, `includes`, `startsWith`,
 * `split` on one character, the `/\s+/g` collapse and number formatting.
 */
module Strings {

  type String = seq<char>

  /** ECMAScript LineTerminator: what `.` in a regex refuses to match. */
  predicate IsLineTerminator(c: char) {
    c == '\n' || c == '\r' || c == '\U{2028}' || c == '\U{2029}'
  }

  /** ECMAScript WhiteSpace or LineTerminator: what `\s` matches and `trim` strips. */
  predicate IsSpace(c: char) {
    c == '\t' || c == '\U{B}' || c == '\U{C}' || c == ' ' || c == '\U{A0}' || c == '\U{FEFF}'
    || c == '\U{1680}' || ('\U{2000}' <= c <= '\U{200A}') || c == '\U{202F}' || c == '\U{205F}'
    || c == '\U{3000}' || IsLineTerminator(c)
  }

  /** `t.substr(a, n)` for in-range `a` and `n`. */
  function Slice(t: String, a: int, n: int): String
    requires 0 <= a && 0 <= n && a + n <= |t|
  {
    t[a..a + n]
  }


  /** `s.trimStart()` */
  function TrimStart(s: String): (r: String)
    ensures |r| <= |s| && r == s[|s| - |r|..]
    ensures forall i :: 0 <= i < |s| - |r| ==> IsSpace(s[i])
    ensures r == [] || !IsSpace(r[0])
  {
    if s != [] && IsSpace(s[0]) then TrimStart(s[1..]) else s
  }

  /** `s.trimEnd()` */
  function TrimEnd(s: String): (r: String)
    ensures |r| <= |s| && r == s[..|r|]
    ensures forall i :: |r| <= i < |s| ==> IsSpace(s[i])
    ensures r == [] || !IsSpace(r[|r| - 1])
  {
    if s != [] && IsSpace(s[|s| - 1]) then TrimEnd(s[..|s| - 1]) else s
  }

  /** Every character is white space. */
  predicate AllSpace(s: String) {
    forall i :: 0 <= i < |s| ==> IsSpace(s[i])
  }

  /** `r` is `s` with white space, and only white space, taken off its two ends. */
  ghost predicate TrimmedFrom(r: String, s: String) {
    exists a :: 0 <= a <= |s| - |r| && Slice(s, a, |r|) == r && AllSpace(s[..a]) && AllSpace(s[a + |r|..])
  }

  lemma SpacePrefix(s: String, a: nat)
    requires a <= |s| && forall i :: 0 <= i < a ==> IsSpace(s[i])
    ensures AllSpace(s[..a])
  {
    forall i | 0 <= i < a ensures IsSpace(s[..a][i]) {
      assert s[..a][i] == s[i];
    }
  }

  lemma SpaceSuffix(s: String, a: nat)
    requires a <= |s| && forall i :: a <= i < |s| ==> IsSpace(s[i])
    ensures AllSpace(s[a..])
  {
    forall i | 0 <= i < |s| - a ensures IsSpace(s[a..][i]) {
      assert s[a..][i] == s[a + i];
    }
  }

  /** A white-space prefix, then a white-space suffix of the rest, leave a trimmed-from slice. */
  lemma TrimmedFromParts(s: String, t: String, r: String)
    requires |t| <= |s| && t == s[|s| - |t|..] && AllSpace(s[..|s| - |t|])
    requires |r| <= |t| && r == t[..|r|] && AllSpace(t[|r|..])
    ensures TrimmedFrom(r, s)
  {
    var a := |s| - |t|;
    assert s[a + |r|..] == t[|r|..];
    assert Slice(s, a, |r|) == r;
  }

  /** Stripping the start and then the end removes white space only. */
  lemma TrimEndsSpace(s: String)
    ensures TrimmedFrom(TrimEnd(TrimStart(s)), s)
  {
    var t := TrimStart(s);
    var r := TrimEnd(t);
    SpacePrefix(s, |s| - |t|);
    SpaceSuffix(t, |r|);
    TrimmedFromParts(s, t, r);
  }

  /** `s.trim()`: the slice of `s` left after stripping white space at both ends. */
  function Trim(s: String): (r: String)
    ensures TrimmedFrom(r, s)
    ensures r == [] || (!IsSpace(r[0]) && !IsSpace(r[|r| - 1]))
  {
    var t := TrimStart(s);
    var r := TrimEnd(t);
    TrimEndsSpace(s);
    assert r == [] || r[0] == t[0];
    r
  }

  /** Nothing to strip: `s.trim() === s`. */
  predicate IsTrimmed(s: String) {
    s == [] || (!IsSpace(s[0]) && !IsSpace(s[|s| - 1]))
  }

  lemma {:induction false} TrimIdempotent(s: String)
    ensures Trim(Trim(s)) == Trim(s)
  {
    TrimmedIsFixpoint(Trim(s));
  }

  lemma TrimmedIsFixpoint(s: String)
    requires IsTrimmed(s)
    ensures Trim(s) == s
  {
  }

  /** A string with no white space at all trims to itself. */
  lemma TrimNoSpace(s: String)
    requires forall i :: 0 <= i < |s| ==> !IsSpace(s[i])
    ensures Trim(s) == s
  {
    TrimmedIsFixpoint(s);
  }

  /** Blank means `!s.trim()` holds. */
  predicate IsBlank(s: String) {
    Trim(s) == []
  }

  lemma {:induction false} BlankIffAllSpace(s: String)
    ensures IsBlank(s) <==> AllSpace(s)
  {
    var t := TrimStart(s);
    if t != [] {
      assert t[0] == s[|s| - |t|];
      assert TrimEnd(t) != [];
    }
  }

  /** The case folding `toLowerCase` applies to ASCII and Latin-1 letters (covers Æ, Ø, Å). */
  function LowerChar(c: char): (r: char)
    ensures r == c || ('A' <= c <= 'Z' && r as int == c as int + 32)
                   || ('\U{C0}' <= c <= '\U{DE}' && c != '\U{D7}' && r as int == c as int + 32)
  {
    if 'A' <= c <= 'Z' || ('\U{C0}' <= c <= '\U{DE}' && c != '\U{D7}') then
      (c as int + 32) as char
    else c
  }

  /** `s.toLowerCase()`, character by character. */
  function ToLower(s: String): (r: String)
    ensures |r| == |s|
    ensures forall i :: 0 <= i < |s| ==> r[i] == LowerChar(s[i])
  {
    seq(|s|, i requires 0 <= i < |s| => LowerChar(s[i]))
  }

  lemma ToLowerConcat(a: String, b: String)
    ensures ToLower(a + b) == ToLower(a) + ToLower(b)
  {
  }

  lemma LowerCharIdempotent(c: char)
    ensures LowerChar(LowerChar(c)) == LowerChar(c)
  {
  }

  lemma ToLowerIdempotent(s: String)
    ensures ToLower(ToLower(s)) == ToLower(s)
  {
    forall i | 0 <= i < |s| ensures ToLower(ToLower(s))[i] == ToLower(s)[i] {
      LowerCharIdempotent(s[i]);
    }
  }

  /** `s.startsWith(p)` */
  predicate StartsWith(s: String, p: String) {
    |p| <= |s| && s[..|p|] == p
  }

  predicate EndsWith(s: String, p: String) {
    |p| <= |s| && s[|s| - |p|..] == p
  }

  lemma StartsWithConcat(a: String, b: String)
    ensures StartsWith(a + b, a)
  {
    assert (a + b)[..|a|] == a;
  }

  /** `s.includes(sub)` */
  predicate Contains(s: String, sub: String)
    decreases |s|
  {
    StartsWith(s, sub) || (s != [] && Contains(s[1..], sub))
  }

  /** `sub` sits in `s` starting at index `i`. */
  predicate OccursAt(s: String, sub: String, i: int) {
    0 <= i <= |s| - |sub| && Slice(s, i, |sub|) == sub
  }

  /** An occurrence in the tail is an occurrence one place later in the whole. */
  lemma OccursAtTail(s: String, sub: String, i: int)
    requires s != [] && 0 <= i
    ensures OccursAt(s[1..], sub, i) <==> OccursAt(s, sub, i + 1)
  {
    if 0 <= i <= |s| - 1 - |sub| {
      assert Slice(s[1..], i, |sub|) == Slice(s, i + 1, |sub|);
    }
  }

  lemma {:induction false} ContainsIffSlice(s: String, sub: String)
    ensures Contains(s, sub) <==> exists i :: OccursAt(s, sub, i)
    decreases |s|
  {
    if StartsWith(s, sub) {
      assert OccursAt(s, sub, 0);
    } else if s != [] {
      ContainsIffSlice(s[1..], sub);
      forall i | OccursAt(s, sub, i) ensures OccursAt(s[1..], sub, i - 1) {
        assert i != 0;
        OccursAtTail(s, sub, i - 1);
      }
      forall j | OccursAt(s[1..], sub, j) ensures OccursAt(s, sub, j + 1) {
        OccursAtTail(s, sub, j);
      }
    }
  }

  /** Every string includes the empty string. */
  lemma ContainsEmpty(s: String)
    ensures Contains(s, [])
  {
  }

  /** Every string includes itself. */
  lemma ContainsSelf(s: String)
    ensures Contains(s, s)
  {
  }

  /** `s.split(c)` for a one-character separator: never empty. */
  function SplitOn(s: String, c: char): (r: seq<String>)
    ensures |r| >= 1
    ensures forall k :: 0 <= k < |r| ==> c !in r[k]
  {
    if s == [] then [[]]
    else if s[0] == c then [[]] + SplitOn(s[1..], c)
    else
      var rest := SplitOn(s[1..], c);
      [[s[0]] + rest[0]] + rest[1..]
  }

  /** `parts.join(sep)` */
  function Join(parts: seq<String>, sep: String): String {
    if parts == [] then []
    else if |parts| == 1 then parts[0]
    else parts[0] + sep + Join(parts[1..], sep)
  }

  lemma JoinCons(x: String, rest: seq<String>, sep: String)
    requires rest != []
    ensures Join([x] + rest, sep) == x + sep + Join(rest, sep)
  {
    assert ([x] + rest)[1..] == rest;
  }

  /** Text put in front of the first part comes out in front of the joined string. */
  lemma JoinPrepend(t: String, parts: seq<String>, sep: String)
    requires parts != []
    ensures Join([t + parts[0]] + parts[1..], sep) == t + Join(parts, sep)
  {
    if |parts| > 1 {
      JoinCons(t + parts[0], parts[1..], sep);
      JoinCons(parts[0], parts[1..], sep);
      assert [parts[0]] + parts[1..] == parts;
    }
  }

  /** Splitting loses nothing: joining the segments with the separator gives the string back. */
  lemma {:induction false} SplitJoin(s: String, c: char)
    ensures Join(SplitOn(s, c), [c]) == s
  {
    if s != [] {
      var rest := SplitOn(s[1..], c);
      SplitJoin(s[1..], c);
      if s[0] == c {
        JoinCons([], rest, [c]);
        assert [] + [c] + s[1..] == s;
      } else {
        JoinPrepend([s[0]], rest, [c]);
        assert [s[0]] + s[1..] == s;
      }
    }
  }

  /** There are at least two segments exactly when the separator occurs. */
  lemma {:induction false} SplitCount(s: String, c: char)
    ensures |SplitOn(s, c)| > 1 <==> c in s
  {
    if s != [] && s[0] != c {
      SplitCount(s[1..], c);
      assert c in s <==> c in s[1..];
    }
  }

  /** Trimming the start of a tail whose head is white space keeps whether the last character is. */
  lemma TrimStartLast(s: String)
    requires s != [] && IsSpace(s[0])
    ensures TrimStart(s[1..]) == [] ==> IsSpace(s[|s| - 1])
    ensures TrimStart(s[1..]) != [] ==> TrimStart(s[1..])[|TrimStart(s[1..])| - 1] == s[|s| - 1]
  {
    var x, t := s[1..], TrimStart(s[1..]);
    if t == [] && |s| > 1 {
      assert IsSpace(x[|x| - 1]);
    }
    if t != [] {
      assert t[|t| - 1] == x[|x| - 1];
    }
  }

  /** `/\s+/g` replaced by one space: every run of white space becomes a single ' '. */
  function CollapseSpaces(s: String): (r: String)
    ensures r == [] <==> s == []
    ensures r != [] ==> (IsSpace(r[0]) <==> IsSpace(s[0]))
    ensures r != [] ==> (IsSpace(r[|r| - 1]) <==> IsSpace(s[|s| - 1]))
    decreases |s|
  {
    if s == [] then []
    else if IsSpace(s[0]) then
      var t := TrimStart(s[1..]);
      var rest := CollapseSpaces(t);
      TrimStartLast(s);
      [' '] + rest
    else
      [s[0]] + CollapseSpaces(s[1..])
  }

  /** After the collapse, white space is single plain spaces only. */
  lemma {:induction false} CollapseSpacesLayout(s: String)
    ensures NoAdjacentSpaces(CollapseSpaces(s)) && OnlyPlainSpaces(CollapseSpaces(s))
    decreases |s|
  {
    if s != [] {
      var head := if IsSpace(s[0]) then ' ' else s[0];
      var t := if IsSpace(s[0]) then TrimStart(s[1..]) else s[1..];
      CollapseSpacesLayout(t);
      var rest := CollapseSpaces(t);
      assert CollapseSpaces(s) == [head] + rest;
      assert IsSpace(s[0]) ==> rest == [] || !IsSpace(rest[0]);
      ConsKeepsLayout(head, rest);
    }
  }

  /** Prepending one character keeps the layout, unless it puts two spaces in a row. */
  lemma ConsKeepsLayout(head: char, rest: String)
    requires NoAdjacentSpaces(rest) && OnlyPlainSpaces(rest)
    requires IsSpace(head) ==> head == ' ' && (rest == [] || !IsSpace(rest[0]))
    ensures NoAdjacentSpaces([head] + rest) && OnlyPlainSpaces([head] + rest)
  {
    var r := [head] + rest;
    forall i | 0 <= i < |r| - 1 ensures !(IsSpace(r[i]) && IsSpace(r[i + 1])) {
      assert r[i + 1] == rest[i];
      if i > 0 {
        assert r[i] == rest[i - 1];
      }
    }
    forall i | 0 <= i < |r| ensures IsSpace(r[i]) ==> r[i] == ' ' {
      if i > 0 {
        assert r[i] == rest[i - 1];
      }
    }
  }

  /** No two white-space characters in a row. */
  predicate NoAdjacentSpaces(s: String) {
    forall i :: 0 <= i < |s| - 1 ==> !(IsSpace(s[i]) && IsSpace(s[i + 1]))
  }

  /** The only white space present is the plain space ' '. */
  predicate OnlyPlainSpaces(s: String) {
    forall i :: 0 <= i < |s| ==> IsSpace(s[i]) ==> s[i] == ' '
  }

  /** A slice keeps both layout properties. */
  lemma SliceKeepsLayout(t: String, s: String, a: nat)
    requires a + |s| <= |t| && Slice(t, a, |s|) == s
    requires NoAdjacentSpaces(t) && OnlyPlainSpaces(t)
    ensures NoAdjacentSpaces(s) && OnlyPlainSpaces(s)
  {
    forall i | 0 <= i < |s| - 1 ensures !(IsSpace(s[i]) && IsSpace(s[i + 1])) {
      assert s[i] == t[a + i] && s[i + 1] == t[a + i + 1];
    }
    forall i | 0 <= i < |s| ensures IsSpace(s[i]) ==> s[i] == ' ' {
      assert s[i] == t[a + i];
    }
  }

  /** Trimming keeps both layout properties. */
  lemma TrimmedKeepsLayout(r: String, c: String)
    requires TrimmedFrom(r, c)
    requires NoAdjacentSpaces(c) && OnlyPlainSpaces(c)
    ensures NoAdjacentSpaces(r) && OnlyPlainSpaces(r)
  {
    var a :| 0 <= a <= |c| - |r| && Slice(c, a, |r|) == r && AllSpace(c[..a]) && AllSpace(c[a + |r|..]);
    SliceKeepsLayout(c, r, a);
  }

  /** Collapsing then trimming leaves single plain spaces only. */
  lemma TrimmedCollapseLayout(u: String)
    ensures NoAdjacentSpaces(Trim(CollapseSpaces(u))) && OnlyPlainSpaces(Trim(CollapseSpaces(u)))
    ensures IsTrimmed(Trim(CollapseSpaces(u)))
  {
    var c := CollapseSpaces(u);
    CollapseSpacesLayout(u);
    TrimmedKeepsLayout(Trim(c), c);
  }

  /** A string whose only white space is ' ' holds no line break. */
  lemma PlainSpacesNoBreaks(s: String)
    requires OnlyPlainSpaces(s)
    ensures '\n' !in s && '\r' !in s
  {
    forall i | 0 <= i < |s| ensures s[i] != '\n' && s[i] != '\r' {
      assert IsSpace(s[i]) ==> s[i] == ' ';
    }
  }

  /** Decimal digit of a number below ten. */
  function DigitChar(d: nat): (c: char)
    requires d < 10
    ensures '0' <= c <= '9' && c as int - '0' as int == d
  {
    ('0' as int + d) as char
  }

  /** `String(n)` for a natural number: decimal, no leading zeros. */
  function NatToString(n: nat): (r: String)
    ensures |r| >= 1 && forall i :: 0 <= i < |r| ==> '0' <= r[i] <= '9'
    ensures (r[0] == '0') <==> n == 0
    decreases n
  {
    if n < 10 then [DigitChar(n)] else NatToString(n / 10) + [DigitChar(n % 10)]
  }

  /** The value of a string of decimal digits. */
  function DecimalValue(s: String): nat
    requires forall i :: 0 <= i < |s| ==> '0' <= s[i] <= '9'
  {
    if s == [] then 0 else 10 * DecimalValue(s[..|s| - 1]) + (s[|s| - 1] as int - '0' as int)
  }

  /** Reading the digits back gives the number: decimal formatting is injective. */
  lemma {:induction false} NatToStringRoundTrip(n: nat)
    ensures DecimalValue(NatToString(n)) == n
    decreases n
  {
    if n >= 10 {
      NatToStringRoundTrip(n / 10);
      var r := NatToString(n);
      assert r[..|r| - 1] == NatToString(n / 10);
    }
  }

  lemma NatToStringInjective(m: nat, n: nat)
    ensures NatToString(m) == NatToString(n) ==> m == n
  {
    NatToStringRoundTrip(m);
    NatToStringRoundTrip(n);
  }

  /** `String(i)` / `${i}` for an integer. */
  function IntToString(i: int): (r: String)
    ensures i < 0 ==> r == ['-'] + NatToString(-i)
    ensures i >= 0 ==> r == NatToString(i)
  {
    if i < 0 then ['-'] + NatToString(-i) else NatToString(i)
  }
}
