/** The JavaScript string operations the pipeline relies on, restricted to
    ASCII: `toLowerCase`, `includes`, `trim`, `indexOf`/`lastIndexOf`,
    `split`/`join`, `parseInt(s, 10)`, decimal formatting and the code-unit
    order MongoDB uses to sort string dates. */
module Text {
  import opened Wrappers

  // ---------------------------------------------------------------- case

  predicate IsUpper(c: char) { 'A' <= c <= 'Z' }

  /** `toLowerCase` on one character: A-Z become a-z, everything else stays. */
  function LowerChar(c: char): char {
    if IsUpper(c) then (c as int - 'A' as int + 'a' as int) as char else c
  }

  function Lower(s: string): (r: string)
    ensures |r| == |s|
    ensures forall i :: 0 <= i < |s| ==> r[i] == LowerChar(s[i])
  {
    if s == [] then [] else [LowerChar(s[0])] + Lower(s[1..])
  }

  predicate IsLowerCase(s: string) {
    forall i :: 0 <= i < |s| ==> !IsUpper(s[i])
  }

  lemma LowerIsLowerCase(s: string)
    ensures IsLowerCase(Lower(s))
  {
  }

  /** Lower-casing text that has no upper-case letter changes nothing. */
  lemma LowerOfLowerCase(s: string)
    requires IsLowerCase(s)
    ensures Lower(s) == s
  {
  }

  lemma LowerIdempotent(s: string)
    ensures Lower(Lower(s)) == Lower(s)
  {
    LowerIsLowerCase(s);
    LowerOfLowerCase(Lower(s));
  }

  // ---------------------------------------------------------- containment

  /** `s.startsWith(p)`, character by character. */
  predicate StartsWith(s: string, p: string) {
    p == [] || (s != [] && s[0] == p[0] && StartsWith(s[1..], p[1..]))
  }

  /** `p` is a prefix of `s`. */
  lemma {:induction false} StartsWithIff(s: string, p: string)
    ensures StartsWith(s, p) <==> |p| <= |s| && s[..|p|] == p
  {
    if p != [] && s != [] {
      StartsWithIff(s[1..], p[1..]);
      if |p| <= |s| && s[..|p|] == p {
        assert s[1..][..|p| - 1] == s[..|p|][1..];
      }
    }
  }

  /** `s.includes(p)`: `p` occurs in `s` as a contiguous piece. */
  predicate Contains(s: string, p: string)
    decreases |s|
  {
    StartsWith(s, p) || (|s| > 0 && Contains(s[1..], p))
  }

  /** `p` occurs in `s` starting at index `i`. */
  ghost predicate OccursAt(s: string, p: string, i: int) {
    0 <= i && i + |p| <= |s| && s[i..i + |p|] == p
  }

  /** The recursive `Contains` agrees with "occurs at some index". */
  lemma {:induction false} ContainsIff(s: string, p: string)
    ensures Contains(s, p) <==> exists i :: OccursAt(s, p, i)
    decreases |s|
  {
    StartsWithIff(s, p);
    if StartsWith(s, p) {
      assert OccursAt(s, p, 0);
    } else if |s| > 0 {
      ContainsIff(s[1..], p);
      if Contains(s[1..], p) {
        var i :| OccursAt(s[1..], p, i);
        assert s[1..][i..i + |p|] == s[i + 1..i + 1 + |p|];
        assert OccursAt(s, p, i + 1);
      } else {
        forall i | OccursAt(s, p, i) ensures false {
          assert i != 0 by { StartsWithIff(s, p); }
          assert s[1..][i - 1..i - 1 + |p|] == s[i..i + |p|];
          assert OccursAt(s[1..], p, i - 1);
        }
      }
    } else {
      assert s == [] && |p| > 0;
    }
  }

  lemma ContainsAt(s: string, p: string, i: int)
    requires OccursAt(s, p, i)
    ensures Contains(s, p)
  {
    ContainsIff(s, p);
  }

  /** Containment is transitive: a piece of a piece of `t` is a piece of `t`. */
  lemma ContainsTransitive(t: string, s: string, p: string)
    requires Contains(t, s) && Contains(s, p)
    ensures Contains(t, p)
  {
    ContainsIff(t, s);
    ContainsIff(s, p);
    var i :| OccursAt(t, s, i);
    var j :| OccursAt(s, p, j);
    assert t[i..i + |s|] == s;
    assert forall k :: 0 <= k < |p| ==> t[i + j + k] == s[j + k] == p[k];
    assert t[i + j..i + j + |p|] == p;
    ContainsAt(t, p, i + j);
  }

  /** Whatever is placed between two strings is contained in the result. */
  lemma ContainsInfix(a: string, p: string, b: string)
    ensures Contains(a + p + b, p)
  {
    var t := a + p + b;
    assert t == a + (p + b);
    assert t[|a|..|a| + |p|] == p;
    ContainsAt(t, p, |a|);
  }

  lemma ContainsSelf(s: string)
    ensures Contains(s, s)
  {
    ContainsInfix([], s, []);
    assert [] + s + [] == s;
  }

  /** A piece that uses a character `s` lacks cannot occur in `s`. */
  lemma NotContainsChar(s: string, p: string, c: char)
    requires c in p && c !in s
    ensures !Contains(s, p)
  {
    ContainsIff(s, p);
  }

  lemma NotContainsLonger(s: string, p: string)
    requires |p| > |s|
    ensures !Contains(s, p)
  {
    ContainsIff(s, p);
  }

  /** An occurrence in `a + [c] + b` of a piece without `c` lies wholly on
      one side of the separator. */
  lemma OccursAcross(a: string, c: char, b: string, p: string, i: int)
    requires c !in p && OccursAt(a + [c] + b, p, i)
    ensures OccursAt(a, p, i) || OccursAt(b, p, i - |a| - 1)
  {
    var t := a + [c] + b;
    assert forall k :: 0 <= k < |p| ==> p[k] == t[i + k];
    assert t[|a|] == c;
    if i + |p| <= |a| {
      assert a[i..i + |p|] == t[i..i + |p|];
    } else if i > |a| {
      assert b[i - |a| - 1..i - |a| - 1 + |p|] == t[i..i + |p|];
    }
  }

  lemma OccursLeft(a: string, c: char, b: string, p: string, i: int)
    requires OccursAt(a, p, i)
    ensures OccursAt(a + [c] + b, p, i)
  {
    var t := a + [c] + b;
    assert t[i..i + |p|] == a[i..i + |p|];
  }

  lemma OccursRight(a: string, c: char, b: string, p: string, i: int)
    requires OccursAt(b, p, i)
    ensures OccursAt(a + [c] + b, p, |a| + 1 + i)
  {
    var t := a + [c] + b;
    assert t[|a| + 1 + i..|a| + 1 + i + |p|] == b[i..i + |p|];
  }

  /** Splitting at a separator the piece does not use: the piece occurs in
      the joined text iff it occurs on one of the two sides. */
  lemma ContainsAcross(a: string, c: char, b: string, p: string)
    requires c !in p
    ensures Contains(a + [c] + b, p) <==> Contains(a, p) || Contains(b, p)
  {
    var t := a + [c] + b;
    ContainsIff(t, p);
    ContainsIff(a, p);
    ContainsIff(b, p);
    if i :| OccursAt(t, p, i) {
      OccursAcross(a, c, b, p, i);
    }
    if i :| OccursAt(a, p, i) {
      OccursLeft(a, c, b, p, i);
    }
    if i :| OccursAt(b, p, i) {
      OccursRight(a, c, b, p, i);
    }
  }

  /** Lower-casing keeps containment: if `p` occurs in `s`, the
      lower-cased `p` occurs in the lower-cased `s`. */
  lemma LowerContains(s: string, p: string)
    requires Contains(s, p)
    ensures Contains(Lower(s), Lower(p))
  {
    ContainsIff(s, p);
    var i :| OccursAt(s, p, i);
    var ls, lp := Lower(s), Lower(p);
    assert forall k :: 0 <= k < |p| ==> ls[i + k] == LowerChar(s[i + k]) == LowerChar(p[k]) == lp[k];
    assert ls[i..i + |lp|] == lp;
    ContainsAt(ls, lp, i);
  }

  /** `words.some(w => text.includes(w))`. */
  function ContainsAny(text: string, words: seq<string>): (r: bool)
    ensures r <==> exists i :: 0 <= i < |words| && Contains(text, words[i])
  {
    if words == [] then false
    else
      var rest := ContainsAny(text, words[1..]);
      assert forall i :: 1 <= i < |words| ==> words[i] == words[1..][i - 1];
      Contains(text, words[0]) || rest
  }

  // ----------------------------------------------------------------- trim

  /** ECMAScript white space and line terminators, as `trim` and
      `parseInt` skip them: tab, line feed, vertical tab, form feed,
      carriage return, space, no-break space, the other space separators
      of Unicode 15 (U+1680, U+2000-U+200A, U+202F, U+205F, U+3000), the
      line and paragraph separators and the byte order mark. */
  predicate IsSpace(c: char) {
    var n := c as int;
    (9 <= n <= 13) || n == 0x20 || n == 0xA0 || n == 0x1680 || (0x2000 <= n <= 0x200A)
    || n == 0x2028 || n == 0x2029 || n == 0x202F || n == 0x205F || n == 0x3000 || n == 0xFEFF
  }

  function TrimStart(s: string): (r: string)
    ensures |r| <= |s|
    ensures r == [] || !IsSpace(r[0])
  {
    if s != [] && IsSpace(s[0]) then TrimStart(s[1..]) else s
  }

  /** `TrimStart` cuts a prefix of white space and nothing else. */
  lemma {:induction false} TrimStartCuts(s: string)
    ensures var r := TrimStart(s);
            r == s[|s| - |r|..] && forall k :: 0 <= k < |s| - |r| ==> IsSpace(s[k])
  {
    if s != [] && IsSpace(s[0]) {
      TrimStartCuts(s[1..]);
    }
  }

  function TrimEnd(s: string): (r: string)
    ensures |r| <= |s|
    ensures r == [] || !IsSpace(r[|r| - 1])
  {
    if s != [] && IsSpace(s[|s| - 1]) then TrimEnd(s[..|s| - 1]) else s
  }

  /** `TrimEnd` cuts a suffix of white space and nothing else. */
  lemma {:induction false} TrimEndCuts(s: string)
    ensures var r := TrimEnd(s);
            r == s[..|r|] && forall k :: |r| <= k < |s| ==> IsSpace(s[k])
  {
    if s != [] && IsSpace(s[|s| - 1]) {
      TrimEndCuts(s[..|s| - 1]);
    }
  }

  /** `s.trim()`: drops leading and trailing white space. */
  function Trim(s: string): string {
    TrimEnd(TrimStart(s))
  }

  /** Not only ASCII blanks are cut: a no-break space alone trims to
      nothing, and a byte order mark after a word is dropped. */
  lemma TrimUnicodeSpace()
    ensures Trim([0xA0 as char]) == []
    ensures Trim("happy" + [0xFEFF as char]) == "happy"
  {
    var s := "happy" + [0xFEFF as char];
    assert s[0] == 'h' && TrimStart(s) == s;
    assert IsSpace(s[|s| - 1]) && s[..|s| - 1] == "happy";
    assert TrimEnd(s) == TrimEnd("happy");
    assert "happy"[4] == 'y' && TrimEnd("happy") == "happy";
  }

  predicate IsTrimmed(s: string) {
    s == [] || (!IsSpace(s[0]) && !IsSpace(s[|s| - 1]))
  }

  /** The trimmed text neither starts nor ends with white space. */
  lemma TrimIsTrimmed(s: string)
    ensures IsTrimmed(Trim(s))
  {
    var t := TrimStart(s);
    var r := TrimEnd(t);
    TrimEndCuts(t);
    if r != [] {
      assert r[0] == t[0];
    }
  }

  /** The trimmed text is the middle of `s` with only white space cut off
      on either side, and it neither starts nor ends with white space. */
  lemma TrimSpec(s: string)
    ensures IsTrimmed(Trim(s))
    ensures exists i, j :: 0 <= i <= j <= |s| && Trim(s) == s[i..j]
                           && (forall k :: 0 <= k < i ==> IsSpace(s[k]))
                           && (forall k :: j <= k < |s| ==> IsSpace(s[k]))
  {
    var t := TrimStart(s);
    var r := TrimEnd(t);
    TrimStartCuts(s);
    TrimEndCuts(t);
    var i := |s| - |t|;
    var j := i + |r|;
    assert r == s[i..j];
    if r != [] {
      assert r[0] == t[0];
    }
  }

  lemma TrimOfTrimmed(s: string)
    requires IsTrimmed(s)
    ensures Trim(s) == s
  {
  }

  lemma TrimIdempotent(s: string)
    ensures Trim(Trim(s)) == Trim(s)
  {
    TrimIsTrimmed(s);
    TrimOfTrimmed(Trim(s));
  }

  // -------------------------------------------------------------- indices

  /** `s.indexOf(c)`: the first position of `c`, or -1. */
  function IndexOf(s: string, c: char): (r: int)
    ensures r == -1 <==> c !in s
    ensures r != -1 ==> 0 <= r < |s| && s[r] == c && c !in s[..r]
  {
    if s == [] then -1
    else if s[0] == c then 0
    else
      var k := IndexOf(s[1..], c);
      if k == -1 then -1
      else
        assert s[..k + 1] == [s[0]] + s[1..][..k];
        k + 1
  }

  /** `s.lastIndexOf(c)`: the last position of `c`, or -1. */
  function LastIndexOf(s: string, c: char): (r: int)
    ensures r == -1 <==> c !in s
    ensures r != -1 ==> 0 <= r < |s| && s[r] == c && c !in s[r + 1..]
    ensures forall k :: 0 <= k < |s| && s[k] == c ==> k <= r
  {
    if s == [] then -1
    else if s[|s| - 1] == c then |s| - 1
    else
      var k := LastIndexOf(s[..|s| - 1], c);
      assert s == s[..|s| - 1] + [s[|s| - 1]];
      assert k != -1 ==> s[k + 1..] == s[..|s| - 1][k + 1..] + [s[|s| - 1]];
      k
  }

  // --------------------------------------------------------- split / join

  /** `s.split(sep)` for a one-character separator. */
  function Split(s: string, sep: char): (r: seq<string>)
    ensures |r| >= 1
    ensures forall i :: 0 <= i < |r| ==> sep !in r[i]
    decreases |s|
  {
    var k := IndexOf(s, sep);
    if k == -1 then [s] else [s[..k]] + Split(s[k + 1..], sep)
  }

  /** `parts.join(sep)`. */
  function Join(parts: seq<string>, sep: string): string {
    if |parts| == 0 then ""
    else if |parts| == 1 then parts[0]
    else parts[0] + sep + Join(parts[1..], sep)
  }

  /** A piece without the separator, and not empty, occurs in the joined
      text iff it occurs in one of the parts. */
  lemma {:induction false} ContainsJoin(parts: seq<string>, c: char, p: string)
    requires c !in p && p != []
    ensures Contains(Join(parts, [c]), p) <==> exists i :: 0 <= i < |parts| && Contains(parts[i], p)
    decreases |parts|
  {
    if |parts| == 0 {
      NotContainsLonger("", p);
    } else if |parts| >= 2 {
      var rest := parts[1..];
      ContainsJoin(rest, c, p);
      ContainsAcross(parts[0], c, Join(rest, [c]), p);
      assert forall i :: 1 <= i < |parts| ==> parts[i] == rest[i - 1];
      if i :| 0 <= i < |rest| && Contains(rest[i], p) {
        assert Contains(parts[i + 1], p);
      }
    }
  }

  lemma {:induction false} LowerAppend(a: string, b: string)
    ensures Lower(a + b) == Lower(a) + Lower(b)
  {
    if a != [] {
      assert (a + b)[1..] == a[1..] + b;
      LowerAppend(a[1..], b);
    } else {
      assert a + b == b;
    }
  }

  /** Lower-casing a joined text lower-cases each part. */
  lemma {:induction false} LowerJoin(parts: seq<string>, lowered: seq<string>, sep: string)
    requires |lowered| == |parts| && forall i :: 0 <= i < |parts| ==> Lower(parts[i]) == lowered[i]
    requires IsLowerCase(sep)
    ensures Lower(Join(parts, sep)) == Join(lowered, sep)
    decreases |parts|
  {
    if |parts| >= 2 {
      LowerJoin(parts[1..], lowered[1..], sep);
      LowerAppend(parts[0] + sep, Join(parts[1..], sep));
      LowerAppend(parts[0], sep);
      LowerOfLowerCase(sep);
    }
  }

  /** Joining the pieces of a split with the separator gives the text back. */
  lemma {:induction false} JoinSplit(s: string, sep: char)
    ensures Join(Split(s, sep), [sep]) == s
    decreases |s|
  {
    var k := IndexOf(s, sep);
    if k != -1 {
      var tail := s[k + 1..];
      JoinSplit(tail, sep);
      var rest := Split(tail, sep);
      assert Split(s, sep) == [s[..k]] + rest;
      JoinCons(s[..k], rest, [sep]);
      assert s == s[..k] + [sep] + tail;
    }
  }

  lemma JoinCons(h: string, rest: seq<string>, sep: string)
    requires |rest| >= 1
    ensures Join([h] + rest, sep) == h + sep + Join(rest, sep)
  {
    assert ([h] + rest)[1..] == rest;
  }

  // ------------------------------------------------------------- numbers

  predicate IsDigit(c: char) { '0' <= c <= '9' }

  predicate AllDigits(s: string) {
    forall i :: 0 <= i < |s| ==> IsDigit(s[i])
  }

  /** The longest prefix of `s` made of decimal digits. */
  function DigitPrefix(s: string): (r: string)
    ensures |r| <= |s| && r == s[..|r|] && AllDigits(r)
    ensures |r| < |s| ==> !IsDigit(s[|r|])
  {
    if s != [] && IsDigit(s[0]) then [s[0]] + DigitPrefix(s[1..]) else []
  }

  function DigitsValue(d: string): nat
    requires AllDigits(d)
  {
    if d == [] then 0 else DigitsValue(d[..|d| - 1]) * 10 + (d[|d| - 1] as int - '0' as int)
  }

  /** `parseInt(s, 10)`: skip leading white space, read an optional sign and
      the longest run of digits; `None` stands for `NaN`. */
  function ParseInt(s: string): Option<int> {
    var t := TrimStart(s);
    var signed := |t| > 0 && (t[0] == '-' || t[0] == '+');
    var u := if signed then t[1..] else t;
    var d := DigitPrefix(u);
    if d == [] then None
    else
      var v: int := DigitsValue(d);
      if signed && t[0] == '-' then Some(-v) else Some(v)
  }

  function DigitChar(n: nat): char
    requires n < 10
  {
    ('0' as int + n) as char
  }

  /** Decimal rendering of a natural number, as template literals print it. */
  function NatToString(n: nat): (r: string)
    ensures |r| >= 1 && AllDigits(r)
  {
    if n < 10 then [DigitChar(n)] else NatToString(n / 10) + [DigitChar(n % 10)]
  }

  function IntToString(i: int): string {
    if i < 0 then "-" + NatToString(-i) else NatToString(i)
  }

  lemma {:induction false} NatToStringValue(n: nat)
    ensures DigitsValue(NatToString(n)) == n
  {
    if n >= 10 {
      NatToStringValue(n / 10);
      var r := NatToString(n);
      assert r[..|r| - 1] == NatToString(n / 10);
    }
  }

  lemma DigitPrefixAll(s: string)
    requires AllDigits(s)
    ensures DigitPrefix(s) == s
  {
  }

  /** `parseInt` reads back every integer that was printed in decimal. */
  lemma ParseIntRoundTrip(i: int)
    ensures ParseInt(IntToString(i)) == Some(i)
  {
    var n: nat := if i < 0 then -i else i;
    var digits := NatToString(n);
    NatToStringValue(n);
    DigitPrefixAll(digits);
    assert IsDigit(digits[0]);
    if i < 0 {
      var s := "-" + digits;
      assert s[0] == '-' && !IsSpace(s[0]);
      assert TrimStart(s) == s;
      assert s[1..] == digits;
    } else {
      assert !IsSpace(digits[0]);
      assert TrimStart(digits) == digits;
    }
  }

  // ----------------------------------------------------------- ordering

  /** Code-unit order of strings, the order MongoDB sorts string fields by. */
  predicate LexLess(a: string, b: string)
    decreases |a|
  {
    if a == [] then b != []
    else b != [] && (a[0] < b[0] || (a[0] == b[0] && LexLess(a[1..], b[1..])))
  }

  lemma {:induction false} LexLessIrreflexive(a: string)
    ensures !LexLess(a, a)
    decreases |a|
  {
    if a != [] {
      LexLessIrreflexive(a[1..]);
    }
  }

  lemma {:induction false} LexLessTransitive(a: string, b: string, c: string)
    requires LexLess(a, b) && LexLess(b, c)
    ensures LexLess(a, c)
    decreases |a|
  {
    if a != [] && a[0] == b[0] && b[0] == c[0] {
      LexLessTransitive(a[1..], b[1..], c[1..]);
    }
  }

  lemma {:induction false} LexLessTotal(a: string, b: string)
    ensures a == b || LexLess(a, b) || LexLess(b, a)
    decreases |a|
  {
    if a != [] && b != [] && a[0] == b[0] {
      LexLessTotal(a[1..], b[1..]);
      if a[1..] == b[1..] {
        assert a == [a[0]] + a[1..] && b == [b[0]] + b[1..];
      }
    }
  }
}
