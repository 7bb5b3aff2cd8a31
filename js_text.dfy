/**
 * The JavaScript string built-ins the dashboard relies on, on `seq<char>`:
 * `trim`, `split`/`join` on a one-character separator, `includes`,
 * `startsWith`, ASCII `toLowerCase`, `replace(/c/g, '')`, number-to-text and
 * `padStart`, and the decimal digits that dates are written and read with.
 */
module JsText {

  /** The characters `String.prototype.trim` removes (ECMA-262 WhiteSpace and LineTerminator). */
  predicate IsJsSpace(c: char) {
    c == '\t' || c == '\n' || c == '\U{000B}' || c == '\U{000C}' || c == '\r' || c == ' ' ||
    c == '\U{00A0}' || c == '\U{1680}' || ('\U{2000}' <= c <= '\U{200A}') ||
    c == '\U{2028}' || c == '\U{2029}' || c == '\U{202F}' || c == '\U{205F}' ||
    c == '\U{3000}' || c == '\U{FEFF}'
  }

  /** `trimStart`: the suffix left after dropping leading spaces. */
  function TrimStart(s: string): (r: string)
    ensures |r| <= |s| && r == s[|s| - |r|..]
    ensures r == [] || !IsJsSpace(r[0])
    ensures forall i :: 0 <= i < |s| - |r| ==> IsJsSpace(s[i])
  {
    if s != [] && IsJsSpace(s[0]) then TrimStart(s[1..]) else s
  }

  /** `trimEnd`: the prefix left after dropping trailing spaces. */
  function TrimEnd(s: string): (r: string)
    ensures |r| <= |s| && r == s[..|r|]
    ensures r == [] || !IsJsSpace(r[|r| - 1])
    ensures forall i :: |r| <= i < |s| ==> IsJsSpace(s[i])
  {
    if s != [] && IsJsSpace(s[|s| - 1]) then TrimEnd(s[..|s| - 1]) else s
  }

  /** `trim`. */
  function Trim(s: string): (r: string)
    ensures r == [] || (!IsJsSpace(r[0]) && !IsJsSpace(r[|r| - 1]))
    ensures |r| <= |s|
  {
    TrimEnd(TrimStart(s))
  }

  /**
   * What `trim` leaves is the stretch of `s` that starts after its leading
   * spaces and stops before its trailing ones: everything outside it is a space.
   */
  lemma TrimSlice(s: string)
    ensures var r := Trim(s); var i := |s| - |TrimStart(s)|;
      i + |r| <= |s| && r == s[i..i + |r|] &&
      (forall k :: 0 <= k < i ==> IsJsSpace(s[k])) &&
      (forall k :: i + |r| <= k < |s| ==> IsJsSpace(s[k]))
  {
    var t := TrimStart(s);
    var i := |s| - |t|;
    var r := TrimEnd(t);
    assert forall k :: i + |r| <= k < |s| ==> s[k] == t[k - i];
  }

  /** Every character of a trimmed text comes from the text. */
  lemma TrimChars(s: string)
    ensures forall c :: c in Trim(s) ==> c in s
  {
    var i := |s| - |TrimStart(s)|;
    var r := Trim(s);
    TrimSlice(s);
    forall c | c in r
      ensures c in s
    {
      var k :| 0 <= k < |r| && r[k] == c;
      assert s[i + k] == c;
    }
  }

  /** A string with no space at either end is its own trim, so `trim` is idempotent. */
  lemma TrimFixedPoint(s: string)
    requires s == [] || (!IsJsSpace(s[0]) && !IsJsSpace(s[|s| - 1]))
    ensures Trim(s) == s
  {
  }

  lemma TrimIdempotent(s: string)
    ensures Trim(Trim(s)) == Trim(s)
  {
    TrimFixedPoint(Trim(s));
  }

  /** Trimming keeps every character that is not a space. */
  lemma TrimKeepsNonSpace(s: string)
    ensures forall c :: c in s && !IsJsSpace(c) ==> c in Trim(s)
  {
    var i := |s| - |TrimStart(s)|;
    var r := Trim(s);
    TrimSlice(s);
    forall c | c in s && !IsJsSpace(c)
      ensures c in r
    {
      var k :| 0 <= k < |s| && s[k] == c;
      var j := k - i;
      assert 0 <= j < |r| && s[i..i + |r|][j] == c;
      assert r[j] == c;
    }
  }

  /** `s.split(sep)` for a one-character separator: never empty, and no part holds the separator. */
  function Split(s: string, sep: char): (parts: seq<string>)
    ensures |parts| >= 1
    ensures forall i :: 0 <= i < |parts| ==> sep !in parts[i]
  {
    if s == [] then [[]]
    else
      var rest := Split(s[1..], sep);
      if s[0] == sep then [[]] + rest
      else [[s[0]] + rest[0]] + rest[1..]
  }

  /** `parts.join(sep)`. */
  function Join(parts: seq<string>, sep: char): string {
    if |parts| == 0 then []
    else if |parts| == 1 then parts[0]
    else parts[0] + [sep] + Join(parts[1..], sep)
  }

  /** Joining the parts of a split gives back the original text. */
  lemma {:induction false} JoinSplit(s: string, sep: char)
    ensures Join(Split(s, sep), sep) == s
  {
    if s != [] {
      var rest := Split(s[1..], sep);
      JoinSplit(s[1..], sep);
      if s[0] == sep {
        assert Split(s, sep) == [[]] + rest;
      } else {
        var parts := Split(s, sep);
        assert parts == [[s[0]] + rest[0]] + rest[1..];
        if |rest| == 1 {
          assert Join(rest, sep) == rest[0];
        } else {
          assert Join(rest, sep) == rest[0] + [sep] + Join(rest[1..], sep);
          assert parts[1..] == rest[1..];
        }
      }
    }
  }

  /** A split has a second part exactly when the separator occurs in the text. */
  lemma {:induction false} SplitHasSecondPart(s: string, sep: char)
    ensures |Split(s, sep)| >= 2 <==> sep in s
  {
    if s != [] {
      SplitHasSecondPart(s[1..], sep);
      assert s == [s[0]] + s[1..];
    }
  }

  /** A text without the separator splits into itself alone. */
  lemma {:induction false} SplitWhole(a: string, sep: char)
    requires sep !in a
    ensures Split(a, sep) == [a]
  {
    if a != [] {
      assert sep !in a[1..] by {
        assert forall c :: c in a[1..] ==> c in a;
      }
      SplitWhole(a[1..], sep);
      assert [a[0]] + a[1..] == a;
    }
  }

  /** A separator ends the first part: what follows is split on its own. */
  lemma {:induction false} SplitAfterPart(a: string, b: string, sep: char)
    requires sep !in a
    ensures Split(a + [sep] + b, sep) == [a] + Split(b, sep)
  {
    if a == [] {
      assert a + [sep] + b == [sep] + b;
    } else {
      SplitAfterPart(a[1..], b, sep);
      var rest := Split(a[1..] + [sep] + b, sep);
      assert (a + [sep] + b)[1..] == a[1..] + [sep] + b;
      assert rest[0] == a[1..] && rest[1..] == Split(b, sep);
      assert [a[0]] + a[1..] == a;
    }
  }

  /** Splitting the join of separator-free parts gives the parts back. */
  lemma {:induction false} SplitJoin(parts: seq<string>, sep: char)
    requires |parts| >= 1
    requires forall i :: 0 <= i < |parts| ==> sep !in parts[i]
    ensures Split(Join(parts, sep), sep) == parts
  {
    if |parts| == 1 {
      SplitWhole(parts[0], sep);
    } else {
      SplitJoin(parts[1..], sep);
      SplitAfterPart(parts[0], Join(parts[1..], sep), sep);
    }
  }

  /**
   * `parts.map((s) => s.trim()).filter(Boolean)`: the trimmed parts that are
   * not empty, in order.
   */
  function TrimmedNonEmpty(parts: seq<string>): (r: seq<string>)
    ensures |r| <= |parts|
    ensures forall i :: 0 <= i < |r| ==> r[i] != [] && Trim(r[i]) == r[i]
  {
    if |parts| == 0 then []
    else
      var t := Trim(parts[0]);
      var rest := TrimmedNonEmpty(parts[1..]);
      TrimIdempotent(parts[0]);
      if t == [] then rest else [t] + rest
  }

  /** One part gives its trim, or nothing when it is all spaces. */
  lemma TrimmedNonEmptyOne(p: string)
    ensures TrimmedNonEmpty([p]) == if Trim(p) == [] then [] else [Trim(p)]
  {
    assert [p][1..] == [];
  }

  /** Trimming and filtering works part by part: it keeps the order of the parts. */
  lemma {:induction false} TrimmedNonEmptyConcat(a: seq<string>, b: seq<string>)
    ensures TrimmedNonEmpty(a + b) == TrimmedNonEmpty(a) + TrimmedNonEmpty(b)
  {
    if |a| > 0 {
      assert (a + b)[0] == a[0];
      assert (a + b)[1..] == a[1..] + b;
      TrimmedNonEmptyConcat(a[1..], b);
    } else {
      assert a + b == b;
    }
  }

  /** `t` is the trim of one of the parts. */
  predicate IsTrimOfPart(t: string, parts: seq<string>) {
    exists j :: 0 <= j < |parts| && t == Trim(parts[j])
  }

  /** Each entry of the trim-and-filter is the trim of some part. */
  lemma {:induction false} TrimmedNonEmptyFrom(parts: seq<string>)
    ensures forall i :: 0 <= i < |TrimmedNonEmpty(parts)| ==> IsTrimOfPart(TrimmedNonEmpty(parts)[i], parts)
  {
    if |parts| > 0 {
      var t := Trim(parts[0]);
      var rest := TrimmedNonEmpty(parts[1..]);
      var r := TrimmedNonEmpty(parts);
      assert r == if t == [] then rest else [t] + rest;
      TrimmedNonEmptyFrom(parts[1..]);
      forall i | 0 <= i < |r|
        ensures IsTrimOfPart(r[i], parts)
      {
        if t != [] && i == 0 {
          assert r[i] == Trim(parts[0]);
        } else {
          var i' := if t == [] then i else i - 1;
          assert r[i] == rest[i'] && IsTrimOfPart(rest[i'], parts[1..]);
          var j :| 0 <= j < |parts[1..]| && rest[i'] == Trim(parts[1..][j]);
          assert r[i] == Trim(parts[j + 1]);
        }
      }
    }
  }

  /** The trim of every part that is not all spaces is an entry of the trim-and-filter. */
  lemma {:induction false} TrimmedNonEmptyCovers(parts: seq<string>)
    ensures forall j :: 0 <= j < |parts| && Trim(parts[j]) != [] ==> Trim(parts[j]) in TrimmedNonEmpty(parts)
  {
    if |parts| > 0 {
      TrimmedNonEmptyCovers(parts[1..]);
      forall j | 0 <= j < |parts| && Trim(parts[j]) != []
        ensures Trim(parts[j]) in TrimmedNonEmpty(parts)
      {
        if j > 0 {
          assert parts[j] == parts[1..][j - 1];
        }
      }
    }
  }

  /** Parts already trimmed and not empty pass the trim-and-filter unchanged. */
  lemma {:induction false} TrimmedNonEmptyKeeps(parts: seq<string>)
    requires forall i :: 0 <= i < |parts| ==> parts[i] != [] && Trim(parts[i]) == parts[i]
    ensures TrimmedNonEmpty(parts) == parts
  {
    if |parts| > 0 {
      TrimmedNonEmptyKeeps(parts[1..]);
    }
  }

  /**
   * `s.split(sep).map((s) => s.trim()).filter(Boolean)`: a separated list of
   * names, each not empty, trimmed, free of the separator and made of
   * characters of `s`.
   */
  function SplitList(s: string, sep: char): (r: seq<string>)
    ensures forall i :: 0 <= i < |r| ==> r[i] != [] && Trim(r[i]) == r[i]
    ensures forall i :: 0 <= i < |r| ==> sep !in r[i]
    ensures forall i :: 0 <= i < |r| ==> forall c :: c in r[i] ==> c in s
  {
    var parts := Split(s, sep);
    var r := TrimmedNonEmpty(parts);
    SplitChars(s, sep);
    TrimmedNonEmptyFrom(parts);
    forall i | 0 <= i < |r|
      ensures sep !in r[i] && forall c :: c in r[i] ==> c in s
    {
      assert IsTrimOfPart(r[i], parts);
      var j :| 0 <= j < |parts| && r[i] == Trim(parts[j]);
      TrimChars(parts[j]);
    }
    r
  }

  /** Every character of a part of a split comes from the text. */
  lemma {:induction false} SplitChars(s: string, sep: char)
    ensures forall j, c :: 0 <= j < |Split(s, sep)| && c in Split(s, sep)[j] ==> c in s
  {
    if s != [] {
      SplitChars(s[1..], sep);
      assert forall c :: c in s[1..] ==> c in s;
    }
  }

  /** Text without the separator is one entry, its trim, or no entry when it is all spaces. */
  lemma SplitListPiece(a: string, sep: char)
    requires sep !in a
    ensures SplitList(a, sep) == if Trim(a) == [] then [] else [Trim(a)]
  {
    SplitWhole(a, sep);
    TrimmedNonEmptyOne(a);
  }

  /** A separator closes an entry: the list of `a + [sep] + b` is the list of `a` followed by that of `b`. */
  lemma SplitListAfter(a: string, b: string, sep: char)
    requires sep !in a
    ensures SplitList(a + [sep] + b, sep) == SplitList(a, sep) + SplitList(b, sep)
  {
    SplitAfterPart(a, b, sep);
    SplitWhole(a, sep);
    TrimmedNonEmptyConcat([a], Split(b, sep));
  }

  /** An empty text is an empty list. */
  lemma SplitListEmpty(sep: char)
    ensures SplitList([], sep) == []
  {
    assert Split([], sep) == [[]];
    assert TrimmedNonEmpty([[]]) == [];
  }

  /** A name a separated list can carry: not empty, trimmed, and free of the separator. */
  predicate IsListName(s: string, sep: char) {
    s != [] && Trim(s) == s && sep !in s
  }

  /** Names that are trimmed, not empty and free of the separator survive a join and a split unchanged. */
  lemma {:induction false} SplitListJoin(names: seq<string>, sep: char)
    requires forall i :: 0 <= i < |names| ==> IsListName(names[i], sep)
    ensures SplitList(Join(names, sep), sep) == names
  {
    if |names| == 0 {
      SplitListEmpty(sep);
    } else {
      assert Split(Join(names, sep), sep) == names by {
        assert forall i :: 0 <= i < |names| ==> sep !in names[i];
        SplitJoin(names, sep);
      }
      assert TrimmedNonEmpty(names) == names by {
        TrimmedNonEmptyKeeps(names);
      }
    }
  }

  /** `s.includes(sub)`. */
  predicate Contains(s: string, sub: string) {
    StartsWith(s, sub) || (s != [] && Contains(s[1..], sub))
  }

  /** `s.startsWith(p)`. */
  predicate StartsWith(s: string, p: string) {
    |p| <= |s| && s[..|p|] == p
  }

  /** ASCII case folding of one character. */
  function LowerChar(c: char): char {
    if 'A' <= c <= 'Z' then (c as int - 'A' as int + 'a' as int) as char else c
  }

  /** `toLowerCase`, on the ASCII letters. */
  function ToLower(s: string): (r: string)
    ensures |r| == |s|
    ensures forall i :: 0 <= i < |s| ==> r[i] == LowerChar(s[i])
  {
    seq(|s|, i requires 0 <= i < |s| => LowerChar(s[i]))
  }

  /** Lowering twice lowers once. */
  lemma ToLowerIdempotent(s: string)
    ensures ToLower(ToLower(s)) == ToLower(s)
  {
    assert forall i :: 0 <= i < |s| ==> LowerChar(LowerChar(s[i])) == LowerChar(s[i]);
  }

  /** An occurrence survives lowering: the lowered text contains the lowered part. */
  lemma {:induction false} ContainsLower(s: string, sub: string)
    requires Contains(s, sub)
    ensures Contains(ToLower(s), ToLower(sub))
    decreases |s|
  {
    if StartsWith(s, sub) {
      assert ToLower(s)[..|sub|] == ToLower(s[..|sub|]);
    } else {
      ContainsLower(s[1..], sub);
      assert ToLower(s)[1..] == ToLower(s[1..]);
    }
  }

  /** `s.replace(/c/g, '')`: every occurrence of `c` removed, the rest kept in order. */
  function RemoveAll(s: string, c: char): (r: string)
    ensures c !in r
    ensures |r| <= |s|
    ensures c !in s ==> r == s
    ensures multiset(r) == multiset(s)[c := 0]
  {
    if s == [] then []
    else if s[0] == c then
      assert s == [s[0]] + s[1..];
      RemoveAll(s[1..], c)
    else
      assert s == [s[0]] + s[1..];
      [s[0]] + RemoveAll(s[1..], c)
  }

  /** Removal works piece by piece, so the characters kept stay in their order. */
  lemma {:induction false} RemoveAllConcat(a: string, b: string, c: char)
    ensures RemoveAll(a + b, c) == RemoveAll(a, c) + RemoveAll(b, c)
  {
    if a == [] {
      assert a + b == b;
    } else {
      assert (a + b)[0] == a[0];
      assert (a + b)[1..] == a[1..] + b;
      RemoveAllConcat(a[1..], b, c);
    }
  }

  function DigitChar(d: int): char
    requires 0 <= d < 10
  {
    ('0' as int + d) as char
  }

  predicate IsDigit(c: char) { '0' <= c <= '9' }

  function DigitValue(c: char): int
    requires IsDigit(c)
  {
    c as int - '0' as int
  }

  predicate AllDigits(s: string) {
    forall i :: 0 <= i < |s| ==> IsDigit(s[i])
  }

  /** The value of a run of decimal digits. */
  function DigitsValue(s: string): nat
    requires AllDigits(s)
  {
    if s == [] then 0 else DigitsValue(s[..|s| - 1]) * 10 + DigitValue(s[|s| - 1])
  }

  function Pow10(k: nat): nat {
    if k == 0 then 1 else 10 * Pow10(k - 1)
  }

  /** The decimal text of a natural number, as `n.toString()` writes it. */
  function NatToString(n: nat): (r: string)
    ensures |r| >= 1 && AllDigits(r)
  {
    if n < 10 then [DigitChar(n)] else NatToString(n / 10) + [DigitChar(n % 10)]
  }

  /** The decimal text of an integer, with a leading `-` when negative. */
  function IntToString(i: int): string {
    if i < 0 then "-" + NatToString(-i) else NatToString(i)
  }

  /** Reading back the text of a number gives the number. */
  lemma {:induction false} NatToStringValue(n: nat)
    ensures DigitsValue(NatToString(n)) == n
  {
    if n >= 10 {
      NatToStringValue(n / 10);
      var t := NatToString(n / 10) + [DigitChar(n % 10)];
      assert t[..|t| - 1] == NatToString(n / 10);
    }
  }

  /** A number below 10^k has at most k digits. */
  lemma {:induction false} NatToStringLength(n: nat, k: nat)
    requires k >= 1 && n < Pow10(k)
    ensures |NatToString(n)| <= k
  {
    if n >= 10 {
      assert k >= 2;
      NatToStringLength(n / 10, k - 1);
    }
  }

  /** `text.padStart(width, '0')`. */
  function PadStart(s: string, width: nat): (r: string)
    ensures |r| == if |s| >= width then |s| else width
    ensures AllDigits(s) ==> AllDigits(r)
    decreases width - |s|
  {
    if |s| >= width then s else PadStart("0" + s, width)
  }

  /** Leading zeros do not change the value of a digit run. */
  lemma {:induction false} LeadingZero(s: string)
    requires AllDigits(s)
    ensures AllDigits("0" + s) && DigitsValue("0" + s) == DigitsValue(s)
  {
    if s != [] {
      var t := "0" + s;
      assert t[..|t| - 1] == "0" + s[..|s| - 1];
      LeadingZero(s[..|s| - 1]);
    }
  }

  lemma {:induction false} PadStartValue(s: string, width: nat)
    requires AllDigits(s)
    ensures DigitsValue(PadStart(s, width)) == DigitsValue(s)
    decreases width - |s|
  {
    if |s| < width {
      LeadingZero(s);
      PadStartValue("0" + s, width);
    }
  }

  /** `n.toString().padStart(width, '0')`. */
  function Pad(n: nat, width: nat): (r: string)
    ensures AllDigits(r) && |r| >= width
  {
    PadStart(NatToString(n), width)
  }

  /** A number below 10^width is written in exactly `width` digits, and reading them gives it back. */
  lemma PadRoundTrip(n: nat, width: nat)
    requires width >= 1 && n < Pow10(width)
    ensures |Pad(n, width)| == width
    ensures DigitsValue(Pad(n, width)) == n
  {
    NatToStringLength(n, width);
    NatToStringValue(n);
    PadStartValue(NatToString(n), width);
  }
}
