/** The Python string operations the resources rely on, restricted to ASCII:
    `str.lower`, `str.isalnum`, `str.isspace`, `str.split()` (on runs of
    whitespace), `str.split(',')`, `str.join`, `str.strip`, `str.lstrip('@')`,
    `str.endswith`, `int(str)` for decimal text (digits that single
    underscores may group), and the case-insensitive
    substring test behind the store's `ilike` operator. */
module Text {
  import opened Common

  predicate IsUpper(c: char) { 'A' <= c <= 'Z' }
  predicate IsLower(c: char) { 'a' <= c <= 'z' }
  predicate IsDigit(c: char) { '0' <= c <= '9' }
  predicate IsAlpha(c: char) { IsUpper(c) || IsLower(c) }
  predicate IsAlnum(c: char) { IsAlpha(c) || IsDigit(c) }

  /** `str.isspace` on ASCII: blank, tab, line feed, vertical tab, form feed,
      carriage return and the four information separators 0x1C-0x1F. */
  predicate IsSpace(c: char)
  {
    c == ' ' || c == '\t' || c == '\n' || c == '\r' || c == '\U{0B}' || c == '\U{0C}'
    || ('\U{1C}' <= c <= '\U{1F}')
  }

  function LowerChar(c: char): (d: char)
    ensures IsAlnum(d) <==> IsAlnum(c)
    ensures IsSpace(d) <==> IsSpace(c)
    ensures !IsUpper(d)
    ensures !IsUpper(c) ==> d == c
  {
    if IsUpper(c) then (c as int + 32) as char else c
  }

  function Lower(s: string): (r: string)
    ensures |r| == |s|
    ensures forall k :: 0 <= k < |s| ==> r[k] == LowerChar(s[k])
  {
    seq(|s|, k requires 0 <= k < |s| => LowerChar(s[k]))
  }

  /** The characters of `s` that satisfy `p`, in order. */
  function Filter(s: string, p: char -> bool): (r: string)
    ensures |r| <= |s|
    ensures forall c :: c in r ==> c in s && p(c)
  {
    if s == [] then [] else (if p(s[0]) then [s[0]] else []) + Filter(s[1..], p)
  }

  lemma {:induction false} FilterAppend(a: string, b: string, p: char -> bool)
    ensures Filter(a + b, p) == Filter(a, p) + Filter(b, p)
  {
    if a == [] {
      assert a + b == b;
    } else {
      assert (a + b)[1..] == a[1..] + b;
      FilterAppend(a[1..], b, p);
    }
  }

  lemma {:induction false} FilterAll(s: string, p: char -> bool)
    requires forall c :: c in s ==> p(c)
    ensures Filter(s, p) == s
  {
    if s != [] {
      FilterAll(s[1..], p);
    }
  }

  // ---------------------------------------------------------------- str.split()

  /** Length of the run of non-whitespace characters that starts `s`. */
  function WordLen(s: string): (n: nat)
    ensures n <= |s|
    ensures forall k :: 0 <= k < n ==> !IsSpace(s[k])
    ensures n < |s| ==> IsSpace(s[n])
  {
    if s == [] || IsSpace(s[0]) then 0 else 1 + WordLen(s[1..])
  }

  /** `s.split()`: the maximal runs of non-whitespace characters. */
  function Words(s: string): (ws: seq<string>)
    decreases |s|
  {
    if s == [] then []
    else if IsSpace(s[0]) then Words(s[1..])
    else
      var n := WordLen(s);
      [s[..n]] + Words(s[n..])
  }

  predicate NonSpace(c: char) { !IsSpace(c) }

  function Concat(ws: seq<string>): string
  {
    if ws == [] then [] else ws[0] + Concat(ws[1..])
  }

  /** `Words` on input that starts with a word: that word, then the words of
      the rest. */
  lemma WordsUnfold(s: string)
    requires s != [] && !IsSpace(s[0])
    ensures WordLen(s) > 0
    ensures Words(s) == [s[..WordLen(s)]] + Words(s[WordLen(s)..])
  {
  }

  /** Word `k` is non-empty and holds only non-whitespace characters of the
      input. */
  lemma {:induction false} WordAt(s: string, k: nat)
    requires k < |Words(s)|
    ensures Words(s)[k] != []
    ensures forall c :: c in Words(s)[k] ==> c in s && !IsSpace(c)
    decreases |s|
  {
    if IsSpace(s[0]) {
      WordAt(s[1..], k);
      assert Words(s) == Words(s[1..]);
      forall c | c in Words(s)[k] ensures c in s {
        assert c in s[1..];
      }
    } else {
      var n := WordLen(s);
      WordsUnfold(s);
      if k == 0 {
        forall c | c in Words(s)[k] ensures c in s && !IsSpace(c) {
          var j :| 0 <= j < n && s[..n][j] == c;
        }
      } else {
        WordAt(s[n..], k - 1);
        assert Words(s)[k] == Words(s[n..])[k - 1];
        forall c | c in Words(s)[k] ensures c in s {
          assert c in s[n..];
        }
      }
    }
  }

  /** Every word is non-empty and holds only non-whitespace characters of
      the input. */
  lemma WordsChars(s: string)
    ensures forall k :: 0 <= k < |Words(s)| ==> Words(s)[k] != []
    ensures forall k, c :: 0 <= k < |Words(s)| && c in Words(s)[k] ==> c in s && !IsSpace(c)
  {
    forall k | 0 <= k < |Words(s)|
      ensures Words(s)[k] != [] && forall c :: c in Words(s)[k] ==> c in s && !IsSpace(c)
    {
      WordAt(s, k);
    }
  }

  /** The words laid end to end are the input with its whitespace removed. */
  lemma {:induction false} WordsConcat(s: string)
    ensures Concat(Words(s)) == Filter(s, NonSpace)
    decreases |s|
  {
    if s == [] {
    } else if IsSpace(s[0]) {
      WordsConcat(s[1..]);
    } else {
      var n := WordLen(s);
      WordsUnfold(s);
      WordsConcat(s[n..]);
      var ws := Words(s);
      assert ws[1..] == Words(s[n..]);
      assert s == s[..n] + s[n..];
      FilterAppend(s[..n], s[n..], NonSpace);
      FilterAll(s[..n], NonSpace);
    }
  }

  /** A word followed by whitespace or the end of the input. */
  lemma {:induction false} WordLenOf(w: string, rest: string)
    requires forall k :: 0 <= k < |w| ==> !IsSpace(w[k])
    requires rest == [] || IsSpace(rest[0])
    ensures WordLen(w + rest) == |w|
  {
    if w != [] {
      assert (w + rest)[1..] == w[1..] + rest;
      WordLenOf(w[1..], rest);
    } else {
      assert w + rest == rest;
    }
  }

  lemma WordsCons(w: string, rest: string)
    requires w != [] && forall k :: 0 <= k < |w| ==> !IsSpace(w[k])
    requires rest == [] || IsSpace(rest[0])
    ensures Words(w + rest) == [w] + Words(rest)
  {
    WordLenOf(w, rest);
    assert (w + rest)[..|w|] == w;
    assert (w + rest)[|w|..] == rest;
  }

  // ---------------------------------------------------------------- str.join

  /** `sep.join(parts)`. */
  function Join(parts: seq<string>, sep: string): string
  {
    if parts == [] then []
    else if |parts| == 1 then parts[0]
    else parts[0] + sep + Join(parts[1..], sep)
  }

  // ---------------------------------------------------------------- str.split(c)

  /** Index of the first `c` in `s`, or |s| when there is none. */
  function IndexOf(s: string, c: char): (i: nat)
    ensures i <= |s|
    ensures i < |s| ==> s[i] == c
    ensures c !in s[..i]
  {
    if s == [] then 0
    else if s[0] == c then 0
    else
      var i := 1 + IndexOf(s[1..], c);
      assert s[..i] == [s[0]] + s[1..][..i - 1];
      i
  }

  /** `s.split(c)`: the pieces between occurrences of `c`; never empty. */
  function SplitOn(s: string, c: char): (parts: seq<string>)
    ensures |parts| >= 1
    ensures forall k :: 0 <= k < |parts| ==> c !in parts[k]
    decreases |s|
  {
    var i := IndexOf(s, c);
    if i == |s| then (assert s[..i] == s; [s])
    else [s[..i]] + SplitOn(s[i + 1..], c)
  }

  /** Splitting and joining on the same character are inverse: joining the
      pieces restores the text ... */
  lemma {:induction false} JoinSplit(s: string, c: char)
    ensures Join(SplitOn(s, c), [c]) == s
    decreases |s|
  {
    var i := IndexOf(s, c);
    if i < |s| {
      var rest := SplitOn(s[i + 1..], c);
      SplitOnFirst(s, c);
      JoinSplit(s[i + 1..], c);
      JoinCons(s[..i], rest, [c]);
      assert s == s[..i] + [c] + s[i + 1..];
    }
  }

  /** Splitting at the first `c`: the piece before it, then the pieces of
      the rest. */
  lemma SplitOnFirst(s: string, c: char)
    requires IndexOf(s, c) < |s|
    ensures SplitOn(s, c) == [s[..IndexOf(s, c)]] + SplitOn(s[IndexOf(s, c) + 1..], c)
  {
  }

  lemma JoinCons(part: string, rest: seq<string>, sep: string)
    requires rest != []
    ensures Join([part] + rest, sep) == part + sep + Join(rest, sep)
  {
    assert ([part] + rest)[1..] == rest;
  }

  lemma IndexOfPrefix(a: string, b: string, c: char)
    requires c !in a
    ensures IndexOf(a + [c] + b, c) == |a|
  {
    var s := a + [c] + b;
    assert s[..|a|] == a;
    assert s[|a|] == c;
  }

  /** ... and splitting a join of comma-free pieces gives the pieces back. */
  lemma {:induction false} SplitJoin(parts: seq<string>, c: char)
    requires |parts| >= 1
    requires forall k :: 0 <= k < |parts| ==> c !in parts[k]
    ensures SplitOn(Join(parts, [c]), c) == parts
  {
    if |parts| == 1 {
      assert IndexOf(parts[0], c) == |parts[0]|;
    } else {
      var rest := Join(parts[1..], [c]);
      var s := parts[0] + [c] + rest;
      assert Join(parts, [c]) == s;
      IndexOfPrefix(parts[0], rest, c);
      assert s[..|parts[0]|] == parts[0];
      assert s[|parts[0]| + 1..] == rest;
      SplitJoin(parts[1..], c);
    }
  }

  // ---------------------------------------------------------------- str.strip

  function TrimStart(s: string): (r: string)
    ensures |r| <= |s| && r == s[|s| - |r|..]
    ensures r != [] ==> !IsSpace(r[0])
    ensures forall k :: 0 <= k < |s| - |r| ==> IsSpace(s[k])
  {
    if s != [] && IsSpace(s[0]) then TrimStart(s[1..]) else s
  }

  function TrimEnd(s: string): (r: string)
    ensures |r| <= |s| && r == s[..|r|]
    ensures r != [] ==> !IsSpace(r[|r| - 1])
    ensures forall k :: |r| <= k < |s| ==> IsSpace(s[k])
  {
    if s != [] && IsSpace(s[|s| - 1]) then TrimEnd(s[..|s| - 1]) else s
  }

  /** `s.strip()`. */
  function Strip(s: string): (r: string)
  {
    TrimEnd(TrimStart(s))
  }

  /** Where the stripped text starts in the input. */
  function StripStart(s: string): nat
  {
    |s| - |TrimStart(s)|
  }

  /** The stripped text is the slice of the input that starts at
      `StripStart(s)`, and has no surrounding whitespace ... */
  lemma StripSlice(s: string)
    ensures StripStart(s) + |Strip(s)| <= |s|
    ensures Strip(s) == s[StripStart(s)..StripStart(s) + |Strip(s)|]
    ensures Strip(s) != [] ==> !IsSpace(Strip(s)[0]) && !IsSpace(Strip(s)[|Strip(s)| - 1])
  {
    var t := TrimStart(s);
    var r := TrimEnd(t);
    var i := |s| - |t|;
    assert Strip(s) == r && StripStart(s) == i;
    assert r == s[i..i + |r|] by {
      assert t == s[i..];
      assert r == t[..|r|];
    }
  }

  /** ... and only whitespace was cut away around it. */
  lemma StripCut(s: string)
    ensures forall k :: 0 <= k < StripStart(s) ==> IsSpace(s[k])
    ensures forall k :: StripStart(s) + |Strip(s)| <= k < |s| ==> IsSpace(s[k])
  {
    var t := TrimStart(s);
    var r := TrimEnd(t);
    var i := |s| - |t|;
    assert Strip(s) == r && StripStart(s) == i;
    forall k | i + |r| <= k < |s| ensures IsSpace(s[k]) {
      assert |r| <= k - i < |t| && IsSpace(t[k - i]);
      assert s[k] == t[k - i];
    }
  }

  /** Text without surrounding whitespace is its own strip. */
  lemma StripNoSurroundingSpace(s: string)
    requires s != [] ==> !IsSpace(s[0]) && !IsSpace(s[|s| - 1])
    ensures Strip(s) == s
  {
  }

  // ---------------------------------------------------------------- str.lstrip(c)

  /** `s.lstrip(c)` for a single character: every leading `c` removed. */
  function LStrip(s: string, c: char): (r: string)
    ensures |r| <= |s| && r == s[|s| - |r|..]
    ensures r != [] ==> r[0] != c
    ensures forall k :: 0 <= k < |s| - |r| ==> s[k] == c
  {
    if s != [] && s[0] == c then LStrip(s[1..], c) else s
  }

  // ---------------------------------------------------------------- prefixes, suffixes, substrings

  predicate StartsWith(s: string, prefix: string)
  {
    |prefix| <= |s| && s[..|prefix|] == prefix
  }

  predicate EndsWith(s: string, suffix: string)
  {
    |suffix| <= |s| && s[|s| - |suffix|..] == suffix
  }

  predicate OccursAt(hay: string, needle: string, i: int)
  {
    0 <= i <= |hay| - |needle| && hay[i..i + |needle|] == needle
  }

  predicate Contains(hay: string, needle: string)
  {
    exists i :: 0 <= i <= |hay| - |needle| && OccursAt(hay, needle, i)
  }

  /** The store's `ilike` operator: case-insensitive substring match. */
  predicate ILike(hay: string, needle: string)
  {
    Contains(Lower(hay), Lower(needle))
  }

  // ---------------------------------------------------------------- int(str) and str(int)

  predicate AllDigits(s: string)
  {
    forall k :: 0 <= k < |s| ==> IsDigit(s[k])
  }

  function DigitValue(c: char): nat
    requires IsDigit(c)
  {
    c as int - '0' as int
  }

  function DigitChar(d: nat): (c: char)
    requires d < 10
    ensures IsDigit(c) && DigitValue(c) == d
  {
    ('0' as int + d) as char
  }

  /** The value of a run of decimal digits, read left to right. */
  function DigitsValue(s: string): nat
    requires AllDigits(s)
  {
    if s == [] then 0 else DigitsValue(s[..|s| - 1]) * 10 + DigitValue(s[|s| - 1])
  }

  /** Digits as Python writes them in an integer literal: a digit at
      both ends, and single underscores only between two digits. */
  predicate Grouped(s: string)
  {
    && |s| >= 1 && IsDigit(s[0]) && IsDigit(s[|s| - 1])
    && (forall k :: 0 <= k < |s| ==> IsDigit(s[k]) || s[k] == '_')
    && (forall k :: 0 <= k < |s| - 1 ==> !DoubleUnderscore(s, k))
  }

  predicate DoubleUnderscore(s: string, k: int)
    requires 0 <= k < |s| - 1
  {
    s[k] == '_' && s[k + 1] == '_'
  }

  /** The digits of grouped text, its underscores dropped. */
  function Ungrouped(s: string): (r: string)
    ensures AllDigits(r)
  {
    if s == [] then []
    else Ungrouped(s[..|s| - 1]) + (if IsDigit(s[|s| - 1]) then [s[|s| - 1]] else [])
  }

  lemma {:induction false} UngroupedAppend(a: string, b: string)
    ensures Ungrouped(a + b) == Ungrouped(a) + Ungrouped(b)
    decreases |b|
  {
    if b == [] {
      assert a + b == a;
    } else {
      UngroupedAppend(a, b[..|b| - 1]);
      assert (a + b)[..|a + b| - 1] == a + b[..|b| - 1];
    }
  }

  /** The value of grouped text, read left to right with its underscores
      skipped. */
  function GroupedValue(s: string): nat
  {
    if s == [] then 0
    else if IsDigit(s[|s| - 1]) then GroupedValue(s[..|s| - 1]) * 10 + DigitValue(s[|s| - 1])
    else GroupedValue(s[..|s| - 1])
  }

  /** Grouped text is worth what its digits are worth. */
  lemma {:induction false} GroupedValueOfDigits(s: string)
    ensures GroupedValue(s) == DigitsValue(Ungrouped(s))
    decreases |s|
  {
    if s != [] {
      var p := s[..|s| - 1];
      GroupedValueOfDigits(p);
      if IsDigit(s[|s| - 1]) {
        var u := Ungrouped(p) + [s[|s| - 1]];
        assert u[..|u| - 1] == Ungrouped(p);
      } else {
        assert Ungrouped(s) == Ungrouped(p);
      }
    }
  }

  /** Plain digits are grouped text worth their own value. */
  lemma DigitsGrouped(s: string)
    requires |s| >= 1 && AllDigits(s)
    ensures Grouped(s) && GroupedValue(s) == DigitsValue(s)
  {
    DigitsValueGrouped(s);
  }

  lemma {:induction false} DigitsValueGrouped(s: string)
    requires AllDigits(s)
    ensures GroupedValue(s) == DigitsValue(s)
    decreases |s|
  {
    if s != [] {
      DigitsValueGrouped(s[..|s| - 1]);
    }
  }

  /** `int(s)`: surrounding whitespace, an optional sign, then decimal
      digits that single underscores may group; anything else raises
      ValueError, modelled as None. */
  function ParseInt(s: string): Option<int>
  {
    ParseLiteral(Strip(s))
  }

  /** The message of the ValueError that `int(s)` raises. */
  function IntError(s: string): string
  {
    "invalid literal for int() with base 10: '" + s + "'"
  }

  /** `int(t)` for text without surrounding whitespace. */
  function ParseLiteral(t: string): Option<int>
  {
    if t == [] then None
    else if t[0] == '-' || t[0] == '+' then
      if Grouped(t[1..]) then
        var n: int := GroupedValue(t[1..]);
        Some(if t[0] == '-' then -n else n)
      else None
    else if Grouped(t) then Some(GroupedValue(t))
    else None
  }

  /** Grouped text joined to more grouped text, directly or across one
      underscore, is grouped. */
  lemma JoinGrouped(a: string, b: string)
    requires Grouped(a) && Grouped(b)
    ensures Grouped(a + b) && Grouped(a + "_" + b)
  {
    JoinAcross(a, b, "");
    assert a + "" + b == a + b;
    JoinAcross(a, b, "_");
  }

  lemma JoinAcross(a: string, b: string, sep: string)
    requires Grouped(a) && Grouped(b) && (sep == "" || sep == "_")
    ensures Grouped(a + sep + b)
  {
    var s := a + sep + b;
    var m := |a| + |sep|;
    assert s[0] == a[0] && s[|s| - 1] == b[|b| - 1];
    forall k | 0 <= k < |s| ensures IsDigit(s[k]) || s[k] == '_' {
      if k < |a| { assert s[k] == a[k]; } else if k >= m { assert s[k] == b[k - m]; }
    }
    forall k | 0 <= k < |s| - 1 ensures !DoubleUnderscore(s, k) {
      if k + 1 < |a| {
        assert s[k] == a[k] && s[k + 1] == a[k + 1] && !DoubleUnderscore(a, k);
      } else if k >= m {
        assert s[k] == b[k - m] && s[k + 1] == b[k - m + 1] && !DoubleUnderscore(b, k - m);
      } else if k == |a| - 1 {
        assert s[k] == a[|a| - 1];
      } else {
        assert s[k + 1] == b[0];
      }
    }
  }
 /** An underscore between two groups of digits is read as nothing:
      `int("1_000") == int("1000")`. */
  lemma UnderscoreIgnored(a: string, b: string)
    requires Grouped(a) && Grouped(b)
    ensures ParseInt(a + "_" + b) == ParseInt(a + b) != None
  {
    var s, t := a + b, a + "_" + b;
    JoinGrouped(a, b);
    assert s[0] == a[0] && t[0] == a[0];
    assert s[|s| - 1] == b[|b| - 1] && t[|t| - 1] == b[|b| - 1];
    StripNoSurroundingSpace(s);
    StripNoSurroundingSpace(t);
    UnderscoreDropped(a, b);
    SameDigitsSameValue(t, s);
  }

  lemma UnderscoreDropped(a: string, b: string)
    ensures Ungrouped(a + "_" + b) == Ungrouped(a + b)
  {
    UngroupedAppend(a, b);
    UngroupedAppend(a + "_", b);
    UngroupedAppend(a, "_");
    assert Ungrouped("_") == [];
  }

  lemma SameDigitsSameValue(s: string, t: string)
    requires Ungrouped(s) == Ungrouped(t)
    ensures GroupedValue(s) == GroupedValue(t)
  {
    GroupedValueOfDigits(s);
    GroupedValueOfDigits(t);
  }

  /** A query value such as "1_0" is read as 10. */
  lemma ParseGroupedExample()
    ensures ParseInt("1_0") == Some(10)
  {
    StripNoSurroundingSpace("1_0");
    GroupedExample();
  }

  lemma GroupedExample()
    ensures Grouped("1_0") && GroupedValue("1_0") == 10
  {
    assert "1_0"[..2] == "1_" && "1_"[..1] == "1";
  }

  /** Doubled, leading or trailing underscores raise ValueError. */
  lemma MisplacedUnderscores()
    ensures ParseInt("1__0") == None && ParseInt("_1") == None && ParseInt("1_") == None
  {
    DoubledRefused();
    LeadingRefused();
    TrailingRefused();
  }

  lemma DoubledRefused()
    ensures ParseInt("1__0") == None
  {
    assert DoubleUnderscore("1__0", 1);
    Refused("1__0");
  }

  lemma LeadingRefused()
    ensures ParseInt("_1") == None
  {
    Refused("_1");
  }

  lemma TrailingRefused()
    ensures ParseInt("1_") == None
  {
    Refused("1_");
  }

  /** Unsigned text without surrounding whitespace that is not grouped
      digits does not parse. */
  lemma Refused(t: string)
    requires t != [] && !IsSpace(t[0]) && !IsSpace(t[|t| - 1])
    requires t[0] != '-' && t[0] != '+' && !Grouped(t)
    ensures ParseInt(t) == None
  {
    StripNoSurroundingSpace(t);
  }

  /** `str(n)` for a natural number. */
  function NatToString(n: nat): (s: string)
    ensures |s| >= 1 && AllDigits(s)
  {
    if n < 10 then [DigitChar(n)] else NatToString(n / 10) + [DigitChar(n % 10)]
  }

  /** `str(i)`. */
  function IntToString(i: int): string
  {
    if i < 0 then "-" + NatToString(-i) else NatToString(i)
  }

  lemma {:induction false} NatToStringValue(n: nat)
    ensures DigitsValue(NatToString(n)) == n
  {
    if n >= 10 {
      var s := NatToString(n);
      NatToStringValue(n / 10);
      assert s[..|s| - 1] == NatToString(n / 10);
    }
  }

  /** Rendering an integer as decimal text and parsing it back gives the
      integer: the ids a client reads in a reply are accepted as parameters. */
  lemma ParseIntToString(i: int)
    ensures ParseInt(IntToString(i)) == Some(i)
  {
    var s := IntToString(i);
    var n: nat := if i < 0 then -i else i;
    var digits := NatToString(n);
    NatToStringValue(n);
    assert s == if i < 0 then "-" + digits else digits;
    DigitsLiteral(i < 0, digits);
    assert !IsSpace(s[0]) && !IsSpace(s[|s| - 1]);
    StripNoSurroundingSpace(s);
  }

  lemma DigitsLiteral(negative: bool, digits: string)
    requires |digits| >= 1 && AllDigits(digits)
    ensures var n: int := DigitsValue(digits);
      ParseLiteral(if negative then "-" + digits else digits) == Some(if negative then -n else n)
  {
    DigitsGrouped(digits);
    LiteralOfDigits(negative, digits);
  }

  lemma LiteralOfDigits(negative: bool, digits: string)
    requires |digits| >= 1 && AllDigits(digits)
    requires Grouped(digits) && GroupedValue(digits) == DigitsValue(digits)
    ensures var n: int := DigitsValue(digits);
      ParseLiteral(if negative then "-" + digits else digits) == Some(if negative then -n else n)
  {
    if negative {
      assert ("-" + digits)[1..] == digits;
    } else {
      assert IsDigit(digits[0]);
    }
  }
}
