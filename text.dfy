/** The Python string operations the engine relies on: `strip`, `upper`,
    `lower`, `title`, `in`, `split`, `join`, `str(int)` and `int(str)`.
    Whitespace is Python's full `str.isspace` set; case mapping and
    integer parsing are restricted to ASCII letters and decimal digits. */
module Text {
  import opened Wrappers

  // ---------------------------------------------------------------------
  // Whitespace and strip()
  // ---------------------------------------------------------------------

  /** Python's `str.isspace()` for a single code point. */
  predicate IsSpace(c: char) {
    var n := c as int;
    (9 <= n <= 13) || (28 <= n <= 32) || n == 0x85 || n == 0xA0 || n == 0x1680
    || (0x2000 <= n <= 0x200A) || n == 0x2028 || n == 0x2029 || n == 0x202F
    || n == 0x205F || n == 0x3000
  }

  /** No whitespace at either end: what `strip()` leaves unchanged. */
  predicate IsStripped(s: string) {
    s == [] || (!IsSpace(s[0]) && !IsSpace(s[|s| - 1]))
  }

  function TrimStart(s: string): (r: string)
    ensures |r| <= |s| && r == s[|s| - |r|..]
    ensures r == [] || !IsSpace(r[0])
    ensures forall i :: 0 <= i < |s| - |r| ==> IsSpace(s[i])
  {
    if |s| > 0 && IsSpace(s[0]) then TrimStart(s[1..]) else s
  }

  function TrimEnd(s: string): (r: string)
    ensures |r| <= |s| && r == s[..|r|]
    ensures r == [] || !IsSpace(r[|r| - 1])
    ensures forall i :: |r| <= i < |s| ==> IsSpace(s[i])
  {
    if |s| > 0 && IsSpace(s[|s| - 1]) then TrimEnd(s[..|s| - 1]) else s
  }

  /** Python's `str.strip()` with no argument. */
  function Strip(s: string): (r: string)
    ensures IsStripped(r)
    ensures |r| <= |s|
  {
    var t := TrimStart(s);
    var r := TrimEnd(t);
    assert r != [] ==> r[0] == t[0];
    r
  }

  lemma StripOfStripped(s: string)
    requires IsStripped(s)
    ensures Strip(s) == s
  {
  }

  lemma StripIdempotent(s: string)
    ensures Strip(Strip(s)) == Strip(s)
  {
    StripOfStripped(Strip(s));
  }

  /** Every character of the stripped text comes from the text. */
  lemma StripIsInside(s: string)
    ensures forall i :: 0 <= i < |Strip(s)| ==> Strip(s)[i] in s
  {
    var t := TrimStart(s);
    var r := Strip(s);
    assert r == TrimEnd(t);
    forall i | 0 <= i < |r|
      ensures r[i] in s
    {
      assert r[i] == t[i];
      assert t[i] == s[|s| - |t| + i];
    }
  }

  /** A stripped string behind one blank is stripped back to itself. */
  lemma StripBlankThen(v: string)
    requires IsStripped(v)
    ensures Strip(" " + v) == v
  {
    assert TrimStart(" " + v) == TrimStart(v) by {
      assert (" " + v)[1..] == v;
    }
    StripOfStripped(v);
  }

  predicate AllSpace(w: string) {
    forall i :: 0 <= i < |w| ==> IsSpace(w[i])
  }

  lemma {:induction false} TrimStartBlanks(w: string, s: string)
    requires AllSpace(w)
    requires s == [] || !IsSpace(s[0])
    ensures TrimStart(w + s) == s
    decreases |w|
  {
    if w != [] {
      assert (w + s)[1..] == w[1..] + s;
      TrimStartBlanks(w[1..], s);
    } else {
      assert w + s == s;
    }
  }

  lemma {:induction false} TrimEndBlanks(s: string, w: string)
    requires AllSpace(w)
    requires s == [] || !IsSpace(s[|s| - 1])
    ensures TrimEnd(s + w) == s
    decreases |w|
  {
    if w != [] {
      assert (s + w)[..|s + w| - 1] == s + w[..|w| - 1];
      TrimEndBlanks(s, w[..|w| - 1]);
    } else {
      assert s + w == s;
    }
  }

  /** Blanks on either side of a stripped string are what `strip()` removes. */
  lemma StripPadded(w1: string, s: string, w2: string)
    requires AllSpace(w1) && AllSpace(w2) && IsStripped(s) && s != []
    ensures Strip(w1 + s + w2) == s
  {
    assert w1 + s + w2 == w1 + (s + w2);
    assert (s + w2)[0] == s[0];
    TrimStartBlanks(w1, s + w2);
    TrimEndBlanks(s, w2);
  }

  /** `[line.strip() for line in lines if line.strip()]`. */
  function NonBlank(lines: seq<string>): (r: seq<string>)
    ensures forall i :: 0 <= i < |r| ==> r[i] != [] && IsStripped(r[i])
  {
    if lines == [] then []
    else
      var t := Strip(lines[0]);
      var rest := NonBlank(lines[1..]);
      if t == [] then rest
      else
        assert forall i :: 0 < i <= |rest| ==> ([t] + rest)[i] == rest[i - 1];
        [t] + rest
  }

  // ---------------------------------------------------------------------
  // Case mapping (ASCII)
  // ---------------------------------------------------------------------

  predicate IsLower(c: char) { 'a' <= c <= 'z' }
  predicate IsUpper(c: char) { 'A' <= c <= 'Z' }
  /** Python's notion of a cased character, restricted to ASCII letters. */
  predicate IsCased(c: char) { IsLower(c) || IsUpper(c) }

  function UpperChar(c: char): char {
    if IsLower(c) then (c as int - 32) as char else c
  }

  function LowerChar(c: char): char {
    if IsUpper(c) then (c as int + 32) as char else c
  }

  /** Python's `str.upper()` on ASCII letters. */
  function Upper(s: string): (r: string)
    ensures |r| == |s| && forall i :: 0 <= i < |s| ==> r[i] == UpperChar(s[i])
  {
    seq(|s|, i requires 0 <= i < |s| => UpperChar(s[i]))
  }

  /** Python's `str.lower()` on ASCII letters. */
  function Lower(s: string): (r: string)
    ensures |r| == |s| && forall i :: 0 <= i < |s| ==> r[i] == LowerChar(s[i])
  {
    seq(|s|, i requires 0 <= i < |s| => LowerChar(s[i]))
  }

  /** Python's `str.title()` on ASCII letters: a letter that follows a
      letter is lowered, any other letter is raised. */
  function TitleAt(s: string, i: nat): char
    requires i < |s|
  {
    if i > 0 && IsCased(s[i - 1]) then LowerChar(s[i]) else UpperChar(s[i])
  }

  function Title(s: string): (r: string)
    ensures |r| == |s| && forall i :: 0 <= i < |s| ==> r[i] == TitleAt(s, i)
  {
    seq(|s|, i requires 0 <= i < |s| => TitleAt(s, i))
  }

  /** Title-casing keeps which positions hold letters, so doing it twice
      changes nothing. */
  lemma TitleIdempotent(s: string)
    ensures Title(Title(s)) == Title(s)
  {
    var t := Title(s);
    forall i | 0 <= i < |s|
      ensures Title(t)[i] == t[i]
    {
      if i > 0 {
        assert IsCased(t[i - 1]) == IsCased(s[i - 1]);
      }
    }
  }

  /** Title-casing changes letter case only, so lower-casing undoes it. */
  lemma LowerOfTitle(s: string)
    ensures Lower(Title(s)) == Lower(s)
  {
    var t := Title(s);
    forall i | 0 <= i < |s|
      ensures LowerChar(t[i]) == LowerChar(s[i])
    {
    }
  }

  lemma TitleKeepsSpaces(s: string)
    ensures forall i :: 0 <= i < |s| ==> (IsSpace(Title(s)[i]) <==> IsSpace(s[i]))
  {
  }

  lemma TitleOfStripped(s: string)
    requires IsStripped(s)
    ensures IsStripped(Title(s))
  {
    TitleKeepsSpaces(s);
  }

  // ---------------------------------------------------------------------
  // Substring search: `sep in s` and `s.split(sep, 1)`
  // ---------------------------------------------------------------------

  predicate OccursAt(s: string, sep: string, j: int) {
    0 <= j && j + |sep| <= |s| && s[j..j + |sep|] == sep
  }

  function FindFrom(s: string, sep: string, start: nat): (r: Option<nat>)
    requires |sep| > 0 && start <= |s|
    ensures r.Some? ==> start <= r.value && OccursAt(s, sep, r.value)
    ensures r.Some? ==> forall j :: start <= j < r.value ==> !OccursAt(s, sep, j)
    ensures r.None? ==> forall j :: start <= j ==> !OccursAt(s, sep, j)
    decreases |s| - start
  {
    if start + |sep| > |s| then None
    else if s[start..start + |sep|] == sep then Some(start)
    else FindFrom(s, sep, start + 1)
  }

  /** Index of the first occurrence of `sep`, as Python's `str.find`. */
  function Find(s: string, sep: string): (r: Option<nat>)
    requires |sep| > 0
    ensures r.Some? ==> OccursAt(s, sep, r.value)
    ensures r.Some? ==> forall j :: 0 <= j < r.value ==> !OccursAt(s, sep, j)
    ensures r.None? ==> forall j :: !OccursAt(s, sep, j)
  {
    FindFrom(s, sep, 0)
  }

  /** Python's `sep in s`. */
  predicate Contains(s: string, sep: string)
    requires |sep| > 0
  {
    Find(s, sep).Some?
  }

  /** Python's `s.split(sep, 1)` when `sep in s`: the text before the first
      occurrence and the text after it. */
  function SplitOnce(s: string, sep: string): (r: Option<(string, string)>)
    requires |sep| > 0
    ensures r.None? <==> !Contains(s, sep)
    ensures r.Some? ==> s == r.value.0 + sep + r.value.1
    ensures r.Some? ==> forall j :: 0 <= j < |r.value.0| ==> !OccursAt(s, sep, j)
  {
    match Find(s, sep)
    case None => None
    case Some(j) =>
      assert s == s[..j] + s[j..j + |sep|] + s[j + |sep|..];
      Some((s[..j], s[j + |sep|..]))
  }

  /** Splitting at the first `:` of `k + ":" + v` when `k` has no `:`. */
  lemma SplitOnceColon(k: string, v: string)
    requires forall i :: 0 <= i < |k| ==> k[i] != ':'
    ensures SplitOnce(k + ":" + v, ":") == Some((k, v))
  {
    var s := k + ":" + v;
    assert OccursAt(s, ":", |k|);
    forall j | 0 <= j < |k|
      ensures !OccursAt(s, ":", j)
    {
      assert s[j..j + 1] == [k[j]];
    }
    assert s[..|k|] == k;
    assert s[|k| + 1..] == v;
  }

  // ---------------------------------------------------------------------
  // split() on separator characters, and join()
  // ---------------------------------------------------------------------

  predicate NoneOf(s: string, seps: set<char>) {
    forall i :: 0 <= i < |s| ==> s[i] !in seps
  }

  /** Cut `s` at every character of `seps`. With `seps == {','}` this is
      Python's `s.split(",")`: `n` separators give `n + 1` pieces. */
  function SplitOn(s: string, seps: set<char>): (r: seq<string>)
    ensures |r| >= 1
  {
    if s == [] then [""]
    else
      var rest := SplitOn(s[1..], seps);
      if s[0] in seps then [""] + rest else [[s[0]] + rest[0]] + rest[1..]
  }

  /** Python's `sep.join(parts)` for a one-character separator. */
  function Join(parts: seq<string>, sep: char): string {
    if |parts| == 0 then ""
    else if |parts| == 1 then parts[0]
    else parts[0] + [sep] + Join(parts[1..], sep)
  }

  lemma {:induction false} SplitNoSeparator(s: string, seps: set<char>)
    requires NoneOf(s, seps)
    ensures SplitOn(s, seps) == [s]
  {
    if s != [] {
      SplitNoSeparator(s[1..], seps);
      assert [s[0]] + s[1..] == s;
    }
  }

  lemma {:induction false} SplitAtFirst(p: string, c: char, q: string, seps: set<char>)
    requires NoneOf(p, seps) && c in seps
    ensures SplitOn(p + [c] + q, seps) == [p] + SplitOn(q, seps)
  {
    var s := p + [c] + q;
    if p == [] {
      assert s[1..] == q;
    } else {
      assert s[1..] == p[1..] + [c] + q;
      SplitAtFirst(p[1..], c, q, seps);
      assert [p[0]] + p[1..] == p;
    }
  }

  /** Joining pieces free of separators and splitting again gives them back. */
  lemma {:induction false} SplitJoin(parts: seq<string>, c: char, seps: set<char>)
    requires |parts| >= 1 && c in seps
    requires forall k :: 0 <= k < |parts| ==> NoneOf(parts[k], seps)
    ensures SplitOn(Join(parts, c), seps) == parts
  {
    if |parts| == 1 {
      SplitNoSeparator(parts[0], seps);
    } else {
      SplitJoin(parts[1..], c, seps);
      SplitAtFirst(parts[0], c, Join(parts[1..], c), seps);
      assert [parts[0]] + parts[1..] == parts;
    }
  }

  lemma {:induction false} JoinEmpty(parts: seq<string>, c: char)
    requires Join(parts, c) == []
    ensures |parts| <= 1
  {
  }

  /** The characters of a join are those of the pieces and the separator. */
  lemma {:induction false} JoinChars(parts: seq<string>, c: char, bad: set<char>)
    requires c !in bad
    requires forall k :: 0 <= k < |parts| ==> NoneOf(parts[k], bad)
    ensures NoneOf(Join(parts, c), bad)
  {
    if |parts| > 1 {
      JoinChars(parts[1..], c, bad);
      var rest := Join(parts[1..], c);
      assert Join(parts, c) == parts[0] + [c] + rest;
      forall i | 0 <= i < |Join(parts, c)|
        ensures Join(parts, c)[i] !in bad
      {
        if i < |parts[0]| {
        } else if i == |parts[0]| {
        } else {
          assert Join(parts, c)[i] == rest[i - |parts[0]| - 1];
        }
      }
    }
  }

  /** The first character of a join starts its first piece, the last ends
      its last piece. */
  lemma {:induction false} JoinEnds(parts: seq<string>, c: char)
    requires |parts| >= 1
    requires forall k :: 0 <= k < |parts| ==> parts[k] != []
    ensures Join(parts, c) != []
    ensures Join(parts, c)[0] == parts[0][0]
    ensures Join(parts, c)[|Join(parts, c)| - 1] == parts[|parts| - 1][|parts[|parts| - 1]| - 1]
  {
    if |parts| > 1 {
      JoinEnds(parts[1..], c);
    }
  }

  // ---------------------------------------------------------------------
  // Integers: str(n) and int(s)
  // ---------------------------------------------------------------------

  predicate IsDigit(c: char) { '0' <= c <= '9' }

  predicate AllDigits(s: string) {
    forall i :: 0 <= i < |s| ==> IsDigit(s[i])
  }

  function DigitChar(d: int): (c: char)
    requires 0 <= d < 10
    ensures IsDigit(c)
  {
    (d + '0' as int) as char
  }

  function DigitValue(c: char): (d: int)
    requires IsDigit(c)
    ensures 0 <= d < 10
  {
    c as int - '0' as int
  }

  /** Decimal digits of `n`, most significant first, as Python's `str(n)`. */
  function NatToString(n: nat): (r: string)
    ensures |r| >= 1 && AllDigits(r)
  {
    if n < 10 then [DigitChar(n)] else NatToString(n / 10) + [DigitChar(n % 10)]
  }

  /** Python's `str(n)` for an `int`. */
  function IntToString(n: int): string {
    if n < 0 then "-" + NatToString(-n) else NatToString(n)
  }

  function DigitsValue(s: string): nat
    requires AllDigits(s)
  {
    if s == [] then 0 else DigitsValue(s[..|s| - 1]) * 10 + DigitValue(s[|s| - 1])
  }

  /** Python's `int(s)` on ASCII text: whitespace around an optional sign
      and at least one decimal digit; `None` where Python raises ValueError. */
  function ParseInt(s: string): Option<int> {
    var t := Strip(s);
    if |t| > 0 && (t[0] == '-' || t[0] == '+') then
      if |t| > 1 && AllDigits(t[1..]) then
        var magnitude: int := DigitsValue(t[1..]);
        Some(if t[0] == '-' then -magnitude else magnitude)
      else None
    else if |t| > 0 && AllDigits(t) then Some(DigitsValue(t))
    else None
  }

  lemma {:induction false} DigitsOfNat(n: nat)
    ensures DigitsValue(NatToString(n)) == n
  {
    if n >= 10 {
      DigitsOfNat(n / 10);
      var s := NatToString(n);
      assert s[..|s| - 1] == NatToString(n / 10);
    }
  }

  lemma IntToStringStripped(n: int)
    ensures IsStripped(IntToString(n))
    ensures forall i :: 0 <= i < |IntToString(n)| ==> !IsSpace(IntToString(n)[i])
  {
  }

  /** `int(str(n)) == n`. */
  lemma ParseIntToString(n: int)
    ensures ParseInt(IntToString(n)) == Some(n)
  {
    var m := NatToString(if n < 0 then -n else n);
    assert DigitsValue(m) == if n < 0 then -n else n by {
      DigitsOfNat(if n < 0 then -n else n);
    }
    if n < 0 {
      assert IntToString(n) == "-" + m;
      ParseSigned(m);
    } else {
      assert IntToString(n) == m;
      ParseDigits(m);
    }
  }

  lemma ParseDigits(m: string)
    requires |m| >= 1 && AllDigits(m)
    ensures ParseInt(m) == Some(DigitsValue(m))
  {
    assert IsDigit(m[0]) && IsDigit(m[|m| - 1]);
    StripOfStripped(m);
  }

  lemma ParseSigned(m: string)
    requires |m| >= 1 && AllDigits(m)
    ensures ParseInt("-" + m) == Some(0 - DigitsValue(m))
  {
    var s := "-" + m;
    assert IsDigit(s[|s| - 1]) && s[1..] == m;
    StripOfStripped(s);
  }
}
