/**
  * Character classes and string helpers shared by the Python and the TypeScript
  * halves of the bot: Python's `str.isdigit/isalnum/isspace/lower/strip/split/rstrip`,
  * JavaScript's `trim/split/toLowerCase/join`, decimal formatting of integers
  * (f-strings, template literals) and Python's `int(...)` on text.
  * Only the ASCII repertoire is modelled (see README, "Left out").
  */
module Text {
  import opened Wrappers

  predicate IsDigit(c: char) { '0' <= c <= '9' }
  predicate IsUpper(c: char) { 'A' <= c <= 'Z' }
  predicate IsLowerLetter(c: char) { 'a' <= c <= 'z' }
  predicate IsAlnum(c: char) { IsDigit(c) || IsUpper(c) || IsLowerLetter(c) }

  /**
    * ASCII whitespace as `String.prototype.trim` counts it. Python's `str.isspace` and
    * `str.strip` count these too, and also the separators \x1c to \x1f, which are left out.
    */
  predicate IsSpace(c: char) {
    c == ' ' || c == '\t' || c == '\n' || c == '\r' || c == '\U{B}' || c == '\U{C}'
  }

  predicate AllDigits(s: string) { forall i :: 0 <= i < |s| ==> IsDigit(s[i]) }

  /** Python `s.isdigit()`: true only for a non-empty string of digits. */
  predicate IsDigitString(s: string) { s != [] && AllDigits(s) }

  function Lower(c: char): (r: char)
    ensures !IsUpper(r)
    ensures IsAlnum(c) <==> IsAlnum(r)
    ensures IsSpace(c) <==> IsSpace(r)
    ensures !IsUpper(c) ==> r == c
  {
    if IsUpper(c) then (c as int + 32) as char else c
  }

  /** Python `str.lower()` / JavaScript `toLowerCase()` on ASCII. */
  function LowerStr(s: string): (r: string)
    ensures |r| == |s|
    ensures forall i :: 0 <= i < |s| ==> r[i] == Lower(s[i])
  {
    seq(|s|, i requires 0 <= i < |s| => Lower(s[i]))
  }

  /** Leading whitespace removed. */
  function LStrip(s: string): (r: string)
    ensures |r| <= |s| && r == s[|s| - |r|..]
    ensures forall i :: 0 <= i < |s| - |r| ==> IsSpace(s[i])
    ensures r == [] || !IsSpace(r[0])
    decreases |s|
  {
    if s != [] && IsSpace(s[0]) then LStrip(s[1..]) else s
  }

  /** Trailing whitespace removed. */
  function RStrip(s: string): (r: string)
    ensures |r| <= |s| && r == s[..|r|]
    ensures forall i :: |r| <= i < |s| ==> IsSpace(s[i])
    ensures r == [] || !IsSpace(r[|r| - 1])
    decreases |s|
  {
    if s != [] && IsSpace(s[|s| - 1]) then RStrip(s[..|s| - 1]) else s
  }

  /** Python `str.strip()` and JavaScript `trim()`. */
  function Strip(s: string): (r: string)
    ensures |r| <= |s|
    ensures r == [] || (!IsSpace(r[0]) && !IsSpace(r[|r| - 1]))
  {
    RStrip(LStrip(s))
  }

  /** A string that already has no surrounding whitespace is its own strip. */
  lemma StripOfStripped(s: string)
    requires s == [] || (!IsSpace(s[0]) && !IsSpace(s[|s| - 1]))
    ensures Strip(s) == s
  {
  }

  lemma StripIdempotent(s: string)
    ensures Strip(Strip(s)) == Strip(s)
  {
    StripOfStripped(Strip(s));
  }

  /** Python `s.rstrip(c)` for a single character `c`. */
  function RStripChar(s: string, c: char): (r: string)
    ensures |r| <= |s| && r == s[..|r|]
    ensures r == [] || r[|r| - 1] != c
    ensures forall i :: |r| <= i < |s| ==> s[i] == c
    decreases |s|
  {
    if s != [] && s[|s| - 1] == c then RStripChar(s[..|s| - 1], c) else s
  }

  /** Index of the first occurrence of `c` in `s`. */
  function IndexOf(s: string, c: char): (i: nat)
    requires c in s
    ensures i < |s| && s[i] == c
  {
    if s[0] == c then 0 else 1 + IndexOf(s[1..], c)
  }

  /** No earlier character is `c`. */
  lemma {:induction false} IndexOfIsFirst(s: string, c: char)
    requires c in s
    ensures forall k :: 0 <= k < IndexOf(s, c) ==> s[k] != c
    decreases |s|
  {
    if s[0] != c {
      IndexOfIsFirst(s[1..], c);
      assert forall k :: 1 <= k < |s| ==> s[k] == s[1..][k - 1];
    }
  }

  /** Python `s.split(sep)` and JavaScript `s.split(sep)` for a one-character separator. */
  function Split(s: string, sep: char): (parts: seq<string>)
    ensures |parts| >= 1
    decreases |s|
  {
    if sep !in s then [s]
    else
      var i := IndexOf(s, sep);
      [s[..i]] + Split(s[i + 1..], sep)
  }

  /** One step of the split: the text before the first separator, then the split of the rest. */
  lemma SplitAtFirst(s: string, sep: char)
    requires sep in s
    ensures Split(s, sep) == [s[..IndexOf(s, sep)]] + Split(s[IndexOf(s, sep) + 1..], sep)
  {
    assert !(sep !in s);
  }

  /** Python `sep.join(parts)` and JavaScript `parts.join(sep)`. */
  function Join(parts: seq<string>, sep: string): string
  {
    if |parts| == 0 then ""
    else if |parts| == 1 then parts[0]
    else parts[0] + sep + Join(parts[1..], sep)
  }

  /** No piece of a split holds the separator. */
  lemma {:induction false} SplitHasNoSeparator(s: string, sep: char)
    ensures forall k :: 0 <= k < |Split(s, sep)| ==> sep !in Split(s, sep)[k]
    decreases |s|
  {
    if sep in s {
      var i := IndexOf(s, sep);
      IndexOfIsFirst(s, sep);
      SplitHasNoSeparator(s[i + 1..], sep);
      SplitAtFirst(s, sep);
      assert sep !in s[..i] by {
        assert forall k :: 0 <= k < i ==> s[..i][k] == s[k];
      }
    }
  }

  /** Joining the pieces of a split with the separator gives back the original text. */
  lemma {:induction false} JoinSplit(s: string, sep: char)
    ensures Join(Split(s, sep), [sep]) == s
    decreases |s|
  {
    if sep in s {
      var i := IndexOf(s, sep);
      var rest := s[i + 1..];
      var tail := Split(rest, sep);
      SplitAtFirst(s, sep);
      JoinCons(s[..i], tail, [sep]);
      JoinSplit(rest, sep);
      assert s == s[..i] + [sep] + rest;
    }
  }

  lemma JoinCons(head: string, tail: seq<string>, sep: string)
    requires |tail| >= 1
    ensures Join([head] + tail, sep) == head + sep + Join(tail, sep)
  {
    assert ([head] + tail)[1..] == tail;
  }

  /** Splitting at a separator that the first piece does not contain peels off that piece. */
  lemma SplitCons(a: string, sep: char, b: string)
    requires sep !in a
    ensures Split(a + [sep] + b, sep) == [a] + Split(b, sep)
  {
    var s := a + [sep] + b;
    assert s[|a|] == sep;
    assert forall k :: 0 <= k < |a| ==> s[k] == a[k];
    var i := IndexOf(s, sep);
    IndexOfIsFirst(s, sep);
    assert i == |a|;
    assert s[..i] == a;
    assert s[i + 1..] == b;
  }

  /** The other direction of the round trip: separator-free pieces are recovered from their join. */
  lemma {:induction false} SplitJoin(parts: seq<string>, sep: char)
    requires |parts| >= 1
    requires forall k :: 0 <= k < |parts| ==> sep !in parts[k]
    ensures Split(Join(parts, [sep]), sep) == parts
    decreases |parts|
  {
    if |parts| > 1 {
      SplitJoin(parts[1..], sep);
      SplitCons(parts[0], sep, Join(parts[1..], [sep]));
      assert parts == [parts[0]] + parts[1..];
    }
  }

  /** Where the text after the last separator starts: just past that separator, or 0 when there is none. */
  function LastCut(s: string, sep: char): (n: nat)
    ensures n <= |s|
    ensures forall k :: n <= k < |s| ==> s[k] != sep
    ensures n > 0 ==> s[n - 1] == sep
    decreases |s|
  {
    if s == [] then 0
    else if s[|s| - 1] == sep then |s|
    else LastCut(s[..|s| - 1], sep)
  }

  /** The text after the last separator (all of `s` when there is none). */
  function LastSegment(s: string, sep: char): string {
    s[LastCut(s, sep)..]
  }

  /** The last segment is a separator-free suffix, and it is preceded by the last separator. */
  lemma LastSegmentIsTail(s: string, sep: char)
    ensures var seg := LastSegment(s, sep);
      && sep !in seg
      && |seg| <= |s|
      && s[|s| - |seg|..] == seg
      && (sep in s ==> |seg| < |s| && s[|s| - |seg| - 1] == sep)
  {
    var n := LastCut(s, sep);
    var seg := s[n..];
    assert forall k :: 0 <= k < |seg| ==> seg[k] == s[n + k];
    if sep in s {
      var k :| 0 <= k < |s| && s[k] == sep;
    }
  }

  /**
    * Two separator-free suffixes of `s` that each start the text or follow a separator are
    * the same suffix.
    */
  lemma TailUnique(s: string, sep: char, a: nat, b: nat)
    requires a <= b <= |s|
    requires forall k :: a <= k < |s| ==> s[k] != sep
    requires b > 0 ==> s[b - 1] == sep
    ensures a == b
  {
  }

  /** Cutting at a separator keeps the last segment. */
  lemma LastSegmentAfterCut(s: string, sep: char, i: nat)
    requires i < |s| && s[i] == sep
    ensures LastSegment(s, sep) == LastSegment(s[i + 1..], sep)
  {
    var rest := s[i + 1..];
    var m := LastCut(rest, sep);
    var n := LastCut(s, sep);
    assert forall k :: i + 1 + m <= k < |s| ==> s[k] == rest[k - i - 1];
    TailUnique(s, sep, n, i + 1 + m);
    assert rest[m..] == s[n..];
  }

  /** The last piece of a split, Python's `parts[-1]`. */
  function LastPiece(parts: seq<string>): string
    requires |parts| >= 1
  {
    parts[|parts| - 1]
  }

  /** Without a separator the last segment is the whole text, the only piece of the split. */
  lemma LastPieceWithoutSeparator(s: string, sep: char)
    requires sep !in s
    ensures LastSegment(s, sep) == s == LastPiece(Split(s, sep))
  {
    assert LastCut(s, sep) == 0;
    assert Split(s, sep) == [s];
  }

  /** The last segment is Python's `s.split(sep)[-1]`. */
  lemma LastSegmentIsLastPiece(s: string, sep: char)
    ensures LastSegment(s, sep) == LastPiece(Split(s, sep))
  {
    if sep in s {
      LastPieceAfterCut(s, sep);
    } else {
      LastPieceWithoutSeparator(s, sep);
    }
  }

  lemma {:induction false} LastPieceAfterCut(s: string, sep: char)
    requires sep in s
    ensures LastSegment(s, sep) == LastPiece(Split(s, sep))
    decreases |s|
  {
    var i := IndexOf(s, sep);
    var rest := s[i + 1..];
    if sep in rest {
      LastPieceAfterCut(rest, sep);
    } else {
      LastPieceWithoutSeparator(rest, sep);
    }
    LastSegmentAfterCut(s, sep, i);
    LastPieceOfRest(s, sep, rest);
  }

  /** The last piece of a split is the last piece of the split after the first separator. */
  lemma LastPieceOfRest(s: string, sep: char, rest: string)
    requires sep in s && rest == s[IndexOf(s, sep) + 1..]
    ensures LastPiece(Split(s, sep)) == LastPiece(Split(rest, sep))
  {
    SplitAtFirst(s, sep);
    LastPieceOfCons(s[..IndexOf(s, sep)], Split(rest, sep));
  }

  lemma LastPieceOfCons(head: string, tail: seq<string>)
    requires |tail| >= 1
    ensures LastPiece([head] + tail) == LastPiece(tail)
  {
    assert ([head] + tail)[|tail|] == tail[|tail| - 1];
  }

  function Min(a: int, b: int): int { if a <= b then a else b }
  function Max(a: int, b: int): int { if a >= b then a else b }

  function DigitChar(d: nat): (c: char)
    requires d < 10
    ensures IsDigit(c)
  {
    ('0' as int + d) as char
  }

  function DigitValue(c: char): (d: nat)
    requires IsDigit(c)
    ensures d < 10
  {
    c as int - '0' as int
  }

  /** Decimal notation of a natural number, as Python's `str(n)` and JavaScript's `${n}` write it. */
  function NatToString(n: nat): (s: string)
    ensures |s| >= 1 && AllDigits(s)
    decreases n
  {
    if n < 10 then [DigitChar(n)] else NatToString(n / 10) + [DigitChar(n % 10)]
  }

  /** Decimal notation of an integer, with a leading '-' for negative values. */
  function IntToString(i: int): string
  {
    if i < 0 then "-" + NatToString(-i) else NatToString(i)
  }

  /** The value of a string of decimal digits (0 for the empty string). */
  function DigitsValue(s: string): nat
    requires AllDigits(s)
    decreases |s|
  {
    if s == [] then 0 else 10 * DigitsValue(s[..|s| - 1]) + DigitValue(s[|s| - 1])
  }

  /** Reading back the decimal notation of `n` gives `n`. */
  lemma {:induction false} DigitsValueOfNatToString(n: nat)
    ensures DigitsValue(NatToString(n)) == n
    decreases n
  {
    if n >= 10 {
      DigitsValueOfNatToString(n / 10);
      var s := NatToString(n);
      assert s[..|s| - 1] == NatToString(n / 10);
    }
  }

  /** A leading zero does not change the value of a digit string. */
  lemma {:induction false} DigitsValueLeadingZero(s: string)
    requires AllDigits(s)
    ensures AllDigits("0" + s) && DigitsValue("0" + s) == DigitsValue(s)
    decreases |s|
  {
    if s != [] {
      var t := "0" + s;
      assert t[..|t| - 1] == "0" + s[..|s| - 1];
      DigitsValueLeadingZero(s[..|s| - 1]);
    }
  }

  /** Python `f"{n:02d}"` and JavaScript `String(n).padStart(2, "0")` for a natural number. */
  function Pad2(n: nat): (s: string)
    ensures |s| >= 2 && AllDigits(s)
    ensures n < 100 ==> |s| == 2
  {
    assert 10 <= n < 100 ==> NatToString(n) == NatToString(n / 10) + [DigitChar(n % 10)];
    if n < 10 then "0" + NatToString(n) else NatToString(n)
  }

  lemma DigitsValueOfPad2(n: nat)
    ensures DigitsValue(Pad2(n)) == n
  {
    DigitsValueOfNatToString(n);
    if n < 10 {
      DigitsValueLeadingZero(NatToString(n));
    }
  }

  /** Python `int(s)` on text of decimal digits only: surrounding whitespace, an optional sign, then at least one digit. */
  function ParsePyInt(s: string): Option<int>
  {
    ParseSigned(Strip(s))
  }

  /** An optional sign followed by at least one digit, with nothing around them. */
  function ParseSigned(t: string): Option<int>
  {
    if t != [] && (t[0] == '-' || t[0] == '+') then
      if IsDigitString(t[1..]) then
        var v: int := DigitsValue(t[1..]);
        Some(if t[0] == '-' then -v else v)
      else None
    else if IsDigitString(t) then Some(DigitsValue(t))
    else None
  }

  lemma ParsePyIntOfDigits(d: string)
    requires IsDigitString(d)
    ensures ParsePyInt(d) == Some(DigitsValue(d))
  {
    assert !IsSpace(d[0]) && !IsSpace(d[|d| - 1]);
    StripOfStripped(d);
  }

  lemma ParsePyIntOfNegative(d: string)
    requires IsDigitString(d)
    ensures ParsePyInt("-" + d) == Some(-(DigitsValue(d) as int))
  {
    StripOfNegative(d);
    ParseSignedOfNegative(d);
  }

  lemma StripOfNegative(d: string)
    requires IsDigitString(d)
    ensures Strip("-" + d) == "-" + d
  {
    var s := "-" + d;
    assert s[0] == '-' && s[|s| - 1] == d[|d| - 1];
    assert IsDigit(d[|d| - 1]);
    StripOfStripped(s);
  }

  lemma ParseSignedOfNegative(d: string)
    requires IsDigitString(d)
    ensures ParseSigned("-" + d) == Some(-(DigitsValue(d) as int))
  {
    assert ("-" + d)[1..] == d;
  }

  /** `int(str(i)) == i`. */
  lemma ParsePyIntOfIntToString(i: int)
    ensures ParsePyInt(IntToString(i)) == Some(i)
  {
    var n: nat := if i < 0 then -i else i;
    var d := NatToString(n);
    DigitsValueOfNatToString(n);
    if i < 0 {
      ParsePyIntOfNegative(d);
      assert IntToString(i) == "-" + d;
    } else {
      ParsePyIntOfDigits(d);
      assert IntToString(i) == d;
    }
  }
}
