/** The string helpers the driver leans on: splitting, joining, trimming, parsing.
    A string stands for its bytes, so its length is what the source's `len` counts. */
module Text {
  import opened Common

  function Split(s: string, sep: char): (parts: seq<string>)
    ensures |parts| >= 1
  {
    if s == [] then
      [""]
    else
      var rest := Split(s[1..], sep);
      if s[0] == sep then [""] + rest else [[s[0]] + rest[0]] + rest[1..]
  }

  function Join(parts: seq<string>, sep: char): string {
    if |parts| == 0 then ""
    else if |parts| == 1 then parts[0]
    else parts[0] + [sep] + Join(parts[1..], sep)
  }

  function Occurrences(s: string, c: char): nat {
    if s == [] then 0 else (if s[0] == c then 1 else 0) + Occurrences(s[1..], c)
  }

  lemma {:induction false} SplitCount(s: string, sep: char)
    ensures |Split(s, sep)| == Occurrences(s, sep) + 1
  {
    if s != [] {
      SplitCount(s[1..], sep);
    }
  }

  lemma {:induction false} SplitSegmentsAreFree(s: string, sep: char, k: nat)
    requires k < |Split(s, sep)|
    ensures sep !in Split(s, sep)[k]
  {
    if s != [] {
      if s[0] == sep {
        if k > 0 {
          SplitSegmentsAreFree(s[1..], sep, k - 1);
        }
      } else {
        SplitSegmentsAreFree(s[1..], sep, k);
      }
    }
  }

  lemma {:induction false} JoinUndoesSplit(s: string, sep: char)
    ensures Join(Split(s, sep), sep) == s
  {
    if s != [] {
      JoinUndoesSplit(s[1..], sep);
      var rest := Split(s[1..], sep);
      var parts := Split(s, sep);
      if s[0] == sep {
        assert parts[1..] == rest;
      } else {
        assert parts[1..] == rest[1..];
      }
    }
  }

  /** Splitting a separator-free segment followed by more text. */
  lemma {:induction false} SplitSegment(seg: string, rest: string, sep: char)
    requires sep !in seg
    ensures Split(seg + [sep] + rest, sep) == [seg] + Split(rest, sep)
  {
    var s := seg + [sep] + rest;
    if seg == [] {
      assert s[1..] == rest;
    } else {
      assert s[0] == seg[0] && seg[0] in seg;
      assert [seg[0]] + seg[1..] == seg;
      assert s[1..] == seg[1..] + [sep] + rest;
      SplitSegment(seg[1..], rest, sep);
    }
  }

  lemma {:induction false} SplitWhole(seg: string, sep: char)
    requires sep !in seg
    ensures Split(seg, sep) == [seg]
  {
    if seg != [] {
      assert seg[0] in seg;
      assert [seg[0]] + seg[1..] == seg;
      SplitWhole(seg[1..], sep);
    }
  }

  lemma {:induction false} SplitUndoesJoin(parts: seq<string>, sep: char)
    requires |parts| >= 1
    requires forall p | p in parts :: sep !in p
    ensures Split(Join(parts, sep), sep) == parts
  {
    if |parts| == 1 {
      SplitWhole(parts[0], sep);
    } else {
      SplitUndoesJoin(parts[1..], sep);
      SplitSegment(parts[0], Join(parts[1..], sep), sep);
    }
  }

  lemma {:induction false} JoinAppend(a: seq<string>, b: seq<string>, sep: char)
    requires |a| >= 1 && |b| >= 1
    ensures Join(a + b, sep) == Join(a, sep) + [sep] + Join(b, sep)
  {
    assert (a + b)[1..] == a[1..] + b;
    if |a| == 1 {
      assert a[1..] + b == b;
    } else {
      JoinAppend(a[1..], b, sep);
      assert a[0] + [sep] + (Join(a[1..], sep) + [sep] + Join(b, sep))
          == (a[0] + [sep] + Join(a[1..], sep)) + [sep] + Join(b, sep);
    }
  }

  /** The white space of a single byte. */
  predicate IsSpace(c: char) {
    c in {'\t', '\n', '\U{0B}', '\U{0C}', '\r', ' '}
  }

  function TrimLeft(s: string): string {
    if s != "" && IsSpace(s[0]) then TrimLeft(s[1..]) else s
  }

  function TrimRight(s: string): string {
    if s != "" && IsSpace(s[|s| - 1]) then TrimRight(s[..|s| - 1]) else s
  }

  function TrimSpace(s: string): string {
    TrimRight(TrimLeft(s))
  }

  predicate IsDigit(c: char) {
    '0' <= c <= '9'
  }

  function DigitsValue(s: string): nat
    requires AllDigits(s)
  {
    if s == "" then 0
    else
      var last := s[|s| - 1];
      assert IsDigit(last);
      10 * DigitsValue(s[..|s| - 1]) + (last as int - '0' as int)
  }

  predicate AllDigits(s: string) {
    forall i | 0 <= i < |s| :: IsDigit(s[i])
  }

  predicate IsSigned(s: string) {
    s != "" && (s[0] == '-' || s[0] == '+')
  }

  function SignedValue(s: string): Option<int> {
    var digits := if IsSigned(s) then s[1..] else s;
    if digits == "" || !AllDigits(digits) then None
    else
      var magnitude: int := DigitsValue(digits);
      Some(if IsSigned(s) && s[0] == '-' then -magnitude else magnitude)
  }

  /** Decimal text, with an optional sign, that fits 32 bits; `None` otherwise. */
  function ParseInt32(s: string): Option<int> {
    var value := SignedValue(s);
    if value.Some? && -0x8000_0000 <= value.value < 0x8000_0000 then value else None
  }

  // ---- What trimming and parsing mean ------------------------------------------------------------

  predicate AllSpace(s: string) {
    forall i | 0 <= i < |s| :: IsSpace(s[i])
  }

  /** No white space at either end. */
  predicate Bare(s: string) {
    s != "" ==> !IsSpace(s[0]) && !IsSpace(s[|s| - 1])
  }

  lemma {:induction false} TrimLeftSplits(s: string) returns (space: string)
    ensures s == space + TrimLeft(s) && AllSpace(space)
    ensures TrimLeft(s) != "" ==> !IsSpace(TrimLeft(s)[0])
  {
    space := "";
    if s != "" && IsSpace(s[0]) {
      var rest := TrimLeftSplits(s[1..]);
      space := [s[0]] + rest;
      assert s == [s[0]] + s[1..];
    }
  }

  lemma {:induction false} TrimRightSplits(s: string) returns (space: string)
    ensures s == TrimRight(s) + space && AllSpace(space)
    ensures TrimRight(s) != "" ==> !IsSpace(TrimRight(s)[|TrimRight(s)| - 1])
  {
    space := "";
    if s != "" && IsSpace(s[|s| - 1]) {
      var rest := TrimRightSplits(s[..|s| - 1]);
      space := rest + [s[|s| - 1]];
      assert s == s[..|s| - 1] + [s[|s| - 1]];
    }
  }

  /** Trimming takes exactly the white space off both ends. */
  lemma TrimSpaceSplits(s: string) returns (before: string, after: string)
    ensures s == before + TrimSpace(s) + after
    ensures AllSpace(before) && AllSpace(after) && Bare(TrimSpace(s))
  {
    before := TrimLeftSplits(s);
    after := TrimRightSplits(TrimLeft(s));
    if TrimSpace(s) != "" {
      assert TrimLeft(s)[0] == TrimSpace(s)[0];
    }
  }

  lemma BlankExactlyWhen(s: string)
    ensures TrimSpace(s) == "" <==> AllSpace(s)
  {
    var before, after := TrimSpaceSplits(s);
    if TrimSpace(s) == "" {
      assert s == before + after;
    } else {
      assert s[|before|] == TrimSpace(s)[0];
    }
  }

  /** The decimal text of a number. */
  function Decimal(n: nat): string {
    (if n < 10 then "" else Decimal(n / 10)) + [('0' as int + n % 10) as char]
  }

  lemma {:induction false} DecimalDigits(n: nat)
    ensures Decimal(n) != "" && AllDigits(Decimal(n)) && DigitsValue(Decimal(n)) == n
  {
    var last := ('0' as int + n % 10) as char;
    assert IsDigit(last);
    if n < 10 {
      assert Decimal(n) == [last] && Decimal(n)[..0] == "";
      assert DigitsValue("") == 0;
    } else {
      DecimalDigits(n / 10);
      assert Decimal(n)[..|Decimal(n)| - 1] == Decimal(n / 10);
    }
  }

  lemma SignedDecimal(n: int)
    requires n >= 0
    ensures SignedValue(Decimal(n)) == Some(n) == SignedValue("+" + Decimal(n))
    ensures SignedValue("-" + Decimal(n)) == Some(-n)
  {
    DecimalDigits(n);
    var text := Decimal(n);
    assert IsDigit(text[0]);
    assert ("+" + text)[1..] == text;
    assert ("-" + text)[1..] == text;
  }

  /** Parsing undoes decimal rendering, for every number of 32 bits and for no other. */
  lemma ParseUndoesDecimal(n: int)
    requires n >= 0
    ensures ParseInt32(Decimal(n)) == ParseInt32("+" + Decimal(n)) == if n < 0x8000_0000 then Some(n) else None
    ensures ParseInt32("-" + Decimal(n)) == if n <= 0x8000_0000 then Some(-n) else None
  {
    SignedDecimal(n);
  }

  /** Text without digits, or with anything but digits after the sign, does not parse. */
  lemma ParseNeedsDigits(s: string)
    requires var digits := if s != "" && (s[0] == '-' || s[0] == '+') then s[1..] else s;
             digits == "" || exists i :: 0 <= i < |digits| && !('0' <= digits[i] <= '9')
    ensures ParseInt32(s) == None
  {
    var digits := if s != "" && (s[0] == '-' || s[0] == '+') then s[1..] else s;
    if digits != "" {
      var i :| 0 <= i < |digits| && !('0' <= digits[i] <= '9');
      assert !IsDigit(digits[i]);
    }
  }
}
