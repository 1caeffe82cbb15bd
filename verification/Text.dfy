/** Decimal numerals and stripping, as Python's `str` and `str.strip` do them. */
module Text {
  predicate IsDigit(c: char)
  {
    '0' <= c <= '9'
  }

  function Digit(n: nat): (c: char)
    requires n < 10
    ensures IsDigit(c)
  {
    "0123456789"[n]
  }

  function DecimalNat(n: nat): (s: string)
    ensures |s| > 0 && IsDigit(s[|s| - 1])
  {
    if n < 10 then [Digit(n)] else DecimalNat(n / 10) + [Digit(n % 10)]
  }

  /** `str(n)`. */
  function Decimal(n: int): (s: string)
    ensures |s| > 0 && IsDigit(s[|s| - 1])
  {
    if n < 0 then "-" + DecimalNat(-n) else DecimalNat(n)
  }

  /** `str.isspace` for one character. */
  predicate IsSpace(c: char)
  {
    var n := c as int;
    || 0x09 <= n <= 0x0d || 0x1c <= n <= 0x20 || n == 0x85 || n == 0xa0 || n == 0x1680
    || 0x2000 <= n <= 0x200a || n == 0x2028 || n == 0x2029 || n == 0x202f || n == 0x205f || n == 0x3000
  }

  function LeftStripped(s: string): string
  {
    if s != "" && IsSpace(s[0]) then LeftStripped(s[1..]) else s
  }

  function RightStripped(s: string): string
  {
    if s != "" && IsSpace(s[|s| - 1]) then RightStripped(s[..|s| - 1]) else s
  }

  /** `s.strip()`. */
  function Stripped(s: string): string
  {
    RightStripped(LeftStripped(s))
  }

  lemma {:induction false} LeftStrippedStarts(s: string)
    ensures LeftStripped(s) != "" ==> !IsSpace(LeftStripped(s)[0])
  {
    if s != "" && IsSpace(s[0]) {
      LeftStrippedStarts(s[1..]);
    }
  }

  lemma {:induction false} RightStrippedIsPrefix(s: string)
    ensures RightStripped(s) <= s
    ensures RightStripped(s) != "" ==> !IsSpace(RightStripped(s)[|RightStripped(s)| - 1])
  {
    if s != "" && IsSpace(s[|s| - 1]) {
      RightStrippedIsPrefix(s[..|s| - 1]);
    }
  }

  /** Stripping twice is stripping once. */
  lemma StrippedTwice(s: string)
    ensures Stripped(Stripped(s)) == Stripped(s)
  {
    var left := LeftStripped(s);
    var r := Stripped(s);
    LeftStrippedStarts(s);
    RightStrippedIsPrefix(left);
    assert r != "" ==> r[0] == left[0];
    assert LeftStripped(r) == r;
  }

  predicate AllSpace(s: string)
  {
    forall i :: 0 <= i < |s| ==> IsSpace(s[i])
  }

  lemma {:induction false} LeftSplits(s: string) returns (left: string)
    ensures AllSpace(left) && s == left + LeftStripped(s)
  {
    if s != "" && IsSpace(s[0]) {
      var rest := LeftSplits(s[1..]);
      left := [s[0]] + rest;
      assert s == [s[0]] + s[1..];
    } else {
      left := "";
    }
  }

  lemma {:induction false} RightSplits(s: string) returns (right: string)
    ensures AllSpace(right) && s == RightStripped(s) + right
  {
    if s != "" && IsSpace(s[|s| - 1]) {
      var rest := RightSplits(s[..|s| - 1]);
      right := rest + [s[|s| - 1]];
      assert s == s[..|s| - 1] + [s[|s| - 1]];
    } else {
      right := "";
    }
  }

  /** Stripping removes white space only. */
  lemma StripSplits(s: string) returns (left: string, right: string)
    ensures AllSpace(left) && AllSpace(right) && s == left + Stripped(s) + right
  {
    left := LeftSplits(s);
    right := RightSplits(LeftStripped(s));
    assert left + (Stripped(s) + right) == left + Stripped(s) + right;
  }

  lemma {:induction false} LeftPadded(left: string, rest: string)
    requires AllSpace(left) && (rest != "" ==> !IsSpace(rest[0]))
    ensures LeftStripped(left + rest) == rest
  {
    if left == "" {
      assert left + rest == rest;
    } else {
      LeftPadded(left[1..], rest);
      assert (left + rest)[1..] == left[1..] + rest;
    }
  }

  lemma {:induction false} RightPadded(rest: string, right: string)
    requires AllSpace(right) && (rest != "" ==> !IsSpace(rest[|rest| - 1]))
    ensures RightStripped(rest + right) == rest
  {
    if right == "" {
      assert rest + right == rest;
    } else {
      RightPadded(rest, right[..|right| - 1]);
      assert (rest + right)[..|rest + right| - 1] == rest + right[..|right| - 1];
    }
  }

  /** All of the white space around a text. */
  lemma StripPadded(left: string, middle: string, right: string)
    requires AllSpace(left) && AllSpace(right)
    requires middle != "" && !IsSpace(middle[0]) && !IsSpace(middle[|middle| - 1])
    ensures Stripped(left + middle + right) == middle
  {
    assert left + middle + right == left + (middle + right);
    LeftPadded(left, middle + right);
    RightPadded(middle, right);
  }
}
