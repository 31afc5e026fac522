/** The few Python string operations the simulator relies on: `str.split()[0]`,
    `str.startswith`, `str.capitalize`, `str.strip`, `str.upper` and the `{:,}`
    thousands-separated integer format. Whitespace is Python's full `str.isspace`
    set; case mapping is ASCII only. */
module Text {
  import opened Wrappers

  /** Python's `str.isspace`, which `split()` and `strip()` use: tab to carriage
      return, the four information separators U+001C to U+001F, space, next line
      U+0085, no-break space U+00A0, ogham space U+1680, the spaces U+2000 to
      U+200A, the line and paragraph separators U+2028 and U+2029, U+202F, U+205F
      and the ideographic space U+3000. */
  predicate IsSpace(c: char)
  {
    var x := c as int;
    || (0x09 <= x <= 0x0D) || (0x1C <= x <= 0x20) || x == 0x85 || x == 0xA0 || x == 0x1680
    || (0x2000 <= x <= 0x200A) || x == 0x2028 || x == 0x2029 || x == 0x202F || x == 0x205F
    || x == 0x3000
  }

  predicate StartsWith(s: string, prefix: string)
  {
    |prefix| <= |s| && s[..|prefix|] == prefix
  }

  function DropSpaces(s: string): (r: string)
    ensures |r| <= |s| && r == s[|s| - |r|..]
    ensures r == [] || !IsSpace(r[0])
    ensures forall i :: 0 <= i < |s| - |r| ==> IsSpace(s[i])
  {
    if |s| > 0 && IsSpace(s[0]) then DropSpaces(s[1..]) else s
  }

  /** The longest prefix of `s` that holds no whitespace. */
  function TakeWord(s: string): (r: string)
    ensures StartsWith(s, r)
    ensures forall i :: 0 <= i < |r| ==> !IsSpace(r[i])
    ensures |r| == |s| || IsSpace(s[|r|])
  {
    if |s| > 0 && !IsSpace(s[0]) then [s[0]] + TakeWord(s[1..]) else []
  }

  /** `w` is the word of `s` that starts at offset `a`, with only whitespace
      before it and whitespace or the end of `s` right after it. */
  predicate WordAt(s: string, a: int, w: string)
  {
    && 0 <= a <= |s| - |w|
    && (forall i :: 0 <= i < a ==> IsSpace(s[i]))
    && s[a..a + |w|] == w
    && (a + |w| == |s| || IsSpace(s[a + |w|]))
  }

  /** `s.split()[0]`: the first whitespace-delimited word, or `None` where Python
      raises `IndexError` because `s` holds no word at all. */
  function FirstWord(s: string): (r: Option<string>)
    ensures r.None? <==> forall i :: 0 <= i < |s| ==> IsSpace(s[i])
    ensures r.Some? ==> |r.value| > 0 && forall i :: 0 <= i < |r.value| ==> !IsSpace(r.value[i])
    ensures r.Some? ==> WordAt(s, |s| - |DropSpaces(s)|, r.value)
  {
    var t := DropSpaces(s);
    if t == [] then None
    else
      WordAfterSpaces(s, t, TakeWord(t));
      Some(TakeWord(t))
  }

  /** A word taken from the front of a suffix `t` of `s`, all of whose
      dropped head is whitespace, sits right after that head in `s`. */
  lemma WordAfterSpaces(s: string, t: string, w: string)
    requires |t| <= |s| && t == s[|s| - |t|..]
    requires forall i :: 0 <= i < |s| - |t| ==> IsSpace(s[i])
    requires StartsWith(t, w)
    requires |w| == |t| || IsSpace(t[|w|])
    ensures WordAt(s, |s| - |t|, w)
  {
    var a := |s| - |t|;
    assert s[a..a + |w|] == t[..|w|];
    assert a + |w| < |s| ==> s[a + |w|] == t[|w|];
  }

  lemma {:induction false} TakeWordStopsAtSpace(w: string, rest: string)
    requires rest == [] || IsSpace(rest[0])
    ensures TakeWord(w + rest) == TakeWord(w)
  {
    if |w| > 0 {
      assert (w + rest)[0] == w[0];
      assert (w + rest)[1..] == w[1..] + rest;
      TakeWordStopsAtSpace(w[1..], rest);
    } else {
      assert w + rest == rest;
    }
  }

  /** The first word of a phrase that opens with `name` and continues after a
      space is a prefix of `name`: `"Ann B. Threatens to Quit".split()[0]` is `"Ann"`. */
  lemma FirstWordIsPrefixOfName(name: string, rest: string)
    requires |name| > 0 && !IsSpace(name[0])
    requires |rest| > 0 && IsSpace(rest[0])
    ensures FirstWord(name + rest).Some?
    ensures StartsWith(name, FirstWord(name + rest).value)
  {
    var s := name + rest;
    assert s[0] == name[0];
    assert DropSpaces(s) == s;
    TakeWordStopsAtSpace(name, rest);
  }

  /** ASCII `str.upper` on one character. */
  function Upper(c: char): (r: char)
    ensures 'a' <= c <= 'z' ==> 'A' <= r <= 'Z'
    ensures !('a' <= c <= 'z') ==> r == c
  {
    if 'a' <= c <= 'z' then (c as int - 32) as char else c
  }

  /** ASCII `str.lower` on one character. */
  function Lower(c: char): (r: char)
    ensures 'A' <= c <= 'Z' ==> 'a' <= r <= 'z'
    ensures !('A' <= c <= 'Z') ==> r == c
  {
    if 'A' <= c <= 'Z' then (c as int + 32) as char else c
  }

  function LowerAll(s: string): (r: string)
    ensures |r| == |s|
    ensures forall i :: 0 <= i < |s| ==> r[i] == Lower(s[i])
  {
    if s == [] then [] else [Lower(s[0])] + LowerAll(s[1..])
  }

  /** `str.capitalize`: the first character upper-cased, the rest lower-cased. */
  function Capitalize(s: string): (r: string)
    ensures |r| == |s|
    ensures |s| > 0 ==> r[0] == Upper(s[0])
    ensures forall i :: 0 < i < |s| ==> r[i] == Lower(s[i])
  {
    if s == [] then [] else [Upper(s[0])] + LowerAll(s[1..])
  }

  function DropTrailingSpaces(s: string): (r: string)
    ensures |r| <= |s| && r == s[..|r|]
    ensures r == [] || !IsSpace(r[|r| - 1])
    ensures forall i :: |r| <= i < |s| ==> IsSpace(s[i])
  {
    if |s| > 0 && IsSpace(s[|s| - 1]) then DropTrailingSpaces(s[..|s| - 1]) else s
  }

  /** Neither end of `r` is whitespace. */
  predicate Bare(r: string)
  {
    r == [] || (!IsSpace(r[0]) && !IsSpace(r[|r| - 1]))
  }

  /** `r` sits in `s` at offset `a`, with nothing but whitespace around it. */
  predicate Trimmed(s: string, a: int, r: string)
  {
    && 0 <= a <= |s| - |r| && r == s[a..a + |r|]
    && (forall i :: 0 <= i < a ==> IsSpace(s[i]))
    && (forall i :: a + |r| <= i < |s| ==> IsSpace(s[i]))
  }

  /** Whitespace cut from the front and then from the back leaves the middle. */
  lemma TrimBothEnds(s: string, t: string, r: string)
    requires |t| <= |s| && t == s[|s| - |t|..] && forall i :: 0 <= i < |s| - |t| ==> IsSpace(s[i])
    requires |r| <= |t| && r == t[..|r|] && forall i :: |r| <= i < |t| ==> IsSpace(t[i])
    requires t == [] || !IsSpace(t[0])
    requires r == [] || !IsSpace(r[|r| - 1])
    ensures Trimmed(s, |s| - |t|, r) && Bare(r)
    ensures exists a :: Trimmed(s, a, r)
  {
    var a := |s| - |t|;
    if r != [] {
      assert r[0] == t[0];
    }
    forall i | a + |r| <= i < |s| ensures IsSpace(s[i]) {
      assert s[i] == t[i - a];
    }
    assert Trimmed(s, a, r);
  }

  /** `str.strip()`: whitespace removed from both ends, nothing else. */
  function Strip(s: string): (r: string)
    ensures Bare(r)
    ensures exists a :: Trimmed(s, a, r)
  {
    var t := DropSpaces(s);
    var r := DropTrailingSpaces(t);
    TrimBothEnds(s, t, r);
    r
  }

  function DigitChar(d: nat): (c: char)
    requires d < 10
    ensures c as int == '0' as int + d
  {
    "0123456789"[d]
  }

  /** The number a string of decimal digits denotes, most significant first. */
  function DigitsValue(s: string): int
  {
    if s == [] then 0 else 10 * DigitsValue(s[..|s| - 1]) + (s[|s| - 1] as int - '0' as int)
  }

  /** The plain decimal numeral of `n`, without leading zeros: `str(n)`. Its
      digits read back as `n`. */
  function Decimal(n: nat): (r: string)
    ensures |r| > 0 && (r[0] == '0' ==> n == 0)
    ensures DigitsValue(r) == n
    decreases n
  {
    if n < 10 then [DigitChar(n)]
    else
      var front := Decimal(n / 10);
      var r := front + [DigitChar(n % 10)];
      assert r[..|r| - 1] == front;
      r
  }

  /** Three digits, zero-padded: the group after a thousands separator. */
  function Pad3(n: nat): string
    requires n < 1000
  {
    [DigitChar(n / 100), DigitChar(n / 10 % 10), DigitChar(n % 10)]
  }

  /** The `{:,}` format of a natural number: digits in groups of three from the right. */
  function Grouped(n: nat): string
    decreases n
  {
    if n < 1000 then Decimal(n) else Grouped(n / 1000) + "," + Pad3(n % 1000)
  }

  /** The `{:,}` format of an integer. */
  function Commas(n: int): string
  {
    if n < 0 then "-" + Grouped(-n) else Grouped(n)
  }

  function DropCommas(s: string): (r: string)
    ensures forall i :: 0 <= i < |r| ==> r[i] != ','
  {
    if s == [] then [] else (if s[0] == ',' then [] else [s[0]]) + DropCommas(s[1..])
  }

  lemma {:induction false} DropCommasAppend(a: string, b: string)
    ensures DropCommas(a + b) == DropCommas(a) + DropCommas(b)
  {
    if a == [] {
      assert a + b == b;
    } else {
      assert (a + b)[0] == a[0];
      assert (a + b)[1..] == a[1..] + b;
      DropCommasAppend(a[1..], b);
    }
  }

  lemma DropCommasDigits(s: string)
    requires forall i :: 0 <= i < |s| ==> '0' <= s[i] <= '9'
    ensures DropCommas(s) == s
  {
  }

  lemma DecimalShift(q: nat, d: nat)
    requires q > 0 && d < 10
    ensures Decimal(10 * q + d) == Decimal(q) + [DigitChar(d)]
  {
    assert (10 * q + d) / 10 == q;
    assert (10 * q + d) % 10 == d;
  }

  lemma DecimalDigits(n: nat)
    ensures forall i :: 0 <= i < |Decimal(n)| ==> '0' <= Decimal(n)[i] <= '9'
  {
  }

  lemma ThreeDigits(r: nat)
    requires r < 1000
    ensures r == 100 * (r / 100) + 10 * (r / 10 % 10) + r % 10
    ensures r / 100 < 10
  {
    assert r == 10 * (r / 10) + r % 10;
    assert r / 10 == 10 * (r / 10 / 10) + r / 10 % 10;
    assert r / 10 / 10 == r / 100;
  }

  /** The digits of `n` below the thousands, one at a time. */
  lemma ThousandsDigits(n: nat) returns (a: nat, b: nat)
    requires n >= 1000
    ensures a == 10 * (n / 1000) + n % 1000 / 100 && b == 10 * a + n % 1000 / 10 % 10
    ensures n == 10 * b + n % 1000 % 10
    ensures n / 1000 > 0 && n % 1000 / 100 < 10
  {
    var q, r := n / 1000, n % 1000;
    ThreeDigits(r);
    a, b := 10 * q + r / 100, 10 * (10 * q + r / 100) + r / 10 % 10;
  }

  /** Splitting off the last three digits of a numeral of four or more digits. */
  lemma DecimalThousands(n: nat)
    requires n >= 1000
    ensures Decimal(n) == Decimal(n / 1000) + Pad3(n % 1000)
  {
    var q, r := n / 1000, n % 1000;
    var d2, d1, d0 := r / 100, r / 10 % 10, r % 10;
    var a, b := ThousandsDigits(n);
    DecimalShift(b, d0);
    DecimalShift(a, d1);
    DecimalShift(q, d2);
    assert Pad3(r) == [DigitChar(d2)] + [DigitChar(d1)] + [DigitChar(d0)];
  }

  /** Removing the separators from the `{:,}` format gives back the plain numeral. */
  lemma {:induction false} GroupedWithoutCommas(n: nat)
    ensures DropCommas(Grouped(n)) == Decimal(n)
    decreases n
  {
    DecimalDigits(n);
    if n < 1000 {
      DropCommasDigits(Decimal(n));
    } else {
      GroupedWithoutCommas(n / 1000);
      DropCommasAppend(Grouped(n / 1000) + ",", Pad3(n % 1000));
      DropCommasAppend(Grouped(n / 1000), ",");
      DropCommasDigits(Pad3(n % 1000));
      DecimalThousands(n);
    }
  }
}
