// Which texts the limits parser reads as which number.
module Numerals {
  import opened Wrappers
  import opened GpuLimits

  const DIGITS: string := "0123456789"

  /** The decimal numeral of a number, without leading zeros. */
  function Show(n: nat): (s: string)
    ensures s != []
  {
    if n < 10 then [DIGITS[n]] else Show(n / 10) + [DIGITS[n % 10]]
  }

  lemma {:induction false} DigitIs(c: char)
    ensures IsDigit(c) <==> c in DIGITS
    ensures IsDigit(c) ==> DigitValue(c) < 10 && DIGITS[DigitValue(c)] == c
    ensures forall d: nat | d < 10 :: IsDigit(DIGITS[d]) && DigitValue(DIGITS[d]) == d
  {
    if IsDigit(c) { assert DIGITS[DigitValue(c)] == c; }
  }

  lemma {:induction false} ShowReads(n: nat)
    ensures Digits(Show(n)) == Some(n) && IsDigit(Show(n)[0])
  {
    DigitIs('0');
    if n < 10 {
      assert Show(n)[..0] == [];
      assert Digits([]) == Some(0);
    } else {
      var s := Show(n / 10);
      ShowReads(n / 10);
      assert Show(n)[..|s|] == s && Show(n)[0] == s[0];
    }
  }

  function Zeros(z: nat): string {
    seq(z, i => '0')
  }

  lemma {:induction false} ZerosRead(z: nat, s: string)
    ensures Digits(Zeros(z) + s) == Digits(s)
    decreases |s|, z
  {
    var all := Zeros(z) + s;
    if s != [] {
      assert all[..|all| - 1] == Zeros(z) + s[..|s| - 1];
      ZerosRead(z, s[..|s| - 1]);
    } else if z > 0 {
      assert all[..|all| - 1] == Zeros(z - 1) + [];
      ZerosRead(z - 1, []);
    }
  }

  lemma {:induction false} LastDigit(s: string, n: nat) returns (front: string, m: nat, c: char)
    requires s != [] && Digits(s) == Some(n)
    ensures s == front + [c] && |front| < |s| && Digits(front) == Some(m) && m == n / 10 && c == DIGITS[n % 10]
  {
    front, c := s[..|s| - 1], s[|s| - 1];
    m := Digits(front).value;
    DigitIs(c);
    DivMod(m, DigitValue(c), n);
  }

  lemma {:induction false} DivMod(m: nat, d: nat, n: nat)
    requires d < 10 && n == 10 * m + d
    ensures n / 10 == m && n % 10 == d
  {
  }

  lemma {:induction false} ZerosGrow(z: nat)
    ensures Zeros(z + 1) == Zeros(z) + Show(0)
  {
  }

  /** Digits that read as a number are its numeral after zeros. */
  lemma {:induction false} DigitsAreNumeral(s: string, n: nat) returns (z: nat)
    requires s != [] && Digits(s) == Some(n)
    ensures s == Zeros(z) + Show(n)
    decreases |s|
  {
    var front, m, c := LastDigit(s, n);
    if front == [] {
      z := 0;
      assert m == 0 && s == Show(n);
    } else {
      var z' := DigitsAreNumeral(front, m);
      z := if m > 0 then z' else z' + 1;
      ZerosGrow(z');
      assert Show(n) == if m > 0 then Show(m) + [c] else [c];
    }
  }

  function Abs(v: int): nat {
    if v < 0 then -v else v
  }

  /** How a whole number can be written: an optional sign, which is a minus for negative numbers, zeros, and its
      numeral. */
  ghost predicate Writes(s: string, v: int) {
    exists sign, z: nat :: Signed(sign, v) && s == sign + Zeros(z) + Show(Abs(v))
  }

  predicate Signed(sign: string, v: int) {
    (v <= 0 && sign == "-") || (v >= 0 && (sign == "" || sign == "+"))
  }

  predicate Int64(v: int) {
    -0x8000_0000_0000_0000 <= v < 0x8000_0000_0000_0000
  }

  /** Main result: a text parses to a number exactly if it writes the number and the number has 64 bits. */
  lemma {:induction false} ParseIntIff(s: string, v: int)
    ensures ParseInt(s) == Some(v) <==> Writes(s, v) && Int64(v)
  {
    if ParseInt(s) == Some(v) { ParsedWrites(s, v); }
    if Writes(s, v) && Int64(v) {
      var sign, z: nat :| Signed(sign, v) && s == sign + Zeros(z) + Show(Abs(v));
      WrittenParses(s, v, sign, z);
    }
  }

  lemma {:induction false} ParsedWrites(s: string, v: int)
    requires ParseInt(s) == Some(v)
    ensures Writes(s, v) && Int64(v)
  {
    var sign, body := SignAndBody(s, v);
    var z := DigitsAreNumeral(body, Abs(v));
    assert s == sign + Zeros(z) + Show(Abs(v));
  }

  lemma {:induction false} SignAndBody(s: string, v: int) returns (sign: string, body: string)
    requires ParseInt(s) == Some(v)
    ensures s == sign + body && Signed(sign, v) && body != [] && Digits(body) == Some(Abs(v)) && Int64(v)
  {
    sign := if s[0] == '-' then "-" else if s[0] == '+' then "+" else "";
    body := s[|sign|..];
  }

  lemma {:induction false} WrittenParses(s: string, v: int, sign: string, z: nat)
    requires Signed(sign, v) && s == sign + Zeros(z) + Show(Abs(v)) && Int64(v)
    ensures ParseInt(s) == Some(v)
  {
    var body := Zeros(z) + Show(Abs(v));
    ShowReads(Abs(v));
    ZerosRead(z, Show(Abs(v)));
    FirstIsDigit(z, Show(Abs(v)));
    assert s == sign + body;
    BodyParses(s, v, sign, body);
  }

  lemma {:induction false} FirstIsDigit(z: nat, s: string)
    requires s != [] && IsDigit(s[0])
    ensures IsDigit((Zeros(z) + s)[0])
  {
    assert z > 0 ==> Zeros(z)[0] == '0';
  }

  lemma {:induction false} BodyParses(s: string, v: int, sign: string, body: string)
    requires Signed(sign, v) && s == sign + body && Int64(v)
    requires body != [] && IsDigit(body[0]) && Digits(body) == Some(Abs(v))
    ensures ParseInt(s) == Some(v)
  {
    assert s[|sign|..] == body;
    if sign == "" { assert s == body; } else { assert s[0] == sign[0]; }
  }
}
