/** `strconv`: numbers and booleans as text. */
module Numbers {
  import opened Results
  import opened Records

  function Digit(n: nat): char
    requires n < 10
  {
    '0' + n as char
  }

  /** Decimal digits, most significant first. */
  function Digits(n: nat): (r: string)
    ensures r != "" && forall c :: c in r ==> '0' <= c <= '9'
  {
    if n < 10 then [Digit(n)] else Digits(n / 10) + [Digit(n % 10)]
  }

  /** `strconv.Itoa`. */
  function Itoa(n: int): (r: string)
    ensures r != ""
  {
    if n < 0 then "-" + Digits(-n) else Digits(n)
  }

  function ParseDigits(s: string): Option<nat> {
    if s == "" || !('0' <= s[|s| - 1] <= '9') then None
    else
      var last := (s[|s| - 1] - '0') as nat;
      if |s| == 1 then Some(last)
      else match ParseDigits(s[..|s| - 1]) case Some(n) => Some(10 * n + last) case None => None
  }

  /** `strconv.Atoi` on a 64-bit platform: an optional sign and digits, within range. */
  function Atoi(s: string): (r: Option<int>)
    ensures r.Some? ==> -0x8000_0000_0000_0000 <= r.value < 0x8000_0000_0000_0000
  {
    var parsed: Option<int> :=
      if s == "" then None
      else if s[0] == '-' then (match ParseDigits(s[1..]) case Some(n) => Some(-(n as int)) case None => None)
      else if s[0] == '+' then ParseDigits(s[1..])
      else ParseDigits(s);
    if parsed.Some? && -0x8000_0000_0000_0000 <= parsed.value < 0x8000_0000_0000_0000 then parsed else None
  }

  /** The text is in base ten. */
  lemma ItoaExamples()
    ensures Itoa(0) == "0" && Itoa(10) == "10" && Itoa(-207) == "-207"
  {
    assert Digits(10) == Digits(1) + ['0'];
    assert Digits(207) == Digits(20) + ['7'] && Digits(20) == Digits(2) + ['0'];
  }

  lemma {:induction false} ParseDigitsInverse(n: nat)
    ensures ParseDigits(Digits(n)) == Some(n)
  {
    if n >= 10 {
      ParseDigitsInverse(n / 10);
      var s := Digits(n);
      assert s[..|s| - 1] == Digits(n / 10);
    }
  }

  lemma AtoiNegative(d: string, n: nat)
    requires ParseDigits(d) == Some(n) && n <= 0x8000_0000_0000_0000
    ensures Atoi("-" + d) == Some(-(n as int))
  {
    assert ("-" + d)[1..] == d;
  }

  lemma AtoiPositive(d: string, n: nat)
    requires ParseDigits(d) == Some(n) && n < 0x8000_0000_0000_0000
    requires d != "" && d[0] != '-' && d[0] != '+'
    ensures Atoi(d) == Some(n)
  {
  }

  lemma AtoiInverse(n: Int64)
    ensures Atoi(Itoa(n)) == Some(n)
  {
    var i: int := n;
    if i < 0 {
      ParseDigitsInverse(-i);
      AtoiNegative(Digits(-i), -i);
    } else {
      ParseDigitsInverse(i);
      assert Digits(i)[0] in Digits(i);
      AtoiPositive(Digits(i), i);
    }
  }

  /** Different indices have different names. */
  lemma ItoaInjective(i: nat, j: nat)
    requires Itoa(i) == Itoa(j)
    ensures i == j
  {
    ParseDigitsInverse(i);
    ParseDigitsInverse(j);
  }

  /** `strconv.FormatBool`. */
  function FormatBool(b: bool): string {
    if b then "true" else "false"
  }

  /** `strconv.ParseBool`, an unreadable text giving false. */
  function ParseBool(s: string): bool {
    s in {"1", "t", "T", "TRUE", "true", "True"}
  }
}
