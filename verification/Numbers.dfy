/** Decimal numbers as text, written and read back. */
module Numbers {
  import opened Util

  function Digits(n: nat): string {
    if n < 10 then ['0' + n as char] else Digits(n / 10) + ['0' + (n % 10) as char]
  }

  function Decimal(n: int): string {
    if n < 0 then "-" + Digits(0 - n) else Digits(n)
  }

  function DigitsValue(s: string): Option<nat> {
    if s == [] then Some(0)
    else
      var front, c := DigitsValue(s[..|s| - 1]), s[|s| - 1];
      if front.Some? && '0' <= c <= '9' then Some(front.value * 10 + (c as int - '0' as int)) else None
  }

  const INT64_LIMIT: int := 0x8000_0000_0000_0000

  /** strconv.ParseInt in base 10 with 64 bits. */
  function ParseInt64(s: string): Option<int> {
    var signed := s != [] && (s[0] == '-' || s[0] == '+');
    var digits := if signed then s[1..] else s;
    if digits == [] then None
    else
      match DigitsValue(digits)
      case None => None
      case Some(n) =>
        var v: int := if signed && s[0] == '-' then 0 - n else n;
        if -INT64_LIMIT <= v < INT64_LIMIT then Some(v) else None
  }

  lemma {:induction false} DigitsRoundTrip(n: nat)
    ensures DigitsValue(Digits(n)) == Some(n) && Digits(n) != []
    ensures forall c :: c in Digits(n) ==> '0' <= c <= '9'
  {
    if n < 10 {
      assert Digits(n)[..0] == [];
    } else {
      DigitsRoundTrip(n / 10);
      assert Digits(n)[..|Digits(n)| - 1] == Digits(n / 10);
    }
  }

  predicate NumberChar(c: char) {
    c == '-' || '0' <= c <= '9'
  }

  lemma DecimalChars(n: int)
    ensures Decimal(n) != "" && forall c :: c in Decimal(n) ==> NumberChar(c)
  {
    DigitsRoundTrip(if n < 0 then 0 - n else n);
  }

  lemma ParseDecimal(n: int)
    requires -INT64_LIMIT <= n < INT64_LIMIT
    ensures ParseInt64(Decimal(n)) == Some(n)
  {
    var digits := Digits(if n < 0 then 0 - n else n);
    DigitsRoundTrip(if n < 0 then 0 - n else n);
    if n < 0 {
      assert Decimal(n) == "-" + digits;
      assert Decimal(n)[1..] == digits;
    } else {
      assert Decimal(n)[0] == digits[0] && digits[0] in digits;
    }
  }
}
