/** The port rule of the server's start-up: the port argument is read as an unsigned
    16-bit number and accepted only if it is the IRC port 194 or lies in 1024..65535. */
module PortRule {

  const IrcPort: nat := 194
  const MinPort: nat := 1024
  /** The largest value of the 16-bit unsigned type the port is read into. */
  const MaxPort: nat := 65535

  predicate IsAllowedPort(p: nat)
  {
    p == IrcPort || MinPort <= p <= MaxPort
  }

  /** The C locale's white space, which stream extraction skips first. */
  predicate IsSpace(c: char)
  {
    c == ' ' || c == '\t' || c == '\n' || c == '\r' || c as int == 11 || c as int == 12
  }

  predicate IsDigit(c: char)
  {
    '0' <= c <= '9'
  }

  predicate AllSpaces(s: string)
  {
    forall i :: 0 <= i < |s| ==> IsSpace(s[i])
  }

  predicate AllDigits(s: string)
  {
    forall i :: 0 <= i < |s| ==> IsDigit(s[i])
  }

  /** What is left of `s` once its leading white space is skipped. */
  function SkipSpaces(s: string): (r: string)
    ensures |r| <= |s| && r == s[|s| - |r|..]
    ensures AllSpaces(s[..|s| - |r|])
    ensures r == [] || !IsSpace(r[0])
  {
    if s != [] && IsSpace(s[0]) then SkipSpaces(s[1..]) else s
  }

  /** The length of the run of decimal digits that `s` starts with. */
  function DigitRun(s: string): (n: nat)
    ensures n <= |s|
    ensures AllDigits(s[..n])
    ensures n < |s| ==> !IsDigit(s[n])
  {
    if s != [] && IsDigit(s[0]) then 1 + DigitRun(s[1..]) else 0
  }

  /** The number a string of decimal digits denotes. */
  function DecimalValue(d: string): nat
    requires AllDigits(d)
  {
    if d == [] then 0 else 10 * DecimalValue(d[..|d| - 1]) + (d[|d| - 1] as int - '0' as int)
  }

  /** The decimal numeral of `n`, without leading zeros. */
  function DecimalString(n: nat): (d: string)
    ensures |d| >= 1 && AllDigits(d)
    ensures |d| > 1 ==> d[0] != '0'
  {
    if n < 10 then [('0' as int + n) as char]
    else DecimalString(n / 10) + [('0' as int + n % 10) as char]
  }

  datatype Extraction = Failed | Extracted(value: nat)

  /** The number of values of a 16-bit unsigned type. */
  const Modulus: nat := 65536

  /** What reading an unsigned 16-bit number from a string stream yields, as libstdc++
      and libc++ both implement it: leading white space is skipped, one `+` or `-` sign
      may follow, then the longest run of decimal digits is read and whatever follows it
      is ignored. The read fails when there is no digit and when the digits denote more
      than 65535; after a `-` the value read is negated modulo 65536. */
  function ExtractUShort(s: string): (r: Extraction)
    ensures r.Extracted? ==> r.value <= MaxPort
    ensures DigitRun(SignDropped(SkipSpaces(s))) == 0 ==> r == Failed
  {
    ExtractSigned(SkipSpaces(s))
  }

  /** The read once white space is skipped: the sign, then the digits. */
  function ExtractSigned(t: string): (r: Extraction)
    ensures r.Extracted? ==> r.value <= MaxPort
    ensures DigitRun(SignDropped(t)) == 0 ==> r == Failed
  {
    var u := SignDropped(t);
    var n := DigitRun(u);
    if n == 0 then Failed
    else
      var v := DecimalValue(u[..n]);
      if v > MaxPort then Failed
      else if t[0] == '-' then Extracted((0 - v) % Modulus)
      else Extracted(v)
  }

  /** `t` without its leading sign, if it has one. */
  function SignDropped(t: string): (u: string)
    ensures u == t || (t != [] && (t[0] == '+' || t[0] == '-') && u == t[1..])
  {
    if t != [] && (t[0] == '+' || t[0] == '-') then t[1..] else t
  }

  /** The two ways start-up refuses a port argument. */
  datatype PortError =
    | InvalidPortNumber   // the argument does not read as a 16-bit unsigned number
    | PortOutOfRange      // it reads as one, but not as 194 nor as a value in 1024..65535

  datatype PortResult = Accepted(port: nat) | Rejected(error: PortError)

  /** The port half of the server's argument check. */
  function ParsePort(arg: string): (r: PortResult)
    ensures r.Accepted? <==> ExtractUShort(arg).Extracted? && IsAllowedPort(ExtractUShort(arg).value)
    ensures r.Accepted? ==> r.port == ExtractUShort(arg).value && (r.port == 194 || 1024 <= r.port <= 65535)
    ensures r == Rejected(InvalidPortNumber) <==> ExtractUShort(arg) == Failed
  {
    match ExtractUShort(arg)
    case Failed => Rejected(InvalidPortNumber)
    case Extracted(p) =>
      // The source also refuses p > 65535 here; no extracted value is that large.
      if p != IrcPort && (p < MinPort || p > MaxPort) then Rejected(PortOutOfRange)
      else Accepted(p)
  }

  // ---------------------------------------------------------------------------
  // Reading back a written number
  // ---------------------------------------------------------------------------

  lemma {:induction false} DecimalRoundTrip(n: nat)
    ensures DecimalValue(DecimalString(n)) == n
  {
    var d := DecimalString(n);
    if n >= 10 {
      DecimalRoundTrip(n / 10);
      assert d[..|d| - 1] == DecimalString(n / 10);
    }
  }

  lemma {:induction false} SkipSpacesOver(w: string, t: string)
    requires AllSpaces(w)
    requires t == [] || !IsSpace(t[0])
    ensures SkipSpaces(w + t) == t
  {
    if w != [] {
      assert (w + t)[1..] == w[1..] + t;
      SkipSpacesOver(w[1..], t);
    }
  }

  lemma {:induction false} DigitRunOver(d: string, rest: string)
    requires AllDigits(d)
    requires rest == [] || !IsDigit(rest[0])
    ensures DigitRun(d + rest) == |d|
  {
    if d != [] {
      assert (d + rest)[1..] == d[1..] + rest;
      DigitRunOver(d[1..], rest);
    }
  }

  /** An optional sign as the stream accepts it. */
  datatype Sign = NoSign | Plus | Minus
  {
    function Text(): (t: string)
      ensures |t| <= 1 && (t != [] ==> t[0] == '+' || t[0] == '-')
    {
      match this
      case NoSign => ""
      case Plus => "+"
      case Minus => "-"
    }
  }

  /** The value of a 16-bit read of a sign followed by digits denoting `v` (at most
      65535): `v` itself, or its negation modulo 65536 after a `-`. */
  function SignedValue(sign: Sign, v: nat): nat
  {
    if sign == Minus then (0 - v) % Modulus else v
  }

  /** A run of digits followed by anything that does not continue it is read as exactly
      those digits. */
  lemma ReadRun(d: string, rest: string)
    requires AllDigits(d) && d != []
    requires rest == [] || !IsDigit(rest[0])
    ensures DigitRun(d + rest) == |d| && (d + rest)[..|d|] == d
    ensures IsDigit((d + rest)[0])
  {
    DigitRunOver(d, rest);
    assert (d + rest)[..|d|] == d;
    assert (d + rest)[0] == d[0];
  }

  /** A sign in front of a digit is dropped, and only a `-` makes the read negative. */
  lemma SignDroppedOver(sign: Sign, u: string)
    requires u != [] && IsDigit(u[0])
    ensures SignDropped(sign.Text() + u) == u
    ensures (sign.Text() + u)[0] == '-' <==> sign == Minus
  {
    if sign != NoSign {
      assert (sign.Text() + u)[1..] == u;
    }
  }

  /** An optional sign, a run of digits (leading zeros allowed), then anything that does
      not continue the run: the digits are read, and the read fails exactly when they
      denote more than 65535. */
  lemma ExtractSignedDigits(sign: Sign, d: string, rest: string)
    requires AllDigits(d) && d != []
    requires rest == [] || !IsDigit(rest[0])
    ensures ExtractSigned(sign.Text() + d + rest) ==
              if DecimalValue(d) > MaxPort then Failed
              else Extracted(SignedValue(sign, DecimalValue(d)))
  {
    ReadRun(d, rest);
    SignDroppedOver(sign, d + rest);
    Regroup(sign.Text(), d, rest);
    ExtractSignedOfRun(sign.Text() + (d + rest), d);
  }

  lemma Regroup(a: string, b: string, c: string)
    ensures a + b + c == a + (b + c)
  {
  }

  /** The read once white space is skipped, given the digit run it finds. */
  lemma ExtractSignedOfRun(t: string, d: string)
    requires AllDigits(d) && d != [] && t != []
    requires DigitRun(SignDropped(t)) == |d| && SignDropped(t)[..|d|] == d
    ensures ExtractSigned(t) ==
              if DecimalValue(d) > MaxPort then Failed
              else if t[0] == '-' then Extracted((0 - DecimalValue(d)) % Modulus)
              else Extracted(DecimalValue(d))
  {
  }

  /** The same with white space in front: white space does not change the read. */
  lemma ExtractDigits(w: string, sign: Sign, d: string, rest: string)
    requires AllSpaces(w) && AllDigits(d) && d != []
    requires rest == [] || !IsDigit(rest[0])
    ensures ExtractUShort(w + sign.Text() + d + rest) ==
              if DecimalValue(d) > MaxPort then Failed
              else Extracted(SignedValue(sign, DecimalValue(d)))
  {
    var t := sign.Text() + d + rest;
    assert w + sign.Text() + d + rest == w + t;
    assert t[0] == if sign == NoSign then d[0] else sign.Text()[0];
    SkipSpacesOver(w, t);
    ExtractSignedDigits(sign, d, rest);
  }

  /** White space, an optional sign, the numeral of `n`, then anything that does not
      continue the numeral, reads as `n` (negated modulo 65536 after a `-`) when `n` fits
      in 16 bits, and fails otherwise. */
  lemma ExtractDecimal(w: string, sign: Sign, n: nat, rest: string)
    requires AllSpaces(w)
    requires rest == [] || !IsDigit(rest[0])
    ensures ExtractUShort(w + sign.Text() + DecimalString(n) + rest) ==
              if n <= MaxPort then Extracted(SignedValue(sign, n)) else Failed
  {
    ExtractDigits(w, sign, DecimalString(n), rest);
    DecimalRoundTrip(n);
  }

  /** The port rule on a written number: the value read is accepted when it is 194 or
      in 1024..65535 and is otherwise out of range, and a magnitude above 65535 does not
      read at all, so the source's own `> 65535` test never fires. */
  lemma ParsePortOfDecimal(w: string, sign: Sign, n: nat, rest: string)
    requires AllSpaces(w)
    requires rest == [] || !IsDigit(rest[0])
    ensures ParsePort(w + sign.Text() + DecimalString(n) + rest) ==
              if n > MaxPort then Rejected(InvalidPortNumber)
              else if IsAllowedPort(SignedValue(sign, n)) then Accepted(SignedValue(sign, n))
              else Rejected(PortOutOfRange)
  {
    ExtractDecimal(w, sign, n, rest);
  }

  /** Negative numbers wrap around: "-1" is accepted as port 65535. */
  lemma MinusOneIsTopPort(s: string)
    requires s == "-1"
    ensures ParsePort(s) == Accepted(65535)
  {
    assert s == "" + Minus.Text() + "1" + "";
    assert DecimalValue("1") == 1;
    assert SignedValue(Minus, 1) == 65535;
    ExtractDigits("", Minus, "1", "");
    assert ExtractUShort(s) == Extracted(65535);
  }

  /** "-0" reads as 0, which is out of range. */
  lemma MinusZeroOutOfRange(s: string)
    requires s == "-0"
    ensures ParsePort(s) == Rejected(PortOutOfRange)
  {
    assert s == "" + Minus.Text() + "0" + "";
    assert DecimalValue("0") == 0;
    assert SignedValue(Minus, 0) == 0;
    ExtractDigits("", Minus, "0", "");
    assert ExtractUShort(s) == Extracted(0);
  }

  /** A leading `+` and trailing text are accepted by the read. */
  lemma PlusSignAccepted(s: string)
    requires s == " +6667x"
    ensures ParsePort(s) == Accepted(6667)
  {
    assert s == " " + Plus.Text() + "6667" + "x";
    assert "6667"[..3] == "666" && "666"[..2] == "66" && "66"[..1] == "6";
    assert DecimalValue("6667") == 6667;
    ExtractDigits(" ", Plus, "6667", "x");
  }
}
