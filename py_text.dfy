/** The few pieces of Python's text handling the bridge relies on:
    str.strip(), str.rstrip(chars), and reading a run of decimal digits
    as a number (int() on configuration values, the delay-seconds form of
    a Retry-After header). */
module PyText {
  import opened Wrappers

  /** The characters str.isspace() accepts, which are the ones str.strip()
      removes when called without arguments. */
  const Whitespace: set<char> := {
    '\t', '\n', '\U{000B}', '\U{000C}', '\r',
    '\U{001C}', '\U{001D}', '\U{001E}', '\U{001F}', ' ',
    '\U{0085}', '\U{00A0}', '\U{1680}',
    '\U{2000}', '\U{2001}', '\U{2002}', '\U{2003}', '\U{2004}', '\U{2005}',
    '\U{2006}', '\U{2007}', '\U{2008}', '\U{2009}', '\U{200A}',
    '\U{2028}', '\U{2029}', '\U{202F}', '\U{205F}', '\U{3000}'
  }

  /** `s.rstrip(cs)`: the longest prefix of s that does not end in a
      character of cs, everything after it being characters of cs. */
  function TrimEnd(s: string, cs: set<char>): (r: string)
    ensures r <= s
    ensures r == [] || r[|r| - 1] !in cs
    ensures forall i | |r| <= i < |s| :: s[i] in cs
    decreases |s|
  {
    if s != [] && s[|s| - 1] in cs then TrimEnd(s[..|s| - 1], cs) else s
  }

  /** The number of leading characters of s that belong to cs. */
  function LeadingRun(s: string, cs: set<char>): (n: nat)
    ensures n <= |s|
    ensures forall j | 0 <= j < n :: s[j] in cs
    ensures n == |s| || s[n] !in cs
    decreases |s|
  {
    if s != [] && s[0] in cs then 1 + LeadingRun(s[1..], cs) else 0
  }

  /** `s.lstrip(cs)`: s without its leading run of characters of cs. */
  function TrimStart(s: string, cs: set<char>): (r: string)
    ensures r == s[LeadingRun(s, cs)..]
    decreases |s|
  {
    if s != [] && s[0] in cs then TrimStart(s[1..], cs) else s
  }

  /** Everything of s before `from` and from `to` on is a character of cs. */
  predicate Trimmed(s: string, cs: set<char>, from: nat, to: nat)
    requires from <= to <= |s|
  {
    (forall j | 0 <= j < from :: s[j] in cs) && (forall j | to <= j < |s| :: s[j] in cs)
  }

  /** `s.strip(cs)`: the run of s that starts after its leading characters
      of cs and stops before its trailing ones. */
  function StripChars(s: string, cs: set<char>): (r: string)
    ensures LeadingRun(s, cs) + |r| <= |s|
    ensures r == s[LeadingRun(s, cs)..LeadingRun(s, cs) + |r|]
    ensures Trimmed(s, cs, LeadingRun(s, cs), LeadingRun(s, cs) + |r|)
    ensures r == [] <==> forall i | 0 <= i < |s| :: s[i] in cs
    ensures r != [] ==> r[0] !in cs && r[|r| - 1] !in cs
  {
    var start := LeadingRun(s, cs);
    var tail := TrimStart(s, cs);
    var r := TrimEnd(tail, cs);
    assert r == s[start..start + |r|];
    assert forall j | start + |r| <= j < |s| :: s[j] == tail[j - start];
    r
  }

  /** `s.strip()`: s without its leading and trailing whitespace. */
  function Strip(s: string): (r: string)
    ensures LeadingRun(s, Whitespace) + |r| <= |s|
    ensures r == s[LeadingRun(s, Whitespace)..LeadingRun(s, Whitespace) + |r|]
    ensures Trimmed(s, Whitespace, LeadingRun(s, Whitespace), LeadingRun(s, Whitespace) + |r|)
    ensures r == [] <==> forall i | 0 <= i < |s| :: s[i] in Whitespace
    ensures r != [] ==> r[0] !in Whitespace && r[|r| - 1] !in Whitespace
  {
    StripChars(s, Whitespace)
  }

  predicate IsDigit(c: char) {
    '0' <= c <= '9'
  }

  predicate AllDigits(s: string) {
    forall i | 0 <= i < |s| :: IsDigit(s[i])
  }

  /** The number a run of decimal digits denotes. */
  function DigitsValue(s: string): nat
    requires AllDigits(s)
    decreases |s|
  {
    if s == [] then 0 else DigitsValue(s[..|s| - 1]) * 10 + (s[|s| - 1] as int - '0' as int)
  }

  /** A non-empty run of decimal digits read as a number; None for any
      other text. */
  function ParseDigits(s: string): (r: Option<nat>)
    ensures r.Some? <==> s != [] && AllDigits(s)
  {
    if s != [] && AllDigits(s) then Some(DigitsValue(s)) else None
  }

  /** The decimal digits of n, most significant first, without leading zeros. */
  function ShowNat(n: nat): (s: string)
    ensures s != [] && AllDigits(s)
    ensures s[0] == '0' ==> n == 0
  {
    if n < 10 then ['0' + n as char] else ShowNat(n / 10) + ['0' + (n % 10) as char]
  }

  /** Reading back the digits of a number gives the number. */
  lemma {:induction false} ParseShowNat(n: nat)
    ensures ParseDigits(ShowNat(n)) == Some(n)
  {
    if n >= 10 {
      ParseShowNat(n / 10);
      var s := ShowNat(n);
      var d := '0' + (n % 10) as char;
      assert s == ShowNat(n / 10) + [d];
      assert s[..|s| - 1] == ShowNat(n / 10);
      assert d as int - '0' as int == n % 10;
      assert DigitsValue(s) == DigitsValue(ShowNat(n / 10)) * 10 + n % 10;
    }
  }

  /** Python's int(text) on the forms this model accepts: surrounding
      whitespace, an optional sign, then decimal digits. */
  function ParseInt(text: string): (r: Option<int>)
    ensures r.Some? <==>
      (Strip(text) != [] && AllDigits(Strip(text))) ||
      (|Strip(text)| >= 2 && (Strip(text)[0] == '-' || Strip(text)[0] == '+') && AllDigits(Strip(text)[1..]))
    ensures r.Some? && r.value < 0 ==> Strip(text)[0] == '-'
  {
    var t := Strip(text);
    if t != [] && (t[0] == '-' || t[0] == '+') then
      match ParseDigits(t[1..])
      case Some(n) => Some(if t[0] == '-' then -(n as int) else n)
      case None => None
    else
      match ParseDigits(t)
      case Some(n) => Some(n)
      case None => None
  }

  /** Python's int() reads back the decimal form of every natural number. */
  lemma ParseIntShowNat(n: nat)
    ensures ParseInt(ShowNat(n)) == Some(n)
  {
    var s := ShowNat(n);
    DigitIsNotWhitespace(s[0]);
    DigitIsNotWhitespace(s[|s| - 1]);
    StripKeepsTrimmed(s, Whitespace);
    ParseShowNat(n);
  }

  /** int() reads back a minus sign followed by the decimal text of n as -n. */
  lemma ParseIntNegative(n: nat)
    ensures ParseInt("-" + ShowNat(n)) == Some(-(n as int))
  {
    var s := "-" + ShowNat(n);
    DigitIsNotWhitespace(s[|s| - 1]);
    StripKeepsTrimmed(s, Whitespace);
    assert s[1..] == ShowNat(n);
    ParseShowNat(n);
  }

  /** Text that neither starts nor ends with a character of cs is left
      as it is. */
  lemma StripKeepsTrimmed(s: string, cs: set<char>)
    requires s != [] && s[0] !in cs && s[|s| - 1] !in cs
    ensures StripChars(s, cs) == s
  {
    assert LeadingRun(s, cs) == 0;
    var r := StripChars(s, cs);
    assert Trimmed(s, cs, 0, |r|);
  }

  lemma DigitIsNotWhitespace(c: char)
    requires IsDigit(c)
    ensures c !in Whitespace
  {
  }
}
