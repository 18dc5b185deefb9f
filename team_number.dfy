/** The team-number text box: `int.TryParse` of its text, and the choice it
    drives between connecting by team number and by IP address. */
module TeamNumber {
  import opened Wrappers
  import opened Numerics

  /** The white space `int.TryParse` skips around a number: tab, line feed,
      vertical tab, form feed, carriage return and space. */
  predicate IsWhite(c: char)
  {
    c == ' ' || '\t' <= c <= '\r'
  }

  predicate IsDigit(c: char)
  {
    '0' <= c <= '9'
  }

  predicate AllDigits(s: string)
  {
    forall i :: 0 <= i < |s| ==> IsDigit(s[i])
  }

  /** s without its leading white space. */
  function TrimStart(s: string): (r: string)
    ensures |r| <= |s| && r == s[|s| - |r|..]
    ensures forall i :: 0 <= i < |s| - |r| ==> IsWhite(s[i])
    ensures r != [] ==> !IsWhite(r[0])
  {
    if s != [] && IsWhite(s[0]) then TrimStart(s[1..]) else s
  }

  /** s without its trailing white space. */
  function TrimEnd(s: string): (r: string)
    ensures |r| <= |s| && r == s[..|r|]
    ensures forall i :: |r| <= i < |s| ==> IsWhite(s[i])
    ensures r != [] ==> !IsWhite(r[|r| - 1])
  {
    if s != [] && IsWhite(s[|s| - 1]) then TrimEnd(s[..|s| - 1]) else s
  }

  function Trim(s: string): string
  {
    TrimEnd(TrimStart(s))
  }

  /** The value of a string of decimal digits. */
  function DigitsValue(s: string): nat
    requires AllDigits(s)
  {
    if s == [] then 0 else 10 * DigitsValue(s[..|s| - 1]) + (s[|s| - 1] - '0') as nat
  }

  /** `int.TryParse(s, out n)` with the default integer style: optional
      white space, an optional sign, one or more digits, optional white
      space, and a value within the 32-bit range. */
  function TryParseInt(s: string): (r: Option<int>)
    ensures r.Some? ==> Int32Min <= r.value <= Int32Max
    ensures Trim(s) == [] ==> r == None
  {
    ParseTrimmed(Trim(s))
  }

  /** The number text without its surrounding white space: an optional
      sign, then one or more digits. */
  function ParseTrimmed(t: string): Option<int>
  {
    if t == [] then None
    else
      var negative := t[0] == '-';
      var digits := if t[0] == '-' || t[0] == '+' then t[1..] else t;
      if digits == [] || !AllDigits(digits) then None
      else
        var v := if negative then -(DigitsValue(digits) as int) else DigitsValue(digits) as int;
        if Int32Min <= v <= Int32Max then Some(v) else None
  }

  function DigitChar(d: nat): char
    requires d < 10
  {
    ('0' as int + d) as char
  }

  /** The decimal text of a non-negative number. */
  function FormatNat(n: nat): (s: string)
    ensures s != [] && AllDigits(s)
  {
    if n < 10 then [DigitChar(n)] else FormatNat(n / 10) + [DigitChar(n % 10)]
  }

  /** The decimal text of a number, as `ToString()` writes it. */
  function FormatInt(n: int): string
  {
    if n < 0 then "-" + FormatNat(-n) else FormatNat(n)
  }

  lemma {:induction false} FormatNatValue(n: nat)
    ensures DigitsValue(FormatNat(n)) == n
  {
    var s := FormatNat(n);
    if n >= 10 {
      FormatNatValue(n / 10);
      assert s[..|s| - 1] == FormatNat(n / 10);
    }
  }

  /** Text without white space at either end is its own trim. */
  lemma TrimUntouched(s: string)
    requires s != [] && !IsWhite(s[0]) && !IsWhite(s[|s| - 1])
    ensures Trim(s) == s
  {
  }

  /** Every number in the 32-bit range reads back from its decimal text. */
  lemma ParseFormatRoundTrip(n: int)
    requires Int32Min <= n <= Int32Max
    ensures TryParseInt(FormatInt(n)) == Some(n)
  {
    var m := if n < 0 then -n else n;
    var digits := FormatNat(m);
    FormatNatValue(m);
    var s := FormatInt(n);
    TrimUntouched(s);
    assert TryParseInt(s) == ParseTrimmed(s);
    if n < 0 {
      assert s[0] == '-' && s[1..] == digits;
    } else {
      assert s == digits && IsDigit(s[0]);
    }
  }

  predicate AllWhite(s: string)
  {
    forall i :: 0 <= i < |s| ==> IsWhite(s[i])
  }

  /** White space of any kind and length around the text does not change
      what it parses to. */
  lemma ParseIgnoresSurroundingWhite(before: string, s: string, after: string)
    requires AllWhite(before) && AllWhite(after)
    ensures TryParseInt(before + s + after) == TryParseInt(s)
  {
    TrimSurrounded(before, s, after);
    ParseDependsOnTrim(before + s + after, s);
  }

  lemma ParseDependsOnTrim(a: string, b: string)
    requires Trim(a) == Trim(b)
    ensures TryParseInt(a) == TryParseInt(b)
  {
  }

  lemma TrimSurrounded(before: string, s: string, after: string)
    requires AllWhite(before) && AllWhite(after)
    ensures Trim(before + s + after) == Trim(s)
  {
    ConcatAssoc(before, s, after);
    TrimStartPrependWhite(before, s + after);
    TrimStartAppendWhite(s, after);
  }

  lemma ConcatAssoc(a: string, b: string, c: string)
    ensures a + b + c == a + (b + c)
  {
  }

  /** Leading white space is dropped by `TrimStart`. */
  lemma {:induction false} TrimStartPrependWhite(w: string, t: string)
    requires AllWhite(w)
    ensures TrimStart(w + t) == TrimStart(t)
    decreases |w|
  {
    if w == [] {
      assert w + t == t;
    } else {
      assert (w + t)[1..] == w[1..] + t;
      TrimStartPrependWhite(w[1..], t);
    }
  }

  /** Trailing white space is dropped by `TrimEnd`. */
  lemma {:induction false} TrimEndAppendWhite(t: string, w: string)
    requires AllWhite(w)
    ensures TrimEnd(t + w) == TrimEnd(t)
    decreases |w|
  {
    if w == [] {
      assert t + w == t;
    } else {
      var w' := w[..|w| - 1];
      assert (t + w)[..|t + w| - 1] == t + w';
      TrimEndAppendWhite(t, w');
    }
  }

  /** Trimming the front and then the back of `s + w` drops the appended
      white space w. */
  lemma {:induction false} TrimStartAppendWhite(s: string, w: string)
    requires AllWhite(w)
    ensures TrimEnd(TrimStart(s + w)) == TrimEnd(TrimStart(s))
    decreases |s|
  {
    if s == [] {
      assert s + w == w + [];
      TrimStartPrependWhite(w, []);
    } else if IsWhite(s[0]) {
      assert (s + w)[1..] == s[1..] + w;
      TrimStartAppendWhite(s[1..], w);
    } else {
      assert TrimStart(s + w) == s + w;
      TrimEndAppendWhite(s, w);
    }
  }

  /** Text that parses holds nothing but white space, a sign and digits. */
  lemma ParsedCharacters(s: string, i: nat)
    requires TryParseInt(s).Some? && i < |s|
    ensures IsWhite(s[i]) || s[i] == '-' || s[i] == '+' || IsDigit(s[i])
  {
    var u := TrimStart(s);
    var t := TrimEnd(u);
    var lead := |s| - |u|;
    if lead <= i < lead + |t| {
      var j := i - lead;
      assert s[i] == t[j];
      var digits := if t[0] == '-' || t[0] == '+' then t[1..] else t;
      if j > 0 || !(t[0] == '-' || t[0] == '+') {
        var d := if t[0] == '-' || t[0] == '+' then j - 1 else j;
        assert digits[d] == t[j];
      }
    } else if i >= lead + |t| {
      assert s[i] == u[i - lead];
    }
  }

  /** Where the controller connects: by team number or by address. */
  datatype ServerTarget = Team(number: int) | IPAddress(address: string)

  /** Text that `int.TryParse` accepts is a team number; any other text is
      passed on unchanged as an address. */
  function TargetOf(text: string): (t: ServerTarget)
    ensures t.Team? <==> TryParseInt(text).Some?
    ensures t.Team? ==> t.number == TryParseInt(text).value && Int32Min <= t.number <= Int32Max
    ensures t.IPAddress? ==> t.address == text
  {
    match TryParseInt(text)
    case Some(n) => Team(n)
    case None => IPAddress(text)
  }

  /** The decimal text of a team number selects that team. */
  lemma TeamTextSelectsTeam(n: int)
    requires Int32Min <= n <= Int32Max
    ensures TargetOf(FormatInt(n)) == Team(n)
  {
    ParseFormatRoundTrip(n);
  }

  /** A dotted address such as "10.9.97.2" is never taken for a team number. */
  lemma DottedTextSelectsAddress(text: string, i: nat)
    requires i < |text| && text[i] == '.'
    ensures TargetOf(text) == IPAddress(text)
  {
    if TryParseInt(text).Some? {
      ParsedCharacters(text, i);
    }
  }
}
