/** The text that sysfs files carry: decimal numbers, whitespace, lines and tokens. */
module Text {
  import opened Units

  // ---- Decimal numbers ---------------------------------------------------

  function Digit(d: nat): char
    requires d < 10
  {
    "0123456789"[d]
  }

  predicate IsDigit(c: char) {
    '0' <= c <= '9'
  }

  function DigitValue(c: char): nat
    requires IsDigit(c)
  {
    c as int - '0' as int
  }

  /** The shortest decimal form of `n`. */
  function Dec(n: nat): (s: string)
    ensures s != "" && forall c :: c in s ==> IsDigit(c)
  {
    if n < 10 then [Digit(n)] else Dec(n / 10) + [Digit(n % 10)]
  }

  function Value(digits: string): nat
    requires forall c :: c in digits ==> IsDigit(c)
  {
    if digits == "" then 0
    else 10 * Value(digits[..|digits| - 1]) + DigitValue(digits[|digits| - 1])
  }

  lemma {:induction false} ValueOfDec(n: nat)
    ensures Value(Dec(n)) == n
  {
    if n >= 10 {
      var s := Dec(n);
      assert s[..|s| - 1] == Dec(n / 10) && s[|s| - 1] == Digit(n % 10);
      ValueOfDec(n / 10);
    }
  }

  lemma DecIsInjective(m: nat, n: nat)
    requires Dec(m) == Dec(n)
    ensures m == n
  {
    ValueOfDec(m);
    ValueOfDec(n);
  }

  /** `parse` for an unsigned type with the given maximum: an optional plus sign, then digits only, no overflow. */
  function ParseUnsigned(s: string, max: nat): Option<nat> {
    var digits := if s != "" && s[0] == '+' then s[1..] else s;
    if digits == "" || exists c :: c in digits && !IsDigit(c) then None
    else if Value(digits) > max then None
    else Some(Value(digits))
  }

  lemma ParseDec(n: nat, max: nat)
    requires n <= max
    ensures ParseUnsigned(Dec(n), max) == Some(n)
  {
    assert Dec(n)[0] in Dec(n);
    ValueOfDec(n);
  }

  function Zeros(k: nat): (s: string)
    ensures |s| == k && forall c :: c in s ==> c == '0'
  {
    seq(k, _ => '0')
  }

  /** Digits are leading zeros and the shortest form of their value. */
  lemma {:induction false} DigitsAreDec(digits: string) returns (k: nat)
    requires digits != "" && forall c :: c in digits ==> IsDigit(c)
    ensures digits == Zeros(k) + Dec(Value(digits))
  {
    var init, c := digits[..|digits| - 1], digits[|digits| - 1];
    assert c in digits && [Digit(DigitValue(c))] == [c];
    assert digits == init + [c];
    if init == "" {
      k := 0;
    } else {
      k := DigitsAreDec(init);
      AppendDigit(Value(init), DigitValue(c));
      if Value(init) == 0 {
        assert Zeros(k) + Dec(0) == Zeros(k + 1);
        k := k + 1;
      }
    }
    hide Dec, Zeros;
  }

  lemma AppendDigit(n: nat, d: nat)
    requires d < 10
    ensures Dec(10 * n + d) == if n == 0 then [Digit(d)] else Dec(n) + [Digit(d)]
  {
  }

  lemma {:induction false} LeadingZeros(k: nat, digits: string)
    requires forall c :: c in digits ==> IsDigit(c)
    ensures Value(Zeros(k) + digits) == Value(digits)
    decreases |digits|, k
  {
    var all := Zeros(k) + digits;
    if digits != "" {
      assert all[..|all| - 1] == Zeros(k) + digits[..|digits| - 1];
      LeadingZeros(k, digits[..|digits| - 1]);
    } else if k > 0 {
      assert all[..|all| - 1] == Zeros(k - 1) + "";
      LeadingZeros(k - 1, "");
    }
  }

  /** A number as sysfs or a user may write it: perhaps a plus sign, perhaps leading zeros. */
  ghost predicate Written(s: string, n: nat) {
    exists k: nat :: s == Zeros(k) + Dec(n) || s == "+" + (Zeros(k) + Dec(n))
  }

  /** Exactly what parses, and as what. */
  lemma ParsesIff(s: string, n: nat, max: nat)
    ensures ParseUnsigned(s, max) == Some(n) <==> Written(s, n) && n <= max
  {
    if ParseUnsigned(s, max) == Some(n) {
      var digits := if s != "" && s[0] == '+' then s[1..] else s;
      var k := DigitsAreDec(digits);
      assert s == digits || s == "+" + digits;
    }
    if Written(s, n) && n <= max {
      var k: nat :| s == Zeros(k) + Dec(n) || s == "+" + (Zeros(k) + Dec(n));
      var digits := Zeros(k) + Dec(n);
      assert digits[0] in digits && forall c :: c in digits ==> IsDigit(c);
      assert ("+" + digits)[1..] == digits;
      LeadingZeros(k, Dec(n));
      ValueOfDec(n);
    }
  }

  // ---- Whitespace ----------------------------------------------------------

  predicate IsSpace(c: char) {
    c == ' ' || c == '\t' || c == '\n' || c == '\r'
  }

  function TrimStart(s: string): string {
    if s != "" && IsSpace(s[0]) then TrimStart(s[1..]) else s
  }

  function TrimEnd(s: string): string {
    if s != "" && IsSpace(s[|s| - 1]) then TrimEnd(s[..|s| - 1]) else s
  }

  function Trim(s: string): string {
    TrimEnd(TrimStart(s))
  }

  predicate Blank(s: string) {
    forall c :: c in s ==> IsSpace(c)
  }

  lemma {:induction false} StartTrimmed(s: string) returns (left: string)
    ensures s == left + TrimStart(s) && Blank(left)
    ensures TrimStart(s) != "" ==> !IsSpace(TrimStart(s)[0])
  {
    if s != "" && IsSpace(s[0]) {
      var rest := StartTrimmed(s[1..]);
      left := [s[0]] + rest;
    } else {
      left := "";
    }
  }

  lemma {:induction false} EndTrimmed(s: string) returns (right: string)
    ensures s == TrimEnd(s) + right && Blank(right)
    ensures TrimEnd(s) != "" ==> !IsSpace(TrimEnd(s)[|TrimEnd(s)| - 1])
  {
    if s != "" && IsSpace(s[|s| - 1]) {
      var rest := EndTrimmed(s[..|s| - 1]);
      right := rest + [s[|s| - 1]];
    } else {
      right := "";
    }
  }

  /** Trimming takes white space off both ends, all of it and nothing else. */
  lemma TrimIsExact(s: string) returns (left: string, right: string)
    ensures s == left + Trim(s) + right && Blank(left) && Blank(right)
    ensures Trim(s) != "" ==> !IsSpace(Trim(s)[0]) && !IsSpace(Trim(s)[|Trim(s)| - 1])
  {
    left := StartTrimmed(s);
    right := EndTrimmed(TrimStart(s));
  }

  lemma DecIsTrimmed(n: nat)
    ensures Trim(Dec(n)) == Dec(n)
  {
    var s := Dec(n);
    assert s[0] in s && s[|s| - 1] in s;
  }

  /** How many leading characters satisfy nothing but "not a space" (or "a digit"). */
  function TokenLength(s: string): (k: nat)
    ensures k <= |s|
  {
    if s != "" && !IsSpace(s[0]) then 1 + TokenLength(s[1..]) else 0
  }

  function LeadingDigits(s: string): (digits: string)
    ensures forall c :: c in digits ==> IsDigit(c)
  {
    if s != "" && IsDigit(s[0]) then [s[0]] + LeadingDigits(s[1..]) else ""
  }

  /** `split_whitespace`: the maximal runs of non-spaces. */
  function Tokens(s: string): seq<string>
    decreases |s|
  {
    if s == "" then []
    else if IsSpace(s[0]) then Tokens(s[1..])
    else [s[..TokenLength(s)]] + Tokens(s[TokenLength(s)..])
  }

  predicate NoSpace(s: string) {
    forall c :: c in s ==> !IsSpace(c)
  }

  lemma {:induction false} TokenLengthOf(token: string, rest: string)
    requires NoSpace(token) && (rest == "" || IsSpace(rest[0]))
    ensures TokenLength(token + rest) == |token|
  {
    if token == "" {
      assert token + rest == rest;
    } else {
      assert token[0] in token;
      assert (token + rest)[1..] == token[1..] + rest;
      TokenLengthOf(token[1..], rest);
    }
  }

  lemma TokenFirst(token: string, rest: string)
    requires NoSpace(token) && token != "" && (rest == "" || IsSpace(rest[0]))
    ensures Tokens(token + rest) == [token] + Tokens(rest)
  {
    assert token[0] in token;
    TokenLengthOf(token, rest);
    assert (token + rest)[..|token|] == token && (token + rest)[|token|..] == rest;
  }

  lemma {:induction false} SpacesSkip(n: nat, rest: string)
    ensures Tokens(Spaces(n) + rest) == Tokens(rest)
  {
    if n == 0 {
      assert Spaces(n) + rest == rest;
    } else {
      assert (Spaces(n) + rest)[1..] == Spaces(n - 1) + rest;
      SpacesSkip(n - 1, rest);
    }
  }

  function Spaces(n: nat): (s: string)
    ensures |s| == n && forall c :: c in s ==> c == ' '
  {
    if n == 0 then "" else " " + Spaces(n - 1)
  }

  lemma {:induction false} LeadingDigitsOf(digits: string, rest: string)
    requires forall c :: c in digits ==> IsDigit(c)
    requires rest == "" || !IsDigit(rest[0])
    ensures LeadingDigits(digits + rest) == digits
  {
    if digits == "" {
      assert digits + rest == rest;
    } else {
      assert digits[0] in digits;
      assert (digits + rest)[1..] == digits[1..] + rest;
      LeadingDigitsOf(digits[1..], rest);
    }
  }

  // ---- Lines ---------------------------------------------------------------

  function LineLength(s: string): (k: nat)
    ensures k <= |s|
  {
    if s != "" && s[0] != '\n' then 1 + LineLength(s[1..]) else 0
  }

  /** `lines`: newline-terminated, the last newline optional. */
  function Lines(s: string): seq<string>
    decreases |s|
  {
    if s == "" then []
    else
      var k := LineLength(s);
      if k == |s| then [s] else [s[..k]] + Lines(s[k + 1..])
  }

  lemma {:induction false} LineLengthOf(line: string, rest: string)
    requires '\n' !in line
    ensures LineLength(line + "\n" + rest) == |line|
  {
    if line != "" {
      assert (line + "\n" + rest)[1..] == line[1..] + "\n" + rest;
      assert line[0] in line;
      LineLengthOf(line[1..], rest);
    }
  }

  lemma LineFirst(line: string, rest: string)
    requires '\n' !in line
    ensures Lines(line + "\n" + rest) == [line] + Lines(rest)
  {
    var s := line + "\n" + rest;
    LineLengthOf(line, rest);
    assert s[..|line|] == line && s[|line| + 1..] == rest;
  }

  lemma {:induction false} LastLine(line: string)
    requires line != "" && '\n' !in line
    ensures LineLength(line) == |line| && Lines(line) == [line]
  {
    assert line[0] in line;
    if |line| > 1 {
      LastLine(line[1..]);
    }
  }

  /** Visible text followed by one newline trims to the text. */
  lemma TrimLine(s: string)
    requires s != "" && !IsSpace(s[0]) && !IsSpace(s[|s| - 1])
    ensures Trim(s + "\n") == s
  {
    var t := s + "\n";
    assert t[0] == s[0] && t[|t| - 1] == '\n' && t[..|t| - 1] == s;
    assert TrimEnd(s) == s && TrimEnd(t) == TrimEnd(s);
  }

  predicate StartsWith(s: string, prefix: string) {
    prefix <= s
  }
}
