/** The lines the server understands, and the numbers it reads, told from their characters. */
module Grammar {
  import opened Wrappers
  import opened Text
  import opened Integers
  import opened Messages
  import opened Serialization

  // ---- the words on the wire

  lemma WordsAlone()
    ensures LineText(Msg(POP, [])) == "POP\n" && LineText(Msg(TOP, [])) == "TOP\n"
    ensures LineText(Msg(ADD, [])) == "ADD\n" && LineText(Msg(SUB, [])) == "SUB\n"
    ensures LineText(Msg(MUL, [])) == "MUL\n" && LineText(Msg(DIV, [])) == "DIV\n"
    ensures LineText(Msg(BEGIN, [])) == "BEGIN\n" && LineText(Msg(COMMIT, [])) == "COMMIT\n"
    ensures LineText(Msg(BYE, [])) == "BYE\n" && LineText(Msg(OK, [])) == "OK\n"
  {
    assert ArgsText([]) == [];
  }

  lemma WordsWithArguments(a: string, b: string)
    ensures LineText(Msg(LOGIN, [a])) == "LOGIN " + a + "\n" && LineText(Msg(CREATE, [a])) == "CREATE " + a + "\n"
    ensures LineText(Msg(PUSH, [a])) == "PUSH " + a + "\n" && LineText(Msg(DATA, [a])) == "DATA " + a + "\n"
    ensures LineText(Msg(FAILED, [a])) == "FAILED " + a + "\n" && LineText(Msg(ERROR, [a])) == "ERROR " + a + "\n"
    ensures LineText(Msg(GET, [a, b])) == "GET " + a + " " + b + "\n"
    ensures LineText(Msg(SET, [a, b])) == "SET " + a + " " + b + "\n"
  {
    OneArgument(a);
    TwoArguments(a, b);
    hide ArgsText;
  }

  lemma OneArgument(a: string)
    ensures ArgsText([a]) == " " + a
  {
    assert [a][1..] == [] && ArgsText([]) == [];
  }

  lemma TwoArguments(a: string, b: string)
    ensures ArgsText([a, b]) == " " + a + " " + b
  {
    OneArgument(b);
    assert [a, b][1..] == [b];
  }

  // ---- the lines

  predicate Blank(s: string) {
    forall i :: 0 <= i < |s| ==> IsSpace(s[i])
  }

  // White space before, between and after the arguments; between two of them there is some.
  predicate GapsFit(gaps: seq<string>, args: seq<string>)
    decreases |args|
  {
    && |gaps| == |args| + 1 && Blank(gaps[0])
    && (args != [] ==> GapsFit(gaps[1..], args[1..]))
    && (|args| > 1 ==> gaps[1] != [])
  }

  function Laid(gaps: seq<string>, args: seq<string>): string
    requires |gaps| == |args| + 1
    decreases |args|
  {
    if args == [] then gaps[0] else gaps[0] + args[0] + Laid(gaps[1..], args[1..])
  }

  lemma {:induction false} SkipBlank(b: string, rest: string)
    requires Blank(b)
    ensures SkipSpace(b + rest) == SkipSpace(rest)
  {
    if b == [] {
      assert b + rest == rest;
    } else {
      assert (b + rest)[1..] == b[1..] + rest;
      SkipBlank(b[1..], rest);
    }
  }

  lemma TokensAfterBlank(b: string, rest: string)
    requires Blank(b)
    ensures Tokens(b + rest) == Tokens(rest)
  {
    SkipBlank(b, rest);
    TokensOfSkip(b + rest);
    TokensOfSkip(rest);
  }

  // Arguments are read back whatever white space is around them.
  lemma {:induction false} TokensOfLaid(gaps: seq<string>, args: seq<string>)
    requires GapsFit(gaps, args) && forall i :: 0 <= i < |args| ==> IsValue(args[i])
    ensures Tokens(Laid(gaps, args)) == args
    decreases |args|
  {
    if args == [] {
      assert gaps[0] + [] == gaps[0];
      TokensAfterBlank(gaps[0], []);
      assert Tokens([]) == [];
    } else {
      var rest := Laid(gaps[1..], args[1..]);
      TokensOfLaid(gaps[1..], args[1..]);
      LaidStartsBlank(gaps[1..], args[1..]);
      var u := args[0] + rest;
      assert Laid(gaps, args) == gaps[0] + u;
      TokensAfterBlank(gaps[0], u);
      WordOfPrefix(args[0], rest);
      assert SkipSpace(u) == u;
      TokensStep(u);
      assert u[|args[0]|..] == rest;
    }
  }

  lemma LaidStartsBlank(gaps: seq<string>, args: seq<string>)
    requires GapsFit(gaps, args) && (args != [] ==> gaps[0] != [])
    ensures var s := Laid(gaps, args); s == [] || IsSpace(s[0])
  {
  }

  lemma NoTokens()
    ensures Tokens([]) == []
  {
  }

  // One token more in front.
  lemma LaidInFront(first: string, word: string, more: seq<string>, args: seq<string>)
    requires Blank(first) && GapsFit(more, args) && (args != [] ==> more[0] != [])
    ensures GapsFit([first] + more, [word] + args)
    ensures Laid([first] + more, [word] + args) == first + word + Laid(more, args)
  {
    assert ([first] + more)[1..] == more && ([word] + args)[1..] == args;
  }

  // Every text is its tokens with white space around them.
  lemma {:induction false} TokensAreLaid(s: string) returns (gaps: seq<string>)
    ensures GapsFit(gaps, Tokens(s)) && Laid(gaps, Tokens(s)) == s
    ensures s != [] && IsSpace(s[0]) ==> gaps[0] != []
    decreases |s|
  {
    hide Tokens, SkipSpace, Word;
    SkipSpaceSplits(s);
    TokensOfSkip(s);
    NoTokens();
    var u := SkipSpace(s);
    if u == [] {
      gaps := [s];
    } else {
      hide GapsFit, Laid;
      var first := s[..|s| - |u|];
      WordSplits(u);
      TokensOfSkip(u);
      TokensStep(u);
      var rest := u[|Word(u)|..];
      var more := TokensAreLaid(rest);
      LaidInFront(first, Word(u), more, Tokens(rest));
      gaps := [first] + more;
      assert s == first + Word(u) + rest;
    }
  }

  // The word of m and its arguments after one space at least; a free text is all that follows that
  // space.
  predicate IsLine(line: string, m: Msg, gaps: seq<string>)
    requires !m.kind.NONE?
  {
    var word := CommandText(m.kind);
    if m.FreeText() then |m.args| == 1 && line == word + " " + m.args[0]
    else (m.args == [] && line == word) || (GapsFit(gaps, m.args) && line == word + " " + Laid(gaps, m.args))
  }

  // s carries the message m: white space of any kind, the line, and a newline.
  predicate Carries(s: string, m: Msg, lead: nat, gaps: seq<string>)
    requires !m.kind.NONE?
  {
    && lead < |s| && Blank(s[..lead]) && s[|s| - 1] == '\n'
    && IsLine(s[lead..|s| - 1], m, gaps)
  }

  lemma FirstBlankAfter(word: string, rest: string)
    requires NoSpace(word) && (rest == [] || rest[0] == ' ')
    ensures FirstBlank(word + rest) == |word| && (word + rest)[..|word|] == word
    ensures rest != [] ==> (word + rest)[|word| + 1..] == rest[1..]
  {
    FirstBlankAfterWord(word, rest);
  }

  lemma FreeTextWord(kind: MessageType)
    requires !kind.NONE?
    ensures var word := CommandText(kind);
            (word == "FAILED" || word == "ERROR") <==> (kind.FAILED? || kind.ERROR?)
  {
    CommandTypeOfText(kind);
    CommandTypeOfText(FAILED);
    CommandTypeOfText(ERROR);
  }

  lemma LineParses(line: string, m: Msg, gaps: seq<string>)
    requires m.Valid() && IsLine(line, m, gaps)
    ensures ParseLine(line) == Ok(m) && line != [] && !IsSpace(line[0])
  {
    hide CommandText, CommandType, Laid, Tokens, FirstBlank;
    var word := CommandText(m.kind);
    CommandTextShape(m.kind);
    CommandTypeOfText(m.kind);
    FreeTextWord(m.kind);
    assert line[0] == word[0];
    if !m.FreeText() && m.args == [] && line == word {
      assert word + [] == word;
      FirstBlankAfter(word, []);
    } else if m.FreeText() {
      assert line == word + (" " + m.args[0]) && (" " + m.args[0])[1..] == m.args[0] && [m.args[0]] == m.args;
      FirstBlankAfter(word, " " + m.args[0]);
    } else {
      var laid := Laid(gaps, m.args);
      ValidArgsAreValues(m);
      TokensOfLaid(gaps, m.args);
      assert line == word + (" " + laid) && (" " + laid)[1..] == laid;
      FirstBlankAfter(word, " " + laid);
    }
  }

  lemma NoSkip(u: string)
    requires u != [] && !IsSpace(u[0])
    ensures SkipSpace(u) == u
  {
  }

  // A line of at most 1024 characters that carries a valid message decodes to it...
  lemma CarriedIsDecoded(s: string, m: Msg, lead: nat, gaps: seq<string>)
    requires m.Valid() && |s| <= MAX_ENCODED_LEN && Carries(s, m, lead, gaps)
    ensures Decode(s) == Ok(m)
  {
    hide IsLine, ParseLine, SkipSpace;
    var line := s[lead..|s| - 1];
    LineParses(line, m, gaps);
    assert s[..|s| - 1] == s[..lead] + line;
    SkipBlank(s[..lead], line);
    NoSkip(line);
  }

  lemma ParsedIsLine(line: string) returns (gaps: seq<string>)
    requires ParseLine(line).Ok? && ParseLine(line).value.Valid()
    ensures IsLine(line, ParseLine(line).value, gaps)
  {
    var m := ParseLine(line).value;
    gaps := [];
    var i := FirstBlank(line);
    CommandTextOfType(line[..i]);
    FreeTextWord(m.kind);
    hide CommandText, CommandType;
    if i < |line| {
      var rest := line[i + 1..];
      assert line == line[..i] + " " + rest;
      if !m.FreeText() {
        gaps := TokensAreLaid(rest);
      }
    }
  }

  lemma DecodedParts(s: string)
    requires Decode(s).Ok?
    ensures s != [] && |s| <= MAX_ENCODED_LEN && s[|s| - 1] == '\n'
    ensures Decode(s).value.Valid() && ParseLine(SkipSpace(s[..|s| - 1])) == Decode(s)
  {
    hide ParseLine, SkipSpace;
  }

  // ... and a line that decodes is one of these.
  lemma DecodedIsCarried(s: string) returns (lead: nat, gaps: seq<string>)
    requires Decode(s).Ok?
    ensures var m := Decode(s).value;
            m.Valid() && |s| <= MAX_ENCODED_LEN && Carries(s, m, lead, gaps)
  {
    hide Decode, SkipSpace, IsLine, ParseLine;
    DecodedParts(s);
    var text := s[..|s| - 1];
    var line := SkipSpace(text);
    SkipSpaceSplits(text);
    lead := |text| - |line|;
    gaps := ParsedIsLine(line);
    assert s[lead..|s| - 1] == text[lead..];
    assert forall i :: 0 <= i < lead ==> s[..lead][i] == text[i];
  }

  // ---- the arguments

  datatype Argument = NameArgument | ValueArgument | TextArgument

  function Signature(kind: MessageType): seq<Argument> {
    match kind
    case LOGIN => [NameArgument]
    case CREATE => [NameArgument]
    case PUSH => [ValueArgument]
    case DATA => [ValueArgument]
    case SET => [NameArgument, NameArgument]
    case GET => [NameArgument, NameArgument]
    case FAILED => [TextArgument]
    case ERROR => [TextArgument]
    case _ => []
  }

  // A name is a letter followed by letters, digits and underscores, a value is not empty and free of
  // the six white-space characters; the classes are told by the characters' codes.
  predicate Fits(s: string, a: Argument) {
    match a
    case NameArgument =>
      && s != [] && IsLetterCode(s[0] as int)
      && forall i :: 0 <= i < |s| ==> IsLetterCode(s[i] as int) || 48 <= s[i] as int <= 57 || s[i] as int == 95
    case ValueArgument =>
      s != [] && forall i :: 0 <= i < |s| ==> s[i] as int != 32 && !(9 <= s[i] as int <= 13)
    case TextArgument => true
  }

  predicate IsLetterCode(n: int) {
    65 <= n <= 90 || 97 <= n <= 122
  }

  // A message is valid exactly when it has a type and the arguments of its type's signature.
  lemma ValidBySignature(m: Msg)
    ensures m.Valid() <==>
      && !m.kind.NONE? && |m.args| == |Signature(m.kind)|
      && forall i :: 0 <= i < |m.args| ==> Fits(m.args[i], Signature(m.kind)[i])
  {
    NamesByCode();
  }

  lemma NamesByCode()
    ensures forall s: string {:trigger IsIdentifier(s)} :: IsIdentifier(s) <==> Fits(s, NameArgument)
    ensures forall s: string {:trigger IsValue(s)} :: IsValue(s) <==> Fits(s, ValueArgument)
  {
    assert '0' as int == 48 && '9' as int == 57 && '_' as int == 95 && ' ' as int == 32;
    assert 'A' as int == 65 && 'Z' as int == 90 && 'a' as int == 97 && 'z' as int == 122;
  }

  // ---- the numbers

  predicate Sign(s: string) {
    s == "" || s == "+" || s == "-"
  }

  lemma DigitPrefixStops(digits: string, rest: string)
    requires AllDigits(digits) && (rest == [] || !IsDigit(rest[0]))
    ensures DigitPrefix(digits + rest) == digits
  {
    if digits == [] {
      assert digits + rest == rest;
    } else {
      assert (digits + rest)[1..] == digits[1..] + rest;
      DigitPrefixStops(digits[1..], rest);
    }
  }

  lemma StoiOf(s: string, u: string, digits: string)
    requires SkipSpace(s) == u && u != [] && digits != []
    requires DigitPrefix(if u[0] == '-' || u[0] == '+' then u[1..] else u) == digits
    ensures var n: int := if u[0] == '-' then -(DigitsValue(digits) as int) else DigitsValue(digits);
            Stoi(s) == if -0x8000_0000 <= n < 0x8000_0000 then Number(n) else OutOfRange
  {
    hide DigitPrefix, DigitsValue, SkipSpace;
  }

  // White space, a sign and digits are read as the number; what follows is ignored.
  lemma StoiReads(lead: string, sign: string, digits: string, rest: string)
    requires Blank(lead) && Sign(sign) && AllDigits(digits) && digits != [] && (rest == [] || !IsDigit(rest[0]))
    ensures var n: int := if sign == "-" then -(DigitsValue(digits) as int) else DigitsValue(digits);
            Stoi(lead + sign + digits + rest)
            == if -0x8000_0000 <= n < 0x8000_0000 then Number(n) else OutOfRange
  {
    hide Stoi, DigitPrefix, DigitsValue, SkipSpace;
    DigitPrefixStops(digits, rest);
    var number := digits + rest;
    var u := sign + number;
    assert lead + sign + digits + rest == lead + u;
    SkipBlank(lead, u);
    if sign == [] {
      assert u == number && number[0] == digits[0];
    } else {
      assert u[0] == sign[0] && u[1..] == number;
    }
    NoSkip(u);
    StoiOf(lead + u, u, digits);
  }

  // Without a digit there it is no number.
  lemma StoiRefuses(lead: string, sign: string, rest: string)
    requires Blank(lead) && Sign(sign) && (rest == [] || !IsDigit(rest[0]))
    requires sign == "" && rest != [] ==> !IsSpace(rest[0]) && rest[0] != '+' && rest[0] != '-'
    ensures Stoi(lead + sign + rest) == NotANumber
  {
    var u := sign + rest;
    assert lead + sign + rest == lead + u;
    SkipBlank(lead, u);
    DigitPrefixStops([], rest);
    assert [] + rest == rest;
    assert SkipSpace(u) == u;
    assert sign != [] ==> u[1..] == rest;
    assert sign == [] ==> u == rest;
  }

  // Digits are the ten characters, and count by their place.
  lemma OneDigit(d: nat)
    requires d < 10
    ensures var text := ["0123456789"[d]];
            NatText(d) == text && AllDigits(text) && DigitsValue(text) == d
  {
    NatTextDigits(d);
  }

  lemma TenTimes(x: nat, p: nat)
    ensures x * (10 * p) == 10 * (x * p)
  {
  }

  lemma {:induction false} DigitsByPlace(a: string, b: string)
    requires AllDigits(a) && AllDigits(b)
    ensures AllDigits(a + b) && DigitsValue(a + b) == DigitsValue(a) * Pow10(|b|) + DigitsValue(b)
  {
    if b == [] {
      assert a + b == a;
    } else {
      var front := b[..|b| - 1];
      assert (a + b)[..|a + b| - 1] == a + front;
      DigitsByPlace(a, front);
      TenTimes(DigitsValue(a), Pow10(|front|));
    }
  }

  // A number is printed without leading zeros, and a negative one with a minus sign.
  lemma {:induction false} PrintedNumber(n: nat)
    ensures AllDigits(ToString(n)) && DigitsValue(ToString(n)) == n && (n > 0 ==> ToString(n)[0] != '0')
    ensures n > 0 ==> ToString(-(n as int)) == "-" + ToString(n)
  {
    NatTextDigits(n);
    if n >= 10 {
      PrintedNumber(n / 10);
    }
  }
}
