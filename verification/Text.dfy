/** Character classes of the "C" locale and the two argument syntaxes of message.cpp. */
module Text {
  // The six characters for which isspace holds: space, \t, \n, \v, \f, \r.
  predicate IsSpace(c: char) {
    c == ' ' || 9 <= c as int <= 13
  }

  predicate IsDigit(c: char) {
    '0' <= c <= '9'
  }

  predicate IsAlpha(c: char) {
    'A' <= c <= 'Z' || 'a' <= c <= 'z'
  }

  predicate IsWordChar(c: char) {
    IsAlpha(c) || IsDigit(c) || c == '_'
  }

  predicate NoSpace(s: string) {
    forall i :: 0 <= i < |s| ==> !IsSpace(s[i])
  }

  // A letter followed by letters, digits and underscores.
  predicate IsIdentifier(s: string) {
    |s| > 0 && IsAlpha(s[0]) && forall i :: 0 <= i < |s| ==> IsWordChar(s[i])
  }

  // Any non-empty string without white space.
  predicate IsValue(s: string) {
    |s| > 0 && NoSpace(s)
  }

  lemma IdentifierIsValue(s: string)
    requires IsIdentifier(s)
    ensures IsValue(s)
    ensures '\n' !in s && '\0' !in s
  {
    assert !IsWordChar('\n') && !IsWordChar('\0');
  }

  method CheckIdentifier(s: string) returns (ok: bool)
    ensures ok <==> IsIdentifier(s)
  {
    if s == [] || !IsAlpha(s[0]) {
      return false;
    }
    for i := 1 to |s|
      invariant forall j :: 0 <= j < i ==> IsWordChar(s[j])
    {
      if !IsAlpha(s[i]) && !IsDigit(s[i]) && s[i] != '_' {
        return false;
      }
    }
    return true;
  }

  method CheckValue(s: string) returns (ok: bool)
    ensures ok <==> IsValue(s)
  {
    if s == [] {
      return false;
    }
    for i := 0 to |s|
      invariant NoSpace(s[..i])
    {
      if IsSpace(s[i]) {
        return false;
      }
    }
    assert s[..|s|] == s;
    return true;
  }

  // What is left after leading white space is dropped.
  function SkipSpace(s: string): string {
    if s != [] && IsSpace(s[0]) then SkipSpace(s[1..]) else s
  }

  // The longest prefix without white space.
  function Word(s: string): string {
    if s != [] && !IsSpace(s[0]) then [s[0]] + Word(s[1..]) else []
  }

  // SkipSpace removes a prefix made of white space only, and stops as late as it can.
  lemma {:induction false} SkipSpaceSplits(s: string)
    ensures |SkipSpace(s)| <= |s|
    ensures SkipSpace(s) == s[|s| - |SkipSpace(s)|..]
    ensures forall i :: 0 <= i < |s| - |SkipSpace(s)| ==> IsSpace(s[i])
    ensures SkipSpace(s) != [] ==> !IsSpace(SkipSpace(s)[0])
  {
    if s != [] && IsSpace(s[0]) {
      var rest, u := s[1..], SkipSpace(s);
      SkipSpaceSplits(rest);
      assert u == SkipSpace(rest);
      forall i | 0 <= i < |s| - |u|
        ensures IsSpace(s[i])
      {
        assert i > 0 ==> s[i] == rest[i - 1];
      }
      assert rest[|rest| - |u|..] == s[|s| - |u|..];
    }
  }

  lemma {:induction false} WordSplits(s: string)
    ensures |Word(s)| <= |s|
    ensures Word(s) == s[..|Word(s)|]
    ensures NoSpace(Word(s))
    ensures |Word(s)| < |s| ==> IsSpace(s[|Word(s)|])
    ensures s != [] && !IsSpace(s[0]) ==> Word(s) != []
  {
    if s != [] && !IsSpace(s[0]) {
      WordSplits(s[1..]);
    }
  }

  // A space-free string followed by white space, or by nothing, is one word.
  lemma {:induction false} WordOfPrefix(w: string, rest: string)
    requires NoSpace(w)
    requires rest == [] || IsSpace(rest[0])
    ensures Word(w + rest) == w
  {
    if w == [] {
      assert w + rest == rest;
    } else {
      assert (w + rest)[1..] == w[1..] + rest;
      WordOfPrefix(w[1..], rest);
    }
  }
}
