/** Text in double quotes, with a backslash before the characters that need one. */
module Quotes {

  predicate HasAny(s: string, chars: string) {
    exists c :: c in s && c in chars
  }

  /** strings.NewReplacer with a backslash put before each special character. */
  function Escaped(s: string, special: string): string {
    if s == "" then "" else (if s[0] in special then ['\\', s[0]] else [s[0]]) + Escaped(s[1..], special)
  }

  function InQuotes(s: string, special: string): string {
    ['"'] + Escaped(s, special) + ['"']
  }

  /** The text of a quotation whose opening quote has been read, and what follows the closing one; none if one of the
      `barred` characters stands in it without a backslash. */
  datatype Quotation = Closed(text: string, rest: string) | Unclosed

  function Unquoted(s: string, barred: string): (q: Quotation)
    ensures q.Closed? ==> |q.rest| < |s|
  {
    if s == "" then Unclosed
    else if s[0] == '"' then Closed("", s[1..])
    else if s[0] == '\\' then
      if |s| == 1 then Unclosed else More(s[1], Unquoted(s[2..], barred))
    else if s[0] in barred then Unclosed
    else More(s[0], Unquoted(s[1..], barred))
  }

  function More(c: char, q: Quotation): Quotation {
    match q
    case Unclosed => Unclosed
    case Closed(text, rest) => Closed([c] + text, rest)
  }

  lemma UnquotedMore(c: char, t: string, barred: string)
    ensures Unquoted(['\\', c] + t, barred) == More(c, Unquoted(t, barred))
    ensures c != '"' && c != '\\' && c !in barred ==> Unquoted([c] + t, barred) == More(c, Unquoted(t, barred))
  {
    assert (['\\', c] + t)[2..] == t && ([c] + t)[1..] == t;
  }

  /** What follows an opening quote. */
  function Opened(s: string, special: string, rest: string): string {
    Escaped(s, special) + ['"'] + rest
  }

  lemma OpenedMore(s: string, special: string, rest: string)
    requires s != ""
    ensures Opened(s, special, rest) ==
            (if s[0] in special then ['\\', s[0]] else [s[0]]) + Opened(s[1..], special, rest)
  {
  }

  lemma ClosedAtOnce(special: string, rest: string, barred: string)
    ensures Unquoted(Opened("", special, rest), barred) == Closed("", rest)
  {
    assert Opened("", special, rest) == ['"'] + rest;
    assert (['"'] + rest)[1..] == rest;
  }

  /** Reading a quotation gives back the text, if its quotes, backslashes and barred characters are among the escaped. */
  lemma {:induction false} UnquotedOpened(s: string, special: string, rest: string, barred: string)
    requires '"' in special && ('\\' in special || '\\' !in s) && forall c | c in barred :: c in special
    ensures Unquoted(Opened(s, special, rest), barred) == Closed(s, rest)
  {
    if s == "" {
      ClosedAtOnce(special, rest, barred);
    } else {
      OpenedMore(s, special, rest);
      UnquotedMore(s[0], Opened(s[1..], special, rest), barred);
      UnquotedOpened(s[1..], special, rest, barred);
      assert s == [s[0]] + s[1..];
    }
  }

  /** Where a character first is; the length when it is nowhere. */
  function IndexOf(s: string, c: char): (i: nat)
    ensures i <= |s| && c !in s[..i] && (i < |s| ==> s[i] == c)
  {
    if s == "" then 0
    else if s[0] == c then 0
    else
      var i := IndexOf(s[1..], c);
      assert s[..i + 1] == [s[0]] + s[1..][..i];
      i + 1
  }

  lemma IndexIs(s: string, c: char, i: nat)
    requires i <= |s| && c !in s[..i] && (i < |s| ==> s[i] == c)
    ensures IndexOf(s, c) == i
  {
    var j := IndexOf(s, c);
    assert forall k | 0 <= k < i :: s[k] == s[..i][k];
    assert forall k | 0 <= k < j :: s[k] == s[..j][k];
  }
}
