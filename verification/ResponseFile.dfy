/** The response file that the clang stand-in writes (client/scripts/ndkclangwrap.go): one argument a line, with
    slashes for backslashes and in quotes when it must be, against a reader that splits at white space. */
module ResponseFile {

  import opened Options
  import opened Quotes

  const QUOTED := " \t\n\""

  /** filepath.ToSlash on Windows. */
  function ToSlash(s: string): (t: string)
    ensures |t| == |s| && '\\' !in t
  {
    if s == "" then "" else [if s[0] == '\\' then '/' else s[0]] + ToSlash(s[1..])
  }

  predicate NeedsQuotes(s: string) { s == "" || HasAny(s, QUOTED) }

  function Quoted(s: string): string {
    if NeedsQuotes(s) then InQuotes(s, ['"']) else s
  }

  function Slashed(args: seq<string>): seq<string> {
    if args == [] then [] else [ToSlash(args[0])] + Slashed(args[1..])
  }

  /** The file, from arguments with slashes. */
  function Lines(args: seq<string>): string {
    if args == [] then "" else Quoted(args[0]) + ['\n'] + Lines(args[1..])
  }

  // ---------------------------------------------------------------- the reader

  predicate Blank(c: char) { c == ' ' || c == '\t' || c == '\r' || c == '\n' }

  /** The rest of a word, inside the given quotes or outside any, and what follows it. A backslash matters only
      before a double quote: no other is written. */
  function Word(s: string, inside: Option<char>, quotes: string): (r: (string, string))
    ensures |r.1| <= |s|
    ensures s != "" && (inside.Some? || !Blank(s[0])) ==> |r.1| < |s|
  {
    if s == "" then ("", "")
    else if s[0] == '\\' && |s| > 1 && s[1] == '"' then Longer('"', Word(s[2..], inside, quotes))
    else if inside.Some? then
      if s[0] == inside.value then Word(s[1..], None, quotes) else Longer(s[0], Word(s[1..], inside, quotes))
    else if Blank(s[0]) then ("", s)
    else if s[0] in quotes then Word(s[1..], Some(s[0]), quotes)
    else Longer(s[0], Word(s[1..], None, quotes))
  }

  function Longer(c: char, r: (string, string)): (string, string) { ([c] + r.0, r.1) }

  function Words(s: string, quotes: string): seq<string>
    decreases |s|
  {
    if s == "" then []
    else if Blank(s[0]) then Words(s[1..], quotes)
    else [Word(s, None, quotes).0] + Words(Word(s, None, quotes).1, quotes)
  }

  /** Nothing in it ends a word, opens quotes or is escaped. */
  predicate Plain(a: string, quotes: string) {
    forall c | c in a :: !Blank(c) && c !in quotes && c != '\\'
  }

  lemma {:induction false} PlainWord(a: string, rest: string, quotes: string)
    requires Plain(a, quotes) && rest != "" && Blank(rest[0])
    ensures Word(a + rest, None, quotes) == (a, rest)
  {
    if a == "" {
      assert a + rest == rest;
    } else {
      assert (a + rest)[1..] == a[1..] + rest;
      PlainWord(a[1..], rest, quotes);
      assert a[0] in a && a == [a[0]] + a[1..];
    }
  }

  lemma {:induction false} QuotedWord(a: string, rest: string, quotes: string)
    requires '\\' !in a && rest != "" && Blank(rest[0])
    ensures Word(Opened(a, ['"'], rest), Some('"'), quotes) == (a, rest)
  {
    var s := Opened(a, ['"'], rest);
    if a == "" {
      assert s == ['"'] + rest;
      assert s[1..] == rest;
      assert Word(rest, None, quotes) == ("", rest);
    } else {
      OpenedMore(a, ['"'], rest);
      QuotedWord(a[1..], rest, quotes);
      var tail := Opened(a[1..], ['"'], rest);
      if a[0] == '"' { assert s[2..] == tail; } else { assert s[1..] == tail; }
      assert a == [a[0]] + a[1..];
    }
  }

  /** The newline that ends a line is skipped. */
  lemma NewlineSkipped(rest: string, quotes: string)
    ensures Words(['\n'] + rest, quotes) == Words(rest, quotes)
  {
    assert (['\n'] + rest)[1..] == rest;
  }

  /** A line that reads as its argument: in quotes, or nothing in it that the reader takes for itself. */
  predicate Safe(a: string, quotes: string) {
    NeedsQuotes(a) || ('\r' !in a && forall c | c in a :: c !in quotes)
  }

  lemma LineOpens(a: string, rest: string)
    ensures InQuotes(a, ['"']) + ['\n'] + rest == ['"'] + Opened(a, ['"'], ['\n'] + rest)
  {
    var e := Escaped(a, ['"']);
    assert ['"'] + e + ['"'] + ['\n'] + rest == ['"'] + (e + ['"'] + (['\n'] + rest));
  }

  lemma OpenedWords(a: string, rest: string, quotes: string)
    requires '\\' !in a && '"' in quotes
    ensures Words(['"'] + Opened(a, ['"'], ['\n'] + rest), quotes) == [a] + Words(['\n'] + rest, quotes)
  {
    var o := Opened(a, ['"'], ['\n'] + rest);
    assert (['"'] + o)[1..] == o;
    QuotedWord(a, ['\n'] + rest, quotes);
    assert Word(['"'] + o, None, quotes) == Word(o, Some('"'), quotes);
  }

  lemma QuotedLineReads(a: string, rest: string, quotes: string)
    requires '\\' !in a && NeedsQuotes(a) && '"' in quotes
    ensures Words(Quoted(a) + ['\n'] + rest, quotes) == [a] + Words(rest, quotes)
  {
    LineOpens(a, rest);
    OpenedWords(a, rest, quotes);
    NewlineSkipped(rest, quotes);
  }

  lemma PlainLineReads(a: string, rest: string, quotes: string)
    requires a != "" && Plain(a, quotes)
    ensures Words(a + ['\n'] + rest, quotes) == [a] + Words(rest, quotes)
  {
    var after := ['\n'] + rest;
    assert a + ['\n'] + rest == a + after;
    assert a[0] in a;
    PlainWord(a, after, quotes);
    NewlineSkipped(rest, quotes);
  }

  lemma SafeLineReads(a: string, rest: string, quotes: string)
    requires '\\' !in a && Safe(a, quotes) && '"' in quotes
    ensures Words(Quoted(a) + ['\n'] + rest, quotes) == [a] + Words(rest, quotes)
  {
    if NeedsQuotes(a) {
      QuotedLineReads(a, rest, quotes);
    } else {
      assert ' ' in QUOTED && '\t' in QUOTED && '\n' in QUOTED && '"' in QUOTED;
      PlainLineReads(a, rest, quotes);
    }
  }

  predicate NoBackslash(args: seq<string>) {
    forall a | a in args :: '\\' !in a
  }

  lemma {:induction false} SafeLinesRead(args: seq<string>, quotes: string)
    requires NoBackslash(args) && '"' in quotes
    requires forall a | a in args :: Safe(a, quotes)
    ensures Words(Lines(args), quotes) == args
  {
    if args != [] {
      SafeLinesRead(args[1..], quotes);
      assert args[0] in args;
      SafeLineReads(args[0], Lines(args[1..]), quotes);
      assert args == [args[0]] + args[1..];
    }
  }

  // ---------------------------------------------------------------- exactly when

  /** A part of a bare argument. */
  predicate Bare(x: string) {
    forall c | c in x :: c != ' ' && c != '\t' && c != '\n' && c != '"' && c != '\\'
  }

  lemma NotQuotedIsBare(a: string)
    requires '\\' !in a && !HasAny(a, QUOTED)
    ensures Bare(a)
  {
    assert ' ' in QUOTED && '\t' in QUOTED && '\n' in QUOTED && '"' in QUOTED;
  }

  /** A bare text up to its first carriage return is a word. */
  lemma FirstPiece(a: string, after: string, i: nat)
    requires Bare(a) && 0 < i == IndexOf(a, '\r') && after != "" && after[0] == '\n'
    ensures Words(a + after, ['"']) == [a[..i]] + Words(a[i..] + after, ['"'])
  {
    assert a + after == a[..i] + (a[i..] + after);
    assert forall c | c in a[..i] :: c in a;
    assert a[0] in a && a[0] == a[..i][0] && a[0] in a[..i];
    PlainWord(a[..i], a[i..] + after, ['"']);
  }

  /** A bare argument comes out in pieces without a carriage return. */
  lemma {:induction false} BareLineWords(a: string, rest: string, w: string)
    requires Bare(a) && w in Words(a + (['\n'] + rest), ['"'])
    ensures '\r' !in w || w in Words(rest, ['"'])
    decreases |a|
  {
    var after := ['\n'] + rest;
    if a == "" {
      assert a + after == after;
      NewlineSkipped(rest, ['"']);
    } else if a[0] == '\r' {
      assert (a + after)[1..] == a[1..] + after;
      assert forall c | c in a[1..] :: c in a;
      BareLineWords(a[1..], rest, w);
    } else {
      var i := IndexOf(a, '\r');
      FirstPiece(a, after, i);
      if w != a[..i] {
        assert forall c | c in a[i..] :: c in a;
        BareLineWords(a[i..], rest, w);
      }
    }
  }

  /** A word with a carriage return is one that was quoted. */
  lemma {:induction false} ReturnsAreQuoted(args: seq<string>, w: string)
    requires NoBackslash(args) && w in Words(Lines(args), ['"']) && '\r' in w
    ensures NeedsQuotes(w)
  {
    if args != [] {
      var a, rest := args[0], Lines(args[1..]);
      assert a in args;
      if NeedsQuotes(a) {
        SafeLineReads(a, rest, ['"']);
        if w != a { ReturnsAreQuoted(args[1..], w); }
      } else {
        NotQuotedIsBare(a);
        assert Lines(args) == a + (['\n'] + rest);
        BareLineWords(a, rest, w);
        ReturnsAreQuoted(args[1..], w);
      }
    }
  }

  predicate ReturnsQuoted(a: string) { '\r' in a ==> NeedsQuotes(a) }

  lemma ReadsExactly(args: seq<string>)
    requires NoBackslash(args)
    ensures Words(Lines(args), ['"']) == args <==> forall a | a in args :: ReturnsQuoted(a)
  {
    if forall a | a in args :: ReturnsQuoted(a) {
      forall a | a in args ensures Safe(a, ['"']) {
        assert ReturnsQuoted(a) && '"' in QUOTED;
      }
      SafeLinesRead(args, ['"']);
    } else {
      var a :| a in args && !ReturnsQuoted(a);
      if a in Words(Lines(args), ['"']) { ReturnsAreQuoted(args, a); }
    }
  }

  lemma {:induction false} SlashedHasNone(args: seq<string>)
    ensures NoBackslash(Slashed(args)) && |Slashed(args)| == |args|
  {
    if args != [] { SlashedHasNone(args[1..]); }
  }

  /** Read with double quotes, the file gives the arguments back with slashes for backslashes exactly when each
      that has a carriage return has a space, a tab, a newline or a quote too. */
  lemma ResponseFileRoundTrip(args: seq<string>)
    ensures Words(Lines(Slashed(args)), ['"']) == Slashed(args) <==> forall a | a in Slashed(args) :: ReturnsQuoted(a)
  {
    SlashedHasNone(args);
    ReadsExactly(Slashed(args));
  }

  // ---------------------------------------------------------------- a reader that takes single quotes too

  const BOTH: string := ['"', '\'']

  /** A bare argument that such a reader takes apart. */
  predicate Unsafe(a: string) { a != "" && Bare(a) && ('\r' in a || '\'' in a) }

  lemma BareOrQuoted(a: string)
    requires '\\' !in a
    ensures Safe(a, BOTH) <==> !Unsafe(a)
    ensures Unsafe(a) ==> !NeedsQuotes(a)
    ensures NeedsQuotes(a) ==> a == "" || !Bare(a)
  {
    assert ' ' in QUOTED && '\t' in QUOTED && '\n' in QUOTED && '"' in QUOTED;
    assert '"' in BOTH && '\'' in BOTH;
  }

  /** Up to where the line ends, if it gets there, the word has no apostrophe; and no carriage return either, if the
      line has no apostrophe. */
  predicate FromBare(w: string, x: string, inside: bool) {
    '\n' in w || ('\'' !in w && (!inside && '\'' !in x ==> '\r' !in w))
  }

  /** What follows the word is the end `rest` of the line's text, and the lines after it. */
  predicate Rests(x: string, rest: string, after: string, stream: string) {
    && Bare(rest) && |rest| <= |x| && stream == rest + (['\n'] + after)
    && ('\'' !in x ==> '\'' !in rest)
  }

  /** A word that starts in a bare text: it takes the line's end in, or it ends in the text. */
  lemma {:induction false} BareWord(x: string, after: string, inside: bool) returns (rest: string)
    requires Bare(x)
    ensures var w := Word(x + (['\n'] + after), if inside then Some('\'') else None, BOTH);
            && FromBare(w.0, x, inside)
            && ('\n' in w.0 || Rests(x, rest, after, w.1))
            && ('\n' !in w.0 && !inside && x != "" && !Blank(x[0]) ==> |rest| < |x|)
  {
    var end := ['\n'] + after;
    var s := x + end;
    if x == "" {
      assert s == end && end[1..] == after;
      rest := "";
      if inside { assert Word(s, Some('\''), BOTH).0[0] == '\n'; }
    } else {
      assert x[0] in x && s[0] == x[0] && s[1..] == x[1..] + end;
      assert forall c | c in x[1..] :: c in x;
      if inside {
        var r := BareWord(x[1..], after, x[0] != '\'');
        rest := r;
      } else if Blank(x[0]) {
        rest := x;
      } else {
        var r := BareWord(x[1..], after, x[0] == '\'');
        rest := r;
      }
    }
  }

  /** The words that such a reader still has to give: unsafe bare arguments, the last of them `b`. */
  predicate Owed(owed: seq<string>, b: string) {
    owed != [] && owed[|owed| - 1] == b && forall t | t in owed :: Unsafe(t)
  }

  /** The rest `x` of the line of `b` does not hold `b` any more. */
  predicate Spent(x: string, b: string) {
    Bare(x) && Unsafe(b) && ('\'' in b || '\'' !in x)
  }

  lemma WordIsNotOwed(w: string, x: string, b: string, t: string)
    requires Spent(x, b) && Unsafe(t) && FromBare(w, x, false)
    ensures w == t ==> '\n' !in w && t != b
  {
    assert '\n' !in t;
  }

  lemma OwedIsNever(x: string, rest: seq<string>, owed: seq<string>, b: string)
    requires NoBackslash(rest) && Owed(owed, b) && Spent(x, b)
    ensures Words(x + (['\n'] + Lines(rest)), BOTH) != owed + rest
    decreases |x + (['\n'] + Lines(rest))|, 1
  {
    var s := x + (['\n'] + Lines(rest));
    if x == "" {
      assert s == ['\n'] + Lines(rest);
      NewlineSkipped(Lines(rest), BOTH);
      NextLineIsNot(rest, owed, b);
    } else if x[0] == '\r' {
      assert s[1..] == x[1..] + (['\n'] + Lines(rest));
      assert forall c | c in x[1..] :: c in x;
      OwedIsNever(x[1..], rest, owed, b);
    } else {
      NextWordIsNot(x, rest, owed, b);
    }
  }

  lemma NextWordIsNot(x: string, rest: seq<string>, owed: seq<string>, b: string)
    requires NoBackslash(rest) && Owed(owed, b) && Spent(x, b) && x != "" && x[0] != '\r'
    ensures Words(x + (['\n'] + Lines(rest)), BOTH) != owed + rest
    decreases |x + (['\n'] + Lines(rest))|, 0
  {
    var s := x + (['\n'] + Lines(rest));
    assert x[0] in x && s[0] == x[0] && !Blank(x[0]);
    var later := BareWord(x, Lines(rest), false);
    var w := Word(s, None, BOTH);
    WordIsNotOwed(w.0, x, b, owed[0]);
    if w.0 == owed[0] {
      assert |owed| > 1 && forall t | t in owed[1..] :: t in owed;
      OwedIsNever(later, rest, owed[1..], b);
    }
    FirstDiffers(w.0, Words(w.1, BOTH), owed, rest);
  }

  lemma FirstDiffers(w: string, more: seq<string>, owed: seq<string>, rest: seq<string>)
    requires owed != [] && (w != owed[0] || more != owed[1..] + rest)
    ensures [w] + more != owed + rest
  {
    assert ([w] + more)[0] == w && ([w] + more)[1..] == more;
    assert (owed + rest)[0] == owed[0] && (owed + rest)[1..] == owed[1..] + rest;
  }

  lemma NextLineIsNot(rest: seq<string>, owed: seq<string>, b: string)
    requires NoBackslash(rest) && Owed(owed, b)
    ensures Words(Lines(rest), BOTH) != owed + rest
    decreases |['\n'] + Lines(rest)|, 0
  {
    if rest != [] {
      var a, later := rest[0], rest[1..];
      assert a in rest && forall c | c in later :: c in rest;
      BareOrQuoted(a);
      assert owed[0] in owed;
      if Safe(a, BOTH) {
        SafeLineReads(a, Lines(later), BOTH);
        assert (owed + rest)[0] == owed[0];
      } else {
        assert Lines(rest) == a + (['\n'] + Lines(later));
        assert owed + rest == (owed + [a]) + later;
        OwedIsNever(a, later, owed + [a], a);
      }
    }
  }

  lemma SameFirst(a: string, x: seq<string>, y: seq<string>)
    ensures [a] + x == [a] + y <==> x == y
  {
    assert ([a] + x)[1..] == x && ([a] + y)[1..] == y;
  }

  lemma UnsafeFirst(a: string, later: seq<string>)
    requires NoBackslash(later) && Unsafe(a)
    ensures Words(Lines([a] + later), BOTH) != [a] + later
  {
    assert ([a] + later)[1..] == later;
    BareOrQuoted(a);
    assert Lines([a] + later) == a + (['\n'] + Lines(later));
    OwedIsNever(a, later, [a], a);
  }

  /** With single quotes too, lines without backslashes read as their arguments exactly when each is in quotes or has
      neither a carriage return nor an apostrophe. */
  lemma {:induction false} ReadsExactlyWithBoth(args: seq<string>)
    requires NoBackslash(args)
    ensures Words(Lines(args), BOTH) == args <==> forall a | a in args :: Safe(a, BOTH)
  {
    if args != [] {
      var a, later := args[0], args[1..];
      assert a in args && forall c | c in later :: c in args;
      assert args == [a] + later;
      BareOrQuoted(a);
      ReadsExactlyWithBoth(later);
      if Safe(a, BOTH) {
        SafeLineReads(a, Lines(later), BOTH);
        SameFirst(a, Words(Lines(later), BOTH), later);
      } else {
        UnsafeFirst(a, later);
      }
    }
  }

  /** So the file gives the arguments back, with slashes for backslashes, exactly then. */
  lemma ShellReadersRoundTrip(args: seq<string>)
    ensures Words(Lines(Slashed(args)), BOTH) == Slashed(args) <==> forall a | a in Slashed(args) :: Safe(a, BOTH)
  {
    SlashedHasNone(args);
    ReadsExactlyWithBoth(Slashed(args));
  }

  /** An apostrophe outside double quotes swallows the line's end. */
  lemma ApostropheBreaksShellReaders()
    ensures Words(Lines(Slashed(["'"])), BOTH) == ["\n"]
  {
    var quote, end: string := ['\''], ['\n'];
    assert ToSlash(quote) == quote by { assert quote[1..] == []; }
    assert Slashed([quote]) == [quote] by { assert [quote][1..] == [] && Slashed([]) == []; }
    assert !NeedsQuotes(quote);
    assert Lines([quote]) == quote + end by { assert [quote][1..] == [] && Lines([]) == []; }
    assert Word(end, Some('\''), ['"', '\'']) == (end, []) by {
      assert end[1..] == [] && end + [] == end && Word([], Some('\''), ['"', '\'']) == ([], []);
    }
    assert (quote + end)[1..] == end;
  }

  // ---------------------------------------------------------------- the loop

  lemma {:induction false} LinesGrow(args: seq<string>, a: string)
    ensures Lines(args + [a]) == Lines(args) + (Quoted(a) + ['\n'])
  {
    if args == [] {
      assert Lines([a]) == Quoted(a) + ['\n'] + Lines([]);
    } else {
      LinesGrow(args[1..], a);
      assert (args + [a])[1..] == args[1..] + [a];
      var first, later, last := Quoted(args[0]) + ['\n'], Lines(args[1..]), Quoted(a) + ['\n'];
      assert first + (later + last) == (first + later) + last;
    }
  }

  lemma {:induction false} SlashedGrow(args: seq<string>, a: string)
    ensures Slashed(args + [a]) == Slashed(args) + [ToSlash(a)]
  {
    if args == [] {
    } else {
      SlashedGrow(args[1..], a);
      assert (args + [a])[1..] == args[1..] + [a];
    }
  }

  /** A line that reads as the argument, whatever follows it. */
  ghost predicate ReadsAs(line: string, a: string) {
    forall rest :: Words(line + ['\n'] + rest, ['"']) == [a] + Words(rest, ['"'])
  }

  lemma QuotedReadsAs(a: string)
    requires '\\' !in a
    ensures ReadsAs(Quoted(a), a) <==> ReturnsQuoted(a)
  {
    if ReturnsQuoted(a) {
      assert Safe(a, ['"']) by { assert '"' in QUOTED; }
      forall rest ensures Words(Quoted(a) + ['\n'] + rest, ['"']) == [a] + Words(rest, ['"']) {
        SafeLineReads(a, rest, ['"']);
      }
    } else {
      ReadsExactly([a]);
      assert [a][1..] == [] && Lines([]) == "" && Lines([a]) == Quoted(a) + ['\n'] + "";
      assert a in [a];
      assert Words("", ['"']) == [] && [a] + [] == [a];
    }
  }

  /** quoteRsp: the line reads as the argument with slashes, wherever it stands, exactly when a carriage return in it
      is quoted for another reason. */
  method QuoteRsp(arg: string) returns (line: string)
    ensures line == Quoted(ToSlash(arg))
    ensures ReadsAs(line, ToSlash(arg)) <==> ReturnsQuoted(ToSlash(arg))
  {
    var s := ToSlash(arg);
    QuotedReadsAs(s);
    if s == "" || HasAny(s, QUOTED) {
      return InQuotes(s, ['"']);
    }
    return s;
  }

  /** The loop of main that fills the file. */
  method WriteResponseFile(args: seq<string>) returns (file: string)
    ensures file == Lines(Slashed(args))
    ensures Words(file, ['"']) == Slashed(args) <==> forall a | a in Slashed(args) :: ReturnsQuoted(a)
  {
    file := "";
    for n := 0 to |args|
      invariant file == Lines(Slashed(args[..n]))
    {
      var line := QuoteRsp(args[n]);
      assert args[..n + 1] == args[..n] + [args[n]];
      SlashedGrow(args[..n], args[n]);
      LinesGrow(Slashed(args[..n]), ToSlash(args[n]));
      file := file + (line + ['\n']);
    }
    assert args[..|args|] == args;
    ResponseFileRoundTrip(args);
  }
}
