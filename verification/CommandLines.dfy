/** The command lines of the autostart entries (agent/internal/autostart/autostart_linux.go): the `Exec` value of a
    desktop entry and the `ExecStart` of a systemd unit, against a reader that splits at spaces. */
module CommandLines {

  import opened Options
  import opened Quotes

  /** What makes xdgQuoteExecArg quote an argument, and what it escapes. */
  const XDG_QUOTED := " \t\"'\\$`"
  const XDG_ESCAPED := "\\\"`$"
  const SYSTEMD_ESCAPED := "\\\"$"

  /** What may not stand outside quotes (section "The Exec key" of the Desktop Entry Specification). */
  const RESERVED := " \t\n\"'\\><~|&;$*?#()`"

  /** And what may stand inside them only behind a backslash, besides quotes and backslashes themselves. */
  const RESERVED_IN_QUOTES := "`$"

  function XdgQuote(s: string): string {
    if HasAny(s, XDG_QUOTED) then InQuotes(s, XDG_ESCAPED) else s
  }

  function SystemdQuote(s: string): string { InQuotes(s, SYSTEMD_ESCAPED) }

  /** strings.Join with a space. */
  function Join(parts: seq<string>): string {
    if parts == [] then "" else if |parts| == 1 then parts[0] else parts[0] + " " + Join(parts[1..])
  }

  function XdgParts(args: seq<string>): (parts: seq<string>)
    ensures |parts| == |args|
  {
    if args == [] then [] else [XdgQuote(args[0])] + XdgParts(args[1..])
  }

  function SystemdParts(args: seq<string>): (parts: seq<string>)
    ensures |parts| == |args|
  {
    if args == [] then [] else [SystemdQuote(args[0])] + SystemdParts(args[1..])
  }

  // ---------------------------------------------------------------- the reader

  predicate AtEnd(s: string) { s == "" || s[0] == ' ' }

  /** What a strict reader bars outside and inside quotes. */
  function Outside(strict: bool): string { if strict then RESERVED else "" }

  function Inside(strict: bool): string { if strict then RESERVED_IN_QUOTES else "" }

  /** The argument at the start and what follows it: all in quotes, or bare up to the next space, and with none of the
      characters that are barred there. */
  function Argument(s: string, strict: bool): (r: Option<(string, string)>)
    requires !AtEnd(s)
    ensures r.Some? ==> |r.value.1| < |s|
  {
    if s[0] == '"' then
      match Unquoted(s[1..], Inside(strict))
      case Unclosed => None
      case Closed(text, rest) => if AtEnd(rest) then Some((text, rest)) else None
    else
      var i := IndexOf(s, ' ');
      if HasAny(s[..i], Outside(strict)) then None else Some((s[..i], s[i..]))
  }

  function Arguments(s: string, strict: bool): Option<seq<string>>
    decreases |s|
  {
    if s == "" then Some([])
    else if s[0] == ' ' then Arguments(s[1..], strict)
    else match Argument(s, strict)
      case None => None
      case Some((text, rest)) =>
        match Arguments(rest, strict)
        case None => None
        case Some(more) => Some([text] + more)
  }

  lemma ArgumentInQuotes(a: string, special: string, rest: string, strict: bool)
    requires '"' in special && '\\' in special && AtEnd(rest) && forall c | c in Inside(strict) :: c in special
    ensures InQuotes(a, special) + rest != "" && Argument(InQuotes(a, special) + rest, strict) == Some((a, rest))
  {
    var s := InQuotes(a, special) + rest;
    assert s[1..] == Opened(a, special, rest);
    UnquotedOpened(a, special, rest, Inside(strict));
  }

  lemma ArgumentBare(a: string, rest: string, strict: bool)
    requires a != "" && !HasAny(a, XDG_QUOTED) && AtEnd(rest)
    ensures !AtEnd(a + rest)
    ensures Argument(a + rest, strict) == if HasAny(a, Outside(strict)) then None else Some((a, rest))
  {
    var s := a + rest;
    assert s[..|a|] == a && s[|a|..] == rest;
    assert ' ' in XDG_QUOTED && '"' in XDG_QUOTED;
    assert s[0] in a && forall k | 0 <= k < |a| :: a[k] in a;
    IndexIs(s, ' ', |a|);
  }

  // ---------------------------------------------------------------- round trips

  /** Quoted or free of what must be quoted. */
  predicate Allowed(a: string, strict: bool) {
    HasAny(a, Outside(strict)) ==> HasAny(a, XDG_QUOTED)
  }

  function NonEmpty(args: seq<string>): seq<string> {
    if args == [] then [] else (if args[0] == "" then [] else [args[0]]) + NonEmpty(args[1..])
  }

  lemma {:induction false} NonEmptyIsAll(args: seq<string>)
    ensures |NonEmpty(args)| <= |args|
    ensures NonEmpty(args) == args <==> "" !in args
  {
    if args != [] {
      NonEmptyIsAll(args[1..]);
      assert args == [args[0]] + args[1..];
    }
  }

  /** What follows an argument in the joined line. */
  function Tail(parts: seq<string>): string {
    if parts == [] then "" else " " + Join(parts)
  }

  lemma JoinIs(parts: seq<string>)
    requires parts != []
    ensures Join(parts) == parts[0] + Tail(parts[1..])
  {
    if |parts| == 1 {
      assert parts[1..] == [];
      assert parts[0] + "" == parts[0];
    } else {
      assert parts[0] + " " + Join(parts[1..]) == parts[0] + (" " + Join(parts[1..]));
    }
  }

  lemma TailReadsAsJoin(parts: seq<string>, strict: bool)
    ensures Arguments(Tail(parts), strict) == if parts == [] then Some([]) else Arguments(Join(parts), strict)
  {
    if parts != [] { assert Tail(parts)[1..] == Join(parts); }
  }

  /** The reader finds the arguments that are not empty, or fails at one that must be quoted and is not. */
  function XdgRead(args: seq<string>, strict: bool): Option<seq<string>> {
    if forall a | a in args :: Allowed(a, strict) then Some(NonEmpty(args)) else None
  }

  lemma XdgReadMore(args: seq<string>, strict: bool)
    requires args != []
    ensures XdgRead(args, strict) ==
            if args[0] == "" then XdgRead(args[1..], strict)
            else if !Allowed(args[0], strict) || XdgRead(args[1..], strict).None? then None
            else Some([args[0]] + XdgRead(args[1..], strict).value)
  {
    assert args == [args[0]] + args[1..];
    assert (forall a | a in args :: Allowed(a, strict))
      <==> Allowed(args[0], strict) && forall a | a in args[1..] :: Allowed(a, strict);
    assert Allowed("", strict) && [] + NonEmpty(args[1..]) == NonEmpty(args[1..]);
  }

  lemma {:induction false} XdgReads(args: seq<string>, strict: bool)
    requires args != []
    ensures Arguments(Join(XdgParts(args)), strict) == XdgRead(args, strict)
  {
    var a, later := args[0], XdgParts(args[1..]);
    JoinIs(XdgParts(args));
    TailReadsAsJoin(later, strict);
    XdgReadMore(args, strict);
    if args[1..] != [] { XdgReads(args[1..], strict); }
    if a == "" {
      assert "" + Tail(later) == Tail(later);
    } else if HasAny(a, XDG_QUOTED) {
      ArgumentInQuotes(a, XDG_ESCAPED, Tail(later), strict);
    } else {
      ArgumentBare(a, Tail(later), strict);
    }
  }

  /** An argument is left as it is exactly when none of the characters that need quotes is in it. */
  lemma BareExactly(a: string)
    ensures XdgQuote(a) == a <==>
              forall c | c in a :: c != ' ' && c != '\t' && c != '"' && c != '\'' && c != '\\' && c != '$' && c != '`'
  {
    EscapedIsLonger(a, XDG_ESCAPED);
    assert forall c :: c in XDG_QUOTED <==> c == ' ' || c == '\t' || c == '"' || c == '\'' || c == '\\' || c == '$' || c == '`';
    if HasAny(a, XDG_QUOTED) {
      var c :| c in a && c in XDG_QUOTED;
    }
  }

  lemma {:induction false} EscapedIsLonger(s: string, special: string)
    ensures |Escaped(s, special)| >= |s|
  {
    if s != "" { EscapedIsLonger(s[1..], special); }
  }

  /** Read by splitting at spaces, the value gives the arguments back exactly when none of them is empty. */
  lemma XdgRoundTrip(args: seq<string>)
    requires args != []
    ensures Arguments(Join(XdgParts(args)), false) == Some(args) <==> "" !in args
  {
    XdgReads(args, false);
    NonEmptyIsAll(args);
  }

  /** To a reader that bars the reserved characters outside quotes, and inside them a backquote or a dollar sign without a
      backslash, also exactly when each argument with a reserved character has one that makes it quoted. */
  lemma XdgStrictRoundTrip(args: seq<string>)
    requires args != []
    ensures Arguments(Join(XdgParts(args)), true) == Some(args)
       <==> forall a | a in args :: a != "" && Allowed(a, true)
  {
    XdgReads(args, true);
    NonEmptyIsAll(args);
  }

  /** A path with a parenthesis is left bare. */
  lemma ParenthesisIsLeftBare()
    ensures Join(XdgParts(["agent(1)"])) == "agent(1)" && Arguments("agent(1)", true) == None
  {
    var path := "agent(1)";
    assert !HasAny(path, XDG_QUOTED);
    assert '(' in path && '(' in RESERVED;
    assert !Allowed(path, true);
    XdgReads([path], true);
  }

  /** The unit's command line gives the arguments back, whatever they are. */
  lemma {:induction false} SystemdRoundTrip(args: seq<string>)
    ensures Arguments(Join(SystemdParts(args)), false) == Some(args)
  {
    if args != [] {
      var later := SystemdParts(args[1..]);
      JoinIs(SystemdParts(args));
      TailReadsAsJoin(later, false);
      SystemdRoundTrip(args[1..]);
      ArgumentInQuotes(args[0], SYSTEMD_ESCAPED, Tail(later), false);
      assert args == [args[0]] + args[1..];
    }
  }

  /** A reader that bars a dollar sign without a backslash gets each quoted argument back too. */
  lemma SystemdEscapesDollars(a: string, rest: string)
    ensures Unquoted((InQuotes(a, SYSTEMD_ESCAPED) + rest)[1..], "$") == Closed(a, rest)
  {
    assert (InQuotes(a, SYSTEMD_ESCAPED) + rest)[1..] == Opened(a, SYSTEMD_ESCAPED, rest);
    UnquotedOpened(a, SYSTEMD_ESCAPED, rest, "$");
  }

  /** What systemd itself takes for something else in a unit's command line, quoted or not: a specifier, a variable, the
      line's end (sections "Specifiers" of systemd.unit(5) and "Command lines" of systemd.service(5)). */
  const SUBSTITUTED := "%$\n"

  /** A reader that refuses a line with any of these. */
  function SystemdArguments(s: string): Option<seq<string>> {
    if HasAny(s, SUBSTITUTED) then None else Arguments(s, false)
  }

  lemma {:induction false} EscapedHas(s: string, special: string, c: char)
    requires c != '\\'
    ensures c in Escaped(s, special) <==> c in s
  {
    if s != "" { EscapedHas(s[1..], special, c); }
  }

  lemma FirstOrLater(args: seq<string>, c: char)
    requires args != [] && c != '\\' && c != '"' && c != ' '
    ensures c in Join(SystemdParts(args)) <==> c in args[0] || c in Join(SystemdParts(args[1..]))
  {
    var first, later := SystemdQuote(args[0]), SystemdParts(args[1..]);
    JoinIs(SystemdParts(args));
    EscapedHas(args[0], SYSTEMD_ESCAPED, c);
    assert c in first <==> c in args[0];
    assert c in Tail(later) <==> c in Join(later);
  }

  lemma {:induction false} SystemdLineHas(args: seq<string>, c: char)
    requires c != '\\' && c != '"' && c != ' '
    ensures c in Join(SystemdParts(args)) <==> exists a :: a in args && c in a
  {
    if args != [] {
      FirstOrLater(args, c);
      SystemdLineHas(args[1..], c);
      assert args == [args[0]] + args[1..];
    }
  }

  /** To that reader, the arguments come back exactly when none of them has such a character. */
  lemma SystemdStrictRoundTrip(args: seq<string>)
    ensures SystemdArguments(Join(SystemdParts(args))) == Some(args) <==> forall a | a in args :: !HasAny(a, SUBSTITUTED)
  {
    var line := Join(SystemdParts(args));
    SystemdRoundTrip(args);
    forall c | c in SUBSTITUTED ensures c in line <==> exists a :: a in args && c in a { SystemdLineHas(args, c); }
    if HasAny(line, SUBSTITUTED) {
      var c :| c in line && c in SUBSTITUTED;
      var a :| a in args && c in a;
      assert HasAny(a, SUBSTITUTED);
    }
    forall a | a in args && HasAny(a, SUBSTITUTED) ensures HasAny(line, SUBSTITUTED) {
      var c :| c in a && c in SUBSTITUTED;
      assert c in line;
    }
  }

  // ---------------------------------------------------------------- the loops

  lemma {:induction false} PartsGrow(args: seq<string>, a: string)
    ensures XdgParts(args + [a]) == XdgParts(args) + [XdgQuote(a)]
    ensures SystemdParts(args + [a]) == SystemdParts(args) + [SystemdQuote(a)]
  {
    if args == [] {
    } else {
      PartsGrow(args[1..], a);
      assert (args + [a])[1..] == args[1..] + [a];
    }
  }

  /** xdgExecValue. */
  method XdgExecValue(exe: string, args: seq<string>) returns (value: string)
    ensures Arguments(value, false) == Some([exe] + args) <==> exe != "" && "" !in args
    ensures value == Join(XdgParts([exe] + args))
  {
    var parts := [XdgQuote(exe)];
    assert [exe] + args[..0] == [exe];
    for n := 0 to |args|
      invariant parts == XdgParts([exe] + args[..n])
    {
      PartsGrow([exe] + args[..n], args[n]);
      assert [exe] + args[..n + 1] == [exe] + args[..n] + [args[n]];
      parts := parts + [XdgQuote(args[n])];
    }
    assert args[..|args|] == args;
    value := Join(parts);
    XdgRoundTrip([exe] + args);
  }

  /** The ExecStart of Enable. */
  method ExecStart(exe: string, args: seq<string>) returns (value: string)
    ensures Arguments(value, false) == Some([exe] + args)
    ensures SystemdArguments(value) == Some([exe] + args) <==> forall a | a in [exe] + args :: !HasAny(a, SUBSTITUTED)
  {
    var parts := [SystemdQuote(exe)];
    assert [exe] + args[..0] == [exe];
    for n := 0 to |args|
      invariant parts == SystemdParts([exe] + args[..n])
    {
      PartsGrow([exe] + args[..n], args[n]);
      assert [exe] + args[..n + 1] == [exe] + args[..n] + [args[n]];
      parts := parts + [SystemdQuote(args[n])];
    }
    assert args[..|args|] == args;
    value := Join(parts);
    SystemdRoundTrip([exe] + args);
    SystemdStrictRoundTrip([exe] + args);
  }
}
