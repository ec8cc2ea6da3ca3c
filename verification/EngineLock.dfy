/** The engine's lock file (agent/internal/app/enginelock.go, enginelock_unix.go): the process that holds an advisory
    lock on it writes its pid and then its mode there, and every other reads them. Each system call is one step. */
module EngineLock {

  import opened Options

  const BUFFER := 64
  const MAX_INT := 0x7FFF_FFFF_FFFF_FFFF

  type Pid = x: int | 0 < x <= MAX_INT witness 1

  // ---------------------------------------------------------------- numbers and words

  predicate Digit(c: char) { '0' <= c <= '9' }

  predicate Blank(c: char) { c == ' ' || '\t' <= c <= '\r' }

  /** strconv.Itoa of a number that is not negative. */
  function Itoa(n: nat): (s: string)
    ensures s != "" && forall c | c in s :: Digit(c)
  {
    var last := '0' + (n % 10) as char;
    if n < 10 then [last] else Itoa(n / 10) + [last]
  }

  function DigitValue(c: char): nat
    requires Digit(c)
  {
    c as int - '0' as int
  }

  function Value(s: string): nat
    requires forall c | c in s :: Digit(c)
  {
    if s == "" then 0
    else
      assert s[|s| - 1] in s;
      10 * Value(s[..|s| - 1]) + DigitValue(s[|s| - 1])
  }

  /** strconv.Atoi: digits behind at most one sign, in 64 bits. */
  function Atoi(s: string): Option<int> {
    var signed := s != "" && (s[0] == '-' || s[0] == '+');
    var digits := if signed then s[1..] else s;
    if digits == "" || exists c :: c in digits && !Digit(c) then None
    else
      var v: int := if signed && s[0] == '-' then 0 - Value(digits) else Value(digits);
      if -MAX_INT - 1 <= v <= MAX_INT then Some(v) else None
  }

  lemma {:induction false} ValueOfItoa(n: nat)
    ensures Value(Itoa(n)) == n
  {
    if n >= 10 {
      ValueOfItoa(n / 10);
      assert Itoa(n)[..|Itoa(n)| - 1] == Itoa(n / 10);
    } else {
      assert Itoa(n)[..0] == "" && Value("") == 0;
    }
  }

  lemma AtoiOfItoa(pid: Pid)
    ensures Atoi(Itoa(pid)) == Some(pid)
  {
    ValueOfItoa(pid);
    assert Itoa(pid)[0] in Itoa(pid);
  }

  /** Numbers read back with a sign too, down to the least of 64 bits, and none that is larger. */
  lemma AtoiOfSigned(n: nat)
    ensures var v: int := n;
            && Atoi("+" + Itoa(n)) == Atoi(Itoa(n)) == (if v <= 0x7FFF_FFFF_FFFF_FFFF then Some(v) else None)
            && Atoi("-" + Itoa(n)) == (if v <= 0x8000_0000_0000_0000 then Some(-v) else None)
  {
    ValueOfItoa(n);
    AtoiOfDigits(Itoa(n));
  }

  lemma AtoiOfDigits(s: string)
    requires s != "" && forall c | c in s :: Digit(c)
    ensures Atoi(s) == Atoi("+" + s) == if Value(s) <= 0x7FFF_FFFF_FFFF_FFFF then Some(Value(s) as int) else None
    ensures Atoi("-" + s) == if Value(s) <= 0x8000_0000_0000_0000 then Some(0 - Value(s)) else None
  {
    assert s[0] in s;
    assert ("+" + s)[1..] == s && ("-" + s)[1..] == s;
  }

  /** And nothing else is a number: a text without digits, or with another character behind the sign. */
  lemma AtoiRejects(s: string)
    requires || s == "" || s == "+" || s == "-"
             || (exists k :: 0 < k < |s| && !Digit(s[k])) || (s != "" && !Digit(s[0]) && s[0] != '+' && s[0] != '-')
    ensures Atoi(s) == None
  {
    var signed := s != "" && (s[0] == '-' || s[0] == '+');
    if exists k :: 0 < k < |s| && !Digit(s[k]) {
      var k :| 0 < k < |s| && !Digit(s[k]);
      assert s[k] in s && s[1..][k - 1] == s[k] && s[k] in s[1..];
    } else if s != "" && !signed {
      assert s[0] in s;
    }
  }

  lemma {:induction false} ItoaIsShort(n: nat, k: nat, bound: nat)
    requires k > 0 && n < bound && bound <= Pow10(k)
    ensures |Itoa(n)| <= k
  {
    assert Pow10(0) == 1 && Pow10(1) == 10;
    if n >= 10 {
      ItoaIsShort(n / 10, k - 1, Pow10(k - 1));
    }
  }

  function Pow10(k: nat): nat { if k == 0 then 1 else 10 * Pow10(k - 1) }

  lemma FiveMoreZeros(k: nat)
    ensures Pow10(k + 5) == 100_000 * Pow10(k)
  {
    assert Pow10(k + 5) == 10 * Pow10(k + 4) && Pow10(k + 4) == 10 * Pow10(k + 3);
    assert Pow10(k + 3) == 10 * Pow10(k + 2) && Pow10(k + 2) == 10 * Pow10(k + 1);
  }

  /** strings.Fields. */
  function Fields(s: string): seq<string>
    decreases |s|
  {
    if s == "" then []
    else if Blank(s[0]) then Fields(s[1..])
    else [s[..WordEnd(s)]] + Fields(s[WordEnd(s)..])
  }

  function WordEnd(s: string): (i: nat)
    ensures i <= |s| && (s != "" && !Blank(s[0]) ==> i > 0)
    ensures forall c | c in s[..i] :: !Blank(c)
    ensures i < |s| ==> Blank(s[i])
  {
    if s == "" || Blank(s[0]) then 0
    else
      var i := WordEnd(s[1..]);
      assert s[..i + 1] == [s[0]] + s[1..][..i];
      i + 1
  }

  lemma {:induction false} WordEndIs(word: string, rest: string)
    requires forall c | c in word :: !Blank(c)
    requires rest == "" || Blank(rest[0])
    ensures WordEnd(word + rest) == |word|
  {
    if word == "" {
      assert word + rest == rest;
    } else {
      assert (word + rest)[1..] == word[1..] + rest;
      assert word[0] in word;
      WordEndIs(word[1..], rest);
    }
  }

  lemma FieldsOfWord(word: string, rest: string)
    requires word != "" && forall c | c in word :: !Blank(c)
    requires rest == "" || Blank(rest[0])
    ensures Fields(word + rest) == [word] + Fields(rest)
  {
    WordEndIs(word, rest);
    assert (word + rest)[0] == word[0] && word[0] in word;
    assert (word + rest)[..|word|] == word && (word + rest)[|word|..] == rest;
  }

  // ---------------------------------------------------------------- what is written and read

  function Mode(headless: bool): string { if headless then "headless" else "gui" }

  function Stamp(pid: Pid, headless: bool): string { Itoa(pid) + (" " + Mode(headless)) }

  /** readLockPID: the first word of the first 64 bytes, 0 when it is no number. */
  function ReadPid(content: string): int {
    var fields := Fields(if |content| > BUFFER then content[..BUFFER] else content);
    if fields == [] then 0 else if Atoi(fields[0]).None? then 0 else Atoi(fields[0]).value
  }

  /** engineHolderIsHeadless: the second word. */
  predicate ReadsHeadless(content: string) {
    |Fields(content)| >= 2 && Fields(content)[1] == "headless"
  }

  /** os.File.WriteAt at the start, of which `n` bytes get written. */
  function WrittenAt(content: string, data: string, n: nat): string
    requires n <= |data|
  {
    data[..n] + if |content| > n then content[n..] else ""
  }

  lemma ItoaHasNoBlank(n: nat)
    ensures forall c | c in Itoa(n) :: !Blank(c)
  {
    assert forall c | c in Itoa(n) :: Digit(c);
  }

  lemma PidFits(pid: Pid)
    ensures |Itoa(pid)| <= 19
  {
    FiveMoreZeros(0);
    FiveMoreZeros(5);
    FiveMoreZeros(10);
    assert Pow10(16) == 10 * Pow10(15) && Pow10(17) == 10 * Pow10(16) && Pow10(18) == 10 * Pow10(17);
    ItoaIsShort(pid, 19, Pow10(19));
  }

  /** The pid alone reads back, as that of a process that is not headless. */
  lemma PidRoundTrip(pid: Pid)
    ensures ReadPid(Itoa(pid)) == pid && !ReadsHeadless(Itoa(pid))
  {
    var s := Itoa(pid);
    PidFits(pid);
    ItoaHasNoBlank(pid);
    assert s + "" == s;
    FieldsOfWord(s, "");
    AtoiOfItoa(pid);
  }

  lemma ModeFields(headless: bool)
    ensures Fields(" " + Mode(headless)) == [Mode(headless)] && |Mode(headless)| <= 8
  {
    var m := Mode(headless);
    assert (" " + m)[1..] == m;
    assert m + "" == m;
    FieldsOfWord(m, "");
  }

  /** The pid and the mode read back, through the 64 bytes that are looked at. */
  lemma StampRoundTrip(pid: Pid, headless: bool)
    ensures ReadPid(Stamp(pid, headless)) == pid && ReadsHeadless(Stamp(pid, headless)) == headless
  {
    PidFits(pid);
    ItoaHasNoBlank(pid);
    ModeFields(headless);
    FieldsOfWord(Itoa(pid), " " + Mode(headless));
    AtoiOfItoa(pid);
  }

  /** The first 64 bytes are all that is looked at for the pid. */
  lemma PidIsInFirstBytes(content: string)
    requires |content| > 64
    ensures ReadPid(content) == ReadPid(content[..64])
  {
  }

  lemma NothingReadsAsNoPid()
    ensures ReadPid("") == 0 && !ReadsHeadless("")
  {
  }

  // ---------------------------------------------------------------- runs

  /** How far an open of the file has come; from `Locked` to `Broken` it has the lock. */
  datatype Pc =
    | Opened
    | Refused                        // somebody else has the lock: reads and closes
    | Locked(found: string)          // with the content found when the lock was taken
    | Emptied
    | PidWritten                     // acquireEngineLock has returned
    | Stamping(headless: bool, emptied: bool)
    | Stamped(headless: bool)
    | Broken(headless: bool, emptied: bool, written: nat)   // so much of the stamp was written
    | Closed

  datatype Open = Open(pid: Pid, pc: Pc)

  /** The file and the opens of it, by a number of their own; one process may have several. */
  datatype World = World(content: string, holder: Option<nat>, opens: map<nat, Open>)

  /** `ok` is whether the system call succeeds, `n` how much of a failed write went out. Close is also what the end
      of a process, however it comes, does to each of its opens. */
  datatype Event =
    | OpenFile(f: nat, pid: Pid)
    | TryLock(f: nat)
    | Truncate(f: nat, ok: bool)
    | WritePid(f: nat, ok: bool, n: nat)
    | StampTruncate(f: nat, headless: bool, ok: bool)
    | StampWrite(f: nat, ok: bool, n: nat)
    | Close(f: nat)

  function Go(w: World, f: nat, pc: Pc): World
    requires f in w.opens
  {
    w.(opens := w.opens[f := w.opens[f].(pc := pc)])
  }

  function CloseStep(w: World, f: nat): World
    requires f in w.opens
  {
    Go(w.(holder := if w.holder == Some(f) then None else w.holder), f, Closed)
  }

  function LockStep(w: World, f: nat): World
    requires f in w.opens
  {
    if !w.opens[f].pc.Opened? then w
    else if w.holder.None? then Go(w.(holder := Some(f)), f, Locked(w.content))
    else Go(w, f, Refused)
  }

  function TruncateStep(w: World, f: nat, ok: bool): World
    requires f in w.opens
  {
    if !w.opens[f].pc.Locked? then w
    else if ok then Go(w.(content := ""), f, Emptied)
    else CloseStep(w, f)
  }

  function Clip(n: nat, s: string): nat { if n < |s| then n else |s| }

  function WritePidStep(w: World, f: nat, ok: bool, n: nat): World
    requires f in w.opens
  {
    var data := Itoa(w.opens[f].pid);
    if !w.opens[f].pc.Emptied? then w
    else if ok then Go(w.(content := WrittenAt(w.content, data, |data|)), f, PidWritten)
    else CloseStep(w.(content := WrittenAt(w.content, data, Clip(n, data))), f)
  }

  function StampTruncateStep(w: World, f: nat, headless: bool, ok: bool): World
    requires f in w.opens
  {
    if !w.opens[f].pc.PidWritten? then w
    else Go(w.(content := if ok then "" else w.content), f, Stamping(headless, ok))
  }

  function StampWriteStep(w: World, f: nat, ok: bool, n: nat): World
    requires f in w.opens
  {
    var pc := w.opens[f].pc;
    if !pc.Stamping? then w
    else
      var data := Stamp(w.opens[f].pid, pc.headless);
      if ok then Go(w.(content := WrittenAt(w.content, data, |data|)), f, Stamped(pc.headless))
      else Go(w.(content := WrittenAt(w.content, data, Clip(n, data))), f, Broken(pc.headless, pc.emptied, Clip(n, data)))
  }

  function Step(w: World, e: Event): World {
    if e.OpenFile? then
      if e.f in w.opens then w else w.(opens := w.opens[e.f := Open(e.pid, Opened)])
    else if e.f !in w.opens then w
    else match e
      case OpenFile(_, _) => w
      case TryLock(f) => LockStep(w, f)
      case Truncate(f, ok) => TruncateStep(w, f, ok)
      case WritePid(f, ok, n) => WritePidStep(w, f, ok, n)
      case StampTruncate(f, headless, ok) => StampTruncateStep(w, f, headless, ok)
      case StampWrite(f, ok, n) => StampWriteStep(w, f, ok, n)
      case Close(f) => CloseStep(w, f)
  }

  function Run(w: World, es: seq<Event>): World {
    if es == [] then w else Step(Run(w, es[..|es| - 1]), es[|es| - 1])
  }

  function Init(content: string): World { World(content, None, map[]) }

  predicate HasLock(pc: Pc) {
    pc.Locked? || pc.Emptied? || pc.PidWritten? || pc.Stamping? || pc.Stamped? || pc.Broken?
  }

  /** The content that a stamp is written over. */
  function Before(pid: Pid, emptied: bool): string { if emptied then "" else Itoa(pid) }

  /** What the file says for the holder's progress. */
  predicate Says(content: string, o: Open) {
    match o.pc
    case Locked(found) => content == found
    case Emptied => content == ""
    case PidWritten => content == Itoa(o.pid)
    case Stamping(_, emptied) => content == Before(o.pid, emptied)
    case Stamped(headless) => content == Stamp(o.pid, headless)
    case Broken(headless, emptied, n) =>
      n <= |Stamp(o.pid, headless)| && content == WrittenAt(Before(o.pid, emptied), Stamp(o.pid, headless), n)
    case _ => true
  }

  ghost predicate Inv(w: World) {
    && (w.holder.Some? ==> w.holder.value in w.opens)
    && (forall f | f in w.opens :: HasLock(w.opens[f].pc) <==> w.holder == Some(f))
    && (w.holder.Some? ==> Says(w.content, w.opens[w.holder.value]))
  }

  lemma WriteOverShorter(content: string, data: string)
    requires |content| <= |data|
    ensures WrittenAt(content, data, |data|) == data
  {
    assert data[..|data|] == data;
  }

  lemma StampStepKeepsInv(w: World, f: nat, ok: bool, n: nat)
    requires Inv(w) && f in w.opens
    ensures Inv(StampWriteStep(w, f, ok, n))
  {
    if w.opens[f].pc.Stamping? && ok {
      WriteOverShorter(w.content, Stamp(w.opens[f].pid, w.opens[f].pc.headless));
    }
  }

  lemma WritePidKeepsInv(w: World, f: nat, ok: bool, n: nat)
    requires Inv(w) && f in w.opens
    ensures Inv(WritePidStep(w, f, ok, n))
  {
    if w.opens[f].pc.Emptied? && ok {
      WriteOverShorter(w.content, Itoa(w.opens[f].pid));
    }
  }

  lemma StepKeepsInv(w: World, e: Event)
    requires Inv(w)
    ensures Inv(Step(w, e))
  {
    if e.f in w.opens {
      match e
      case WritePid(f, ok, n) => WritePidKeepsInv(w, f, ok, n);
      case StampWrite(f, ok, n) => StampStepKeepsInv(w, f, ok, n);
      case _ =>
    }
  }

  lemma {:induction false} EveryRunKeepsInv(content: string, es: seq<Event>)
    ensures Inv(Run(Init(content), es))
  {
    if es != [] {
      EveryRunKeepsInv(content, es[..|es| - 1]);
      StepKeepsInv(Run(Init(content), es[..|es| - 1]), es[|es| - 1]);
    }
  }

  // ---------------------------------------------------------------- what that means

  /** At most one open has the lock. */
  lemma LockHasOneHolder(content: string, es: seq<Event>, f: nat, g: nat)
    requires var w := Run(Init(content), es);
             f in w.opens && g in w.opens && HasLock(w.opens[f].pc) && HasLock(w.opens[g].pc)
    ensures f == g
  {
    EveryRunKeepsInv(content, es);
  }

  /** Only the holder changes the file. */
  lemma OnlyTheHolderWrites(content: string, es: seq<Event>, e: Event)
    ensures var w := Run(Init(content), es); Step(w, e).content != w.content ==> w.holder == Some(e.f)
  {
    EveryRunKeepsInv(content, es);
  }

  // ---------------------------------------------------------------- a part of a number

  /** The first digits of a pid are another, smaller number's, and not 0. */
  lemma {:induction false} PrefixOfItoa(n: nat, k: nat) returns (m: nat)
    requires 0 < k < |Itoa(n)|
    ensures 0 < m < n && Itoa(n)[..k] == Itoa(m)
  {
    assert n >= 10 && Itoa(n)[..|Itoa(n)| - 1] == Itoa(n / 10);
    if k == |Itoa(n)| - 1 {
      m := n / 10;
    } else {
      m := PrefixOfItoa(n / 10, k);
      assert Itoa(n)[..k] == Itoa(n / 10)[..k];
    }
  }

  lemma PidPrefixReads(pid: Pid, k: nat)
    requires k < |Itoa(pid)|
    ensures k == 0 ==> ReadPid(Itoa(pid)[..k]) == 0
    ensures k > 0 ==> 0 < ReadPid(Itoa(pid)[..k]) < pid
  {
    if k == 0 {
      assert Itoa(pid)[..k] == "";
      NothingReadsAsNoPid();
    } else {
      var m := PrefixOfItoa(pid, k);
      PidRoundTrip(m);
    }
  }

  /** The pid behind which anything but a digit follows reads back. */
  lemma PidFirstReads(pid: Pid, rest: string)
    requires rest == "" || Blank(rest[0])
    ensures ReadPid(Itoa(pid) + rest) == pid
  {
    var s := Itoa(pid) + rest;
    PidFits(pid);
    ItoaHasNoBlank(pid);
    AtoiOfItoa(pid);
    var cut := if |rest| > BUFFER - |Itoa(pid)| then rest[..BUFFER - |Itoa(pid)|] else rest;
    FieldsOfWord(Itoa(pid), cut);
    assert (if |s| > BUFFER then s[..BUFFER] else s) == Itoa(pid) + cut;
  }

  /** How a stamp of which `n` bytes were written reads: as the holder's pid once that much is there, or if it was
      still there from before; else as none, or as a number that begins like the pid. */
  lemma BrokenStampReads(pid: Pid, headless: bool, emptied: bool, n: nat)
    requires n <= |Stamp(pid, headless)|
    ensures var content := WrittenAt(Before(pid, emptied), Stamp(pid, headless), n);
            var read := ReadPid(content);
            if !emptied || n >= |Itoa(pid)| then read == pid
            else if n == 0 then read == 0
            else 0 < read < pid
  {
    var p, stamp := Itoa(pid), Stamp(pid, headless);
    var content := WrittenAt(Before(pid, emptied), stamp, n);
    if n >= |p| {
      assert content == p + (" " + Mode(headless))[..n - |p|];
      PidFirstReads(pid, (" " + Mode(headless))[..n - |p|]);
    } else {
      assert stamp[..n] == p[..n];
      if emptied {
        assert content == p[..n];
        PidPrefixReads(pid, n);
      } else {
        assert content == p[..n] + p[n..] == p;
        PidRoundTrip(pid);
      }
    }
  }

  /** What any process reads while `f` holds the lock, for each point that it is at. */
  lemma ReadersSeeTheHolder(content: string, es: seq<Event>, f: nat)
    requires Run(Init(content), es).holder == Some(f)
    ensures var w := Run(Init(content), es);
            f in w.opens &&
            var pid, read := w.opens[f].pid, ReadPid(w.content);
            match w.opens[f].pc
            case Locked(found) => w.content == found
            case Emptied => read == 0
            case PidWritten => read == pid && !ReadsHeadless(w.content)
            case Stamping(_, emptied) => read == if emptied then 0 else pid
            case Stamped(headless) => read == pid && ReadsHeadless(w.content) == headless
            case Broken(_, emptied, n) =>
              if !emptied || n >= |Itoa(pid)| then read == pid else if n == 0 then read == 0 else 0 < read < pid
            case _ => false
  {
    EveryRunKeepsInv(content, es);
    var o := Run(Init(content), es).opens[f];
    NothingReadsAsNoPid();
    PidRoundTrip(o.pid);
    if o.pc.Stamped? { StampRoundTrip(o.pid, o.pc.headless); }
    if o.pc.Broken? { BrokenStampReads(o.pid, o.pc.headless, o.pc.emptied, o.pc.written); }
  }

  /** The holder has not emptied the file and found another process's pid in it, or it emptied the file for its stamp
      and wrote a part of its pid only. */
  predicate Misleads(o: Open) {
    || (o.pc.Locked? && ReadPid(o.pc.found) != 0 && ReadPid(o.pc.found) != o.pid)
    || (o.pc.Broken? && o.pc.emptied && 0 < o.pc.written < |Itoa(o.pid)|)
  }

  /** A pid that is not the holder's is read exactly then. */
  lemma WrongPidIsReadExactly(content: string, es: seq<Event>, f: nat)
    requires Run(Init(content), es).holder == Some(f)
    ensures var w := Run(Init(content), es);
            f in w.opens && (ReadPid(w.content) != 0 && ReadPid(w.content) != w.opens[f].pid <==> Misleads(w.opens[f]))
  {
    ReadersSeeTheHolder(content, es, f);
  }

  /** The stamp stays as it is until its holder closes the file. */
  lemma StampIsFinal(content: string, es: seq<Event>, f: nat, e: Event)
    requires var w := Run(Init(content), es); w.holder == Some(f) && f in w.opens && w.opens[f].pc.Stamped?
    requires !(e.Close? && e.f == f)
    ensures var w := Run(Init(content), es);
            Step(w, e).content == w.content && Step(w, e).holder == Some(f) && Step(w, e).opens[f] == w.opens[f]
  {
    EveryRunKeepsInv(content, es);
  }

  // ---------------------------------------------------------------- whose pid is read in between

  lemma RunFirst(w: World, e: Event, es: seq<Event>)
    ensures Run(w, [e] + es) == Run(Step(w, e), es)
  {
    if es == [] {
      assert ([e] + es)[..0] == [];
    } else {
      RunFirst(w, e, es[..|es| - 1]);
      assert ([e] + es)[..|es|] == [e] + es[..|es| - 1];
    }
  }

  lemma StepTo(w: World, es: seq<Event>, k: nat, n: World)
    requires k < |es| && Step(w, es[k]) == n
    ensures Run(w, es[k..]) == Run(n, es[k + 1..])
  {
    assert es[k..] == [es[k]] + es[k + 1..];
    RunFirst(w, es[k], es[k + 1..]);
  }

  function SecondLaunch(holder: Pid, third: Pid): seq<Event> {
    [OpenFile(0, holder), TryLock(0), OpenFile(1, third), TryLock(1)]
  }

  /** A lock is held before the holder has emptied the file: until then, one that is refused reads whoever held it
      before. */
  lemma FormerHolderIsRead(before: Pid, holder: Pid, third: Pid)
    ensures var w := Run(Init(Itoa(before)), SecondLaunch(holder, third));
            && w.holder == Some(0) && w.opens == map[0 := Open(holder, Locked(Itoa(before))), 1 := Open(third, Refused)]
            && ReadPid(w.content) == before
  {
    var s, es := Itoa(before), SecondLaunch(holder, third);
    var w1 := World(s, None, map[0 := Open(holder, Opened)]);
    var w2 := World(s, Some(0), map[0 := Open(holder, Locked(s))]);
    var w3 := World(s, Some(0), map[0 := Open(holder, Locked(s)), 1 := Open(third, Opened)]);
    var w4 := World(s, Some(0), map[0 := Open(holder, Locked(s)), 1 := Open(third, Refused)]);
    assert es[0..] == es;
    StepTo(Init(s), es, 0, w1);
    StepTo(w1, es, 1, w2);
    StepTo(w2, es, 2, w3);
    StepTo(w3, es, 3, w4);
    assert es[4..] == [];
    PidRoundTrip(before);
  }

  function BrokenLaunch(pid: Pid, headless: bool): seq<Event> {
    [OpenFile(0, pid), TryLock(0), Truncate(0, true), WritePid(0, true, 0),
     StampTruncate(0, headless, true), StampWrite(0, false, 1)]
  }

  lemma LaunchWritesPid(pid: Pid, headless: bool)
    ensures Run(Init(""), BrokenLaunch(pid, headless))
         == Run(World(Itoa(pid), Some(0), map[0 := Open(pid, PidWritten)]), BrokenLaunch(pid, headless)[4..])
  {
    var es := BrokenLaunch(pid, headless);
    var w1 := World("", None, map[0 := Open(pid, Opened)]);
    var w2 := World("", Some(0), map[0 := Open(pid, Locked(""))]);
    var w3 := World("", Some(0), map[0 := Open(pid, Emptied)]);
    assert es[0..] == es;
    StepTo(Init(""), es, 0, w1);
    StepTo(w1, es, 1, w2);
    StepTo(w2, es, 2, w3);
    WriteOverShorter("", Itoa(pid));
    StepTo(w3, es, 3, World(Itoa(pid), Some(0), map[0 := Open(pid, PidWritten)]));
  }

  /** A stamp of which one byte gets written leaves the first digit of a longer pid, for all to take for the holder's. */
  lemma PartOfThePidIsRead(pid: Pid, headless: bool)
    requires pid >= 10
    ensures var w := Run(Init(""), BrokenLaunch(pid, headless));
            w.holder == Some(0) && 0 < ReadPid(w.content) < pid
  {
    var es := BrokenLaunch(pid, headless);
    LaunchWritesPid(pid, headless);
    var w4 := World(Itoa(pid), Some(0), map[0 := Open(pid, PidWritten)]);
    var w5 := World("", Some(0), map[0 := Open(pid, Stamping(headless, true))]);
    var w6 := World(WrittenAt("", Stamp(pid, headless), 1), Some(0), map[0 := Open(pid, Broken(headless, true, 1))]);
    assert |Itoa(pid)| > 1;
    StepTo(w4, es, 4, w5);
    StepTo(w5, es, 5, w6);
    assert es[6..] == [];
    BrokenStampReads(pid, headless, true, 1);
  }

  /** A launch up to its pid: refused while another open has the lock; closed, and the lock free again, when the file
      cannot be emptied, and then it says what it said, or the pid not written, and then it says what was written of it. */
  lemma LaunchRuns(w: World, f: nat, empties: bool, writes: bool, n: nat)
    requires f in w.opens && w.opens[f].pc.Opened?
    ensures var m := Step(Step(Step(w, TryLock(f)), Truncate(f, empties)), WritePid(f, writes, n));
            var pid := Itoa(w.opens[f].pid);
            && f in m.opens && m.opens[f].pid == w.opens[f].pid
            && (w.holder.Some? ==> m.opens[f].pc == Refused && m.holder == w.holder && m.content == w.content)
            && (w.holder.None? && !empties ==> m.opens[f].pc == Closed && m.holder.None? && m.content == w.content)
            && (w.holder.None? && empties && !writes ==>
                  m.opens[f].pc == Closed && m.holder.None? && m.content == pid[..if n < |pid| then n else |pid|])
            && (w.holder.None? && empties && writes ==>
                  m.opens[f].pc == PidWritten && m.holder == Some(f) && m.content == pid)
  {
    var locked := Step(w, TryLock(f));
    assert locked.opens[f].pc == if w.holder.None? then Locked(w.content) else Refused;
    var emptied := Step(locked, Truncate(f, empties));
    if w.holder.None? && empties {
      assert emptied.opens[f].pc == Emptied && emptied.content == "";
      assert Itoa(w.opens[f].pid)[..|Itoa(w.opens[f].pid)|] == Itoa(w.opens[f].pid);
    }
  }

  /** Its stamp is complete exactly when the write succeeds. */
  lemma StampRuns(w: World, f: nat, headless: bool, empties: bool, writes: bool, n: nat)
    requires f in w.opens && w.opens[f].pc.PidWritten? && w.content == Itoa(w.opens[f].pid)
    ensures var m := Step(Step(w, StampTruncate(f, headless, empties)), StampWrite(f, writes, n));
            && f in m.opens && m.holder == w.holder
            && (writes ==> m.opens[f].pc == Stamped(headless) && m.content == Stamp(w.opens[f].pid, headless))
            && (!writes ==> m.opens[f].pc.Broken?)
  {
    var cut := Step(w, StampTruncate(f, headless, empties));
    assert cut.opens[f].pc == Stamping(headless, empties);
    WriteOverShorter(cut.content, Stamp(w.opens[f].pid, headless));
  }

  /** A file whose first word is no number, as one that another program wrote, tells of no process. */
  lemma NoNumberIsNoPid(word: string, rest: string)
    requires word != "" && |word| + |rest| <= 64 && (forall c | c in word :: !Blank(c)) && (rest == "" || Blank(rest[0]))
    requires !Digit(word[0]) && word[0] != '+' && word[0] != '-'
    ensures ReadPid(word + rest) == 0
  {
    FieldsOfWord(word, rest);
    AtoiRejects(word);
  }

  // ---------------------------------------------------------------- one process

  /** What the system makes of one call of acquireEngineLock. */
  datatype Attempt = Attempt(granted: bool, truncates: bool, writes: bool, written: nat)

  predicate Succeeds(a: Attempt) { a.granted && a.truncates && a.writes }

  class LockFile {
    var content: string

    /** acquireEngineLock. */
    method Acquire(pid: Pid, a: Attempt) returns (acquired: bool, holderPid: int)
      modifies this
      ensures acquired == Succeeds(a)
      ensures holderPid == if a.granted then 0 else ReadPid(old(content))
      ensures content == if !a.granted || !a.truncates then old(content)
                         else if a.writes then Itoa(pid) else Itoa(pid)[..Clip(a.written, Itoa(pid))]
    {
      if !a.granted { return false, ReadPid(content); }
      if !a.truncates { return false, 0; }
      content := "";
      var n := if a.writes then |Itoa(pid)| else Clip(a.written, Itoa(pid));
      content := WrittenAt(content, Itoa(pid), n);
      assert Itoa(pid)[..|Itoa(pid)|] == Itoa(pid);
      acquired, holderPid := a.writes, 0;
    }

    /** stampEngineMode, which passes over a failure to empty the file and one to write it. */
    method StampEngineMode(pid: Pid, headless: bool, truncates: bool, writes: bool, written: nat)
      requires content == Itoa(pid)
      modifies this
      ensures writes ==> content == Stamp(pid, headless)
      ensures writes ==> ReadPid(content) == pid && ReadsHeadless(content) == headless
      ensures !writes ==> content == WrittenAt(if truncates then "" else old(content), Stamp(pid, headless),
                                               Clip(written, Stamp(pid, headless)))
    {
      if truncates { content := ""; }
      var data := Stamp(pid, headless);
      WriteOverShorter(content, data);
      StampRoundTrip(pid, headless);
      content := WrittenAt(content, data, if writes then |data| else Clip(written, data));
    }

    /** waitForLockFree, with what the attempts before the deadline come to: free as soon as one succeeds. */
    method WaitForLockFree(pid: Pid, attempts: seq<Attempt>) returns (free: bool)
      modifies this
      ensures free <==> exists k :: 0 <= k < |attempts| && Succeeds(attempts[k])
      ensures free ==> content == Itoa(pid)
      ensures (forall k | 0 <= k < |attempts| :: !attempts[k].granted) ==> content == old(content)
    {
      for k := 0 to |attempts|
        invariant forall i | 0 <= i < k :: !Succeeds(attempts[i])
        invariant (forall i | 0 <= i < |attempts| :: !attempts[i].granted) ==> content == old(content)
      {
        var acquired, _ := Acquire(pid, attempts[k]);
        if acquired { return true; }
      }
      return false;
    }
  }
}
