/** The agent's virtual monitor lives for the length of a session
    (agent/internal/app/virtual_others.go). The watchdog is one event loop over four
    events; `Step` is what one iteration does to its variables, to the two state files
    and to the trace of helper commands and answers. All times are milliseconds of the
    monotonic clock, one reading per iteration. */
module VirtualMonitor {

  const SESSION_GRACE := 3000
  const SESSION_STARTUP := 30000
  const OTHERS_RECHECK := 10000
  const STRAY_RECHECK := 30000

  /** Go's time.Time as the loop uses it: the zero time is infinitely long ago. */
  datatype Instant = Zero | At(ms: int)

  predicate Elapsed(now: int, since: Instant, d: int) {
    since.Zero? || now - since.ms >= d
  }

  /** What the display helper does when an iteration runs it. `restores` and `attaches`
      are the two halves of "apply"; a helper that cannot even be launched restores nothing. */
  datatype Helper = Helper(
    restores: bool, attaches: bool, strayRestores: bool, recordsOthers: bool,
    ownerRecords: bool, ownerClears: bool, watcherStarts: bool)

  /** What one iteration reads from its environment. The session is sampled up to three times. */
  datatype Obs = Obs(
    now: int, spec: string, owns: bool, exclusive: bool,
    active: bool, strayActive: bool, ownerActive: bool, strayAttached: bool, helper: Helper)

  datatype Event =
    | Shutdown(o: Obs)
    | Left(o: Obs)
    | Starting(request: nat, o: Obs)
    | Tick(o: Obs)

  datatype Why = AgentStopping | ClientLeft | OwnVirtual | PhysicalStreamed | SessionOver

  datatype Act =
    | Attach(spec: string, at: int)
    | Down(why: Why, at: int)
    | Detach(at: int)
    | OthersOff(at: int)
    | Answer(request: nat)
    | OwnerOff(at: int)
    | OwnerOn(at: int)

  /** The loop's own variables and whether the state file exists. `up` is the spec the virtual monitor was
      brought up in, "" while it is down, "?" when an earlier run left it up. */
  datatype Session = Session(
    up: string, left: bool, idleSince: Instant, upAt: Instant, lastOff: Instant,
    lastStrayCheck: Instant, watcher: bool, file: bool)

  /** The other monitors around a stream host's own virtual monitor. */
  datatype Owner = Owner(offSince: Instant, idleSince: Instant, file: bool)

  datatype Watch = Watch(session: Session, owner: Owner, stopped: bool, acts: seq<Act>)

  /** A new value of some variables and what was done on the way. */
  datatype Did<S> = Did(s: S, acts: seq<Act>)

  function Start(file: bool, othersFile: bool): Watch {
    Watch(Session(if file then "?" else "", false, Zero, Zero, Zero, Zero, false, file), Owner(Zero, Zero, othersFile), false, [])
  }

  /** "apply STATEFILE": the file goes once the desktop is restored. */
  function AfterRestore(file: bool, restores: bool): bool {
    file && !restores
  }

  /** "apply STATEFILE SPEC": restore, then attach, which writes the file anew. */
  function AfterAttach(file: bool, h: Helper): bool {
    if h.restores then h.attaches else file
  }

  function BringUp(s: Session, spec: string, o: Obs): Did<Session> {
    if s.up == spec then Did(s, []) else
    var file := AfterAttach(s.file, o.helper);
    Did(if file
        then s.(file := true, up := spec, lastOff := At(o.now), upAt := At(o.now), watcher := s.watcher || o.helper.watcherStarts)
        else s.(file := false),
        [Attach(spec, o.now)])
  }

  function TakeDown(s: Session, why: Why, o: Obs): Did<Session> {
    if s.up == "" && !s.file then Did(s, [])
    else Did(s.(up := "", file := AfterRestore(s.file, o.helper.restores)), [Down(why, o.now)])
  }

  function StrayCheck(s: Session, o: Obs): Did<Session> {
    if s.up == "" && Elapsed(o.now, s.lastStrayCheck, STRAY_RECHECK) && !o.strayActive then
      if o.strayAttached
      then Did(s.(lastStrayCheck := At(o.now), file := AfterRestore(s.file, o.helper.strayRestores)), [Detach(o.now)])
      else Did(s.(lastStrayCheck := At(o.now)), [])
    else Did(s, [])
  }

  function IdleTick(s: Session, o: Obs): Did<Session> {
    if s.up == "" then Did(s, [])
    else if !Elapsed(o.now, s.upAt, SESSION_STARTUP) then Did(s.(idleSince := Zero), [])
    else
      var since := if s.idleSince.Zero? then o.now else s.idleSince.ms;
      var timed := s.(idleSince := At(since));
      if o.now - since >= SESSION_GRACE then TakeDown(timed, SessionOver, o) else Did(timed, [])
  }

  function ActiveTick(s: Session, o: Obs): Did<Session> {
    var seen := s.(idleSince := Zero);
    if s.up != o.spec then BringUp(seen, o.spec, o)
    else if o.exclusive && Elapsed(o.now, s.lastOff, OTHERS_RECHECK)
    then Did(seen.(file := s.file || o.helper.recordsOthers, lastOff := At(o.now)), [OthersOff(o.now)])
    else Did(seen, [])
  }

  function SessionTick(s: Session, o: Obs): Did<Session> {
    if o.spec == "" then TakeDown(s.(idleSince := Zero), PhysicalStreamed, o)
    else if s.left && o.active then Did(s, [])
    else if o.active then ActiveTick(s.(left := false), o)
    else IdleTick(s.(left := false), o)
  }

  /** An iteration while the stream host owns the virtual monitor. */
  function OwnedTick(s: Session, o: Obs): Did<Session> {
    var down := TakeDown(s, OwnVirtual, o);
    down.(s := down.s.(left := s.left && o.active))
  }

  function SessionStep(s: Session, e: Event): Did<Session> {
    match e
    case Shutdown(o) => TakeDown(s, AgentStopping, o)
    case Left(o) => TakeDown(s.(left := true, idleSince := Zero), ClientLeft, o)
    case Starting(r, o) =>
      var back := s.(left := false);
      if o.owns then
        var did := OwnedTick(back, o);
        Did(did.s, [Answer(r)] + did.acts)
      else if o.spec == "" then Did(back, [Answer(r)])
      else
        var did := BringUp(back.(idleSince := Zero), o.spec, o);
        Did(did.s, did.acts + [Answer(r)])
    case Tick(o) =>
      if o.owns then OwnedTick(s, o)
      else
        var stray := StrayCheck(s, o);
        var did := SessionTick(stray.s, o);
        Did(did.s, stray.acts + did.acts)
  }

  function OwnerBack(w: Owner, o: Obs): Did<Owner> {
    Did(Owner(Zero, Zero, w.file && !o.helper.ownerClears), [OwnerOn(o.now)])
  }

  function OwnerOthers(w: Owner, spec: string, clientLeft: bool, o: Obs): Did<Owner> {
    if spec != "" && o.exclusive && o.ownerActive && !clientLeft then
      if !Elapsed(o.now, w.offSince, OTHERS_RECHECK) then Did(w.(idleSince := Zero), []) else
      var off := w.file || o.helper.ownerRecords;
      Did(Owner(if off then At(o.now) else w.offSince, Zero, off), [OwnerOff(o.now)])
    else if !w.file then Did(w.(offSince := Zero), [])
    else if !clientLeft && spec != "" && o.exclusive then
      var since := if w.idleSince.Zero? then o.now else w.idleSince.ms;
      if o.now - since < SESSION_GRACE then Did(Owner(Zero, At(since), true), []) else OwnerBack(w, o)
    else OwnerBack(w, o)
  }

  /** The owner's monitors are looked at by the iterations that find an owner, and at the end. */
  function OwnerStep(w: Owner, left: bool, e: Event): Did<Owner> {
    match e
    case Shutdown(o) => OwnerOthers(w, "", true, o)
    case Left(o) => if o.owns then OwnerOthers(w, o.spec, true, o) else Did(w, [])
    case _ => if e.o.owns then OwnerOthers(w, e.o.spec, left, e.o) else Did(w, [])
  }

  function Step(w: Watch, e: Event): Watch {
    if w.stopped then w else
    var session := SessionStep(w.session, e);
    var owner := OwnerStep(w.owner, session.s.left, e);
    Watch(session.s, owner.s, e.Shutdown?, w.acts + session.acts + owner.acts)
  }

  function Run(w: Watch, es: seq<Event>): Watch {
    if es == [] then w else Step(Run(w, es[..|es| - 1]), es[|es| - 1])
  }

  // ---------------------------------------------------------------- invariants of every run

  /** The client having left keeps the monitor down, and the idle timer only runs on an attachment whose
      start-up time is over. */
  ghost predicate Inv(s: Session) {
    && (s.left ==> s.up == "" && s.idleSince == Zero)
    && (s.up != "" && s.idleSince.At? && s.upAt.At? ==> s.idleSince.ms >= s.upAt.ms + SESSION_STARTUP)
  }

  lemma SessionTickKeepsInv(s: Session, o: Obs)
    requires Inv(s)
    ensures Inv(SessionTick(s, o).s)
  {
    if o.spec == "" {} else if s.left && o.active {} else if o.active {} else {}
  }

  lemma StepKeepsInv(s: Session, e: Event)
    requires Inv(s)
    ensures Inv(SessionStep(s, e).s)
  {
    match e
    case Shutdown(_) =>
    case Left(_) =>
    case Starting(_, o) => if o.owns {} else if o.spec == "" {} else {}
    case Tick(o) => if !o.owns { SessionTickKeepsInv(StrayCheck(s, o).s, o); }
  }

  lemma {:induction false} EveryRunKeepsInv(w: Watch, es: seq<Event>)
    requires Inv(w.session)
    ensures Inv(Run(w, es).session)
  {
    if es != [] {
      EveryRunKeepsInv(w, es[..|es| - 1]);
      StepKeepsInv(Run(w, es[..|es| - 1]).session, es[|es| - 1]);
    }
  }

  // ---------------------------------------------------------------- when the monitor came up

  /** The time of the iteration that brought the monitor up in the mode it is up in; none while it is down, or up from
      before the run. It is read off the run's events, not off the loop's own clock variables. */
  function UpSince(w: Watch, es: seq<Event>): Instant {
    if es == [] || Run(w, es).session.up == "" then Zero
    else if Run(w, es).session.up != Run(w, es[..|es| - 1]).session.up then At(es[|es| - 1].o.now)
    else UpSince(w, es[..|es| - 1])
  }

  predicate UpTimed(s: Session, n: Session, now: int) {
    n.upAt == if n.up != s.up && n.up != "" then At(now) else s.upAt
  }

  lemma TickUpTimed(s: Session, o: Obs)
    ensures UpTimed(s, SessionTick(s, o).s, o.now)
  {
    if o.spec == "" {} else if s.left && o.active {} else if o.active {} else {}
  }

  lemma UpIsTimed(s: Session, e: Event)
    ensures UpTimed(s, SessionStep(s, e).s, e.o.now)
  {
    match e
    case Shutdown(_) =>
    case Left(_) =>
    case Starting(_, o) => if o.owns {} else if o.spec == "" {} else {}
    case Tick(o) => if !o.owns { TickUpTimed(StrayCheck(s, o).s, o); }
  }

  /** The loop's own variable is that time. */
  lemma {:induction false} UpAtIsUpSince(file: bool, others: bool, es: seq<Event>)
    ensures var s := Run(Start(file, others), es).session; s.up != "" ==> s.upAt == UpSince(Start(file, others), es)
  {
    if es != [] {
      var w := Run(Start(file, others), es[..|es| - 1]);
      UpAtIsUpSince(file, others, es[..|es| - 1]);
      UpIsTimed(w.session, es[|es| - 1]);
    }
  }

  /** On every run: once the client left the monitor is down, and no idle time starts before the monitor has been up for
      30 s. */
  lemma IdleTimeStartsLate(file: bool, others: bool, es: seq<Event>)
    ensures var s, since := Run(Start(file, others), es).session, UpSince(Start(file, others), es);
            && (s.left ==> s.up == "" && s.idleSince == Zero)
            && (s.up != "" && s.idleSince.At? && since.At? ==> s.idleSince.ms >= since.ms + SESSION_STARTUP)
  {
    EveryRunKeepsInv(Start(file, others), es);
    UpAtIsUpSince(file, others, es);
  }

  // ---------------------------------------------------------------- (a) no early teardown

  /** An iteration that gives no reason to think the session goes on, and that the idle timer survives. */
  predicate Quiet(e: Event) {
    match e
    case Tick(o) => !o.owns && o.spec != "" && !o.active
    case Starting(_, o) => !o.owns && o.spec == ""
    case _ => false
  }

  /** The idle timer is the time of an idle tick since which nothing but quiet iterations happened. */
  ghost predicate IdleWitness(es: seq<Event>, j: nat, t: int) {
    && j < |es| && es[j].Tick? && es[j].o.now == t
    && forall k | j <= k < |es| :: Quiet(es[k])
  }

  /** How the idle timer of `n`, one iteration after `s`, came about: it is that of `s`, or this tick's. */
  predicate TimerFrom(s: Session, n: Session, now: int) {
    n.up != "" && n.idleSince.At? ==> (s.up != "" && s.idleSince == n.idleSince) || n.idleSince == At(now)
  }

  lemma IdleTimerTick(s: Session, o: Obs)
    requires Inv(s)
    ensures var n := SessionTick(s, o).s; TimerFrom(s, n, o.now) && (n.up != "" && n.idleSince.At? ==> o.spec != "" && !o.active)
  {
    if o.spec == "" {} else if s.left && o.active {} else if o.active {} else {}
  }

  lemma IdleTimerStep(s: Session, e: Event)
    requires Inv(s)
    requires var n := SessionStep(s, e).s; n.up != "" && n.idleSince.At?
    ensures Quiet(e)
    ensures var n := SessionStep(s, e).s;
            (s.up != "" && s.idleSince == n.idleSince) || (e.Tick? && n.idleSince == At(e.o.now))
  {
    match e
    case Shutdown(o) =>
    case Left(o) =>
    case Starting(r, o) => if o.owns {} else if o.spec == "" {} else {}
    case Tick(o) =>
      if !o.owns { IdleTimerTick(StrayCheck(s, o).s, o); }
  }

  lemma WitnessLasts(es: seq<Event>, j: nat, t: int, e: Event)
    requires IdleWitness(es, j, t) && Quiet(e)
    ensures IdleWitness(es + [e], j, t)
  {
  }

  lemma WitnessMoves(es: seq<Event>, e: Event, s: Session, n: Session) returns (start: bool)
    requires Quiet(e) && n.idleSince.At?
    requires (s.up != "" && s.idleSince == n.idleSince) || (e.Tick? && n.idleSince == At(e.o.now))
    ensures start ==> IdleWitness(es + [e], |es|, n.idleSince.ms)
    ensures !start ==> s.up != "" && s.idleSince == n.idleSince
  {
    start := !(s.up != "" && s.idleSince == n.idleSince);
  }

  lemma {:induction false} IdleTimerHasWitness(file: bool, others: bool, es: seq<Event>) returns (j: nat)
    requires var s := Run(Start(file, others), es).session; s.up != "" && s.idleSince.At?
    ensures IdleWitness(es, j, Run(Start(file, others), es).session.idleSince.ms)
  {
    var p, e := es[..|es| - 1], es[|es| - 1];
    var w := Run(Start(file, others), p);
    assert es == p + [e];
    StoppedIsDown(file, others, p);
    EveryRunKeepsInv(Start(file, others), p);
    IdleTimerStep(w.session, e);
    var n := Run(Start(file, others), es).session;
    var start := WitnessMoves(p, e, w.session, n);
    if start {
      j := |p|;
    } else {
      j := IdleTimerHasWitness(file, others, p);
      WitnessLasts(p, j, n.idleSince.ms, e);
    }
  }

  lemma {:induction false} StoppedIsDown(file: bool, others: bool, es: seq<Event>)
    ensures var w := Run(Start(file, others), es); w.stopped ==> w.session.up == ""
  {
    if es != [] {
      StoppedIsDown(file, others, es[..|es| - 1]);
    }
  }

  /** The iteration took the monitor down because the session was over. */
  predicate EndsIdle(s: Session, e: Event) {
    Down(SessionOver, e.o.now) in SessionStep(s, e).acts
  }

  lemma OnlyIdleTicksEndIdle(s: Session, e: Event)
    requires Inv(s) && EndsIdle(s, e)
    ensures e.Tick? && Quiet(e) && s.up != ""
    ensures s.idleSince.At? && e.o.now - s.idleSince.ms >= SESSION_GRACE && Elapsed(e.o.now, s.upAt, SESSION_STARTUP)
  {
    match e
    case Shutdown(o) =>
    case Left(o) =>
    case Starting(r, o) => if o.owns {} else if o.spec == "" {} else {}
    case Tick(o) =>
      if o.owns {
      } else {
        if o.spec == "" {} else if s.left && o.active {} else if o.active {} else {}
      }
  }

  /** An idle teardown comes from a tick, 30 s after the monitor came up or later (33 s in fact: the grace
      starts when the start-up time is over), and every iteration of at least the last 3 s saw no session:
      each tick of that time ran with the virtual monitor streamed and the stream host reporting none. */
  lemma IdleTeardownIsLate(file: bool, others: bool, es: seq<Event>, e: Event) returns (j: nat)
    requires EndsIdle(Run(Start(file, others), es).session, e)
    ensures e.Tick? && Quiet(e)
    ensures var since := UpSince(Start(file, others), es);
            since.At? ==> e.o.now >= since.ms + 33000
    ensures j < |es| && es[j].Tick? && es[j].o.now + 3000 <= e.o.now
    ensures forall k | j <= k < |es| :: Quiet(es[k])
  {
    EveryRunKeepsInv(Start(file, others), es);
    UpAtIsUpSince(file, others, es);
    OnlyIdleTicksEndIdle(Run(Start(file, others), es).session, e);
    j := IdleTimerHasWitness(file, others, es);
  }

  // ---------------------------------------------------------------- (b) teardown in bounded time

  /** A tick, while the virtual monitor `spec` is streamed with nobody on it. */
  predicate Idle(e: Event, spec: string) {
    e.Tick? && !e.o.owns && spec != "" && e.o.spec == spec && !e.o.active
  }

  predicate AllRestore(es: seq<Event>) {
    forall e | e in es :: e.o.helper.restores
  }

  /** The time of the last of `es`, T before the first. */
  function Latest(es: seq<Event>, T: int): int {
    if es == [] then T else es[|es| - 1].o.now
  }

  /** The ticks `es` follow time T, and one another, at most `p` apart. */
  predicate Paced(es: seq<Event>, T: int, p: int) {
    es == [] ||
    (var q := es[..|es| - 1]; Paced(q, T, p) && Latest(q, T) <= Latest(es, T) <= Latest(q, T) + p)
  }

  /** When the start-up time of a monitor up since then is over, seen from T. */
  function Ready(up: Instant, T: int): int {
    if up.At? && up.ms + 30000 > T then up.ms + 30000 else T
  }

  /** The first thing done after `w` was taking the monitor down because the session was over, by `deadline`. */
  ghost predicate DownBy(w: Watch, n: Watch, deadline: int) {
    && n.session.up == ""
    && |w.acts| < |n.acts| && w.acts <= n.acts
    && n.acts[|w.acts|].Down? && n.acts[|w.acts|].why == SessionOver && n.acts[|w.acts|].at <= deadline
  }

  /** After the ticks `es`: taken down in time, or still up with the clock not there yet. */
  ghost predicate Converging(w: Watch, n: Watch, es: seq<Event>, T: int, p: int) {
    var s, ready := n.session, Ready(w.session.upAt, T);
    !n.stopped &&
    if s.up == "" then DownBy(w, n, ready + SESSION_GRACE + 2 * p)
    else
      && n.acts == w.acts && s.up == w.session.up && s.upAt == w.session.upAt && !s.left
      && (s.idleSince.At? ==> s.idleSince.ms <= ready + p)
      && (es != [] ==>
            Latest(es, T) < if s.idleSince.Zero? then ready else s.idleSince.ms + SESSION_GRACE)
  }

  lemma StaysGone(n: Watch, e: Event, spec: string)
    requires Idle(e, spec) && !n.stopped && n.session.up == "" && !n.session.file
    ensures Step(n, e).session.up == "" && !Step(n, e).session.file
  {
  }

  /** With a helper that restores, a monitor that idle ticks took down leaves no state file. */
  lemma {:induction false} DownMeansGone(w: Watch, es: seq<Event>, spec: string)
    requires w.session.up != "" && !w.stopped && !w.session.left && AllRestore(es)
    requires forall e | e in es :: Idle(e, spec)
    ensures var n := Run(w, es); !n.stopped && (n.session.up == "" ==> !n.session.file) && !n.session.left
  {
    if es != [] {
      var q, e := es[..|es| - 1], es[|es| - 1];
      assert e in es && forall x | x in q :: x in es;
      DownMeansGone(w, q, spec);
      if Run(w, q).session.up == "" { StaysGone(Run(w, q), e, spec); }
    }
  }

  lemma StaysDownIdle(w: Watch, n: Watch, e: Event, spec: string, deadline: int)
    requires Idle(e, spec) && !n.stopped && DownBy(w, n, deadline)
    ensures DownBy(w, Step(n, e), deadline)
  {
  }

  lemma ConvergingStep(w: Watch, m: Watch, q: seq<Event>, e: Event, spec: string, T: int, p: int)
    requires p >= 0 && m.session.up != "" && Converging(w, m, q, T, p) && Idle(e, spec)
    requires T <= Latest(q, T) <= e.o.now <= Latest(q, T) + p
    ensures Converging(w, Step(m, e), q + [e], T, p)
  {
    assert SessionStep(m.session, e) == Did(IdleTick(m.session, e.o).s, [] + IdleTick(m.session, e.o).acts);
    if Elapsed(e.o.now, m.session.upAt, SESSION_STARTUP) {
      var since := if m.session.idleSince.Zero? then e.o.now else m.session.idleSince.ms;
      if e.o.now - since >= SESSION_GRACE {
        assert Step(m, e).acts == w.acts + [Down(SessionOver, e.o.now)];
      }
    }
  }

  lemma {:induction false} IdleTicksConverge(w: Watch, es: seq<Event>, spec: string, T: int, p: int)
    requires Inv(w.session) && w.session.up != "" && !w.stopped && p >= 0
    requires w.session.idleSince.At? ==> w.session.idleSince.ms <= T
    requires forall e | e in es :: Idle(e, spec)
    requires Paced(es, T, p)
    ensures Converging(w, Run(w, es), es, T, p)
    ensures Latest(es, T) >= T
  {
    if es != [] {
      var q, e := es[..|es| - 1], es[|es| - 1];
      IdleTicksConverge(w, q, spec, T, p);
      assert es == q + [e];
      if Run(w, q).session.up == "" {
        StaysDownIdle(w, Run(w, q), e, spec, Ready(w.session.upAt, T) + SESSION_GRACE + 2 * p);
      } else {
        ConvergingStep(w, Run(w, q), q, e, spec, T, p);
      }
    }
  }

  /** From time T on nobody streams: by max(T, up + 30 s) + 3 s + 2 tick periods the monitor is down, whatever the
      helper does; and its state file is gone if the helper restores. */
  lemma IdleMonitorGoesDownInTime(w: Watch, es: seq<Event>, spec: string, T: int, p: int)
    requires Inv(w.session) && w.session.up != "" && !w.stopped && p >= 0
    requires w.session.idleSince.At? ==> w.session.idleSince.ms <= T
    requires forall e | e in es :: Idle(e, spec)
    requires Paced(es, T, p)
    requires es != [] && Latest(es, T) >= Ready(w.session.upAt, T) + 3000 + p
    ensures DownBy(w, Run(w, es), Ready(w.session.upAt, T) + 3000 + 2 * p)
    ensures AllRestore(es) ==> !Run(w, es).session.file
  {
    IdleTicksConverge(w, es, spec, T, p);
    if AllRestore(es) { DownMeansGone(w, es, spec); }
  }

  lemma TimerIsNoted(s: Session, e: Event)
    ensures var n := SessionStep(s, e).s;
            n.idleSince == s.idleSince || n.idleSince == Zero || n.idleSince == At(e.o.now)
  {
    match e
    case Shutdown(o) =>
    case Left(o) =>
    case Starting(r, o) => if o.owns {} else if o.spec == "" {} else {}
    case Tick(o) =>
      if !o.owns {
        if o.spec == "" {} else if s.left && o.active {} else if o.active {} else {}
      }
  }

  lemma {:induction false} TimerIsPast(file: bool, others: bool, es: seq<Event>, T: int)
    requires forall e | e in es :: e.o.now <= T
    ensures var s := Run(Start(file, others), es).session; s.idleSince.At? ==> s.idleSince.ms <= T
  {
    if es != [] {
      var before, e := es[..|es| - 1], es[|es| - 1];
      assert e in es && forall x | x in before :: x in es;
      TimerIsPast(file, others, before, T);
      TimerIsNoted(Run(Start(file, others), before).session, e);
    }
  }

  /** And so after any run whose iterations lie before T, the 30 s counted from the iteration that brought it up. */
  lemma AnyRunsMonitorGoesDownInTime(file: bool, others: bool, before: seq<Event>, es: seq<Event>, spec: string, T: int, p: int)
    requires var w := Run(Start(file, others), before); w.session.up != "" && !w.stopped
    requires p >= 0 && forall e | e in before :: e.o.now <= T
    requires forall e | e in es :: Idle(e, spec)
    requires Paced(es, T, p)
    requires es != [] && Latest(es, T) >= Ready(UpSince(Start(file, others), before), T) + 3000 + p
    ensures var w := Run(Start(file, others), before);
            && DownBy(w, Run(w, es), Ready(UpSince(Start(file, others), before), T) + 3000 + 2 * p)
            && (AllRestore(es) ==> !Run(w, es).session.file)
  {
    EveryRunKeepsInv(Start(file, others), before);
    UpAtIsUpSince(file, others, before);
    TimerIsPast(file, others, before, T);
    IdleMonitorGoesDownInTime(Run(Start(file, others), before), es, spec, T, p);
  }

  /** A monitor that an earlier run of the agent left up goes down as well, 3 s after the first idle tick. */
  lemma LeftoverMonitorGoesDown(others: bool, es: seq<Event>, spec: string, T: int, p: int)
    requires p >= 0 && forall e | e in es :: Idle(e, spec)
    requires Paced(es, T, p) && es != [] && Latest(es, T) >= T + 3000 + p
    ensures DownBy(Start(true, others), Run(Start(true, others), es), T + 3000 + 2 * p)
    ensures AllRestore(es) ==> !Run(Start(true, others), es).session.file
  {
    IdleMonitorGoesDownInTime(Start(true, others), es, spec, T, p);
  }

  // ---------------------------------------------------------------- checks that are made now and then

  /** The time of the last iteration that brought the monitor up or switched the others off around it. */
  function OthersOffSince(w: Watch, es: seq<Event>): Instant {
    if es == [] then Zero else
    var q, e := es[..|es| - 1], es[|es| - 1];
    var before := Run(w, q);
    if !before.stopped && (OthersOff(e.o.now) in SessionStep(before.session, e).acts
                           || (Run(w, es).session.up != before.session.up && Run(w, es).session.up != ""))
    then At(e.o.now) else OthersOffSince(w, q)
  }

  /** How `did` bears out what is said of the others and of the stray monitor by its acts. */
  predicate OffTimed(s: Session, did: Did<Session>, now: int) {
    did.s.lastOff == if OthersOff(now) in did.acts || (did.s.up != s.up && did.s.up != "") then At(now) else s.lastOff
  }

  lemma TickOffTimed(s: Session, o: Obs)
    ensures OffTimed(s, SessionTick(s, o), o.now)
    ensures forall a | a in SessionTick(s, o).acts :: !a.Detach?
    ensures SessionTick(s, o).s.lastStrayCheck == s.lastStrayCheck
    ensures !o.active && !s.file ==> !SessionTick(s, o).s.file
  {
    if o.spec == "" {} else if s.left && o.active {} else if o.active {} else {}
  }

  lemma StrayOffTimed(s: Session, o: Obs)
    ensures var did := StrayCheck(s, o);
            did.s == s.(lastStrayCheck := did.s.lastStrayCheck, file := did.s.file) && forall a | a in did.acts :: a.Detach?
  {
  }

  lemma OthersOffIsTimed(s: Session, e: Event)
    ensures OffTimed(s, SessionStep(s, e), e.o.now)
  {
    match e
    case Shutdown(_) =>
    case Left(_) =>
    case Starting(_, o) => if o.owns {} else if o.spec == "" {} else {}
    case Tick(o) =>
      if !o.owns {
        StrayOffTimed(s, o);
        TickOffTimed(StrayCheck(s, o).s, o);
      }
  }

  lemma {:induction false} LastOffIsHistory(file: bool, others: bool, es: seq<Event>)
    ensures Run(Start(file, others), es).session.lastOff == OthersOffSince(Start(file, others), es)
  {
    if es != [] {
      LastOffIsHistory(file, others, es[..|es| - 1]);
      OthersOffIsTimed(Run(Start(file, others), es[..|es| - 1]).session, es[|es| - 1]);
    }
  }

  lemma SwitchesOthersOff(s: Session, e: Event)
    ensures OthersOff(e.o.now) in SessionStep(s, e).acts <==>
              && e.Tick? && !e.o.owns && e.o.active && !s.left && e.o.exclusive
              && e.o.spec != "" && s.up == e.o.spec && Elapsed(e.o.now, s.lastOff, 10000)
  {
    match e
    case Shutdown(_) =>
    case Left(_) =>
    case Starting(_, o) => if o.owns {} else if o.spec == "" {} else {}
    case Tick(o) =>
      if !o.owns {
        var st := StrayCheck(s, o).s;
        if o.spec == "" {} else if st.left && o.active {} else if o.active {} else {}
      }
  }

  /** Having switched others off, the helper records them, so that taking the monitor down brings them back. */
  lemma OthersOffAreRecorded(s: Session, e: Event)
    requires OthersOff(e.o.now) in SessionStep(s, e).acts
    ensures SessionStep(s, e).s.file == (s.file || e.o.helper.recordsOthers) && SessionStep(s, e).s.up == s.up
  {
    SwitchesOthersOff(s, e);
  }

  /** On every run the other monitors are switched off again exactly by ticks that see a session on the virtual monitor that
      is up, only the virtual one being wanted, 10 s after it came up or the last time. */
  lemma OthersAreRecheckedExactly(file: bool, others: bool, es: seq<Event>, e: Event)
    ensures var s := Run(Start(file, others), es).session;
            OthersOff(e.o.now) in SessionStep(s, e).acts <==>
              && e.Tick? && !e.o.owns && e.o.active && !s.left && e.o.exclusive
              && e.o.spec != "" && s.up == e.o.spec && Elapsed(e.o.now, OthersOffSince(Start(file, others), es), 10000)
  {
    LastOffIsHistory(file, others, es);
    SwitchesOthersOff(Run(Start(file, others), es).session, e);
  }

  /** An iteration may look for a stray monitor: a tick with no owner and no session while the monitor is down. */
  predicate MayLookForStray(m: Watch, e: Event) {
    !m.stopped && e.Tick? && !e.o.owns && m.session.up == "" && !e.o.strayActive
  }

  /** The time of the last look for one: the first that may, and from then on those that come 30 s after the one before. */
  function StrayLookedFor(w: Watch, es: seq<Event>): Instant {
    if es == [] then Zero else
    var q, e := es[..|es| - 1], es[|es| - 1];
    if MayLookForStray(Run(w, q), e) && Elapsed(e.o.now, StrayLookedFor(w, q), 30000) then At(e.o.now) else StrayLookedFor(w, q)
  }

  lemma StrayStep(s: Session, e: Event)
    ensures var did := SessionStep(s, e);
            var looks := e.Tick? && !e.o.owns && s.up == "" && !e.o.strayActive && Elapsed(e.o.now, s.lastStrayCheck, 30000);
            && did.s.lastStrayCheck == (if looks then At(e.o.now) else s.lastStrayCheck)
            && (Detach(e.o.now) in did.acts <==> looks && e.o.strayAttached)
            && (looks && e.o.strayAttached && e.o.helper.strayRestores && !e.o.active ==> !did.s.file)
  {
    match e
    case Shutdown(_) =>
    case Left(_) =>
    case Starting(_, o) => if o.owns {} else if o.spec == "" {} else {}
    case Tick(o) => if !o.owns { TickOffTimed(StrayCheck(s, o).s, o); }
  }

  lemma {:induction false} StrayCheckIsHistory(file: bool, others: bool, es: seq<Event>)
    ensures Run(Start(file, others), es).session.lastStrayCheck == StrayLookedFor(Start(file, others), es)
  {
    if es != [] {
      StrayCheckIsHistory(file, others, es[..|es| - 1]);
      StrayStep(Run(Start(file, others), es[..|es| - 1]).session, es[|es| - 1]);
    }
  }

  /** On every run a virtual monitor that is attached with no session is detached exactly by a look for one, 30 s after the
      last; and its state file goes with it if the helper restores. */
  lemma StrayMonitorIsDetachedExactly(file: bool, others: bool, es: seq<Event>, e: Event)
    requires !Run(Start(file, others), es).stopped
    ensures var w := Run(Start(file, others), es);
            var looks := MayLookForStray(w, e) && Elapsed(e.o.now, StrayLookedFor(Start(file, others), es), 30000);
            && (Detach(e.o.now) in SessionStep(w.session, e).acts <==> looks && e.o.strayAttached)
            && (looks && e.o.strayAttached && e.o.helper.strayRestores && !e.o.active ==> !SessionStep(w.session, e).s.file)
  {
    StrayCheckIsHistory(file, others, es);
    StrayStep(Run(Start(file, others), es).session, e);
  }

  lemma WatcherStep(s: Session, e: Event)
    ensures var n := SessionStep(s, e).s;
            n.watcher == (s.watcher || (n.up != s.up && n.up != "" && e.o.helper.watcherStarts))
  {
    match e
    case Shutdown(_) =>
    case Left(_) =>
    case Starting(_, o) => if o.owns {} else if o.spec == "" {} else {}
    case Tick(o) =>
      if !o.owns {
        var st := StrayCheck(s, o).s;
        if o.spec == "" {} else if st.left && o.active {} else if o.active {} else {}
      }
  }

  /** Where a watcher can be started, every monitor that came up in this run is watched. */
  lemma {:induction false} UpMeansWatched(file: bool, others: bool, es: seq<Event>)
    requires forall e | e in es :: e.o.helper.watcherStarts
    ensures UpSince(Start(file, others), es).At? ==> Run(Start(file, others), es).session.watcher
  {
    if es != [] {
      var q, e := es[..|es| - 1], es[|es| - 1];
      assert e in es && forall x | x in q :: x in es;
      UpMeansWatched(file, others, q);
      WatcherStep(Run(Start(file, others), q).session, e);
    }
  }

  // ---------------------------------------------------------------- a session the client left

  /** The stream host still reports the session, in whatever way the monitor is streamed by then. */
  predicate StillReported(e: Event) {
    e.Tick? && e.o.active
  }

  lemma StaleReportStep(s: Session, e: Event)
    requires s.left && s.up == "" && StillReported(e)
    ensures var n := SessionStep(s, e); n.s.left && n.s.up == "" && forall a | a in n.acts :: !a.Attach?
  {
    var st := StrayCheck(s, e.o).s;
    if e.o.owns {} else if e.o.spec == "" {} else { assert SessionTick(st, e.o) == Did(st, []); }
  }

  /** Once the client said it left, reports of its session, for however long they go on, never bring the
      monitor up again. */
  lemma {:induction false} StaleReportsNeverReattach(w: Watch, e: Event, es: seq<Event>)
    requires !w.stopped && e.Left? && forall x | x in es :: StillReported(x)
    ensures var n := Run(Step(w, e), es);
            && n.session.left && n.session.up == "" && !n.stopped && w.acts <= n.acts
            && forall k | |w.acts| <= k < |n.acts| :: !n.acts[k].Attach?
  {
    if es == [] {
    } else {
      StaleReportsNeverReattach(w, e, es[..|es| - 1]);
      StaleReportStep(Run(Step(w, e), es[..|es| - 1]).session, es[|es| - 1]);
    }
  }

  // ---------------------------------------------------------------- the next session

  /** A tick that finds no session forgets that the client left, however the monitor is streamed by an owner or the loop. */
  lemma LeftIsForgotten(w: Watch, e: Event)
    requires !w.stopped && e.Tick? && !e.o.active && (e.o.owns || e.o.spec != "")
    ensures !Step(w, e).session.left
  {
  }

  /** So the next session attaches the monitor, and with a helper that works it is up. */
  lemma NextSessionAttaches(w: Watch, e: Event, next: Event)
    requires !w.stopped && e.Tick? && !e.o.active && !e.o.owns && e.o.spec != ""
    requires next.Tick? && !next.o.owns && next.o.active && next.o.spec != "" && next.o.spec != Step(w, e).session.up
    ensures var n := Step(Step(w, e), next);
            && Attach(next.o.spec, next.o.now) in n.acts
            && (next.o.helper.restores && next.o.helper.attaches ==> n.session.up == next.o.spec && n.session.file)
  {
    LeftIsForgotten(w, e);
    var m := Step(w, e);
    assert !m.stopped && !m.session.left;
    AttachesWhenActive(m.session, next.o);
    assert Attach(next.o.spec, next.o.now) in SessionStep(m.session, next).acts;
  }

  lemma AttachesWhenActive(s: Session, o: Obs)
    requires !s.left && !o.owns && o.active && o.spec != "" && o.spec != s.up
    ensures var did := SessionStep(s, Tick(o));
            && Attach(o.spec, o.now) in did.acts
            && (o.helper.restores && o.helper.attaches ==> did.s.up == o.spec && did.s.file)
  {
    var st := StrayCheck(s, o);
    assert SessionTick(st.s, o).acts == [Attach(o.spec, o.now)];
    assert SessionStep(s, Tick(o)).acts == st.acts + [Attach(o.spec, o.now)];
  }

  // ---------------------------------------------------------------- answers to the client

  function Answers(acts: seq<Act>): seq<nat> {
    if acts == [] then []
    else Answers(acts[..|acts| - 1]) + (if acts[|acts| - 1].Answer? then [acts[|acts| - 1].request] else [])
  }

  lemma {:induction false} AnswersOfConcat(a: seq<Act>, b: seq<Act>)
    ensures Answers(a + b) == Answers(a) + Answers(b)
  {
    if b == [] {
      assert a + b == a;
    } else {
      assert (a + b)[..|a + b| - 1] == a + b[..|b| - 1];
      AnswersOfConcat(a, b[..|b| - 1]);
    }
  }

  /** The requests a running loop took, in order. */
  function Taken(es: seq<Event>): seq<nat> {
    if es == [] then []
    else Taken(es[..|es| - 1]) + (if es[|es| - 1].Starting? then [es[|es| - 1].request] else [])
  }

  lemma PartsAnswerNothing(s: Session, why: Why, o: Obs)
    ensures Answers(TakeDown(s, why, o).acts) == []
    ensures Answers(BringUp(s, o.spec, o).acts) == []
    ensures Answers(StrayCheck(s, o).acts) == []
  {
  }

  lemma TickAnswersNothing(s: Session, o: Obs)
    ensures Answers(SessionTick(s, o).acts) == []
  {
    if o.spec == "" {} else if s.left && o.active {} else if o.active {} else {}
  }

  lemma StepAnswers(s: Session, e: Event)
    ensures Answers(SessionStep(s, e).acts) == if e.Starting? then [e.request] else []
  {
    match e
    case Shutdown(o) => PartsAnswerNothing(s, AgentStopping, o);
    case Left(o) => PartsAnswerNothing(s.(left := true, idleSince := Zero), ClientLeft, o);
    case Starting(r, o) =>
      var back := s.(left := false);
      if o.owns {
        PartsAnswerNothing(back, OwnVirtual, o);
        AnswersOfConcat([Answer(r)], OwnedTick(back, o).acts);
      } else if o.spec != "" {
        PartsAnswerNothing(back.(idleSince := Zero), OwnVirtual, o);
        AnswersOfConcat(BringUp(back.(idleSince := Zero), o.spec, o).acts, [Answer(r)]);
      }
    case Tick(o) =>
      PartsAnswerNothing(s, OwnVirtual, o);
      if !o.owns {
        TickAnswersNothing(StrayCheck(s, o).s, o);
        AnswersOfConcat(StrayCheck(s, o).acts, SessionTick(StrayCheck(s, o).s, o).acts);
      }
  }

  lemma OwnerAnswersNothing(w: Owner, left: bool, e: Event)
    ensures Answers(OwnerStep(w, left, e).acts) == []
  {
  }

  lemma IterationAnswers(m: Watch, e: Event)
    requires !m.stopped
    ensures Answers(Step(m, e).acts) == Answers(m.acts) + if e.Starting? then [e.request] else []
    ensures Step(m, e).stopped == e.Shutdown?
  {
    var session := SessionStep(m.session, e);
    var owner := OwnerStep(m.owner, session.s.left, e);
    AnswersOfConcat(m.acts + session.acts, owner.acts);
    AnswersOfConcat(m.acts, session.acts);
    StepAnswers(m.session, e);
    OwnerAnswersNothing(m.owner, session.s.left, e);
    assert Step(m, e).acts == m.acts + session.acts + owner.acts;
  }

  /** Every request the loop takes is answered once, in the order taken, and nothing else is answered. */
  lemma {:induction false} EveryRequestAnsweredOnce(w: Watch, es: seq<Event>)
    requires !w.stopped && forall k | 0 <= k < |es| - 1 :: !es[k].Shutdown?
    ensures Answers(Run(w, es).acts) == Answers(w.acts) + Taken(es)
    ensures Run(w, es).stopped <==> es != [] && es[|es| - 1].Shutdown?
  {
    if es != [] {
      EveryRequestAnsweredOnce(w, es[..|es| - 1]);
      IterationAnswers(Run(w, es[..|es| - 1]), es[|es| - 1]);
    }
  }

  /** The answer comes after the attempt to bring the monitor up, when there is one to make: when the client
      hears back, the monitor is up in the streamed mode or the attempt failed. */
  lemma AnswerFollowsAttempt(w: Watch, r: nat, o: Obs)
    requires !w.stopped && !o.owns && o.spec != ""
    ensures var n := Step(w, Starting(r, o));
            && !n.session.left
            && n.acts[|n.acts| - 1] == Answer(r)
            && (n.session.up != o.spec ==>
                  n.acts == w.acts + [Attach(o.spec, o.now), Answer(r)] && !n.session.file)
  {
    var did := BringUp(w.session.(left := false, idleSince := Zero), o.spec, o);
    assert Step(w, Starting(r, o)).acts == w.acts + did.acts + [Answer(r)];
  }

  // ---------------------------------------------------------------- up means recorded, and when it does not

  /** The state file records every monitor that is up, so that it can be undone after a crash. */
  ghost predicate Recorded(s: Session) {
    s.up != "" ==> s.file
  }

  /** The iteration brings the monitor up in `o.spec`. */
  predicate BringsUp(s: Session, e: Event) {
    match e
    case Starting(_, o) => !o.owns && o.spec != "" && s.up != o.spec
    case Tick(o) => !o.owns && o.spec != "" && !s.left && o.active && s.up != o.spec
    case _ => false
  }

  /** The guard of the failing branch: a monitor up in one mode is asked for in another, and the helper
      takes the old one down but does not get the new one up. */
  predicate LosesMonitor(s: Session, e: Event) {
    BringsUp(s, e) && s.up != "" && e.o.helper.restores && !e.o.helper.attaches
  }

  lemma TickKeepsRecorded(s: Session, o: Obs)
    requires Recorded(s) && !o.owns
    ensures Recorded(SessionStep(s, Tick(o)).s) <==> !LosesMonitor(s, Tick(o))
  {
    var st := StrayCheck(s, o).s;
    assert st.up == s.up && Recorded(st);
    if o.spec == "" {} else if s.left && o.active {} else if o.active {} else {}
  }

  /** An iteration keeps the file in step with the monitor exactly when it does not lose the monitor. */
  lemma StepKeepsRecorded(s: Session, e: Event)
    requires Recorded(s)
    ensures Recorded(SessionStep(s, e).s) <==> !LosesMonitor(s, e)
  {
    match e
    case Shutdown(_) =>
    case Left(_) =>
    case Starting(_, o) => if o.owns {} else if o.spec == "" {} else {}
    case Tick(o) => if !o.owns { TickKeepsRecorded(s, o); }
  }

  /** No iteration of the run loses the monitor. */
  predicate NeverLoses(w: Watch, es: seq<Event>) {
    es == [] ||
    (NeverLoses(w, es[..|es| - 1]) && !LosesMonitor(Run(w, es[..|es| - 1]).session, es[|es| - 1]))
  }

  lemma {:induction false} UpMeansRecorded(w: Watch, es: seq<Event>)
    requires Recorded(w.session) && NeverLoses(w, es)
    ensures Recorded(Run(w, es).session)
  {
    if es != [] {
      UpMeansRecorded(w, es[..|es| - 1]);
      StepKeepsRecorded(Run(w, es[..|es| - 1]).session, es[|es| - 1]);
    }
  }

  /** After losing the monitor, a session streamed in the old mode again runs without one: the loop takes
      the old mode for still up, and no tick tries again. All that ticks still do is to switch other monitors off,
      when only the virtual one is wanted. */
  lemma {:induction false} LostMonitorIsNotRetried(w: Watch, es: seq<Event>, spec: string)
    requires !w.stopped && !w.session.left && w.session.up == spec != ""
    requires forall e | e in es :: e.Tick? && !e.o.owns && e.o.active && e.o.spec == spec
    ensures var n := Run(w, es);
            && n.session.up == spec && !n.stopped && !n.session.left && w.acts <= n.acts
            && (forall k | |w.acts| <= k < |n.acts| :: n.acts[k].OthersOff?)
            && ((forall e | e in es :: !e.o.exclusive) ==> n.acts == w.acts && n.session.file == w.session.file)
  {
    if es != [] {
      var q, e := es[..|es| - 1], es[|es| - 1];
      assert e in es && forall x | x in q :: x in es;
      LostMonitorIsNotRetried(w, q, spec);
      LostTick(Run(w, q), e, spec);
    }
  }

  lemma LostTick(m: Watch, e: Event, spec: string)
    requires !m.stopped && !m.session.left && m.session.up == spec != ""
    requires e.Tick? && !e.o.owns && e.o.active && e.o.spec == spec
    ensures var n := Step(m, e);
            && n.session.up == spec && !n.stopped && !n.session.left
            && (n.acts == m.acts || (e.o.exclusive && n.acts == m.acts + [OthersOff(e.o.now)]))
            && (!e.o.exclusive ==> n.session.file == m.session.file)
  {
    assert [] + ActiveTick(m.session, e.o).acts == ActiveTick(m.session, e.o).acts;
  }

  /** Two clients' starts in different modes, the second attach failing, reach such a state. */
  lemma MonitorCanBeLost()
    ensures var h := Helper(true, true, true, true, true, true, true);
            var o := Obs(0, "1920x1080@60", false, false, true, true, true, false, h);
            var es := [Starting(0, o), Tick(o.(spec := "1280x720@60", helper := h.(attaches := false)))];
            var s := Run(Start(false, false), es).session;
            s.up == "1920x1080@60" && !s.file && !Recorded(s)
  {
    var h := Helper(true, true, true, true, true, true, true);
    var o := Obs(0, "1920x1080@60", false, false, true, true, true, false, h);
    var a, b := Starting(0, o), Tick(o.(spec := "1280x720@60", helper := h.(attaches := false)));
    assert [a, b][..1] == [a] && [a][..0] == [];
    assert Run(Start(false, false), [a]) == Step(Start(false, false), a);
    assert Run(Start(false, false), [a, b]) == Step(Step(Start(false, false), a), b);
  }

  // ---------------------------------------------------------------- the end, and the stream host's own monitor

  /** With a working helper, whatever happened before, the agent stopping leaves no monitor up, no state file
      and no other monitor switched off. */
  lemma ShutdownLeavesNothing(w: Watch, o: Obs)
    requires !w.stopped && o.helper.restores && o.helper.ownerClears
    ensures var n := Step(w, Shutdown(o));
            n.stopped && n.session.up == "" && !n.session.file && !n.owner.file
  {
  }

  /** The iteration puts the other monitors back on: at the end, or when it finds an owner and the client left, the
      choice or the virtual monitor is gone, or no session has been reported for 3 s. */
  predicate BringsBack(w: Owner, left: bool, e: Event) {
    && w.file
    && (|| e.Shutdown?
        || (e.o.owns && (|| e.Left? || left || e.o.spec == "" || !e.o.exclusive
                         || (!e.o.ownerActive && w.idleSince.At? && e.o.now - w.idleSince.ms >= 3000))))
  }

  /** The other monitors come back exactly then. */
  lemma OthersComeBackExactly(w: Owner, left: bool, e: Event)
    ensures OwnerOn(e.o.now) in OwnerStep(w, left, e).acts <==> BringsBack(w, left, e)
  {
    match e
    case Shutdown(_) =>
    case Left(_) =>
    case Starting(_, _) =>
    case Tick(_) =>
  }

  /** The iteration finds a session on the owner's monitor that the others are to be off for. */
  predicate WantsOff(left: bool, e: Event) {
    !e.Shutdown? && !e.Left? && e.o.owns && !left && e.o.spec != "" && e.o.exclusive && e.o.ownerActive
  }

  /** Whether the iteration looks at the owner's monitors at all. */
  predicate LooksAtOwner(m: Watch, e: Event) { !m.stopped && (e.Shutdown? || e.o.owns) }

  function LeftAfter(m: Watch, e: Event): bool { SessionStep(m.session, e).s.left }

  /** When the others were last switched off around the owner's monitor in the session that goes on. */
  function OwnerOffSince(w: Watch, es: seq<Event>): Instant {
    if es == [] then w.owner.offSince else
    var q, e := es[..|es| - 1], es[|es| - 1];
    var since := OwnerOffSince(w, q);
    if !LooksAtOwner(Run(w, q), e) then since
    else if !WantsOff(LeftAfter(Run(w, q), e), e) then Zero
    else if Elapsed(e.o.now, since, 10000) && Run(w, es).owner.file then At(e.o.now) else since
  }

  /** When the first of the iterations was that found no session on it, the others being off, and none since. */
  function OwnerIdleSince(w: Watch, es: seq<Event>): Instant {
    if es == [] then w.owner.idleSince else
    var q, e := es[..|es| - 1], es[|es| - 1];
    var since, left := OwnerIdleSince(w, q), LeftAfter(Run(w, q), e);
    if !LooksAtOwner(Run(w, q), e) then since
    else if WantsOff(left, e) then Zero
    else if !Run(w, q).owner.file then since
    else if e.Shutdown? || e.Left? || left || e.o.spec == "" || !e.o.exclusive then Zero
    else if since.Zero? then At(e.o.now)
    else if e.o.now - since.ms < 3000 then since else Zero
  }

  lemma OwnerStepTimes(w: Owner, left: bool, e: Event)
    requires e.Shutdown? || e.o.owns
    ensures var did := OwnerStep(w, left, e);
            && (OwnerOff(e.o.now) in did.acts <==> WantsOff(left, e) && Elapsed(e.o.now, w.offSince, 10000))
            && did.s.offSince == (if !WantsOff(left, e) then Zero
                                  else if Elapsed(e.o.now, w.offSince, 10000) && did.s.file then At(e.o.now) else w.offSince)
            && did.s.idleSince == (if WantsOff(left, e) then Zero
                                   else if !w.file then w.idleSince
                                   else if e.Shutdown? || e.Left? || left || e.o.spec == "" || !e.o.exclusive then Zero
                                   else if w.idleSince.Zero? then At(e.o.now)
                                   else if e.o.now - w.idleSince.ms < 3000 then w.idleSince else Zero)
            && (OwnerOff(e.o.now) in did.acts ==> did.s.file == (w.file || e.o.helper.ownerRecords))
  {
    match e
    case Shutdown(_) =>
    case Left(_) =>
    case Starting(_, _) =>
    case Tick(_) =>
  }

  lemma {:induction false} OwnerTimesAreHistory(w: Watch, es: seq<Event>)
    ensures Run(w, es).owner.offSince == OwnerOffSince(w, es)
    ensures Run(w, es).owner.idleSince == OwnerIdleSince(w, es)
  {
    if es != [] {
      var q, e := es[..|es| - 1], es[|es| - 1];
      OwnerTimesAreHistory(w, q);
      if LooksAtOwner(Run(w, q), e) { OwnerStepTimes(Run(w, q).owner, LeftAfter(Run(w, q), e), e); }
    }
  }

  /** On every run, by its events: the other monitors are switched off around an owner's monitor exactly by iterations that
      find a session on it, 10 s after the last time; and they come back exactly at the end, when the client left or the
      choice is gone, or when no session has been found for 3 s. */
  lemma OwnersOthersExactly(w: Watch, es: seq<Event>, e: Event)
    requires LooksAtOwner(Run(w, es), e)
    ensures var m := Run(w, es);
            var left, acts := LeftAfter(m, e), OwnerStep(m.owner, LeftAfter(m, e), e).acts;
            && (OwnerOff(e.o.now) in acts <==> WantsOff(left, e) && Elapsed(e.o.now, OwnerOffSince(w, es), 10000))
            && (OwnerOn(e.o.now) in acts <==>
                  && m.owner.file
                  && (|| e.Shutdown? || e.Left? || left || e.o.spec == "" || !e.o.exclusive
                      || (!e.o.ownerActive && OwnerIdleSince(w, es).At? && e.o.now - OwnerIdleSince(w, es).ms >= 3000)))
            && (OwnerOff(e.o.now) in acts ==> Step(m, e).owner.file == (m.owner.file || e.o.helper.ownerRecords))
  {
    OwnerTimesAreHistory(w, es);
    OwnerStepTimes(Run(w, es).owner, LeftAfter(Run(w, es), e), e);
    OthersComeBackExactly(Run(w, es).owner, LeftAfter(Run(w, es), e), e);
  }

  /** An iteration of a loop that has not ended brings them back with a helper that succeeds. */
  predicate ClearsOthers(m: Watch, e: Event) {
    !m.stopped && BringsBack(m.owner, SessionStep(m.session, e).s.left, e) && e.o.helper.ownerClears
  }

  lemma OthersStepStays(m: Watch, e: Event)
    requires m.owner.file
    ensures Step(m, e).owner.file <==> !ClearsOthers(m, e)
  {
    match e
    case Shutdown(_) =>
    case Left(_) =>
    case Starting(_, _) =>
    case Tick(_) =>
  }

  /** No iteration of the run brings them back. */
  predicate NeverClears(w: Watch, es: seq<Event>) {
    es == [] || (NeverClears(w, es[..|es| - 1]) && !ClearsOthers(Run(w, es[..|es| - 1]), es[|es| - 1]))
  }

  /** Switched off, the other monitors stay off until the first iteration that brings them back, and that one does. */
  lemma {:induction false} OthersStayOffUntilBroughtBack(w: Watch, es: seq<Event>, e: Event)
    requires w.owner.file && NeverClears(w, es)
    ensures Run(w, es).owner.file
    ensures Step(Run(w, es), e).owner.file <==> !ClearsOthers(Run(w, es), e)
  {
    if es != [] {
      OthersStayOffUntilBroughtBack(w, es[..|es| - 1], es[|es| - 1]);
    }
    OthersStepStays(Run(w, es), e);
  }

  /** Iterations that find no owner never bring them back: switched to a stream host that does not own the virtual
      monitor, they stay off for as long as that one streams. */
  lemma {:induction false} OthersStayOffWithoutOwner(w: Watch, es: seq<Event>)
    requires !w.stopped && forall e | e in es :: !e.Shutdown? && !e.o.owns
    ensures Run(w, es).owner == w.owner && !Run(w, es).stopped
  {
    if es != [] {
      OthersStayOffWithoutOwner(w, es[..|es| - 1]);
    }
  }

  /** A tick with a session on an owner's virtual monitor, with only that monitor wanted. */
  function OwnedSession(now: int): Obs {
    Obs(now, "1920x1080@60", true, true, true, true, true, false, Helper(true, true, true, true, true, true, true))
  }

  /** From the start of the loop: such a tick switches the other monitors off, and after it, whatever happens while
      the stream hosts own none, they stay off. */
  lemma OthersCanStayOff(es: seq<Event>)
    requires forall e | e in es :: !e.Shutdown? && !e.o.owns
    ensures var off := Run(Start(false, false), [Tick(OwnedSession(0))]);
            OwnerOff(0) in off.acts && off.owner.file && Run(off, es).owner.file
  {
    var start, tick := Start(false, false), Tick(OwnedSession(0));
    assert [tick][..0] == [];
    assert Run(start, [tick]) == Step(start, tick);
    assert Step(start, tick).acts == [OwnerOff(0)];
    OthersStayOffWithoutOwner(Step(start, tick), es);
  }

  // ---------------------------------------------------------------- the loop itself

  /** The watchdog's variables, updated in place by each iteration of its loop. */
  class VirtualOthersWatchdog {
    var session: Session
    var owner: Owner
    var stopped: bool
    var acts: seq<Act>

    function Current(): Watch
      reads this
    {
      Watch(session, owner, stopped, acts)
    }

    constructor (stateFile: bool, ownerFile: bool)
      ensures Current() == Start(stateFile, ownerFile)
    {
      session := Session(if stateFile then "?" else "", false, Zero, Zero, Zero, Zero, false, stateFile);
      owner := Owner(Zero, Zero, ownerFile);
      stopped, acts := false, [];
    }

    method BringUpNow(spec: string, o: Obs)
      modifies this`session, this`acts
      ensures var did := BringUp(old(session), spec, o); session == did.s && acts == old(acts) + did.acts
    {
      if session.up == spec {
        return;
      }
      acts := acts + [Attach(spec, o.now)];
      if o.helper.restores {
        session := session.(file := o.helper.attaches);
      }
      if session.file {
        if !session.watcher {
          session := session.(watcher := o.helper.watcherStarts);
        }
        session := session.(up := spec, lastOff := At(o.now), upAt := At(o.now));
      }
    }

    method TakeDownNow(why: Why, o: Obs)
      modifies this`session, this`acts
      ensures var did := TakeDown(old(session), why, o); session == did.s && acts == old(acts) + did.acts
    {
      if session.up == "" && !session.file {
        return;
      }
      acts := acts + [Down(why, o.now)];
      if o.helper.restores {
        session := session.(file := false);
      }
      session := session.(up := "");
    }

    method OwnerOthersNow(spec: string, clientLeft: bool, o: Obs)
      modifies this`owner, this`acts
      ensures var did := OwnerOthers(old(owner), spec, clientLeft, o); owner == did.s && acts == old(acts) + did.acts
    {
      if spec != "" && o.exclusive && o.ownerActive && !clientLeft {
        owner := owner.(idleSince := Zero);
        if Elapsed(o.now, owner.offSince, OTHERS_RECHECK) {
          acts := acts + [OwnerOff(o.now)];
          owner := owner.(file := owner.file || o.helper.ownerRecords);
          if owner.file {
            owner := owner.(offSince := At(o.now));
          }
        }
        return;
      }
      owner := owner.(offSince := Zero);
      if !owner.file {
        return;
      }
      if !clientLeft && spec != "" && o.exclusive {
        if owner.idleSince.Zero? {
          owner := owner.(idleSince := At(o.now));
        }
        if o.now - owner.idleSince.ms < SESSION_GRACE {
          return;
        }
      }
      acts := acts + [OwnerOn(o.now)];
      owner := owner.(idleSince := Zero, file := !o.helper.ownerClears);
    }

    method CheckStray(o: Obs)
      modifies this`session, this`acts
      ensures var did := StrayCheck(old(session), o); session == did.s && acts == old(acts) + did.acts
    {
      if session.up == "" && Elapsed(o.now, session.lastStrayCheck, STRAY_RECHECK) {
        if !o.strayActive {
          session := session.(lastStrayCheck := At(o.now));
          if o.strayAttached {
            acts := acts + [Detach(o.now)];
            session := session.(file := session.file && !o.helper.strayRestores);
          }
        }
      }
    }

    /** A tick with the session reported. */
    method TickActive(o: Obs)
      modifies this`session, this`acts
      ensures var did := ActiveTick(old(session), o); session == did.s && acts == old(acts) + did.acts
    {
      session := session.(idleSince := Zero);
      if session.up != o.spec {
        BringUpNow(o.spec, o);
        return;
      }
      if o.exclusive && Elapsed(o.now, session.lastOff, OTHERS_RECHECK) {
        acts := acts + [OthersOff(o.now)];
        session := session.(file := session.file || o.helper.recordsOthers, lastOff := At(o.now));
      }
    }

    /** A tick with no session reported. */
    method TickIdle(o: Obs)
      modifies this`session, this`acts
      ensures var did := IdleTick(old(session), o); session == did.s && acts == old(acts) + did.acts
    {
      if session.up == "" {
        return;
      }
      if !Elapsed(o.now, session.upAt, SESSION_STARTUP) {
        session := session.(idleSince := Zero);
        return;
      }
      if session.idleSince.Zero? {
        session := session.(idleSince := At(o.now));
      }
      if o.now - session.idleSince.ms >= SESSION_GRACE {
        TakeDownNow(SessionOver, o);
      }
    }

    method TickSession(o: Obs)
      modifies this`session, this`acts
      ensures var did := SessionTick(old(session), o); session == did.s && acts == old(acts) + did.acts
    {
      if o.spec == "" {
        session := session.(idleSince := Zero);
        TakeDownNow(PhysicalStreamed, o);
        return;
      }
      if session.left && o.active {
        return;
      }
      session := session.(left := false);
      if o.active {
        TickActive(o);
      } else {
        TickIdle(o);
      }
    }

    method TickOwned(o: Obs)
      modifies this`session, this`owner, this`acts
      ensures var did := OwnedTick(old(session), o);
              var others := OwnerOthers(old(owner), o.spec, did.s.left, o);
              session == did.s && owner == others.s && acts == old(acts) + did.acts + others.acts
    {
      TakeDownNow(OwnVirtual, o);
      if session.left && !o.active {
        session := session.(left := false);
      }
      OwnerOthersNow(o.spec, session.left, o);
    }

    method HandleStarting(request: nat, o: Obs)
      modifies this`session, this`owner, this`acts
      ensures var did := SessionStep(old(session), Starting(request, o));
              var others := OwnerStep(old(owner), did.s.left, Starting(request, o));
              session == did.s && owner == others.s && acts == old(acts) + did.acts + others.acts
    {
      session := session.(left := false);
      if o.owns {
        acts := acts + [Answer(request)];
        TickOwned(o);
        return;
      }
      if o.spec != "" {
        session := session.(idleSince := Zero);
        BringUpNow(o.spec, o);
      }
      acts := acts + [Answer(request)];
    }

    /** One iteration of the loop. */
    method Handle(e: Event)
      requires !stopped
      modifies this
      ensures Current() == Step(old(Current()), e)
    {
      match e
      case Shutdown(o) =>
        TakeDownNow(AgentStopping, o);
        OwnerOthersNow("", true, o);
        stopped := true;
      case Left(o) =>
        session := session.(left := true, idleSince := Zero);
        TakeDownNow(ClientLeft, o);
        if o.owns {
          OwnerOthersNow(o.spec, true, o);
        }
      case Starting(request, o) =>
        HandleStarting(request, o);
      case Tick(o) =>
        if o.owns {
          TickOwned(o);
        } else {
          CheckStray(o);
          TickSession(o);
        }
    }

    /** The loop, over the events it gets until the agent stops. */
    method Serve(es: seq<Event>)
      requires !stopped
      modifies this
      ensures Current() == Run(old(Current()), es)
    {
      var k := 0;
      while k < |es| && !stopped
        invariant 0 <= k <= |es|
        invariant Current() == Run(old(Current()), es[..k])
      {
        Handle(es[k]);
        assert es[..k + 1][..k] == es[..k];
        k := k + 1;
      }
      StoppedForGood(old(Current()), es, k);
    }
  }

  lemma {:induction false} StoppedForGood(w: Watch, es: seq<Event>, k: nat)
    requires k <= |es| && (k == |es| || Run(w, es[..k]).stopped)
    ensures Run(w, es) == Run(w, es[..k])
  {
    if k == |es| {
      assert es[..k] == es;
    } else {
      assert es[..|es| - 1][..k] == es[..k];
      StoppedForGood(w, es[..|es| - 1], k);
    }
  }
}
