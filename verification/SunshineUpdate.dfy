/** Downloads and updates of Sunshine (agent/internal/app/sunshine_update.go): four entry points share one
    in-progress flag, an update found while a client streams is put off, and the swap stops and starts the
    streamer under the stream lock. Every locked section and every call is a step of its own; times are
    milliseconds. */
module SunshineUpdate {

  const UPDATE_INTERVAL := 6 * 60 * 60 * 1000
  const BUSY_RETRY := 15 * 60 * 1000
  const FETCH_RETRY := 60 * 1000

  datatype Entry = Fetch | Download | Automatic | Requested

  datatype Outcome = Fine | Failed | Streaming

  /** Where a thread is; from `Looking` to `Releasing` it has the in-progress flag. */
  datatype Pc =
    | Looking                                 // which release is the latest
    | Peeking                                 // a newer one: is a client streaming?
    | Preparing
    | Waiting(tree: nat)                      // prepared, wants the stream lock
    | Locked(tree: nat)
    | Stopping(tree: nat, session: bool)      // the active streamer, with or without a session
    | Committing(tree: nat, stopped: bool)
    | Discarding(tree: nat, stopped: bool, why: Outcome)
    | Starting(why: Outcome)
    | Unlocking(why: Outcome)
    | Releasing(why: Outcome)
    | Over(why: Outcome)

  datatype Thread = Thread(entry: Entry, began: int, pc: Pc)

  datatype Tree = Open | Committed | Discarded

  /** A stop or start of Sunshine by a thread, the stop with what it saw of the session under the lock. */
  datatype Act = Stop(thread: nat, session: bool) | Start(thread: nat)

  /** The flag and the two times of `entStatus`, the stream lock, whether Sunshine is the active streamer,
      whether a client is streaming, and the threads; prepared trees, which thread made which, and the stops and
      starts are history. */
  datatype World = World(
    inProgress: bool, lastCheck: int, lastFetch: int, lock: set<nat>, sunshineActive: bool, session: bool,
    threads: map<nat, Thread>, trees: seq<Tree>, made: map<nat, nat>, acts: seq<Act>)

  datatype Event =
    | Session(on: bool)
    | SwitchBackend(toSunshine: bool)
    | Begin(t: nat, entry: Entry, now: int)
    | Look(t: nat, newer: bool, ok: bool)
    | Peek(t: nat)
    | Prepare(t: nat, ok: bool)
    | TakeLock(t: nat)
    | LookAgain(t: nat)
    | StopIt(t: nat)
    | Commit(t: nat, ok: bool)
    | Discard(t: nat)
    | StartIt(t: nat)
    | Unlock(t: nat)
    | Release(t: nat, now: int)

  // ---------------------------------------------------------------- the flag and the times

  /** The locked section at the start of an entry point: whether it goes on. */
  predicate Allowed(inProgress: bool, lastCheck: int, lastFetch: int, entry: Entry, now: int) {
    && !inProgress
    && (entry.Automatic? ==> now - lastCheck >= UPDATE_INTERVAL)
    && (entry.Fetch? ==> now - lastFetch >= FETCH_RETRY)
  }

  predicate MayBegin(w: World, entry: Entry, now: int) {
    Allowed(w.inProgress, w.lastCheck, w.lastFetch, entry, now)
  }

  function Begun(w: World, entry: Entry, now: int): World {
    w.(inProgress := true,
       lastCheck := if entry.Automatic? || entry.Requested? then now else w.lastCheck,
       lastFetch := if entry.Fetch? then now else w.lastFetch)
  }

  /** The end: a postponed automatic update sets the time back, and the flag goes. */
  function Released(w: World, entry: Entry, why: Outcome, now: int): World {
    w.(inProgress := false,
       lastCheck := if entry.Automatic? && why.Streaming? then now + BUSY_RETRY - UPDATE_INTERVAL else w.lastCheck)
  }

  // ---------------------------------------------------------------- steps

  function Go(w: World, t: nat, pc: Pc): World
    requires t in w.threads
  {
    w.(threads := w.threads[t := w.threads[t].(pc := pc)])
  }

  /** The two entry points that update look for a newer release first; the other two always download. */
  predicate Updates(entry: Entry) { entry.Automatic? || entry.Requested? }

  function BeginStep(w: World, t: nat, entry: Entry, now: int): World {
    if t in w.threads then w
    else if !MayBegin(w, entry, now) then w.(threads := w.threads[t := Thread(entry, now, Over(Failed))])
    else Begun(w, entry, now).(threads := w.threads[t := Thread(entry, now, if Updates(entry) then Looking else Preparing)])
  }

  /** A thread goes on to start what it stopped, to give back the lock, or, having taken none, to the end. */
  function After(entry: Entry, stopped: bool, why: Outcome): Pc {
    if stopped then Starting(why) else if Updates(entry) then Unlocking(why) else Releasing(why)
  }

  function LookStep(w: World, t: nat, newer: bool, ok: bool): World
    requires t in w.threads
  {
    if !w.threads[t].pc.Looking? then w
    else Go(w, t, if !ok then Releasing(Failed) else if !newer then Releasing(Fine) else Peeking)
  }

  function PeekStep(w: World, t: nat): World
    requires t in w.threads
  {
    if !w.threads[t].pc.Peeking? then w
    else Go(w, t, if w.threads[t].entry.Automatic? && w.sunshineActive && w.session then Releasing(Streaming) else Preparing)
  }

  function PrepareStep(w: World, t: nat, ok: bool): World
    requires t in w.threads
  {
    if !w.threads[t].pc.Preparing? then w
    else if !ok then Go(w, t, Releasing(Failed))
    else Go(w.(trees := w.trees + [Open], made := w.made[t := |w.trees|]), t,
            if Updates(w.threads[t].entry) then Waiting(|w.trees|) else Committing(|w.trees|, false))
  }

  function TakeLockStep(w: World, t: nat): World
    requires t in w.threads
  {
    var pc := w.threads[t].pc;
    if pc.Waiting? && w.lock == {} then Go(w.(lock := {t}), t, Locked(pc.tree)) else w
  }

  function LookAgainStep(w: World, t: nat): World
    requires t in w.threads
  {
    var pc := w.threads[t].pc;
    if !pc.Locked? then w
    else Go(w, t, if !w.sunshineActive then Committing(pc.tree, false)
                  else if w.threads[t].entry.Automatic? && w.session then Discarding(pc.tree, false, Streaming)
                  else Stopping(pc.tree, w.session))
  }

  function StopStep(w: World, t: nat): World
    requires t in w.threads
  {
    var pc := w.threads[t].pc;
    if pc.Stopping? then Go(w.(acts := w.acts + [Stop(t, pc.session)]), t, Committing(pc.tree, true)) else w
  }

  function CommitStep(w: World, t: nat, ok: bool): World
    requires t in w.threads
  {
    var pc := w.threads[t].pc;
    if !pc.Committing? || pc.tree >= |w.trees| then w
    else if !ok then Go(w, t, Discarding(pc.tree, pc.stopped, Failed))
    else Go(w.(trees := w.trees[pc.tree := Committed]), t, After(w.threads[t].entry, pc.stopped, Fine))
  }

  function DiscardStep(w: World, t: nat): World
    requires t in w.threads
  {
    var pc := w.threads[t].pc;
    if !pc.Discarding? || pc.tree >= |w.trees| then w
    else Go(w.(trees := w.trees[pc.tree := Discarded]), t, After(w.threads[t].entry, pc.stopped, pc.why))
  }

  function StartStep(w: World, t: nat): World
    requires t in w.threads
  {
    var pc := w.threads[t].pc;
    if pc.Starting? then Go(w.(acts := w.acts + [Start(t)]), t, Unlocking(pc.why)) else w
  }

  function UnlockStep(w: World, t: nat): World
    requires t in w.threads
  {
    var pc := w.threads[t].pc;
    if pc.Unlocking? then Go(w.(lock := w.lock - {t}), t, Releasing(pc.why)) else w
  }

  function ReleaseStep(w: World, t: nat, now: int): World
    requires t in w.threads
  {
    var pc := w.threads[t].pc;
    if pc.Releasing? then Go(Released(w, w.threads[t].entry, pc.why, now), t, Over(pc.why)) else w
  }

  function ThreadStep(w: World, e: Event, t: nat): World
    requires t in w.threads
  {
    match e
    case Look(_, newer, ok) => LookStep(w, t, newer, ok)
    case Peek(_) => PeekStep(w, t)
    case Prepare(_, ok) => PrepareStep(w, t, ok)
    case TakeLock(_) => TakeLockStep(w, t)
    case LookAgain(_) => LookAgainStep(w, t)
    case StopIt(_) => StopStep(w, t)
    case Commit(_, ok) => CommitStep(w, t, ok)
    case Discard(_) => DiscardStep(w, t)
    case StartIt(_) => StartStep(w, t)
    case Unlock(_) => UnlockStep(w, t)
    case Release(_, now) => ReleaseStep(w, t, now)
    case _ => w
  }

  /** One step; a step that is not enabled changes nothing. */
  function Step(w: World, e: Event): World {
    match e
    case Session(on) => w.(session := on)
    case SwitchBackend(to) => if w.lock == {} then w.(sunshineActive := to) else w
    case Begin(t, entry, now) => BeginStep(w, t, entry, now)
    case _ => if e.t in w.threads then ThreadStep(w, e, e.t) else w
  }

  function Run(w: World, es: seq<Event>): World {
    if es == [] then w else Step(Run(w, es[..|es| - 1]), es[|es| - 1])
  }

  function Init(lastCheck: int, lastFetch: int): World {
    World(false, lastCheck, lastFetch, {}, false, false, map[], [], map[], [])
  }

  // ---------------------------------------------------------------- what holds on every run

  predicate HasFlag(th: Thread) { !th.pc.Over? }

  predicate HasLock(th: Thread) {
    Updates(th.entry)
    && (th.pc.Locked? || th.pc.Stopping? || th.pc.Committing? || th.pc.Discarding? || th.pc.Starting? || th.pc.Unlocking?)
  }

  predicate HasTree(pc: Pc) { pc.Waiting? || pc.Locked? || pc.Stopping? || pc.Committing? || pc.Discarding? }

  /** Stopped Sunshine and has not started it again. */
  predicate OwesStart(pc: Pc) {
    (pc.Committing? && pc.stopped) || (pc.Discarding? && pc.stopped) || pc.Starting?
  }

  predicate PutOff(pc: Pc) {
    (pc.Discarding? || pc.Starting? || pc.Unlocking? || pc.Releasing?) && pc.why.Streaming?
  }

  predicate OnlyUpdates(pc: Pc) {
    pc.Looking? || pc.Peeking? || pc.Waiting? || pc.Locked? || pc.Stopping? || pc.Unlocking? || OwesStart(pc)
  }

  /** Only updates get as far as the lock, and only automatic ones give way to a session. */
  predicate Sound(th: Thread) {
    && (OnlyUpdates(th.pc) ==> Updates(th.entry))
    && (PutOff(th.pc) ==> th.entry.Automatic?)
    && (th.pc.Stopping? && th.entry.Automatic? ==> !th.pc.session)
  }

  /** Stops and starts in pairs, each pair by one thread. */
  predicate InPairs(acts: seq<Act>) {
    acts == [] ||
    (var n := |acts|; n >= 2 && acts[n - 1].Start? && acts[n - 2].Stop? && acts[n - 1].thread == acts[n - 2].thread
                      && InPairs(acts[..n - 2]))
  }

  /** In pairs, up to the stop of the thread that owes the start. */
  predicate PairsUpTo(acts: seq<Act>, t: nat, owes: bool) {
    if owes then acts != [] && acts[|acts| - 1].Stop? && acts[|acts| - 1].thread == t && InPairs(acts[..|acts| - 1])
    else InPairs(acts)
  }

  /** The one tree that is neither committed nor discarded is the thread's. */
  ghost predicate TreesOf(trees: seq<Tree>, pc: Pc) {
    && (HasTree(pc) ==> pc.tree < |trees| && trees[pc.tree].Open?)
    && (forall k | 0 <= k < |trees| :: trees[k].Open? ==> HasTree(pc) && pc.tree == k)
  }

  /** What holds while thread `th` is under way; nothing else is. */
  ghost predicate UnderWay(w: World, t: nat, th: Thread) {
    && Sound(th)
    && w.inProgress
    && (Updates(th.entry) ==> w.lastCheck == th.began)
    && (th.entry.Fetch? ==> w.lastFetch == th.began)
    && (th.pc.Stopping? || OwesStart(th.pc) ==> w.sunshineActive)
    && w.lock == (if HasLock(th) then {t} else {})
    && PairsUpTo(w.acts, t, OwesStart(th.pc))
    && TreesOf(w.trees, th.pc)
  }

  ghost predicate AtRest(w: World) {
    && !w.inProgress && w.lock == {} && InPairs(w.acts)
    && forall k | 0 <= k < |w.trees| :: !w.trees[k].Open?
  }

  predicate StopSawNoSession(w: World, a: Act) {
    a.Stop? && a.thread in w.threads && w.threads[a.thread].entry.Automatic? ==> !a.session
  }

  /** At most one thread has the flag, and what else holds of it; with none, all is at rest. */
  ghost predicate Inv(w: World) {
    && (forall t, u | t in w.threads && u in w.threads && HasFlag(w.threads[t]) && HasFlag(w.threads[u]) :: t == u)
    && (forall t | t in w.threads && HasFlag(w.threads[t]) :: UnderWay(w, t, w.threads[t]))
    && ((forall t | t in w.threads :: !HasFlag(w.threads[t])) ==> AtRest(w))
    && (forall a | a in w.acts :: a.thread in w.threads && StopSawNoSession(w, a))
  }

  /** The thread's new act, if any: an automatic stop is one that saw no session. */
  ghost predicate ActsGrow(before: seq<Act>, after: seq<Act>, t: nat, entry: Entry) {
    || after == before
    || after == before + [Start(t)]
    || exists s :: after == before + [Stop(t, s)] && (entry.Automatic? ==> !s)
  }

  /** What a thread's own step does. */
  ghost predicate Moves(w: World, n: World, t: nat)
    requires t in w.threads
  {
    && t in n.threads && n.threads == w.threads[t := w.threads[t].(pc := n.threads[t].pc)]
    && ActsGrow(w.acts, n.acts, t, w.threads[t].entry)
    && (if HasFlag(n.threads[t]) then UnderWay(n, t, n.threads[t]) else AtRest(n))
  }

  ghost predicate Enabled(w: World, t: nat) {
    t in w.threads && HasFlag(w.threads[t]) && UnderWay(w, t, w.threads[t])
  }

  lemma LookMoves(w: World, t: nat, newer: bool, ok: bool)
    requires Enabled(w, t)
    ensures Moves(w, LookStep(w, t, newer, ok), t)
  {
  }

  lemma PeekMoves(w: World, t: nat)
    requires Enabled(w, t)
    ensures Moves(w, PeekStep(w, t), t)
  {
  }

  lemma PrepareMoves(w: World, t: nat, ok: bool)
    requires Enabled(w, t)
    ensures Moves(w, PrepareStep(w, t, ok), t)
  {
  }

  lemma TakeLockMoves(w: World, t: nat)
    requires Enabled(w, t)
    ensures Moves(w, TakeLockStep(w, t), t)
  {
  }

  lemma LookAgainMoves(w: World, t: nat)
    requires Enabled(w, t)
    ensures Moves(w, LookAgainStep(w, t), t)
  {
  }

  lemma StopMoves(w: World, t: nat)
    requires Enabled(w, t)
    ensures Moves(w, StopStep(w, t), t)
  {
    if w.threads[t].pc.Stopping? { StopPairs(w.acts, t, w.threads[t].pc.session); }
  }

  lemma StopPairs(acts: seq<Act>, t: nat, session: bool)
    requires PairsUpTo(acts, t, false)
    ensures PairsUpTo(acts + [Stop(t, session)], t, true)
  {
    assert (acts + [Stop(t, session)])[..|acts|] == acts;
  }

  lemma CommitMoves(w: World, t: nat, ok: bool)
    requires Enabled(w, t)
    ensures Moves(w, CommitStep(w, t, ok), t)
  {
  }

  lemma DiscardMoves(w: World, t: nat)
    requires Enabled(w, t)
    ensures Moves(w, DiscardStep(w, t), t)
  {
  }

  lemma StartMoves(w: World, t: nat)
    requires Enabled(w, t)
    ensures Moves(w, StartStep(w, t), t)
  {
    var n := StartStep(w, t);
    if n != w {
      assert n.acts[..|n.acts| - 2] == w.acts[..|w.acts| - 1];
      assert InPairs(n.acts);
    }
  }

  lemma UnlockMoves(w: World, t: nat)
    requires Enabled(w, t)
    ensures Moves(w, UnlockStep(w, t), t)
  {
  }

  lemma ReleaseMoves(w: World, t: nat, now: int)
    requires Enabled(w, t)
    ensures Moves(w, ReleaseStep(w, t, now), t)
  {
  }

  lemma ThreadMoves(w: World, e: Event, t: nat)
    requires Enabled(w, t)
    ensures Moves(w, ThreadStep(w, e, t), t)
  {
    match e
    case Look(_, newer, ok) => LookMoves(w, t, newer, ok);
    case Peek(_) => PeekMoves(w, t);
    case Prepare(_, ok) => PrepareMoves(w, t, ok);
    case TakeLock(_) => TakeLockMoves(w, t);
    case LookAgain(_) => LookAgainMoves(w, t);
    case StopIt(_) => StopMoves(w, t);
    case Commit(_, ok) => CommitMoves(w, t, ok);
    case Discard(_) => DiscardMoves(w, t);
    case StartIt(_) => StartMoves(w, t);
    case Unlock(_) => UnlockMoves(w, t);
    case Release(_, now) => ReleaseMoves(w, t, now);
    case _ =>
  }

  lemma OverStays(w: World, e: Event, t: nat)
    requires t in w.threads && !HasFlag(w.threads[t])
    ensures ThreadStep(w, e, t) == w
  {
  }

  lemma MoveKeepsInv(w: World, n: World, t: nat)
    requires Inv(w) && Enabled(w, t) && Moves(w, n, t)
    ensures Inv(n)
  {
    assert forall u | u in n.threads && u != t :: n.threads[u] == w.threads[u];
    assert forall a | a in n.acts :: a in w.acts || a.thread == t;
  }

  lemma RefusedKeepsInv(w: World, t: nat, th: Thread)
    requires Inv(w) && t !in w.threads && !HasFlag(th)
    ensures Inv(w.(threads := w.threads[t := th]))
  {
    var n := w.(threads := w.threads[t := th]);
    assert forall u | u in w.threads :: u in n.threads && n.threads[u] == w.threads[u];
    assert forall u | u in w.threads :: UnderWay(w, u, w.threads[u]) == UnderWay(n, u, w.threads[u]);
  }

  lemma BegunKeepsInv(w: World, t: nat, entry: Entry, now: int)
    requires Inv(w) && t !in w.threads && MayBegin(w, entry, now)
    ensures Inv(BeginStep(w, t, entry, now))
  {
    var n := BeginStep(w, t, entry, now);
    assert forall u | u in w.threads :: n.threads[u] == w.threads[u];
    assert forall u | u in w.threads :: !HasFlag(w.threads[u]);
    assert UnderWay(n, t, n.threads[t]);
  }

  lemma BeginKeepsInv(w: World, t: nat, entry: Entry, now: int)
    requires Inv(w)
    ensures Inv(BeginStep(w, t, entry, now))
  {
    if t in w.threads {
    } else if MayBegin(w, entry, now) {
      BegunKeepsInv(w, t, entry, now);
    } else {
      RefusedKeepsInv(w, t, Thread(entry, now, Over(Failed)));
    }
  }

  lemma SwitchKeepsInv(w: World, on: bool, active: bool)
    requires Inv(w) && (active == w.sunshineActive || w.lock == {})
    ensures Inv(w.(session := on, sunshineActive := active))
  {
    var n := w.(session := on, sunshineActive := active);
    forall t | t in w.threads && HasFlag(w.threads[t]) ensures UnderWay(n, t, w.threads[t]) {
      assert UnderWay(w, t, w.threads[t]);
    }
  }

  lemma StepKeepsInv(w: World, e: Event)
    requires Inv(w)
    ensures Inv(Step(w, e))
  {
    match e
    case Session(on) => SwitchKeepsInv(w, on, w.sunshineActive);
    case SwitchBackend(to) => if w.lock == {} { SwitchKeepsInv(w, w.session, to); }
    case Begin(t, entry, now) => BeginKeepsInv(w, t, entry, now);
    case _ =>
      if e.t in w.threads {
        if HasFlag(w.threads[e.t]) {
          ThreadMoves(w, e, e.t);
          MoveKeepsInv(w, ThreadStep(w, e, e.t), e.t);
        } else {
          OverStays(w, e, e.t);
        }
      }
  }

  lemma {:induction false} EveryRunKeepsInv(lastCheck: int, lastFetch: int, es: seq<Event>)
    ensures Inv(Run(Init(lastCheck, lastFetch), es))
  {
    if es != [] {
      EveryRunKeepsInv(lastCheck, lastFetch, es[..|es| - 1]);
      StepKeepsInv(Run(Init(lastCheck, lastFetch), es[..|es| - 1]), es[|es| - 1]);
    }
  }

  // ---------------------------------------------------------------- what that means

  /** The flag is up exactly while a thread has it, and then only one does. */
  lemma FlagHasOneHolder(lastCheck: int, lastFetch: int, es: seq<Event>)
    ensures var w := Run(Init(lastCheck, lastFetch), es);
            && (w.inProgress <==> exists t :: t in w.threads && HasFlag(w.threads[t]))
            && (forall t, u | t in w.threads && u in w.threads && HasFlag(w.threads[t]) && HasFlag(w.threads[u]) :: t == u)
  {
    EveryRunKeepsInv(lastCheck, lastFetch, es);
  }

  /** With no update under way every stop has had its start, by the same thread and before any other stop, every
      prepared tree is committed or discarded, and the stream lock is free. */
  lemma NothingIsOwedAtRest(lastCheck: int, lastFetch: int, es: seq<Event>)
    ensures var w := Run(Init(lastCheck, lastFetch), es);
            !w.inProgress ==> InPairs(w.acts) && w.lock == {} && forall k | 0 <= k < |w.trees| :: !w.trees[k].Open?
  {
    EveryRunKeepsInv(lastCheck, lastFetch, es);
    var w := Run(Init(lastCheck, lastFetch), es);
    assert forall t | t in w.threads && HasFlag(w.threads[t]) :: UnderWay(w, t, w.threads[t]);
  }

  /** An automatic update stops Sunshine only when it saw no session under the lock. */
  lemma AutomaticSparesSessions(lastCheck: int, lastFetch: int, es: seq<Event>, k: nat)
    requires k < |Run(Init(lastCheck, lastFetch), es).acts|
    ensures var w := Run(Init(lastCheck, lastFetch), es);
            w.acts[k].thread in w.threads && StopSawNoSession(w, w.acts[k])
  {
    EveryRunKeepsInv(lastCheck, lastFetch, es);
    assert Run(Init(lastCheck, lastFetch), es).acts[k] in Run(Init(lastCheck, lastFetch), es).acts;
  }

  /** An update is put off only when it is automatic, Sunshine is the active streamer and a client streams. */
  lemma PutOffMeansStreaming(w: World, e: Event, t: nat)
    requires t in w.threads && !PutOff(w.threads[t].pc) && PutOff(ThreadStep(w, e, t).threads[t].pc)
    ensures w.threads[t].entry.Automatic? && w.sunshineActive && w.session
  {
    match e
    case Look(_, newer, ok) =>
    case Peek(_) =>
    case Prepare(_, ok) =>
    case LookAgain(_) =>
    case Commit(_, ok) =>
    case Discard(_) =>
    case _ =>
  }

  ghost predicate TreesSettle(before: seq<Tree>, after: seq<Tree>) {
    && |before| <= |after|
    && (forall k | 0 <= k < |before| :: !before[k].Open? ==> after[k] == before[k])
  }

  lemma ThreadSettles(w: World, e: Event, t: nat)
    requires Enabled(w, t)
    ensures TreesSettle(w.trees, ThreadStep(w, e, t).trees)
  {
    if e.Commit? {
    } else if e.Discard? {
    } else if e.Prepare? {
    } else {
    }
  }

  /** A tree is committed or discarded once: what became of it never changes. */
  lemma TreesAreSettledOnce(lastCheck: int, lastFetch: int, es: seq<Event>, e: Event)
    ensures TreesSettle(Run(Init(lastCheck, lastFetch), es).trees, Step(Run(Init(lastCheck, lastFetch), es), e).trees)
  {
    EveryRunKeepsInv(lastCheck, lastFetch, es);
    var w := Run(Init(lastCheck, lastFetch), es);
    if !e.Session? && !e.SwitchBackend? && !e.Begin? && e.t in w.threads {
      if HasFlag(w.threads[e.t]) { ThreadSettles(w, e, e.t); } else { OverStays(w, e, e.t); }
    }
  }

  /** The next automatic check is due 15 minutes after the postponement when a client streams, and else six
      hours after this one began. */
  lemma NextCheckIsDue(lastCheck: int, lastFetch: int, es: seq<Event>, t: nat, now: int, later: int)
    requires var w := Run(Init(lastCheck, lastFetch), es);
             t in w.threads && w.threads[t].pc.Releasing? && (w.threads[t].entry.Automatic? || w.threads[t].entry.Requested?)
    ensures var w := Run(Init(lastCheck, lastFetch), es);
            var due := if w.threads[t].pc.why.Streaming? then now + 15 * 60000 else w.threads[t].began + 6 * 3600000;
            MayBegin(Step(w, Release(t, now)), Automatic, later) <==> later >= due
  {
    EveryRunKeepsInv(lastCheck, lastFetch, es);
    var w := Run(Init(lastCheck, lastFetch), es);
    assert UnderWay(w, t, w.threads[t]);
  }

  /** And the next first-run download a minute after this one began. */
  lemma NextFetchIsDue(lastCheck: int, lastFetch: int, es: seq<Event>, t: nat, now: int, later: int)
    requires var w := Run(Init(lastCheck, lastFetch), es);
             t in w.threads && w.threads[t].pc.Releasing? && w.threads[t].entry.Fetch?
    ensures var w := Run(Init(lastCheck, lastFetch), es);
            MayBegin(Step(w, Release(t, now)), Fetch, later) <==> later >= w.threads[t].began + 60000
  {
    EveryRunKeepsInv(lastCheck, lastFetch, es);
    var w := Run(Init(lastCheck, lastFetch), es);
    assert UnderWay(w, t, w.threads[t]);
  }

  /** An entry point is turned away exactly when another thread has the flag, or it is too early for it; the thread that is
      turned away changes nothing. */
  lemma TurnedAwayExactly(w: World, t: nat, entry: Entry, now: int)
    requires t !in w.threads
    ensures var n := Step(w, Begin(t, entry, now));
            && t in n.threads && n.threads[t].entry == entry && n.threads[t].began == now
            && (HasFlag(n.threads[t]) <==>
                  && !w.inProgress
                  && (entry.Automatic? ==> now >= w.lastCheck + 6 * 3600000)
                  && (entry.Fetch? ==> now >= w.lastFetch + 60000))
            && (!HasFlag(n.threads[t]) ==> n == w.(threads := n.threads) && n.threads[t].pc == Over(Failed))
            && (entry.Fetch? || entry.Download? ==> n.lastCheck == w.lastCheck)
  {
  }

  /** Nobody switches the streamer while a thread has the lock. So what it stops, and starts again, is Sunshine as the
      active streamer. */
  lemma StopsAndStartsTheActive(lastCheck: int, lastFetch: int, es: seq<Event>, t: nat)
    requires var w := Run(Init(lastCheck, lastFetch), es);
             t in w.threads && (w.threads[t].pc.Stopping? || OwesStart(w.threads[t].pc))
    ensures Run(Init(lastCheck, lastFetch), es).sunshineActive
  {
    EveryRunKeepsInv(lastCheck, lastFetch, es);
    assert UnderWay(Run(Init(lastCheck, lastFetch), es), t, Run(Init(lastCheck, lastFetch), es).threads[t]);
  }

  // ---------------------------------------------------------------- what became of a thread's tree

  predicate BeforePreparing(pc: Pc) { pc.Looking? || pc.Peeking? || pc.Preparing? }

  /** A thread that made a tree still has it, or is on its way to the end with an outcome that tells what became of it. One
      that made none failed or was put off, or found nothing newer. */
  predicate OutcomeFits(th: Thread, made: map<nat, nat>, trees: seq<Tree>, t: nat) {
    if BeforePreparing(th.pc) then t !in made
    else if HasTree(th.pc) then
      && t in made && made[t] == th.pc.tree && th.pc.tree < |trees| && trees[th.pc.tree].Open?
      && (th.pc.Discarding? ==> !th.pc.why.Fine?)
    else if t in made then
      made[t] < |trees| && trees[made[t]] == if th.pc.why.Fine? then Committed else Discarded
    else (th.pc.why.Fine? ==> Updates(th.entry))
  }

  ghost predicate OutcomesFit(w: World) {
    forall t | t in w.threads :: OutcomeFits(w.threads[t], w.made, w.trees, t)
  }

  /** What a thread's step does to the trees: nothing, a new one of its own, or an end of its own open one. */
  predicate OwnTree(w: World, n: World, t: nat)
    requires t in w.threads
  {
    || (n.trees == w.trees && n.made == w.made)
    || (n.trees == w.trees + [Open] && n.made == w.made[t := |w.trees|])
    || (n.made == w.made && HasTree(w.threads[t].pc) && |n.trees| == |w.trees|
        && forall k | 0 <= k < |w.trees| && k != w.threads[t].pc.tree :: n.trees[k] == w.trees[k])
  }

  lemma OthersFit(w: World, n: World, t: nat, u: nat)
    requires t in w.threads && OwnTree(w, n, t) && u in w.threads && u != t && !HasFlag(w.threads[u])
    requires OutcomeFits(w.threads[u], w.made, w.trees, u)
    requires HasTree(w.threads[t].pc) && w.threads[t].pc.tree < |w.trees| ==> w.trees[w.threads[t].pc.tree].Open?
    ensures OutcomeFits(w.threads[u], n.made, n.trees, u)
  {
  }

  /** The thread's own step keeps its tree and its outcome together. */
  ghost predicate StaysFit(w: World, n: World, t: nat)
    requires t in w.threads
  {
    && t in n.threads && OwnTree(w, n, t)
    && (OutcomeFits(w.threads[t], w.made, w.trees, t) ==> OutcomeFits(n.threads[t], n.made, n.trees, t))
  }

  lemma LookFits(w: World, e: Event, t: nat)
    requires t in w.threads && Sound(w.threads[t]) && (e.Look? || e.Peek? || e.TakeLock?)
    ensures StaysFit(w, ThreadStep(w, e, t), t)
  {
    if e.Look? {} else if e.Peek? {} else {}
  }

  lemma PrepareFits(w: World, t: nat, ok: bool)
    requires t in w.threads
    ensures StaysFit(w, PrepareStep(w, t, ok), t)
  {
    assert (w.trees + [Open])[|w.trees|] == Open;
  }

  lemma SwapStepFits(w: World, e: Event, t: nat)
    requires t in w.threads && (e.LookAgain? || e.StopIt? || e.Commit? || e.Discard?)
    ensures StaysFit(w, ThreadStep(w, e, t), t)
  {
    if e.LookAgain? {} else if e.StopIt? {} else if e.Commit? { CommitFits(w, t, e.ok); } else { DiscardFits(w, t); }
  }

  lemma CommitFits(w: World, t: nat, ok: bool)
    requires t in w.threads
    ensures StaysFit(w, CommitStep(w, t, ok), t)
  {
    var pc := w.threads[t].pc;
    if pc.Committing? && pc.tree < |w.trees| {
      assert w.trees[pc.tree := Committed][pc.tree] == Committed;
    }
  }

  lemma DiscardFits(w: World, t: nat)
    requires t in w.threads
    ensures StaysFit(w, DiscardStep(w, t), t)
  {
    var pc := w.threads[t].pc;
    if pc.Discarding? && pc.tree < |w.trees| {
      assert w.trees[pc.tree := Discarded][pc.tree] == Discarded;
    }
  }

  lemma LateStepFits(w: World, e: Event, t: nat)
    requires t in w.threads && (e.StartIt? || e.Unlock? || e.Release?)
    ensures StaysFit(w, ThreadStep(w, e, t), t)
  {
    if e.StartIt? {} else if e.Unlock? {} else {}
  }

  lemma ThreadStepFits(w: World, e: Event, t: nat)
    requires Inv(w) && OutcomesFit(w) && t in w.threads && HasFlag(w.threads[t])
    requires !e.Session? && !e.SwitchBackend? && !e.Begin?
    ensures OutcomesFit(ThreadStep(w, e, t))
  {
    var n := ThreadStep(w, e, t);
    assert UnderWay(w, t, w.threads[t]);
    if e.Look? || e.Peek? || e.TakeLock? { LookFits(w, e, t); }
    else if e.Prepare? { PrepareFits(w, t, e.ok); }
    else if e.LookAgain? || e.StopIt? || e.Commit? || e.Discard? { SwapStepFits(w, e, t); }
    else { LateStepFits(w, e, t); }
    ThreadMoves(w, e, t);
    forall u | u in n.threads ensures OutcomeFits(n.threads[u], n.made, n.trees, u) {
      if u != t {
        assert n.threads[u] == w.threads[u] && !HasFlag(w.threads[u]);
        OthersFit(w, n, t, u);
      }
    }
  }

  /** Nobody that has not begun made a tree. */
  ghost predicate MadeByThreads(w: World) {
    forall t | t in w.made :: t in w.threads
  }

  lemma ThreadStepMakes(w: World, e: Event, t: nat)
    requires t in w.threads && MadeByThreads(w)
    ensures MadeByThreads(ThreadStep(w, e, t))
  {
    match e
    case Look(_, newer, ok) =>
    case Peek(_) =>
    case Prepare(_, ok) =>
    case TakeLock(_) =>
    case LookAgain(_) =>
    case StopIt(_) =>
    case Commit(_, ok) =>
    case Discard(_) =>
    case StartIt(_) =>
    case Unlock(_) =>
    case Release(_, _) =>
    case _ =>
  }

  lemma BeginFits(w: World, t: nat, entry: Entry, now: int)
    requires OutcomesFit(w) && MadeByThreads(w)
    ensures OutcomesFit(BeginStep(w, t, entry, now)) && MadeByThreads(BeginStep(w, t, entry, now))
  {
    var n := BeginStep(w, t, entry, now);
    assert n.trees == w.trees && n.made == w.made;
    forall u | u in n.threads ensures OutcomeFits(n.threads[u], n.made, n.trees, u) {
      if u in w.threads { assert n.threads[u] == w.threads[u]; }
    }
  }

  lemma StepFits(w: World, e: Event)
    requires Inv(w) && OutcomesFit(w) && MadeByThreads(w)
    ensures OutcomesFit(Step(w, e)) && MadeByThreads(Step(w, e))
  {
    if e.Session? || e.SwitchBackend? {
      assert Step(w, e).threads == w.threads && Step(w, e).trees == w.trees && Step(w, e).made == w.made;
    } else if e.Begin? {
      BeginFits(w, e.t, e.entry, e.now);
    } else if e.t in w.threads {
      ThreadStepMakes(w, e, e.t);
      if HasFlag(w.threads[e.t]) { ThreadStepFits(w, e, e.t); } else { OverStays(w, e, e.t); }
    }
  }

  lemma {:induction false} EveryRunFits(lastCheck: int, lastFetch: int, es: seq<Event>)
    ensures var w := Run(Init(lastCheck, lastFetch), es); OutcomesFit(w) && MadeByThreads(w)
  {
    if es != [] {
      EveryRunFits(lastCheck, lastFetch, es[..|es| - 1]);
      EveryRunKeepsInv(lastCheck, lastFetch, es[..|es| - 1]);
      StepFits(Run(Init(lastCheck, lastFetch), es[..|es| - 1]), es[|es| - 1]);
    }
  }

  /** On every run and for every entry point, the outcome a thread ends with tells what became of its tree: Fine means it
      was committed, Failed and Streaming that it was discarded. A thread without a tree ends as Fine only if it was to
      update and found nothing newer. */
  lemma OutcomeTellsTree(lastCheck: int, lastFetch: int, es: seq<Event>, t: nat)
    requires var w := Run(Init(lastCheck, lastFetch), es); t in w.threads && w.threads[t].pc.Over?
    ensures var w := Run(Init(lastCheck, lastFetch), es);
            var why := w.threads[t].pc.why;
            if t in w.made then w.made[t] < |w.trees| && w.trees[w.made[t]] == (if why.Fine? then Committed else Discarded)
            else why.Fine? ==> Updates(w.threads[t].entry)
  {
    EveryRunFits(lastCheck, lastFetch, es);
    var w := Run(Init(lastCheck, lastFetch), es);
    assert OutcomeFits(w.threads[t], w.made, w.trees, t);
  }

  /** A download that nothing interrupts ends as Fine exactly when the tree is prepared and committed. */
  lemma UninterruptedDownload(w: World, t: nat, ok: bool, commits: bool, now: int)
    requires t in w.threads && w.threads[t].pc.Preparing? && (w.threads[t].entry.Fetch? || w.threads[t].entry.Download?)
    ensures var n := Step(Step(Step(Step(w, Prepare(t, ok)), Commit(t, commits)), Discard(t)), Release(t, now));
            && t in n.threads && n.threads[t].pc == Over(if ok && commits then Fine else Failed) && !n.inProgress
            && n.trees == (if !ok then w.trees else w.trees + [if commits then Committed else Discarded])
            && n.made == (if ok then w.made[t := |w.trees|] else w.made)
            && n.acts == w.acts && n.lock == w.lock
  {
    var prepared := Step(w, Prepare(t, ok));
    var committed := Step(prepared, Commit(t, commits));
    if ok {
      assert prepared.trees == w.trees + [Open];
      assert prepared.trees[|w.trees| := Committed] == w.trees + [Committed];
      assert prepared.trees[|w.trees| := Discarded] == w.trees + [Discarded];
    }
  }

  // ---------------------------------------------------------------- a swap that nothing interrupts

  /** What becomes of an update that is ready to swap. */
  function SwapOutcome(active: bool, session: bool, spare: bool, commits: bool): Outcome {
    if active && spare && session then Streaming else if commits then Fine else Failed
  }

  function SwapActs(t: nat, active: bool, session: bool, spare: bool): seq<Act> {
    if active && !(spare && session) then [Stop(t, session), Start(t)] else []
  }

  /** The swap's steps up to the commit. */
  function SwapHalf(w: World, t: nat, commits: bool): World {
    Step(Step(Step(Step(w, TakeLock(t)), LookAgain(t)), StopIt(t)), Commit(t, commits))
  }

  predicate ReadyToSwap(w: World, t: nat) {
    && t in w.threads && w.threads[t].pc.Waiting? && w.threads[t].pc.tree < |w.trees| && w.lock == {}
    && (w.threads[t].entry.Automatic? || w.threads[t].entry.Requested?)
  }

  lemma SwapHalfDone(w: World, t: nat, commits: bool)
    requires ReadyToSwap(w, t)
    ensures var n := SwapHalf(w, t, commits);
            var th := w.threads[t];
            var why := SwapOutcome(w.sunshineActive, w.session, th.entry.Automatic?, commits);
            var stopped := w.sunshineActive && !(th.entry.Automatic? && w.session);
            && n.lock == {t} && t in n.threads && n.threads[t].entry == th.entry
            && n.acts == w.acts + (if stopped then [Stop(t, w.session)] else [])
            && n.threads[t].pc == (if why.Fine? then After(th.entry, stopped, Fine) else Discarding(th.pc.tree, stopped, why))
            && n.trees == (if why.Fine? then w.trees[th.pc.tree := Committed] else w.trees)
  {
    var locked := Step(w, TakeLock(t));
    assert locked.threads[t] == w.threads[t].(pc := Locked(w.threads[t].pc.tree));
    var looked := Step(locked, LookAgain(t));
    var stopped := Step(looked, StopIt(t));
    assert stopped.trees == w.trees;
  }

  /** Taken without a break, the steps come out as the outcome says, with the one tree settled, a stop and its
      start or neither, and the lock given back. */
  lemma UninterruptedSwap(w: World, t: nat, commits: bool)
    requires ReadyToSwap(w, t)
    ensures var n := Step(Step(Step(SwapHalf(w, t, commits), Discard(t)), StartIt(t)), Unlock(t));
            var th := w.threads[t];
            var spare := th.entry.Automatic?;
            var why := SwapOutcome(w.sunshineActive, w.session, spare, commits);
            && t in n.threads && n.threads[t].pc == Releasing(why) && n.lock == {}
            && n.trees == w.trees[th.pc.tree := if why.Fine? then Committed else Discarded]
            && n.acts == w.acts + SwapActs(t, w.sunshineActive, w.session, spare)
  {
    SwapHalfDone(w, t, commits);
    var half := SwapHalf(w, t, commits);
    SwapEnds(half, t);
    if half.threads[t].pc.Discarding? {
      assert half.trees == w.trees;
    }
  }

  /** The rest of a swap: what is not committed is discarded, what was stopped is started, and the lock is given back. */
  lemma SwapEnds(w: World, t: nat)
    requires t in w.threads && w.lock == {t} && Updates(w.threads[t].entry)
    requires match w.threads[t].pc
             case Discarding(tree, _, _) => tree < |w.trees|
             case Starting(_) => true
             case Unlocking(_) => true
             case _ => false
    ensures var n, pc := Step(Step(Step(w, Discard(t)), StartIt(t)), Unlock(t)), w.threads[t].pc;
            && t in n.threads && n.threads[t].pc == Releasing(pc.why) && n.lock == {}
            && n.trees == (if pc.Discarding? then w.trees[pc.tree := Discarded] else w.trees)
            && n.acts == w.acts + if pc.Starting? || (pc.Discarding? && pc.stopped) then [Start(t)] else []
  {
    var pc, settled := w.threads[t].pc, Step(w, Discard(t));
    assert settled.threads[t].pc == if pc.Discarding? then After(w.threads[t].entry, pc.stopped, pc.why) else pc;
    assert settled.acts == w.acts && settled.lock == {t};
    assert w.acts + [] == w.acts;
  }

  /** And up to there: an update whose look fails ends as Failed, one that finds nothing newer as Fine, an automatic one
      that meets a client streaming from Sunshine as Streaming, all without a tree; else it prepares one or fails. */
  lemma UninterruptedLook(w: World, t: nat, newer: bool, ok: bool, prepares: bool)
    requires t in w.threads && w.threads[t].pc.Looking? && (w.threads[t].entry.Automatic? || w.threads[t].entry.Requested?)
    ensures var n := Step(Step(Step(w, Look(t, newer, ok)), Peek(t)), Prepare(t, prepares));
            var streaming := w.threads[t].entry.Automatic? && w.sunshineActive && w.session;
            && t in n.threads && n.acts == w.acts && n.lock == w.lock
            && n.threads[t].pc == (if !ok then Releasing(Failed) else if !newer then Releasing(Fine)
                                   else if streaming then Releasing(Streaming)
                                   else if prepares then Waiting(|w.trees|) else Releasing(Failed))
            && n.trees == if ok && newer && !streaming && prepares then w.trees + [Open] else w.trees
  {
    var looked := Step(w, Look(t, newer, ok));
    var peeked := Step(looked, Peek(t));
    assert looked.trees == w.trees && peeked.trees == w.trees;
  }

  // ---------------------------------------------------------------- the session that comes too late

  /** Whether a client streams after the events, by the last that says so. */
  function LastSession(es: seq<Event>, before: bool): bool {
    if es == [] then before
    else if es[|es| - 1].Session? then es[|es| - 1].on
    else LastSession(es[..|es| - 1], before)
  }

  predicate OnlyMoves(w: World, n: World, t: nat) {
    n.session == w.session && (t in w.threads ==> t in n.threads && n.threads[t] == w.threads[t])
  }

  lemma ThreadLeavesOthers(w: World, e: Event, u: nat, t: nat)
    requires u in w.threads && u != t
    ensures OnlyMoves(w, ThreadStep(w, e, u), t)
  {
    match e
    case Look(_, _, _) =>
    case Peek(_) =>
    case Prepare(_, _) =>
    case TakeLock(_) =>
    case LookAgain(_) =>
    case StopIt(_) =>
    case Commit(_, _) =>
    case Discard(_) =>
    case StartIt(_) =>
    case Unlock(_) =>
    case Release(_, _) =>
    case _ =>
  }

  /** A thread about to stop Sunshine does nothing else. */
  lemma StoppingWaits(w: World, e: Event, t: nat)
    requires t in w.threads && w.threads[t].pc.Stopping? && e != StopIt(t)
    ensures var n := Step(w, e);
            && t in n.threads && n.threads[t] == w.threads[t]
            && n.session == if e.Session? then e.on else w.session
  {
    if e.Session? || e.SwitchBackend? || e.Begin? {
    } else if e.t in w.threads && e.t != t {
      ThreadLeavesOthers(w, e, e.t, t);
    }
  }

  lemma {:induction false} StoppingWaitsThrough(w: World, es: seq<Event>, t: nat)
    requires t in w.threads && w.threads[t].pc.Stopping? && StopIt(t) !in es
    ensures var n := Run(w, es);
            t in n.threads && n.threads[t] == w.threads[t] && n.session == LastSession(es, w.session)
  {
    if es != [] {
      assert es[|es| - 1] in es && forall e | e in es[..|es| - 1] :: e in es;
      StoppingWaitsThrough(w, es[..|es| - 1], t);
      StoppingWaits(Run(w, es[..|es| - 1]), es[|es| - 1], t);
    }
  }

  /** Whatever happens between an automatic update's look and its stop, Sunshine is stopped, and a session is cut
      exactly when the last that is heard of one in between is that it is on. */
  lemma CutsExactlyALaterSession(w: World, t: nat, es: seq<Event>)
    requires t in w.threads && w.threads[t].pc.Locked? && w.threads[t].entry.Automatic?
    requires LookAgainStep(w, t).threads[t].pc.Stopping?
    requires StopIt(t) !in es
    ensures var n := Run(LookAgainStep(w, t), es);
            && !w.session && t in n.threads && n.threads[t].pc.Stopping?
            && Step(n, StopIt(t)).acts == n.acts + [Stop(t, false)]
            && (n.session <==> LastSession(es, false))
  {
    StoppingWaitsThrough(LookAgainStep(w, t), es, t);
  }

  lemma {:induction false} RunFirst(w: World, e: Event, es: seq<Event>)
    ensures Run(w, [e] + es) == Run(Step(w, e), es)
  {
    if es == [] {
      assert ([e] + es)[..0] == [];
    } else {
      RunFirst(w, e, es[..|es| - 1]);
      assert ([e] + es)[..|es|] == [e] + es[..|es| - 1];
    }
  }

  lemma StepTo(w: World, es: seq<Event>, k: nat, n: World)
    requires k < |es| && Step(w, es[k]) == n
    ensures Run(w, es[k..]) == Run(n, es[k + 1..])
  {
    assert es[k..] == [es[k]] + es[k + 1..];
    RunFirst(w, es[k], es[k + 1..]);
  }

  /** An automatic update of the active Sunshine, up to its look under the lock, with a session just after it. */
  function LateSession(): seq<Event> {
    [SwitchBackend(true), Begin(0, Automatic, UPDATE_INTERVAL), Look(0, true, true), Peek(0), Prepare(0, true),
     TakeLock(0), LookAgain(0), Session(true), StopIt(0)]
  }

  /** The update's thread at `pc`, before it has a tree. */
  function Fetching(pc: Pc): World {
    World(true, UPDATE_INTERVAL, 0, {}, true, false, map[0 := Thread(Automatic, UPDATE_INTERVAL, pc)], [], map[], [])
  }

  /** And with one, and with the lock or not. */
  function Swapping(pc: Pc, lock: set<nat>, session: bool): World {
    World(true, UPDATE_INTERVAL, 0, lock, true, session, map[0 := Thread(Automatic, UPDATE_INTERVAL, pc)], [Open], map[0 := 0], [])
  }

  lemma LateSessionPrepares()
    ensures Run(Init(0, 0), LateSession()) == Run(Fetching(Preparing), LateSession()[4..])
  {
    var es := LateSession();
    var w1 := Init(0, 0).(sunshineActive := true);
    assert es[0..] == es;
    StepTo(Init(0, 0), es, 0, w1);
    StepTo(w1, es, 1, Fetching(Looking));
    StepTo(Fetching(Looking), es, 2, Fetching(Peeking));
    StepTo(Fetching(Peeking), es, 3, Fetching(Preparing));
  }

  lemma LateSessionWaits()
    ensures Run(Fetching(Preparing), LateSession()[4..]) == Run(Swapping(Locked(0), {0}, false), LateSession()[6..])
  {
    var es := LateSession();
    assert [] + [Open] == [Open];
    StepTo(Fetching(Preparing), es, 4, Swapping(Waiting(0), {}, false));
    StepTo(Swapping(Waiting(0), {}, false), es, 5, Swapping(Locked(0), {0}, false));
  }

  lemma LateSessionStarts()
    ensures Run(Swapping(Locked(0), {0}, false), LateSession()[6..]) == Run(Swapping(Stopping(0, false), {0}, true), LateSession()[8..])
  {
    var es := LateSession();
    StepTo(Swapping(Locked(0), {0}, false), es, 6, Swapping(Stopping(0, false), {0}, false));
    StepTo(Swapping(Stopping(0, false), {0}, false), es, 7, Swapping(Stopping(0, false), {0}, true));
  }

  /** A run from the start in which an automatic update cuts a session: the session starts between the look and the
      stop. */
  lemma SessionCanStillBeCut()
    ensures var w := Run(Init(0, 0), LateSession());
            w.session && 0 in w.threads && w.threads[0].entry.Automatic? && w.acts == [Stop(0, false)]
  {
    var es := LateSession();
    LateSessionPrepares();
    LateSessionWaits();
    LateSessionStarts();
    StepTo(Swapping(Stopping(0, false), {0}, true), es, 8, Swapping(Committing(0, true), {0}, true).(acts := [Stop(0, false)]));
    assert es[9..] == [];
  }

  // ---------------------------------------------------------------- the updater

  class SunshineUpdater {
    var inProgress: bool
    var lastCheck: int
    var lastFetch: int
    var trees: seq<Tree>
    var acts: seq<Act>

    predicate Ready(entry: Entry, now: int)
      reads this
    {
      Allowed(inProgress, lastCheck, lastFetch, entry, now)
    }

    /** fetchSunshineInBackground, its locked section. */
    method BeginFetch(now: int) returns (busy: bool)
      modifies this`inProgress, this`lastFetch
      ensures busy == !old(Ready(Fetch, now))
      ensures inProgress == (old(inProgress) || !busy)
      ensures lastFetch == if busy then old(lastFetch) else now
    {
      busy := inProgress || now - lastFetch < FETCH_RETRY;
      if !busy {
        lastFetch := now;
        inProgress := true;
      }
    }

    /** DownloadSunshine's. */
    method BeginDownload(now: int) returns (refused: bool)
      modifies this`inProgress
      ensures refused == !old(Ready(Download, now)) && inProgress
    {
      if inProgress { return true; }
      inProgress := true;
      refused := false;
    }

    /** checkSunshineUpdate's. */
    method BeginCheck(now: int) returns (due: bool)
      modifies this`inProgress, this`lastCheck
      ensures due == old(Ready(Automatic, now))
      ensures inProgress == (old(inProgress) || due)
      ensures lastCheck == if due then now else old(lastCheck)
    {
      due := now - lastCheck >= UPDATE_INTERVAL && !inProgress;
      if due {
        lastCheck := now;
        inProgress := true;
      }
    }

    /** CheckSunshineUpdateNow's. */
    method BeginCheckNow(now: int) returns (refused: bool)
      modifies this`inProgress, this`lastCheck
      ensures refused == !old(Ready(Requested, now)) && inProgress
      ensures lastCheck == if refused then old(lastCheck) else now
    {
      if inProgress { return true; }
      inProgress := true;
      lastCheck := now;
      refused := false;
    }

    /** The end of checkSunshineUpdate: the next check is due in 15 minutes when it was put off. */
    method EndCheck(why: Outcome, now: int)
      modifies this`inProgress, this`lastCheck
      ensures !inProgress
      ensures forall later :: Ready(Automatic, later) <==>
                later >= if why.Streaming? then now + BUSY_RETRY else old(lastCheck) + UPDATE_INTERVAL
    {
      if why.Streaming? {
        lastCheck := now + BUSY_RETRY - UPDATE_INTERVAL;
      }
      inProgress := false;
    }

    /** downloadSunshine: what is prepared is put in place, or thrown away again. */
    method DownloadTree(prepares: bool, commits: bool) returns (why: Outcome)
      modifies this`trees
      ensures why == if prepares && commits then Fine else Failed
      ensures trees == if prepares then old(trees) + [if commits then Committed else Discarded] else old(trees)
    {
      if !prepares {
        return Failed;
      }
      var prep := |trees|;
      trees := trees + [Open];
      if !commits {
        trees := trees[prep := Discarded];
        return Failed;
      }
      trees := trees[prep := Committed];
      why := Fine;
    }

    /** updateSunshine from the stream lock on. */
    method Swap(t: nat, tree: nat, active: bool, session: bool, spare: bool, commits: bool) returns (why: Outcome)
      requires tree < |trees|
      modifies this`trees, this`acts
      ensures why == SwapOutcome(active, session, spare, commits)
      ensures trees == old(trees)[tree := if why.Fine? then Committed else Discarded]
      ensures acts == old(acts) + SwapActs(t, active, session, spare)
    {
      if active && spare && session {
        trees := trees[tree := Discarded];
        return Streaming;
      }
      if active {
        acts := acts + [Stop(t, session)];
      }
      if commits {
        trees := trees[tree := Committed];
        why := Fine;
      } else {
        trees := trees[tree := Discarded];
        why := Failed;
      }
      if active {
        acts := acts + [Start(t)];
      }
    }
  }
}
