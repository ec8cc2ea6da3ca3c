/** When the record of the held mouse button and the host part (agent/internal/api/mouse_hold.go and its users in
    agent/internal/api/server.go): the locked sections that owe the host an event are numbered, and the events reach
    the host, or fail to, under their section's number. */
module MouseOrder {

  import opened MouseHold

  /** Where an event is owed: by an actor's main thread, or by its ping goroutine or timer. */
  datatype Slot = MainOf(o: nat) | SideOf(o: nat)

  /** An injection, with the number of the section that owed it. */
  datatype Try = Try(no: nat, i: Injection, ok: bool)

  /** A run with the number of its last section, those of the events owed, and the injections so far. */
  datatype Traced = Traced(w: World, sections: nat, numbers: map<Slot, nat>, tries: seq<Try>)

  function OwedAt(w: World, s: Slot): seq<Injection> {
    if s.o !in w.actors then [] else if s.MainOf? then Main(w.actors[s.o]) else Side(w.actors[s.o])
  }

  /** Whose event an action is about. */
  function SlotOf(o: nat, a: Action): Slot {
    if a.GoSilent? || a.SilentRelease? || a.InjectSide? || a.Fire? || a.FireRelease? then SideOf(o) else MainOf(o)
  }

  function Succeeds(a: Action): bool { (a.InjectMain? || a.InjectSide?) && a.ok }

  /** What an actor's step adds: a numbered event when it comes to owe one, an injection when it owes it no more. */
  function Noted(t: Traced, n: World, s: Slot, ok: bool): Traced {
    var before, after := OwedAt(t.w, s), OwedAt(n, s);
    if before == [] && after != [] then Traced(n, t.sections + 1, t.numbers[s := t.sections + 1], t.tries)
    else if before != [] && after == [] && s in t.numbers
    then Traced(n, t.sections, t.numbers - {s}, t.tries + [Try(t.numbers[s], before[0], ok)])
    else t.(w := n)
  }

  function TraceStep(t: Traced, e: Event): Traced {
    if e.Act? then Noted(t, Step(t.w, e), SlotOf(e.o, e.a), Succeeds(e.a)) else t.(w := Step(t.w, e))
  }

  function Trace(es: seq<Event>): Traced {
    if es == [] then Traced(Init(), 0, map[], []) else TraceStep(Trace(es[..|es| - 1]), es[|es| - 1])
  }

  lemma {:induction false} TraceIsRun(es: seq<Event>)
    ensures Trace(es).w == Run(Init(), es)
  {
    if es != [] { TraceIsRun(es[..|es| - 1]); }
  }

  // ---------------------------------------------------------------- what one action does

  const NOTHING: Injection := Injection(0, 0, 0)

  /** The event that the host got last, a lift before any. */
  function LastOk(tries: seq<Try>): Injection {
    if tries == [] then NOTHING
    else if tries[|tries| - 1].ok then tries[|tries| - 1].i
    else LastOk(tries[..|tries| - 1])
  }

  /** One slot: nothing, a section that comes to owe the latest event, or an injection of what was owed. */
  predicate OneOf(w: World, n: World, s: Slot, ok: bool) {
    var before, after := OwedAt(w, s), OwedAt(n, s);
    || (after == before && n.latest == w.latest && n.host == w.host)
    || (before == [] && after == [n.latest] && n.host == w.host)
    || (|before| == 1 && after == [] && n.latest == w.latest && n.host == if ok then before[0] else w.host)
  }

  lemma SocketAct(w: World, o: nat, a: Action)
    requires o in w.actors && w.actors[o].Socket?
    ensures var n := ActorStep(w, o, a);
            && o in n.actors && n.actors == w.actors[o := n.actors[o]]
            && OneOf(w, n, SlotOf(o, a), Succeeds(a))
            && (SlotOf(o, a).MainOf? ==> Side(n.actors[o]) == Side(w.actors[o]))
            && (SlotOf(o, a).SideOf? ==> Main(n.actors[o]) == Main(w.actors[o]))
  {
    if a.GoSilent? || a.SilentRelease? || a.InjectSide? {
      match w.actors[o].watch
      case Watching =>
      case Silent =>
      case Dropping(_) =>
      case Quit =>
    } else {
      match w.actors[o].pc
      case Fresh =>
      case Clearing(_) =>
      case Reading =>
      case Applying(_) =>
      case Closing =>
      case Lifting(_) =>
      case Closed =>
    }
  }

  lemma HttpAct(w: World, o: nat, a: Action)
    requires o in w.actors && w.actors[o].Http? && TimerInOrder(w.actors[o])
    ensures var n := ActorStep(w, o, a);
            && o in n.actors && n.actors == w.actors[o := n.actors[o]]
            && OneOf(w, n, SlotOf(o, a), Succeeds(a))
            && (SlotOf(o, a).MainOf? ==> Side(n.actors[o]) == Side(w.actors[o]))
            && (SlotOf(o, a).SideOf? ==> Main(n.actors[o]) == Main(w.actors[o]))
  {
    if a.Fire? || a.FireRelease? || a.InjectSide? {
      match w.actors[o].timer
      case Unarmed =>
      case Armed(_) =>
      case Firing =>
      case Expiring(_) =>
      case Spent =>
    } else {
      match w.actors[o].hpc
      case Asked(_) =>
      case Arming(_) =>
      case Sending(_) =>
      case Answered =>
    }
  }

  /** The other slots stay as they are. */
  lemma ActTouchesOneSlot(w: World, o: nat, a: Action)
    requires o in w.actors && TimerInOrder(w.actors[o])
    ensures OneOf(w, ActorStep(w, o, a), SlotOf(o, a), Succeeds(a))
    ensures forall s: Slot | s != SlotOf(o, a) :: OwedAt(ActorStep(w, o, a), s) == OwedAt(w, s)
  {
    if w.actors[o].Socket? { SocketAct(w, o, a); } else { HttpAct(w, o, a); }
  }

  // ---------------------------------------------------------------- on every run

  /** Exactly the owed events have numbers, each at most the last section's. */
  ghost predicate Numbered(t: Traced) {
    && (forall s: Slot :: s in t.numbers <==> OwedAt(t.w, s) != [])
    && (forall s: Slot | s in t.numbers :: 1 <= t.numbers[s] <= t.sections)
    && (forall k | 0 <= k < |t.tries| :: 1 <= t.tries[k].no <= t.sections)
  }

  /** The last section's event is the latest one, wherever it is. */
  ghost predicate LatestIsLast(t: Traced) {
    && (t.sections == 0 ==> t.w.latest == NOTHING)
    && (forall s: Slot | s in t.numbers && t.numbers[s] == t.sections :: OwedAt(t.w, s) == [t.w.latest])
    && (forall k | 0 <= k < |t.tries| && t.tries[k].no == t.sections :: t.tries[k].i == t.w.latest)
  }

  ghost predicate LastIsSomewhere(t: Traced) {
    t.sections == 0
    || (exists s: Slot :: s in t.numbers && t.numbers[s] == t.sections)
    || (exists k :: 0 <= k < |t.tries| && t.tries[k].no == t.sections)
  }

  ghost predicate TInv(t: Traced) {
    Numbered(t) && LatestIsLast(t) && LastIsSomewhere(t) && t.w.host == LastOk(t.tries)
  }

  ghost predicate OthersSame(w: World, n: World, s: Slot) {
    forall x: Slot | x != s :: OwedAt(n, x) == OwedAt(w, x)
  }

  lemma SectionKeepsTInv(t: Traced, n: World, s: Slot, ok: bool)
    requires TInv(t) && OthersSame(t.w, n, s)
    requires OwedAt(t.w, s) == [] && OwedAt(n, s) == [n.latest] && n.host == t.w.host
    ensures TInv(Noted(t, n, s, ok))
  {
    var m := Noted(t, n, s, ok);
    assert s in m.numbers && m.numbers[s] == m.sections;
  }

  lemma InjectionKeepsTInv(t: Traced, n: World, s: Slot, ok: bool)
    requires TInv(t) && OthersSame(t.w, n, s)
    requires |OwedAt(t.w, s)| == 1 && OwedAt(n, s) == [] && n.latest == t.w.latest
    requires n.host == if ok then OwedAt(t.w, s)[0] else t.w.host
    ensures TInv(Noted(t, n, s, ok))
  {
    var m := Noted(t, n, s, ok);
    var last := |t.tries|;
    assert m.tries[..last] == t.tries && m.tries[last] == Try(t.numbers[s], OwedAt(t.w, s)[0], ok);
    assert forall k | 0 <= k < last :: m.tries[k] == t.tries[k];
    if t.sections > 0 {
      if exists x: Slot :: x in t.numbers && t.numbers[x] == t.sections {
        var x: Slot :| x in t.numbers && t.numbers[x] == t.sections;
        if x == s { assert m.tries[last].no == m.sections; } else { assert x in m.numbers; }
      } else {
        var k :| 0 <= k < last && t.tries[k].no == t.sections;
        assert m.tries[k].no == m.sections;
      }
    }
  }

  lemma IdleKeepsTInv(t: Traced, n: World)
    requires TInv(t) && n.latest == t.w.latest && n.host == t.w.host
    requires forall x: Slot :: OwedAt(n, x) == OwedAt(t.w, x)
    ensures TInv(t.(w := n))
  {
  }

  lemma ActKeepsTInv(t: Traced, o: nat, a: Action)
    requires TInv(t) && o in t.w.actors && TimerInOrder(t.w.actors[o])
    ensures TInv(TraceStep(t, Act(o, a)))
  {
    var n, s := ActorStep(t.w, o, a), SlotOf(o, a);
    ActTouchesOneSlot(t.w, o, a);
    assert OthersSame(t.w, n, s);
    if OwedAt(n, s) == OwedAt(t.w, s) {
      assert forall x: Slot :: OwedAt(n, x) == OwedAt(t.w, x);
      IdleKeepsTInv(t, n);
    } else if OwedAt(t.w, s) == [] {
      SectionKeepsTInv(t, n, s, Succeeds(a));
    } else {
      InjectionKeepsTInv(t, n, s, Succeeds(a));
    }
  }

  lemma StepKeepsTInv(t: Traced, e: Event)
    requires TInv(t) && Inv(t.w)
    ensures TInv(TraceStep(t, e))
  {
    if e.Act? && e.o in t.w.actors {
      ActKeepsTInv(t, e.o, e.a);
    } else {
      assert t.w.drawn + 1 !in t.w.actors;
      IdleKeepsTInv(t, Step(t.w, e));
    }
  }

  lemma {:induction false} EveryTraceKeepsTInv(es: seq<Event>)
    ensures TInv(Trace(es))
  {
    if es != [] {
      EveryTraceKeepsTInv(es[..|es| - 1]);
      EveryRunKeepsInv(es[..|es| - 1]);
      TraceIsRun(es[..|es| - 1]);
      StepKeepsTInv(Trace(es[..|es| - 1]), es[|es| - 1]);
    }
  }

  // ---------------------------------------------------------------- exactly when they part

  predicate Pressing(i: Injection) { i.mask != 0 }

  /** The record and the host say otherwise whether a button is held. */
  predicate Parted(w: World) { w.hold.held != Pressing(w.host) }

  predicate LastOkAt(tries: seq<Try>, j: nat) {
    j < |tries| && tries[j].ok && forall m | j < m < |tries| :: !tries[m].ok
  }

  /** The last section's event reached the host, and behind it, last of all, that of an earlier section, which presses
      otherwise. */
  ghost predicate Overtaken(t: Traced) {
    exists k, j | 0 <= k < j < |t.tries| ::
      && t.tries[k].ok && t.tries[k].no == t.sections && LastOkAt(t.tries, j) && t.tries[j].no < t.sections
      && Pressing(t.tries[k].i) != Pressing(t.tries[j].i)
  }

  /** The last section's event failed, and what reached the host last presses otherwise. */
  ghost predicate Lost(t: Traced) {
    exists k | 0 <= k < |t.tries| ::
      !t.tries[k].ok && t.tries[k].no == t.sections && Pressing(t.tries[k].i) != Pressing(LastOk(t.tries))
  }

  lemma {:induction false} LastOkIs(tries: seq<Try>) returns (j: nat)
    requires exists k :: 0 <= k < |tries| && tries[k].ok
    ensures LastOkAt(tries, j) && LastOk(tries) == tries[j].i
  {
    var last := |tries| - 1;
    if tries[last].ok {
      j := last;
    } else {
      var k :| 0 <= k < |tries| && tries[k].ok;
      assert tries[..last][k].ok;
      j := LastOkIs(tries[..last]);
      assert forall m | 0 <= m < last :: tries[..last][m] == tries[m];
    }
  }

  lemma LastOkAtIs(tries: seq<Try>, j: nat)
    requires LastOkAt(tries, j)
    ensures LastOk(tries) == tries[j].i
  {
    var i := LastOkIs(tries);
    assert i == j;
  }

  lemma NothingOwedNothingNumbered(t: Traced)
    requires TInv(t) && NothingOwed(t.w)
    ensures t.numbers == map[]
  {
    forall s: Slot ensures s !in t.numbers {
      assert OwedAt(t.w, s) == [];
    }
  }

  lemma PartedMeans(t: Traced) returns (k: nat)
    requires TInv(t) && NothingOwed(t.w) && Pressing(t.w.latest) != Pressing(t.w.host)
    ensures k < |t.tries| && t.tries[k].no == t.sections && t.tries[k].i == t.w.latest
  {
    NothingOwedNothingNumbered(t);
    assert |t.tries| > 0 ==> t.tries[0].no >= 1;
    k :| 0 <= k < |t.tries| && t.tries[k].no == t.sections;
  }

  lemma OvertakenMeans(t: Traced)
    requires TInv(t) && Overtaken(t)
    ensures Pressing(t.w.latest) != Pressing(t.w.host)
  {
    var k, j :| 0 <= k < j < |t.tries| && t.tries[k].ok && t.tries[k].no == t.sections && LastOkAt(t.tries, j)
      && t.tries[j].no < t.sections && Pressing(t.tries[k].i) != Pressing(t.tries[j].i);
    LastOkAtIs(t.tries, j);
  }

  lemma LostMeans(t: Traced)
    requires TInv(t) && Lost(t)
    ensures Pressing(t.w.latest) != Pressing(t.w.host)
  {
  }

  lemma OvertakenOrLost(t: Traced)
    requires TInv(t) && NothingOwed(t.w) && Pressing(t.w.latest) != Pressing(t.w.host)
    ensures Overtaken(t) || Lost(t)
  {
    var k := PartedMeans(t);
    if t.tries[k].ok {
      var j := LastOkIs(t.tries);
      assert k < j && t.tries[j].no != t.sections;
      assert Overtaken(t);
    } else {
      assert Lost(t);
    }
  }

  /** Once no event is on its way, the record and the host have parted exactly when the last section's event was
      overtaken or failed. */
  lemma PartedExactly(es: seq<Event>)
    requires NothingOwed(Run(Init(), es))
    ensures Parted(Run(Init(), es)) <==> Overtaken(Trace(es)) || Lost(Trace(es))
  {
    var t := Trace(es);
    TraceIsRun(es);
    EveryTraceKeepsTInv(es);
    RecordAgreesWithLatest(es);
    if Parted(t.w) { OvertakenOrLost(t); }
    if Overtaken(t) { OvertakenMeans(t); }
    if Lost(t) { LostMeans(t); }
  }

  /** On any run, a button held on the host has an owner that can still release it, unless the last section's event was
      overtaken or failed. */
  lemma HeldPressIsAnswerable(es: seq<Event>)
    requires NothingOwed(Run(Init(), es)) && !Overtaken(Trace(es)) && !Lost(Trace(es)) && Pressing(Run(Init(), es).host)
    ensures var w := Run(Init(), es);
            w.hold.held && w.hold.owner != 0 && w.hold.owner in w.actors && Answerable(w.actors[w.hold.owner])
  {
    PartedExactly(es);
    NoOrphanPress(es);
  }

  predicate AllReach(tries: seq<Try>) { forall k | 0 <= k < |tries| :: tries[k].ok }

  /** When every injection succeeds, only overtaking parts them. */
  lemma PartedByOvertaking(es: seq<Event>)
    requires NothingOwed(Run(Init(), es)) && AllReach(Trace(es).tries)
    ensures Parted(Run(Init(), es)) <==> Overtaken(Trace(es))
  {
    PartedExactly(es);
  }

  // ---------------------------------------------------------------- a release that fails

  function FailedRelease(r: Request): seq<Event> {
    [Connect, Act(1, ClearAll), Act(1, Receive(r)), Act(1, InjectMain(true)), Act(1, Hangup), Act(1, CloseRelease),
     Act(1, InjectMain(false))]
  }

  /** The press has reached the host, and the socket is at `pc`. */
  function Pressed(pc: SocketPc): World {
    World(Hold(true, 1, 10, 20, 0), Injection(1, 10, 20), Injection(1, 10, 20), 1, 0, map[1 := Socket(pc, Watching)])
  }

  lemma PressReaches(r: Request)
    requires r == Request("absolute", 1, 10, 20)
    ensures Run(Init(), FailedRelease(r)) == Run(Pressed(Closing), FailedRelease(r)[5..])
  {
    var es := FailedRelease(r);
    NotingThePress(r, es);
    StepTo(PressNoted(r), es, 3, Pressed(Reading));
    StepTo(Pressed(Reading), es, 4, Pressed(Closing));
  }

  /** The release of a closing socket fails: nothing is owed and no hold recorded, and the button stays down. */
  lemma FailedReleaseLeavesPress()
    ensures var w := Run(Init(), FailedRelease(Request("absolute", 1, 10, 20)));
            NothingOwed(w) && !w.hold.held && Pressing(w.host) && Parted(w)
  {
    var r := Request("absolute", 1, 10, 20);
    var es := FailedRelease(r);
    PressReaches(r);
    var w6 := Pressed(Lifting(Injection(0, 10, 20))).(hold := Hold(false, 1, 10, 20, 0), latest := Injection(0, 10, 20));
    var w7 := w6.(actors := map[1 := Socket(Closed, Watching)]);
    StepTo(Pressed(Closing), es, 5, w6);
    StepTo(w6, es, 6, w7);
    assert es[7..] == [];
  }
}
