/** The one held mouse button of the host and who owns it (agent/internal/api/mouse_hold.go and its users
    `mouse` and `mouseWS` in agent/internal/api/server.go). Every locked section and every injection into the
    host is a step of its own, taken by sockets, their silence detectors, HTTP requests and their timers in
    any order. Times are milliseconds. */
module MouseHold {

  const HTTP_HELD_TIMEOUT := 5000

  datatype Request = Request(action: string, mask: nat, x: int, y: int)

  /** `isAbsoluteMouseAction`, which decides what is recorded; what reaches the host is decided by `Dispatch`. */
  predicate IsAbsolute(action: string) {
    action == "touch" || action == "touch_position" || action == "absolute_event" || action == "absolute"
  }

  /** The press `mouseHold` records; owner, position and time are left over once it is not held. */
  datatype Hold = Hold(held: bool, owner: nat, x: int, y: int, updated: int)

  // ---------------------------------------------------------------- the locked sections

  /** `noteMouse`: whether the request holds a button, and the record after it. */
  predicate Presses(r: Request) {
    IsAbsolute(r.action) && r.mask != 0
  }

  function Noted(h: Hold, owner: nat, r: Request, now: int): Hold {
    if !IsAbsolute(r.action) then h
    else if r.mask == 0 then h.(held := false)
    else Hold(true, owner, r.x, r.y, now)
  }

  /** `releaseHeldMouse`: owner 0 releases whoever holds. */
  predicate MayRelease(h: Hold, owner: nat) {
    h.held && (owner == 0 || h.owner == owner)
  }

  /** The check of an HTTP press's timer. */
  predicate Stale(h: Hold, owner: nat, now: int) {
    h.held && h.owner == owner && now - h.updated >= HTTP_HELD_TIMEOUT
  }

  /** The record itself, each method one locked section. */
  class MouseHoldRecord {
    var held: bool
    var owner: nat
    var x: int
    var y: int
    var updated: int

    function Current(): Hold
      reads this
    {
      Hold(held, owner, x, y, updated)
    }

    method Note(o: nat, r: Request, now: int) returns (holds: bool)
      modifies this
      ensures Current() == Noted(old(Current()), o, r, now) && holds == Presses(r)
    {
      if !IsAbsolute(r.action) {
        return false;
      }
      if r.mask == 0 {
        held := false;
        return false;
      }
      held := true;
      owner := o;
      x, y := r.x, r.y;
      updated := now;
      return true;
    }

    /** Whether `o`, an owner's number and so not 0, holds: whether its release would end a hold now. */
    method HeldBy(o: nat) returns (holds: bool)
      ensures o != 0 ==> (holds <==> MayRelease(Current(), o))
      ensures o == 0 ==> (holds <==> held && owner == 0)
    {
      holds := held && owner == o;
    }

    /** Clears the record when `o` may; the caller then injects the release at the returned position. */
    method Release(o: nat) returns (released: bool, px: int, py: int)
      modifies this
      ensures released == MayRelease(old(Current()), o)
      ensures Current() == if released then old(Current()).(held := false) else old(Current())
      ensures px == x && py == y
    {
      px, py := x, y;
      if !held || (o != 0 && owner != o) {
        return false, px, py;
      }
      held := false;
      released := true;
    }

    method TimerStale(o: nat, now: int) returns (stale: bool)
      ensures stale == Stale(Current(), o, now)
    {
      stale := held && owner == o && now - updated >= HTTP_HELD_TIMEOUT;
    }
  }

  // ---------------------------------------------------------------- the actors

  /** An absolute event on its way to the host; the axes are 16 bits wide there. */
  datatype Injection = Injection(mask: nat, x: int, y: int)

  function Axis(v: int): int { v % 0x1_0000 }

  /** What `applyMouse` calls for an action, by a list of its own. */
  datatype Call = MouseMove | MouseClick | MouseScroll | MouseAction | AbsoluteEvent(i: Injection) | NoCall

  function Dispatch(r: Request): Call {
    if r.action == "move" then MouseMove
    else if r.action == "click" then MouseClick
    else if r.action == "scroll" then MouseScroll
    else if r.action == "action" then MouseAction
    else if r.action == "touch" || r.action == "touch_position" || r.action == "absolute_event" || r.action == "absolute"
    then AbsoluteEvent(Injection(r.mask, Axis(r.x), Axis(r.y)))
    else NoCall
  }

  /** The host's latched buttons after the call; the other calls press and let go, or press nothing. */
  function Latched(host: Injection, r: Request, ok: bool): Injection {
    match Dispatch(r)
    case AbsoluteEvent(i) => if ok then i else host
    case _ => host
  }

  /** The absolute event that a noted request comes to. */
  function OwedBy(r: Request): seq<Injection> {
    match Dispatch(r)
    case AbsoluteEvent(i) => [i]
    case _ => []
  }

  function LiftAt(h: Hold): Injection { Injection(0, Axis(h.x), Axis(h.y)) }

  datatype SocketPc =
    | Fresh                       // owner drawn, the previous hold not yet released
    | Clearing(lift: Injection)   // ... cleared, its release about to be injected
    | Reading
    | Applying(r: Request)        // a message was noted and is about to be applied
    | Closing                     // the read loop is over, the deferred release has not run
    | Lifting(lift: Injection)
    | Closed

  /** The ping goroutine of a socket. */
  datatype WatchPc = Watching | Silent | Dropping(lift: Injection) | Quit

  datatype HttpPc = Asked(r: Request) | Arming(r: Request) | Sending(r: Request) | Answered

  datatype TimerPc = Unarmed | Armed(at: int) | Firing | Expiring(lift: Injection) | Spent

  datatype Actor =
    | Socket(pc: SocketPc, watch: WatchPc)
    | Http(hpc: HttpPc, timer: TimerPc)

  /** The absolute event an actor's main thread, or its ping goroutine or timer, is about to inject. */
  function Main(a: Actor): seq<Injection> {
    match a
    case Socket(Clearing(i), _) => [i]
    case Socket(Applying(r), _) => OwedBy(r)
    case Socket(Lifting(i), _) => [i]
    case Http(Arming(r), _) => OwedBy(r)
    case Http(Sending(r), _) => OwedBy(r)
    case _ => []
  }

  function Side(a: Actor): seq<Injection> {
    match a
    case Socket(_, Dropping(i)) => [i]
    case Http(_, Expiring(i)) => [i]
    case _ => []
  }

  /** `latest` is history: the absolute event owed by the last locked section that owed one. */
  datatype World = World(hold: Hold, host: Injection, latest: Injection, drawn: nat, now: int, actors: map<nat, Actor>)

  function Init(): World {
    World(Hold(false, 0, 0, 0, 0), Injection(0, 0, 0), Injection(0, 0, 0), 0, 0, map[])
  }

  datatype Action =
    | ClearAll
    | Receive(r: Request)
    | Hangup
    | CloseRelease
    | GoSilent
    | SilentRelease
    | NoteAsked
    | Arm
    | Fire
    | FireRelease
    | InjectMain(ok: bool)
    | InjectSide(ok: bool)

  datatype Event =
    | Wait(ms: nat)
    | Connect
    | Ask(r: Request)
    | Act(o: nat, a: Action)

  function Put(w: World, o: nat, a: Actor): World { w.(actors := w.actors[o := a]) }

  /** The locked section of noting `r`, after which the actor goes on as `next`. */
  function Note(w: World, o: nat, r: Request, next: Actor): World {
    Put(w.(hold := Noted(w.hold, o, r, w.now), latest := Latched(w.latest, r, true)), o, next)
  }

  /** The locked section of releasing as `as`; when it clears the hold the actor owes the release. */
  function Release(w: World, o: nat, asOwner: nat, owing: Actor, free: Actor): World {
    if MayRelease(w.hold, asOwner)
    then Put(w.(hold := w.hold.(held := false), latest := LiftAt(w.hold)), o, owing)
    else Put(w, o, free)
  }

  function Inject(w: World, i: Injection, ok: bool): World { if ok then w.(host := i) else w }

  function SocketStep(w: World, a: Action, o: nat, pc: SocketPc, watch: WatchPc): World {
    match (a, pc)
    case (ClearAll, Fresh) => Release(w, o, 0, Socket(Clearing(LiftAt(w.hold)), watch), Socket(Reading, watch))
    case (Receive(r), Reading) => Note(w, o, r, Socket(Applying(r), watch))
    case (Hangup, Reading) => Put(w, o, Socket(Closing, watch))
    case (CloseRelease, Closing) => Release(w, o, o, Socket(Lifting(LiftAt(w.hold)), watch), Socket(Closed, watch))
    case (InjectMain(ok), Clearing(i)) => Put(Inject(w, i, ok), o, Socket(Reading, watch))
    case (InjectMain(ok), Lifting(i)) => Put(Inject(w, i, ok), o, Socket(Closed, watch))
    case (InjectMain(ok), Applying(r)) => Put(w.(host := Latched(w.host, r, ok)), o, Socket(Reading, watch))
    case _ => w
  }

  function WatchStep(w: World, a: Action, o: nat, pc: SocketPc, watch: WatchPc): World {
    match (a, watch)
    case (GoSilent, Watching) => if w.hold.held && w.hold.owner == o then Put(w, o, Socket(pc, Silent)) else w
    case (SilentRelease, Silent) => Release(w, o, o, Socket(pc, Dropping(LiftAt(w.hold))), Socket(pc, Quit))
    case (InjectSide(ok), Dropping(i)) => Put(Inject(w, i, ok), o, Socket(pc, Quit))
    case _ => w
  }

  function HttpStep(w: World, a: Action, o: nat, pc: HttpPc, timer: TimerPc): World {
    match (a, pc)
    case (NoteAsked, Asked(r)) => Note(w, o, r, Http(if Presses(r) then Arming(r) else Sending(r), timer))
    case (Arm, Arming(r)) => Put(w, o, Http(Sending(r), Armed(w.now + HTTP_HELD_TIMEOUT)))
    case (InjectMain(ok), Sending(r)) => Put(w.(host := Latched(w.host, r, ok)), o, Http(Answered, timer))
    case _ => w
  }

  function TimerStep(w: World, a: Action, o: nat, pc: HttpPc, timer: TimerPc): World {
    match (a, timer)
    case (Fire, Armed(at)) =>
      if w.now < at then w else Put(w, o, Http(pc, if Stale(w.hold, o, w.now) then Firing else Spent))
    case (FireRelease, Firing) => Release(w, o, o, Http(pc, Expiring(LiftAt(w.hold))), Http(pc, Spent))
    case (InjectSide(ok), Expiring(i)) => Put(Inject(w, i, ok), o, Http(pc, Spent))
    case _ => w
  }

  function ActorStep(w: World, o: nat, a: Action): World
    requires o in w.actors
  {
    match w.actors[o]
    case Socket(pc, watch) =>
      if a.GoSilent? || a.SilentRelease? || a.InjectSide?
      then WatchStep(w, a, o, pc, watch) else SocketStep(w, a, o, pc, watch)
    case Http(pc, timer) =>
      if a.Fire? || a.FireRelease? || a.InjectSide?
      then TimerStep(w, a, o, pc, timer) else HttpStep(w, a, o, pc, timer)
  }

  /** One step of one actor; a step that is not enabled changes nothing. */
  function Step(w: World, e: Event): World {
    match e
    case Wait(ms) => w.(now := w.now + ms)
    case Connect => Put(w.(drawn := w.drawn + 1), w.drawn + 1, Socket(Fresh, Watching))
    case Ask(r) => Put(w.(drawn := w.drawn + 1), w.drawn + 1, Http(Asked(r), Unarmed))
    case Act(o, a) => if o in w.actors then ActorStep(w, o, a) else w
  }

  function Run(w: World, es: seq<Event>): World {
    if es == [] then w else Step(Run(w, es[..|es| - 1]), es[|es| - 1])
  }

  // ---------------------------------------------------------------- the two lists

  /** For every action string the record is touched exactly when the host's latched buttons are: a request that is recorded
      latches the buttons that it records, at its position, and one that is not leaves both alone. */
  lemma RecordedExactlyWhenLatched(h: Hold, owner: nat, r: Request, now: int, host: Injection)
    ensures var n, after := Noted(h, owner, r, now), Latched(host, r, true);
            || (n == h && after == host && OwedBy(r) == [])
            || (OwedBy(r) == [after] && after == Injection(r.mask, Axis(r.x), Axis(r.y))
                && (if r.mask == 0 then n == h.(held := false) else n == Hold(true, owner, r.x, r.y, now)))
    ensures Presses(r) <==> OwedBy(r) != [] && r.mask != 0
  {
  }

  /** The actions of the mouse tool that have no path of their own, and those of the documented endpoint. */
  const MCP_ACTIONS: set<string> := {"move", "click", "scroll", "action", "absolute"}
  const DOCUMENTED_ACTIONS: set<string> := {"move", "click", "scroll", "touch", "touch_position"}

  /** Each of them does something; with a position, it moves the host's pointer there with the buttons asked for. */
  lemma AdvertisedActionsAreHandled(r: Request)
    requires r.action in MCP_ACTIONS + DOCUMENTED_ACTIONS
    ensures Dispatch(r) != NoCall
    ensures r.action in {"absolute", "touch", "touch_position"} ==> Dispatch(r) == AbsoluteEvent(Injection(r.mask, Axis(r.x), Axis(r.y)))
  {
  }

  // ---------------------------------------------------------------- no orphan press

  /** The owner of a recorded hold that can still release it: a socket whose deferred release has not run, a
      request about to arm its timer, or a timer that has not checked yet or is about to release. */
  predicate Answerable(a: Actor) {
    match a
    case Socket(pc, _) => pc.Reading? || pc.Applying? || pc.Closing?
    case Http(pc, timer) => pc.Arming? || timer.Armed? || timer.Firing?
  }

  /** The actor has noted nothing yet. */
  predicate Unnoted(a: Actor) {
    if a.Socket? then a.pc.Fresh? || a.pc.Clearing? else a.hpc.Asked?
  }

  /** A request arms its timer once, after noting its press. */
  predicate TimerInOrder(a: Actor) {
    a.Http? && (a.hpc.Asked? || a.hpc.Arming?) ==> a.timer.Unarmed?
  }

  /** Owner `a` of hold `h` can still release it, and a timer it has armed will find the press stale. */
  predicate Covers(h: Hold, a: Actor) {
    Answerable(a) && !Unnoted(a) && (a.Http? && a.timer.Armed? ==> h.updated + HTTP_HELD_TIMEOUT <= a.timer.at)
  }

  ghost predicate Inv(w: World) {
    && (forall o | o in w.actors :: 1 <= o <= w.drawn && TimerInOrder(w.actors[o]))
    && (w.hold.held ==>
          && w.hold.updated <= w.now
          && w.hold.owner in w.actors
          && Covers(w.hold, w.actors[w.hold.owner]))
  }

  lemma SocketKeepsInv(w: World, o: nat, a: Action)
    requires Inv(w) && o in w.actors && w.actors[o].Socket?
    ensures Inv(ActorStep(w, o, a))
  {
    if a.GoSilent? || a.SilentRelease? || a.InjectSide? {} else {}
  }

  lemma HttpKeepsInv(w: World, o: nat, a: Action)
    requires Inv(w) && o in w.actors && w.actors[o].Http?
    ensures Inv(ActorStep(w, o, a))
  {
    if a.Fire? || a.FireRelease? || a.InjectSide? {} else {}
  }

  lemma StepKeepsInv(w: World, e: Event)
    requires Inv(w)
    ensures Inv(Step(w, e))
  {
    if e.Act? && e.o in w.actors {
      if w.actors[e.o].Socket? { SocketKeepsInv(w, e.o, e.a); } else { HttpKeepsInv(w, e.o, e.a); }
    }
  }

  lemma {:induction false} EveryRunKeepsInv(es: seq<Event>)
    ensures Inv(Run(Init(), es))
  {
    if es != [] {
      EveryRunKeepsInv(es[..|es| - 1]);
      StepKeepsInv(Run(Init(), es[..|es| - 1]), es[|es| - 1]);
    }
  }

  /** Whatever the interleaving, a recorded hold has an owner, other than 0, that can still release it. */
  lemma NoOrphanPress(es: seq<Event>)
    ensures var w := Run(Init(), es);
            w.hold.held ==> w.hold.owner != 0 && w.hold.owner in w.actors && Answerable(w.actors[w.hold.owner])
  {
    EveryRunKeepsInv(es);
  }

  /** Owners are drawn once: an id given out names no earlier socket or request. */
  lemma OwnersAreUnique(es: seq<Event>)
    ensures var w := Run(Init(), es); w.drawn + 1 !in w.actors && 0 !in w.actors
  {
    EveryRunKeepsInv(es);
  }

  /** A closing socket, a silent one and a firing timer only ever end their own owner's hold. Another owner's
      hold ends by a new connection or by being noted over. */
  lemma OnlyOwnHoldReleased(w: World, e: Event)
    requires Inv(w) && w.hold.held
    requires Step(w, e).hold != w.hold
    ensures e.Act?
    ensures || e.o == w.hold.owner
            || e.a.ClearAll?
            || (e.a.Receive? && IsAbsolute(e.a.r.action))
            || (e.a.NoteAsked? && w.actors[e.o].hpc.Asked? && IsAbsolute(w.actors[e.o].hpc.r.action))
    ensures e.a.CloseRelease? || e.a.SilentRelease? || e.a.FireRelease? ==> e.o == w.hold.owner
  {
    assert e.Act? && e.o in w.actors;
    if w.actors[e.o].Socket? {} else {}
  }

  /** The timer of a request that still holds fires for good: it finds the press stale and releases it, and the host lets
      go of the button where it was held. */
  lemma TimerReleasesHeldPress(w: World, o: nat)
    requires Inv(w) && w.hold.held && w.hold.owner == o && o in w.actors
    requires w.actors[o].Http? && w.actors[o].timer.Armed? && w.now >= w.actors[o].timer.at
    ensures var fired := Step(w, Act(o, Fire));
            var n := Step(fired, Act(o, FireRelease));
            && fired.actors[o].timer == Firing && fired.hold == w.hold
            && !n.hold.held && n.actors[o].timer == Expiring(LiftAt(w.hold))
            && Step(n, Act(o, InjectSide(true))).host == Injection(0, Axis(w.hold.x), Axis(w.hold.y))
  {
    var n := Step(Step(w, Act(o, Fire)), Act(o, FireRelease));
    assert n.actors[o] == Http(w.actors[o].hpc, Expiring(LiftAt(w.hold)));
  }

  /** A new socket ends whoever's hold there is, and the host lets go of the button before the socket reads on. */
  lemma NewSocketClears(w: World, o: nat)
    requires o in w.actors && w.actors[o].Socket? && w.actors[o].pc.Fresh?
    ensures var n := Step(w, Act(o, ClearAll));
            && !n.hold.held && o in n.actors && n.host == w.host
            && (if w.hold.held
                then n.actors[o] == Socket(Clearing(LiftAt(w.hold)), w.actors[o].watch)
                     && Step(n, Act(o, InjectMain(true))).host == Injection(0, Axis(w.hold.x), Axis(w.hold.y))
                else n.actors[o] == Socket(Reading, w.actors[o].watch))
  {
  }

  /** A closing socket ends its own hold in the same way, and no other's. */
  lemma ClosingSocketReleases(w: World, o: nat)
    requires o in w.actors && w.actors[o].Socket? && w.actors[o].pc.Closing? && o != 0
    ensures var n := Step(w, Act(o, CloseRelease));
            if w.hold.held && w.hold.owner == o
            then !n.hold.held && Step(n, Act(o, InjectMain(true))).host == Injection(0, Axis(w.hold.x), Axis(w.hold.y))
            else n.hold == w.hold && o in n.actors && n.actors[o].pc.Closed?
  {
    if w.hold.held && w.hold.owner == o {
      assert Step(w, Act(o, CloseRelease)).actors[o] == Socket(Lifting(LiftAt(w.hold)), w.actors[o].watch);
    }
  }

  /** A socket that falls silent while it holds is released as well; one that does not hold is left alone. */
  lemma SilentSocketIsReleased(w: World, o: nat)
    requires o in w.actors && w.actors[o].Socket? && w.actors[o].watch.Watching? && o != 0
    ensures var silent := Step(w, Act(o, GoSilent));
            var n := Step(silent, Act(o, SilentRelease));
            if w.hold.held && w.hold.owner == o
            then !n.hold.held && Step(n, Act(o, InjectSide(true))).host == Injection(0, Axis(w.hold.x), Axis(w.hold.y))
            else silent == w
  {
    if w.hold.held && w.hold.owner == o {
      var pc, silent := w.actors[o].pc, Step(w, Act(o, GoSilent));
      assert silent.actors[o] == Socket(pc, Silent);
      assert Step(silent, Act(o, SilentRelease)).actors[o] == Socket(pc, Dropping(LiftAt(w.hold)));
    }
  }

  /** The locked section, the timer and the injection of an HTTP request that nothing interrupts: a press is recorded for it
      and has a timer that runs for 5 s, any other request has none; and the host is told. */
  lemma HttpRequestRuns(w: World, o: nat, r: Request)
    requires o in w.actors && w.actors[o] == Http(Asked(r), Unarmed)
    ensures var noted := Step(w, Act(o, NoteAsked));
            var n := Step(Step(noted, Act(o, Arm)), Act(o, InjectMain(true)));
            && n.hold == Noted(w.hold, o, r, w.now) && n.host == Latched(w.host, r, true) && o in n.actors
            && n.actors[o] == Http(Answered, if IsAbsolute(r.action) && r.mask != 0 then Armed(w.now + 5000) else Unarmed)
  {
    var noted := Step(w, Act(o, NoteAsked));
    assert noted.actors[o] == Http(if Presses(r) then Arming(r) else Sending(r), Unarmed);
    var armed := Step(noted, Act(o, Arm));
    assert armed.actors[o] == Http(Sending(r), if Presses(r) then Armed(w.now + 5000) else Unarmed);
  }

  /** And of a socket's message. */
  lemma SocketMessageRuns(w: World, o: nat, r: Request)
    requires o in w.actors && w.actors[o].Socket? && w.actors[o].pc.Reading?
    ensures var n := Step(Step(w, Act(o, Receive(r))), Act(o, InjectMain(true)));
            && n.hold == Noted(w.hold, o, r, w.now) && n.host == Latched(w.host, r, true)
            && o in n.actors && n.actors[o] == w.actors[o]
  {
    assert Step(w, Act(o, Receive(r))).actors[o] == Socket(Applying(r), w.actors[o].watch);
  }

  /** A request or a connection gets an owner's number of its own, and leaves all else alone. */
  lemma NewOwners(w: World, r: Request)
    ensures Step(w, Ask(r)) == w.(drawn := w.drawn + 1, actors := w.actors[w.drawn + 1 := Http(Asked(r), Unarmed)])
    ensures Step(w, Connect) == w.(drawn := w.drawn + 1, actors := w.actors[w.drawn + 1 := Socket(Fresh, Watching)])
  {
  }

  /** An HTTP request up to its answer. */
  function Requested(w: World, r: Request): World {
    var o := w.drawn + 1;
    Step(Step(Step(Step(w, Ask(r)), Act(o, NoteAsked)), Act(o, Arm)), Act(o, InjectMain(true)))
  }

  lemma RequestedHolds(w: World, r: Request)
    requires Presses(r)
    ensures var n, o := Requested(w, r), w.drawn + 1;
            && n.hold == Hold(true, o, r.x, r.y, w.now) && n.now == w.now
            && o in n.actors && n.actors[o] == Http(Answered, Armed(w.now + 5000))
            && n.host == Injection(r.mask, Axis(r.x), Axis(r.y))
  {
    var o := w.drawn + 1;
    NewOwners(w, r);
    HttpRequestRuns(Step(w, Ask(r)), o, r);
    RecordedExactlyWhenLatched(w.hold, o, r, w.now, w.host);
    var noted := Step(Step(w, Ask(r)), Act(o, NoteAsked));
    assert noted.actors[o] == Http(Arming(r), Unarmed) && noted.now == w.now;
    assert Step(noted, Act(o, Arm)).now == w.now;
  }

  /** A timer that is armed for later does nothing; one whose time has come releases the press, if that is still held. */
  lemma TimerFires(w: World, o: nat, at: int)
    requires o in w.actors && w.actors[o] == Http(Answered, Armed(at)) && w.hold.held && w.hold.owner == o && o != 0
    requires w.now >= at ==> w.now - w.hold.updated >= 5000
    ensures var n := Step(Step(Step(w, Act(o, Fire)), Act(o, FireRelease)), Act(o, InjectSide(true)));
            if w.now < at then n == w
            else !n.hold.held && n.host == Injection(0, Axis(w.hold.x), Axis(w.hold.y))
  {
    var fired := Step(w, Act(o, Fire));
    assert fired == if w.now < at then w else Put(w, o, Http(Answered, Firing));
    if w.now >= at {
      assert Step(fired, Act(o, FireRelease)).actors[o] == Http(Answered, Expiring(LiftAt(w.hold)));
    }
  }

  /** An HTTP press that nothing follows up is lifted on the host 5 s later, where it was made, and not before. */
  lemma UnfollowedPressIsLifted(w: World, r: Request, ms: nat)
    requires Presses(r)
    ensures var o := w.drawn + 1;
            var fired := Step(Step(Requested(w, r), Wait(ms)), Act(o, Fire));
            var n := Step(Step(fired, Act(o, FireRelease)), Act(o, InjectSide(true)));
            if ms < 5000 then n.hold.held && n.host.mask == r.mask
            else !n.hold.held && n.host == Injection(0, Axis(r.x), Axis(r.y))
  {
    RequestedHolds(w, r);
    TimerFires(Step(Requested(w, r), Wait(ms)), w.drawn + 1, w.now + 5000);
  }

  /** Once its timer is through, or its socket closed, an owner holds nothing. */
  lemma SpentOwnerHoldsNothing(es: seq<Event>, o: nat)
    requires o in Run(Init(), es).actors
    requires match Run(Init(), es).actors[o]
             case Socket(pc, _) => pc.Lifting? || pc.Closed?
             case Http(pc, timer) => timer.Expiring? || timer.Spent?
    ensures var h := Run(Init(), es).hold; !(h.held && h.owner == o)
  {
    EveryRunKeepsInv(es);
  }

  // ---------------------------------------------------------------- agreement with the host's button mask

  /** The record and an absolute event agree: a button is held exactly when the event presses, and there. */
  predicate Settled(h: Hold, i: Injection) {
    && (h.held <==> i.mask != 0)
    && (h.held ==> i.x == Axis(h.x) && i.y == Axis(h.y))
  }

  lemma LatestStep(w: World, e: Event)
    requires Settled(w.hold, w.latest)
    ensures Settled(Step(w, e).hold, Step(w, e).latest)
  {
    if e.Act? && e.o in w.actors {
      if w.actors[e.o].Socket? {
        if e.a.GoSilent? || e.a.SilentRelease? || e.a.InjectSide? {} else {}
      } else {
        if e.a.Fire? || e.a.FireRelease? || e.a.InjectSide? {} else {}
      }
    }
  }

  /** In every run the record agrees with the event owed by the last locked section that owed one, position and all. */
  lemma {:induction false} RecordAgreesWithLatest(es: seq<Event>)
    ensures var w := Run(Init(), es); Settled(w.hold, w.latest)
  {
    if es != [] {
      RecordAgreesWithLatest(es[..|es| - 1]);
      LatestStep(Run(Init(), es[..|es| - 1]), es[|es| - 1]);
    }
  }

  predicate NothingOwed(w: World) {
    forall o | o in w.actors :: Main(w.actors[o]) == [] && Side(w.actors[o]) == []
  }

  /** Only actor `o` owes an event, `i`. */
  predicate OnlyOwes(w: World, o: nat, i: Injection) {
    && o in w.actors && Main(w.actors[o]) + Side(w.actors[o]) == [i]
    && forall p | p in w.actors && p != o :: Main(w.actors[p]) == [] && Side(w.actors[p]) == []
  }

  predicate IsSection(a: Action) {
    a.ClearAll? || a.Receive? || a.CloseRelease? || a.SilentRelease? || a.NoteAsked? || a.FireRelease?
  }

  /** Sections and injections one after the other: a locked section starts with no event owed, and the host
      takes every event. */
  predicate InTurn(w: World, e: Event) {
    e.Act? ==>
      && (IsSection(e.a) ==> NothingOwed(w))
      && (e.a.InjectMain? ==> e.a.ok) && (e.a.InjectSide? ==> e.a.ok)
  }

  predicate AllInTurn(es: seq<Event>) {
    es == [] || (AllInTurn(es[..|es| - 1]) && InTurn(Run(Init(), es[..|es| - 1]), es[|es| - 1]))
  }

  /** Either everything reached the host, or one event is on its way and it is the latest one. */
  ghost predicate Serial(w: World) {
    || (NothingOwed(w) && w.host == w.latest)
    || exists o :: OnlyOwes(w, o, w.latest)
  }

  lemma SectionKeepsSerial(w: World, o: nat, a: Action)
    requires o in w.actors && IsSection(a) && NothingOwed(w) && w.host == w.latest
    ensures Serial(ActorStep(w, o, a))
  {
    var n := ActorStep(w, o, a);
    if Main(n.actors[o]) == [] && Side(n.actors[o]) == [] {
      assert NothingOwed(n);
    } else {
      assert OnlyOwes(n, o, n.latest);
    }
  }

  /** What an action outside the locked sections does to what is owed: nothing, or the event owed reaches the host. */
  lemma OwedAfter(w: World, o: nat, a: Action)
    requires o in w.actors && !IsSection(a) && InTurn(w, Act(o, a))
    requires |Main(w.actors[o]) + Side(w.actors[o])| <= 1 && TimerInOrder(w.actors[o])
    ensures var n := ActorStep(w, o, a);
            var owed, left := Main(w.actors[o]) + Side(w.actors[o]), Main(n.actors[o]) + Side(n.actors[o]);
            && n.latest == w.latest && n.actors == w.actors[o := n.actors[o]]
            && ((left == owed && n.host == w.host) || (left == [] && owed == [n.host]))
  {
    assert Main(w.actors[o]) == [] || Side(w.actors[o]) == [];
    match w.actors[o]
    case Socket(pc, watch) => if a.GoSilent? || a.InjectSide? {} else {}
    case Http(pc, timer) => if a.Fire? || a.InjectSide? {} else {}
  }

  lemma OtherActionKeepsSerial(w: World, o: nat, a: Action)
    requires o in w.actors && !IsSection(a) && Serial(w) && Inv(w) && InTurn(w, Act(o, a))
    ensures Serial(ActorStep(w, o, a))
  {
    var n := ActorStep(w, o, a);
    if NothingOwed(w) && w.host == w.latest {
      OwedAfter(w, o, a);
      assert NothingOwed(n);
    } else {
      var p :| OnlyOwes(w, p, w.latest);
      OwedAfter(w, o, a);
      if p == o && Main(n.actors[o]) + Side(n.actors[o]) == [] {
        assert NothingOwed(n) && n.host == n.latest;
      } else {
        assert OnlyOwes(n, p, n.latest);
      }
    }
  }

  lemma SerialStep(w: World, e: Event)
    requires Serial(w) && Inv(w) && InTurn(w, e)
    ensures Serial(Step(w, e))
  {
    if e.Act? && e.o in w.actors {
      if IsSection(e.a) {
        SectionKeepsSerial(w, e.o, e.a);
      } else {
        OtherActionKeepsSerial(w, e.o, e.a);
      }
    } else {
      var n := Step(w, e);
      if NothingOwed(w) && w.host == w.latest {
        assert NothingOwed(n);
      } else {
        var p :| OnlyOwes(w, p, w.latest);
        assert OnlyOwes(n, p, n.latest);
      }
    }
  }

  /** Sections and injections in turn: whenever no event is on its way, a button is held on the host exactly
      when the record says so, at the recorded position. */
  lemma {:induction false} RecordAgreesWithHost(es: seq<Event>)
    requires AllInTurn(es)
    ensures Serial(Run(Init(), es))
    ensures var w := Run(Init(), es); NothingOwed(w) ==> Settled(w.hold, w.host)
  {
    if es != [] {
      RecordAgreesWithHost(es[..|es| - 1]);
      EveryRunKeepsInv(es[..|es| - 1]);
      SerialStep(Run(Init(), es[..|es| - 1]), es[|es| - 1]);
    }
    RecordAgreesWithLatest(es);
  }

  /** So a button held on the host then has an owner that can still release it, at the position it is held at. */
  lemma NoOrphanPressOnHost(es: seq<Event>)
    requires AllInTurn(es) && NothingOwed(Run(Init(), es)) && Run(Init(), es).host.mask != 0
    ensures var w := Run(Init(), es);
            && w.hold.held && w.hold.owner in w.actors && Answerable(w.actors[w.hold.owner])
            && w.host.x == Axis(w.hold.x) && w.host.y == Axis(w.hold.y)
  {
    RecordAgreesWithHost(es);
    NoOrphanPress(es);
  }

  lemma {:induction false} RunFirst(w: World, e: Event, es: seq<Event>)
    ensures Run(w, [e] + es) == Run(Step(w, e), es)
  {
    if es == [] {
      assert ([e] + es)[..0] == [] && Run(w, []) == w;
    } else {
      assert ([e] + es)[..|es|] == [e] + es[..|es| - 1];
      RunFirst(w, e, es[..|es| - 1]);
    }
  }

  /** The first socket is about to apply the press that it noted. */
  function PressNoted(r: Request): World {
    World(Hold(true, 1, 10, 20, 0), Injection(0, 0, 0), Injection(1, 10, 20), 1, 0, map[1 := Socket(Applying(r), Watching)])
  }

  lemma NotingThePress(r: Request, es: seq<Event>)
    requires r == Request("absolute", 1, 10, 20)
    requires |es| > 2 && es[0] == Connect && es[1] == Act(1, ClearAll) && es[2] == Act(1, Receive(r))
    ensures Run(Init(), es) == Run(PressNoted(r), es[3..])
  {
    var w1 := Init().(drawn := 1, actors := map[1 := Socket(Fresh, Watching)]);
    var w2 := w1.(actors := map[1 := Socket(Reading, Watching)]);
    StepTo(Init(), es, 0, w1);
    StepTo(w1, es, 1, w2);
    StepTo(w2, es, 2, PressNoted(r));
    assert es[0..] == es;
  }

  /** A second socket connects and clears the hold before the press is applied. */
  lemma ClearedBeforeApplied(r: Request, es: seq<Event>)
    requires r == Request("absolute", 1, 10, 20) && |es| > 5
    requires es[3] == Connect && es[4] == Act(2, ClearAll) && es[5] == Act(2, InjectMain(true))
    ensures Run(PressNoted(r), es[3..]) == Run(PressLate(r, Applying(r), Injection(0, 10, 20)), es[6..])
  {
    var sa, w3 := Socket(Applying(r), Watching), PressNoted(r);
    var w4 := w3.(drawn := 2, actors := map[1 := sa, 2 := Socket(Fresh, Watching)]);
    var w5 := w4.(actors := map[1 := sa, 2 := Socket(Clearing(Injection(0, 10, 20)), Watching)],
                  hold := Hold(false, 1, 10, 20, 0), latest := Injection(0, 10, 20));
    StepTo(w3, es, 3, w4);
    StepTo(w4, es, 4, w5);
    StepTo(w5, es, 5, PressLate(r, Applying(r), Injection(0, 10, 20)));
  }

  /** The hold is cleared, and the first socket is at `pc`. */
  function PressLate(r: Request, pc: SocketPc, host: Injection): World {
    World(Hold(false, 1, 10, 20, 0), host, Injection(0, 10, 20), 2, 0,
          map[1 := Socket(pc, Watching), 2 := Socket(Reading, Watching)])
  }

  /** Out of turn they can part for good: a press is noted, a second socket connects and clears it, and only
      then the press reaches the host. No hold is recorded any more, so no release will ever lift it. */
  lemma PressCanOutliveItsHold()
    ensures var r := Request("absolute", 1, 10, 20);
            var w := Run(Init(), [Connect, Act(1, ClearAll), Act(1, Receive(r)), Connect, Act(2, ClearAll),
                                  Act(2, InjectMain(true)), Act(1, InjectMain(true))]);
            NothingOwed(w) && !w.hold.held && w.host.mask == 1
  {
    var r := Request("absolute", 1, 10, 20);
    var es := [Connect, Act(1, ClearAll), Act(1, Receive(r)), Connect, Act(2, ClearAll),
               Act(2, InjectMain(true)), Act(1, InjectMain(true))];
    NotingThePress(r, es);
    ClearedBeforeApplied(r, es);
    var w6, w7 := PressLate(r, Applying(r), Injection(0, 10, 20)), PressLate(r, Reading, Injection(1, 10, 20));
    StepTo(w6, es, 6, w7);
    assert Run(w7, es[7..]) == w7;
  }

  lemma StepTo(w: World, es: seq<Event>, k: nat, n: World)
    requires k < |es| && Step(w, es[k]) == n
    ensures Run(w, es[k..]) == Run(n, es[k + 1..])
  {
    RunFirst(w, es[k], es[k + 1..]);
    assert es[k..] == [es[k]] + es[k + 1..];
  }
}
