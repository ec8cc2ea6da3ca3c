/** The engine's own update (agent/internal/adminapi/agent_update.go): handlers that check, start an install and
    report on it, and the install that runs beside them. Every section under `agentUpd.mu` is one step. */
module AgentUpdate {

  import opened Options

  /** `agentUpdateState`; a manifest is known by its version. */
  datatype State = State(pending: Option<nat>, active: bool, applying: bool, done: int, total: int, errText: string)

  /** What an install reports when it ends; success of one that replaces the binary exits the process instead. */
  datatype Result = Success | Failure(text: string)

  /** The answer to an install request. */
  datatype Reply = Started(manifest: nat) | AlreadyRunning | NothingPending

  // ---------------------------------------------------------------- the locked sections

  function Checked(s: State, found: Option<nat>): State {
    if s.active then s else s.(pending := found)
  }

  function Answer(s: State): Reply {
    if s.active then AlreadyRunning else if s.pending.None? then NothingPending else Started(s.pending.value)
  }

  function Installing(s: State): State {
    s.(active := true, applying := false, done := 0, total := 0, errText := "")
  }

  predicate Full(done: int, total: int) { total > 0 && done >= total }

  function Progressed(s: State, done: int, total: int): State {
    s.(done := done, total := total, applying := s.applying || Full(done, total))
  }

  function Finished(s: State, r: Result): State {
    match r
    case Success => s.(active := false, applying := true)
    case Failure(text) => s.(active := false, applying := false, errText := text)
  }

  // ---------------------------------------------------------------- runs

  /** An install: its manifest, what it last reported, and whether it ever reported all bytes done. */
  datatype Install = Install(manifest: nat, running: bool, done: int, total: int, full: bool)

  datatype World = World(s: State, installs: map<nat, Install>)

  datatype Event =
    | Check(found: Option<nat>)
    | Begin(i: nat)                              // an install request; `i` is new
    | Progress(i: nat, done: int, total: int)
    | Finish(i: nat, result: Result)

  function BeginStep(w: World, i: nat): World {
    if i in w.installs || !Answer(w.s).Started? then w
    else World(Installing(w.s), w.installs[i := Install(w.s.pending.value, true, 0, 0, false)])
  }

  function ProgressStep(w: World, i: nat, done: int, total: int): World {
    if i !in w.installs || !w.installs[i].running then w
    else World(Progressed(w.s, done, total),
               w.installs[i := w.installs[i].(done := done, total := total, full := w.installs[i].full || Full(done, total))])
  }

  function FinishStep(w: World, i: nat, result: Result): World {
    if i !in w.installs || !w.installs[i].running then w
    else World(Finished(w.s, result), w.installs[i := w.installs[i].(running := false)])
  }

  function Step(w: World, e: Event): World {
    match e
    case Check(found) => w.(s := Checked(w.s, found))
    case Begin(i) => BeginStep(w, i)
    case Progress(i, done, total) => ProgressStep(w, i, done, total)
    case Finish(i, result) => FinishStep(w, i, result)
  }

  function Run(w: World, es: seq<Event>): World {
    if es == [] then w else Step(Run(w, es[..|es| - 1]), es[|es| - 1])
  }

  function Init(): World {
    World(State(None, false, false, 0, 0, ""), map[])
  }

  predicate Runs(w: World, i: nat) { i in w.installs && w.installs[i].running }

  /** What the state says of the install that runs. */
  predicate Tells(s: State, run: Install) {
    && s.active && s.pending == Some(run.manifest)
    && s.done == run.done && s.total == run.total && s.applying == run.full && s.errText == ""
  }

  ghost predicate Inv(w: World) {
    && (w.s.active <==> exists i :: Runs(w, i))
    && (forall i, j | Runs(w, i) && Runs(w, j) :: i == j)
    && (forall i | Runs(w, i) :: Tells(w.s, w.installs[i]))
    && (w.s.errText != "" ==> !w.s.applying)
  }

  lemma BeginKeepsInv(w: World, i: nat)
    requires Inv(w)
    ensures Inv(BeginStep(w, i))
  {
    var n := BeginStep(w, i);
    if n != w {
      assert Runs(n, i);
      assert forall j | Runs(n, j) && j != i :: Runs(w, j);
    }
  }

  lemma ProgressKeepsInv(w: World, i: nat, done: int, total: int)
    requires Inv(w)
    ensures Inv(ProgressStep(w, i, done, total))
  {
    var n := ProgressStep(w, i, done, total);
    if Runs(w, i) {
      assert Runs(n, i);
      assert forall j | Runs(n, j) :: Runs(w, j);
    }
  }

  lemma FinishKeepsInv(w: World, i: nat, result: Result)
    requires Inv(w)
    ensures Inv(FinishStep(w, i, result))
  {
    var n := FinishStep(w, i, result);
    if Runs(w, i) {
      assert forall j | Runs(n, j) :: Runs(w, j) && j != i;
    }
  }

  lemma CheckKeepsInv(w: World, found: Option<nat>)
    requires Inv(w)
    ensures Inv(w.(s := Checked(w.s, found)))
  {
    var n := w.(s := Checked(w.s, found));
    assert forall i :: Runs(n, i) == Runs(w, i);
  }

  lemma {:induction false} EveryRunKeepsInv(es: seq<Event>)
    ensures Inv(Run(Init(), es))
  {
    if es != [] {
      var w := Run(Init(), es[..|es| - 1]);
      EveryRunKeepsInv(es[..|es| - 1]);
      match es[|es| - 1]
      case Check(found) => CheckKeepsInv(w, found);
      case Begin(i) => BeginKeepsInv(w, i);
      case Progress(i, done, total) => ProgressKeepsInv(w, i, done, total);
      case Finish(i, result) => FinishKeepsInv(w, i, result);
    }
  }

  // ---------------------------------------------------------------- what that means

  /** `active` means one running install, of the manifest that is pending; the bytes reported are its own, and it
      is said to be applying exactly when it once reported them all. */
  lemma ActiveIsOneInstall(es: seq<Event>)
    ensures var w := Run(Init(), es);
            && (w.s.active <==> exists i :: Runs(w, i))
            && (forall i, j | Runs(w, i) && Runs(w, j) :: i == j)
            && (forall i | Runs(w, i) :: Tells(w.s, w.installs[i]))
  {
    EveryRunKeepsInv(es);
  }

  /** An install that runs once reported all of its bytes. */
  ghost predicate OnceFull(es: seq<Event>, i: nat) {
    exists k | 0 <= k < |es| ::
      es[k].Progress? && es[k].i == i && 0 < es[k].total <= es[k].done && Runs(Run(Init(), es[..k]), i)
  }

  lemma OnceFullGrows(q: seq<Event>, e: Event, i: nat)
    ensures OnceFull(q + [e], i) <==>
              OnceFull(q, i) || (e.Progress? && e.i == i && 0 < e.total <= e.done && Runs(Run(Init(), q), i))
  {
    var es := q + [e];
    assert es[..|q|] == q && forall k | 0 <= k < |q| :: es[..k] == q[..k] && es[k] == q[k];
    if OnceFull(q, i) {
      var k :| 0 <= k < |q| && q[k].Progress? && q[k].i == i && 0 < q[k].total <= q[k].done && Runs(Run(Init(), q[..k]), i);
      assert es[k] == q[k] && es[..k] == q[..k];
    }
    if e.Progress? && e.i == i && 0 < e.total <= e.done && Runs(Run(Init(), q), i) { assert es[|q|] == e; }
  }

  lemma {:induction false} FullIsOnceFull(es: seq<Event>, i: nat)
    ensures (i in Run(Init(), es).installs ==> (Run(Init(), es).installs[i].full <==> OnceFull(es, i)))
    ensures i !in Run(Init(), es).installs ==> !OnceFull(es, i)
  {
    if es != [] {
      var q, e := es[..|es| - 1], es[|es| - 1];
      FullIsOnceFull(q, i);
      assert es == q + [e];
      OnceFullGrows(q, e, i);
    }
  }

  /** While an install runs the status says that it is applying exactly when it once reported all of its bytes, of at least
      one. */
  lemma ApplyingMeansAllBytes(es: seq<Event>, i: nat)
    requires Runs(Run(Init(), es), i)
    ensures Run(Init(), es).s.applying <==> OnceFull(es, i)
  {
    EveryRunKeepsInv(es);
    FullIsOnceFull(es, i);
    assert Tells(Run(Init(), es).s, Run(Init(), es).installs[i]);
  }

  /** An error is never shown beside an install that runs or applies. */
  lemma ErrorMeansStopped(es: seq<Event>)
    ensures var s := Run(Init(), es).s; s.errText != "" ==> !s.active && !s.applying
  {
    EveryRunKeepsInv(es);
    var w := Run(Init(), es);
    if w.s.active {
      var i :| Runs(w, i);
      assert Tells(w.s, w.installs[i]);
    }
  }

  /** A step changes what is pending only when no install runs, so the version being installed stays. */
  lemma PendingStaysWhileActive(es: seq<Event>, e: Event)
    ensures var w := Run(Init(), es); w.s.active ==> Step(w, e).s.pending == w.s.pending
  {
    EveryRunKeepsInv(es);
  }

  /** The bytes, the `applying` mark and the error of an install that ended. */
  predicate Reports(s: State, i: Install, result: Result) {
    && s.done == i.done && s.total == i.total && !s.active
    && s.applying == result.Success? && (result.Failure? ==> s.errText == result.text)
  }

  /** What the install reported stays in the status until the next one begins, whatever is checked meanwhile. */
  lemma {:induction false} ReportStays(w: World, i: nat, result: Result, checks: seq<Event>)
    requires Inv(w) && Runs(w, i)
    requires forall e | e in checks :: e.Check?
    ensures var n := Run(FinishStep(w, i, result), checks); i in n.installs && Reports(n.s, n.installs[i], result)
  {
    if checks == [] {
      assert Tells(w.s, w.installs[i]);
    } else {
      ReportStays(w, i, result, checks[..|checks| - 1]);
      var n := Run(FinishStep(w, i, result), checks[..|checks| - 1]);
      assert Step(n, checks[|checks| - 1]).installs == n.installs;
    }
  }

  /** The version in the status is the installed one for as long as it runs. After that a check replaces it: the
      status goes on naming the version that ended exactly when the check found it again. */
  lemma StatusNamesAnotherVersion(w: World, i: nat, result: Result, found: Option<nat>)
    requires Inv(w) && Runs(w, i)
    ensures w.s.pending == Some(w.installs[i].manifest)
    ensures var n := Step(FinishStep(w, i, result), Check(found));
            n.s.applying == result.Success? && (n.s.pending == Some(w.installs[i].manifest) <==> found == Some(w.installs[i].manifest))
  {
    assert Tells(w.s, w.installs[i]);
  }

  /** An install that succeeds, with a check for version `next` right behind it. */
  function CheckBehindInstall(version: nat, next: nat): seq<Event> {
    [Check(Some(version)), Begin(0), Progress(0, 10, 10), Finish(0, Success), Check(Some(next))]
  }

  /** From the start: the status ends up as `applying`, with a version pending that was never installed. */
  lemma UninstalledVersionIsNamed(version: nat, next: nat)
    requires version != next
    ensures var w := Run(Init(), CheckBehindInstall(version, next));
            && w.s == State(Some(next), false, true, 10, 10, "")
            && w.installs == map[0 := Install(version, false, 10, 10, true)]
  {
    var es := CheckBehindInstall(version, next);
    var pending := State(Some(version), false, false, 0, 0, "");
    assert es[..1][..0] == [] && es[..2][..1] == es[..1] && es[..3][..2] == es[..2] && es[..4][..3] == es[..3];
    assert Run(Init(), es[..1]) == World(pending, map[]);
    assert Run(Init(), es[..2]) == World(pending.(active := true), map[0 := Install(version, true, 0, 0, false)]);
    assert Run(Init(), es[..3])
        == World(State(Some(version), true, true, 10, 10, ""), map[0 := Install(version, true, 10, 10, true)]);
    assert Run(Init(), es[..4])
        == World(State(Some(version), false, true, 10, 10, ""), map[0 := Install(version, false, 10, 10, true)]);
  }

  // ---------------------------------------------------------------- the handlers

  class AgentUpdateState {
    var pending: Option<nat>
    var active: bool
    var applying: bool
    var done: int
    var total: int
    var errText: string

    ghost function Now(): State
      reads this
    {
      State(pending, active, applying, done, total, errText)
    }

    /** POST /agent-update/check, with what the check found. */
    method Check(found: Option<nat>)
      modifies this`pending
      ensures Now() == Checked(old(Now()), found)
    {
      if !active {
        pending := found;
      }
    }

    /** POST /agent-update/install. */
    method Install() returns (reply: Reply)
      modifies this`active, this`applying, this`done, this`total, this`errText
      ensures reply == Answer(old(Now()))
      ensures Now() == if reply.Started? then Installing(old(Now())) else old(Now())
    {
      var m := pending;
      if m.None? || active {
        var busy := active;
        if busy { return AlreadyRunning; }
        return NothingPending;
      }
      active, applying := true, false;
      done, total, errText := 0, 0, "";
      reply := Started(m.value);
    }

    /** The download's progress. */
    method Progress(bytes: int, size: int)
      modifies this`done, this`total, this`applying
      ensures Now() == Progressed(old(Now()), bytes, size)
    {
      done, total := bytes, size;
      if size > 0 && bytes >= size {
        applying := true;
      }
    }

    /** The end of the install. */
    method Finish(result: Result)
      modifies this`active, this`applying, this`errText
      ensures Now() == Finished(old(Now()), result)
    {
      active := false;
      match result {
        case Failure(text) =>
          applying := false;
          errText := text;
        case Success =>
          applying := true;
      }
    }
  }
}
