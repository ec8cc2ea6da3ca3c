/** The streamer benchmark pins every stream backend to one monitor and puts each one's own pick back
    afterwards (agent/internal/app/bench.go), across backend switches (`SetStreamBackend`, `carryPin` and
    `pinConnector` in agent/internal/app/app.go). A backend's pick is its persisted output name. */
module Bench {

  const VIRTUAL_ID := "virtual"
  const VIRTUAL_PREFIX := "virtual:"
  const DEFAULT_SPEC := "virtual:1920x1080@120"

  /** A monitor as one backend reports it. */
  datatype Device = Device(key: string, gdi: string, output: string)

  /** `active` is the running kind's name when there is a stream at all; `started` is the output its process
      came up with. `base` is history: every backend's output when the present pin began. */
  datatype Bench = Bench(
    monitor: string, spec: string, orig: map<string, string>, pending: bool,
    hasStream: bool, active: string, running: bool, started: string,
    outputs: map<string, string>, base: map<string, string>)

  function Lookup(m: map<string, string>, kind: string): string {
    if kind in m then m[kind] else ""
  }

  function OutputOf(s: Bench, kind: string): string { Lookup(s.outputs, kind) }

  function SetOutput(s: Bench, kind: string, output: string): Bench {
    s.(outputs := s.outputs[kind := output])
  }

  /** Stop and start of the active backend; it comes up on its current output, if it comes up. */
  function Restart(s: Bench, startOk: bool): Bench {
    if !s.hasStream then s else s.(running := startOk, started := OutputOf(s, s.active))
  }

  // ---------------------------------------------------------------- applying the pin

  datatype Found = Missing | Output(name: string)

  function ByGdi(devices: seq<Device>, gdi: string): Found {
    if devices == [] then Missing
    else if devices[0].gdi == gdi then Output(devices[0].output)
    else ByGdi(devices[1..], gdi)
  }

  function Target(s: Bench, devices: seq<Device>): Found {
    if s.monitor == VIRTUAL_ID then Output(s.spec) else ByGdi(devices, s.monitor)
  }

  datatype Applied = Applied(s: Bench, changed: bool, ok: bool)

  function Remember(s: Bench, kind: string): Bench {
    if kind in s.orig then s else s.(orig := s.orig[kind := OutputOf(s, kind)])
  }

  function Point(s: Bench, kind: string, output: string, setOk: bool): Applied {
    if OutputOf(s, kind) == output then Applied(s, false, true)
    else if !setOk then Applied(s, false, false)
    else Applied(SetOutput(s, kind, output), true, true)
  }

  /** `applyBenchMonitor`: the first time a kind is pinned its own pick is remembered. */
  function Apply(s: Bench, kind: string, devices: seq<Device>, setOk: bool): Applied {
    if s.monitor == "" then Applied(s, false, true) else
    match Target(s, devices)
    case Missing => Applied(s, false, false)
    case Output(output) => Point(Remember(s, kind), kind, output, setOk)
  }

  // ---------------------------------------------------------------- restoring

  /** The outputs once every remembered pick is put back, except where the backend refuses it. */
  function PutBack(outputs: map<string, string>, orig: map<string, string>, refused: set<string>): map<string, string> {
    outputs + (map k | k in orig && k !in refused && Lookup(outputs, k) != orig[k] :: orig[k])
  }

  /** Putting `kind` back changes its output. */
  predicate Moves(outputs: map<string, string>, orig: map<string, string>, refused: set<string>, kind: string) {
    kind in orig && kind !in refused && Lookup(outputs, kind) != orig[kind]
  }

  predicate ActiveChanges(s: Bench, refused: set<string>) {
    s.hasStream && Moves(s.outputs, s.orig, refused, s.active)
  }

  /** `restoreBenchOutputs` */
  function Restored(s: Bench, refused: set<string>, deferRestart: bool, startOk: bool): Bench {
    var back := s.(outputs := PutBack(s.outputs, s.orig, refused), orig := map[]);
    if !ActiveChanges(s, refused) || !s.running then back
    else if deferRestart then back.(pending := true)
    else Restart(back, startOk)
  }

  // ---------------------------------------------------------------- pinning and releasing

  /** What a pin finds: whether the asked mode parses, whether the id is the virtual monitor's present name or
      a known monitor, the configured output of a host that picked none, what the active backend reports, and
      what succeeds. */
  datatype PinEnv = PinEnv(
    modeOk: bool, isVirtual: bool, known: bool, configured: string, devices: seq<Device>,
    setOk: bool, refused: set<string>, startOk: bool)

  /** The monitor id a request stands for. */
  function Resolved(id: string, env: PinEnv): string {
    if VIRTUAL_PREFIX <= id then VIRTUAL_ID
    else if id != "" && id != VIRTUAL_ID && env.isVirtual then VIRTUAL_ID
    else id
  }

  predicate Acceptable(id: string, env: PinEnv) {
    if VIRTUAL_PREFIX <= id then env.modeOk
    else Resolved(id, env) == "" || Resolved(id, env) == VIRTUAL_ID || env.known
  }

  function Streamed(s: Bench, env: PinEnv): string {
    if s.hasStream && OutputOf(s, s.active) != "" then OutputOf(s, s.active) else env.configured
  }

  function PinnedSpec(s: Bench, id: string, env: PinEnv): string {
    if Resolved(id, env) != VIRTUAL_ID then s.spec
    else if VIRTUAL_PREFIX <= id then id
    else if VIRTUAL_PREFIX <= Streamed(s, env) then Streamed(s, env)
    else DEFAULT_SPEC
  }

  predicate AlreadySet(s: Bench, id: string, env: PinEnv) {
    Resolved(id, env) == s.monitor && (VIRTUAL_PREFIX <= id ==> id == s.spec)
  }

  function PinActive(s: Bench, env: PinEnv, deferRestart: bool): Bench {
    if !s.hasStream then s else
    var did := Apply(s, s.active, env.devices, env.setOk);
    if !did.changed || !did.s.running then did.s
    else if deferRestart then did.s.(pending := true)
    else Restart(did.s, env.startOk)
  }

  /** The state a pin goes on from, with the monitor it asks for. */
  function Asked(s: Bench, id: string, env: PinEnv): Bench {
    s.(monitor := Resolved(id, env), spec := PinnedSpec(s, id, env), base := if s.monitor == "" then s.outputs else s.base)
  }

  /** `SetBenchMonitor`: "" releases. The history notes the outputs when the first pin begins. */
  function SetMonitor(s: Bench, id: string, env: PinEnv, deferRestart: bool): Bench {
    if !Acceptable(id, env) || AlreadySet(s, id, env) then s else
    var asked := Asked(s, id, env);
    if asked.monitor == "" then Restored(asked, env.refused, deferRestart, env.startOk)
    else PinActive(asked, env, deferRestart)
  }

  // ---------------------------------------------------------------- switching backends

  /** What a switch finds: whether the kind can be switched to, what is reported on the way, and which of its three
      writes and two starts succeed. */
  datatype SwitchEnv = SwitchEnv(
    available: bool, leaving: seq<Device>, coming: seq<Device>, up: seq<Device>,
    carryOk: bool, pinOk: bool, startOk: bool, lateOk: bool, restartOk: bool)

  function AfterBar(s: string): Found {
    if s == [] then Missing else if s[0] == '|' then Output(s[1..]) else AfterBar(s[1..])
  }

  function KeyOf(devices: seq<Device>, output: string): string {
    if devices == [] then "" else if devices[0].output == output then devices[0].key else KeyOf(devices[1..], output)
  }

  /** `pinConnector` */
  function PinConnector(pin: string, devices: seq<Device>): string {
    if pin == "" || VIRTUAL_PREFIX <= pin then ""
    else match AfterBar(pin)
         case Output(connector) => connector
         case Missing => KeyOf(devices, pin)
  }

  function ByKey(devices: seq<Device>, key: string): Found {
    if devices == [] then Missing
    else if devices[0].key == key && devices[0].output != "" then Output(devices[0].output)
    else ByKey(devices[1..], key)
  }

  /** Carrying the pin to `kind` writes its output. */
  predicate Carries(s: Bench, kind: string, connector: string, devices: seq<Device>, setOk: bool) {
    && connector != "" && ByKey(devices, connector).Output?
    && ByKey(devices, connector).name != OutputOf(s, kind) && setOk
  }

  /** `carryPin` */
  function Carry(s: Bench, kind: string, connector: string, devices: seq<Device>, setOk: bool): Bench {
    if Carries(s, kind, connector, devices, setOk) then SetOutput(s, kind, ByKey(devices, connector).name) else s
  }

  /** The connector the backend being left is pinned to. */
  function LeftConnector(s: Bench, env: SwitchEnv): string {
    if s.hasStream then PinConnector(OutputOf(s, s.active), env.leaving) else ""
  }

  /** The end of a switch, with the new backend up: a kind that could not be pinned before is tried again. */
  function PinLate(s: Bench, kind: string, env: SwitchEnv): Bench {
    if s.monitor == "" then s else
    var late := Apply(s, kind, env.up, env.lateOk);
    if late.ok && late.changed then Restart(late.s, env.restartOk) else late.s
  }

  /** The switch as far as the carry. */
  function Entered(s: Bench, kind: string, env: SwitchEnv): Bench {
    Carry(s.(pending := false, hasStream := true, active := kind), kind, LeftConnector(s, env), env.coming, env.carryOk)
  }

  /** `SetStreamBackend` */
  function Switch(s: Bench, kind: string, env: SwitchEnv): Bench {
    if !env.available then s
    else if kind == s.active then
      if s.pending && s.hasStream then Restart(s.(pending := false), env.startOk) else s
    else
      var pinned := Apply(Entered(s, kind, env), kind, env.coming, env.pinOk);
      var up := Restart(pinned.s, env.startOk);
      if pinned.ok then up else PinLate(up, kind, env)
  }

  // ---------------------------------------------------------------- runs

  datatype Op = Set(id: string, penv: PinEnv, deferRestart: bool) | SwitchTo(kind: string, senv: SwitchEnv)

  function Step(s: Bench, op: Op): Bench {
    match op
    case Set(id, env, d) => SetMonitor(s, id, env, d)
    case SwitchTo(kind, env) => Switch(s, kind, env)
  }

  function Run(s: Bench, ops: seq<Op>): Bench {
    if ops == [] then s else Step(Run(s, ops[..|ops| - 1]), ops[|ops| - 1])
  }

  // ---------------------------------------------------------------- a pin pins

  /** Device `j` is the first that the backend reports for the monitor. */
  predicate First(devices: seq<Device>, gdi: string, j: nat) {
    j < |devices| && devices[j].gdi == gdi && forall i | 0 <= i < j :: devices[i].gdi != gdi
  }

  lemma {:induction false} ByGdiFinds(devices: seq<Device>, gdi: string, j: nat)
    requires First(devices, gdi, j)
    ensures ByGdi(devices, gdi) == Output(devices[j].output)
  {
    if j > 0 {
      assert devices[0].gdi != gdi;
      ByGdiFinds(devices[1..], gdi, j - 1);
    }
  }

  lemma {:induction false} ByGdiMisses(devices: seq<Device>, gdi: string)
    requires forall d | d in devices :: d.gdi != gdi
    ensures ByGdi(devices, gdi) == Missing
  {
    if devices != [] {
      assert devices[0] in devices;
      ByGdiMisses(devices[1..], gdi);
    }
  }

  /** `kind` is on the output, and no other kind has moved. */
  ghost predicate MovedTo(s: Bench, n: Bench, kind: string, output: string) {
    OutputOf(n, kind) == output && forall k | k != kind :: OutputOf(n, k) == OutputOf(s, k)
  }

  lemma ApplyMoves(s: Bench, kind: string, devices: seq<Device>, setOk: bool)
    requires s.monitor != ""
    ensures var did, target := Apply(s, kind, devices, setOk), Target(s, devices);
            && did.s == s.(orig := did.s.orig, outputs := did.s.outputs)
            && (target.Missing? ==> did == Applied(s, false, false))
            && (target.Output? && setOk ==> did.ok && MovedTo(s, did.s, kind, target.name))
            && (!setOk ==> did.s.outputs == s.outputs && !did.changed)
  {
  }

  /** The end of a pin moves what the pin itself moves. */
  lemma PinActiveMoves(s: Bench, env: PinEnv, deferRestart: bool)
    requires s.monitor != ""
    ensures var n, target := PinActive(s, env, deferRestart), Target(s, env.devices);
            && n.active == s.active && n.monitor == s.monitor && n.spec == s.spec
            && (s.hasStream && env.setOk && target.Output? ==> MovedTo(s, n, s.active, target.name))
            && (!s.hasStream || !env.setOk || target.Missing? ==> n.outputs == s.outputs)
  {
    ApplyMoves(s, s.active, env.devices, env.setOk);
  }

  /** Pinning to a monitor moves the active backend to the first output it reports for it, and no other backend. Where it
      reports none, or the write fails, nothing moves. */
  lemma PinMovesToMonitor(s: Bench, id: string, env: PinEnv, deferRestart: bool, j: nat)
    requires id != "" && id != VIRTUAL_ID && !(VIRTUAL_PREFIX <= id) && !env.isVirtual && env.known && id != s.monitor
    ensures var n := SetMonitor(s, id, env, deferRestart);
            && n.monitor == id && n.active == s.active
            && (s.hasStream && env.setOk && First(env.devices, id, j) ==> MovedTo(s, n, s.active, env.devices[j].output))
            && (!s.hasStream || !env.setOk || (forall d | d in env.devices :: d.gdi != id) ==> n.outputs == s.outputs)
  {
    var asked := Asked(s, id, env);
    assert asked.monitor == id && SetMonitor(s, id, env, deferRestart) == PinActive(asked, env, deferRestart);
    PinActiveMoves(asked, env, deferRestart);
    if First(env.devices, id, j) { ByGdiFinds(env.devices, id, j); }
    if forall d | d in env.devices :: d.gdi != id { ByGdiMisses(env.devices, id); }
  }

  /** Pinning to the virtual monitor moves it to the mode asked for; with none asked, to the virtual mode that is streamed,
      or the default one. */
  lemma PinMovesToVirtual(s: Bench, id: string, env: PinEnv, deferRestart: bool)
    requires (VIRTUAL_PREFIX <= id && env.modeOk) || (!(VIRTUAL_PREFIX <= id) && (id == VIRTUAL_ID || (id != "" && env.isVirtual)))
    requires s.monitor != VIRTUAL_ID || (VIRTUAL_PREFIX <= id && id != s.spec)
    ensures var n := SetMonitor(s, id, env, deferRestart);
            var streamed := if s.hasStream && OutputOf(s, s.active) != "" then OutputOf(s, s.active) else env.configured;
            && n.monitor == VIRTUAL_ID && n.active == s.active
            && n.spec == (if VIRTUAL_PREFIX <= id then id else if VIRTUAL_PREFIX <= streamed then streamed else DEFAULT_SPEC)
            && (s.hasStream && env.setOk ==> MovedTo(s, n, s.active, n.spec))
            && (!s.hasStream || !env.setOk ==> n.outputs == s.outputs)
  {
    var asked := Asked(s, id, env);
    assert asked.monitor == VIRTUAL_ID && SetMonitor(s, id, env, deferRestart) == PinActive(asked, env, deferRestart);
    PinActiveMoves(asked, env, deferRestart);
  }

  lemma CarryMoves(s: Bench, kind: string, connector: string, devices: seq<Device>, setOk: bool)
    ensures var n := Carry(s, kind, connector, devices, setOk);
            n == s.(outputs := n.outputs) && forall k | k != kind :: OutputOf(n, k) == OutputOf(s, k)
  {
  }

  lemma LateMoves(s: Bench, kind: string, env: SwitchEnv)
    requires s.monitor != ""
    ensures var n := PinLate(s, kind, env);
            && n.active == s.active && n.monitor == s.monitor && (forall k | k != kind :: OutputOf(n, k) == OutputOf(s, k))
            && (Target(s, env.up).Output? && env.lateOk ==> OutputOf(n, kind) == Target(s, env.up).name)
  {
    ApplyMoves(s, kind, env.up, env.lateOk);
  }

  /** Where the backend a switch comes to ends up. */
  lemma SwitchMoves(s: Bench, kind: string, env: SwitchEnv)
    requires s.monitor != "" && env.available && kind != s.active
    ensures var n := Switch(s, kind, env);
            && n.active == kind && n.monitor == s.monitor && (forall k | k != kind :: OutputOf(n, k) == OutputOf(s, k))
            && (Target(s, env.coming).Output? && env.pinOk ==> OutputOf(n, kind) == Target(s, env.coming).name)
            && (Target(s, env.coming).Missing? && Target(s, env.up).Output? && env.lateOk ==>
                  OutputOf(n, kind) == Target(s, env.up).name)
  {
    var next := s.(pending := false, hasStream := true, active := kind);
    var carried := Carry(next, kind, LeftConnector(s, env), env.coming, env.carryOk);
    CarryMoves(next, kind, LeftConnector(s, env), env.coming, env.carryOk);
    var pinned := Apply(carried, kind, env.coming, env.pinOk);
    ApplyMoves(carried, kind, env.coming, env.pinOk);
    LateMoves(Restart(pinned.s, env.startOk), kind, env);
    if pinned.ok {} else {}
  }

  /** A switch while a monitor is pinned moves the backend it comes to, and no other: at once to the first output it
      reports for the monitor, or late, once it is up, if it reported none before. */
  lemma SwitchMovesToMonitor(s: Bench, kind: string, env: SwitchEnv, j: nat)
    requires s.monitor != "" && s.monitor != VIRTUAL_ID && env.available && kind != s.active
    ensures var n := Switch(s, kind, env);
            && n.active == kind && n.monitor == s.monitor && (forall k | k != kind :: OutputOf(n, k) == OutputOf(s, k))
            && (First(env.coming, s.monitor, j) && env.pinOk ==> OutputOf(n, kind) == env.coming[j].output)
            && ((forall d | d in env.coming :: d.gdi != s.monitor) && First(env.up, s.monitor, j) && env.lateOk ==>
                  OutputOf(n, kind) == env.up[j].output)
  {
    SwitchMoves(s, kind, env);
    if First(env.coming, s.monitor, j) { ByGdiFinds(env.coming, s.monitor, j); }
    if forall d | d in env.coming :: d.gdi != s.monitor { ByGdiMisses(env.coming, s.monitor); }
    if First(env.up, s.monitor, j) { ByGdiFinds(env.up, s.monitor, j); }
  }

  /** And to the pinned mode when that is virtual. */
  lemma SwitchMovesToVirtual(s: Bench, kind: string, env: SwitchEnv)
    requires s.monitor == VIRTUAL_ID && env.available && kind != s.active && env.pinOk
    ensures var n := Switch(s, kind, env);
            n.active == kind && n.monitor == s.monitor && MovedTo(s, n, kind, s.spec)
  {
    SwitchMoves(s, kind, env);
  }

  // ---------------------------------------------------------------- the undo log

  /** Of one kind, the log or the output itself tells the pick from before the pin. */
  predicate Undoable(s: Bench, kind: string) { Lookup(s.base, kind) == Pick(s, kind) }

  /** What a release that is accepted leaves a kind on. */
  function Pick(s: Bench, kind: string): string {
    if kind in s.orig then s.orig[kind] else OutputOf(s, kind)
  }

  ghost predicate UndoLog(s: Bench) {
    if s.monitor == "" then s.orig == map[] else forall kind :: Undoable(s, kind)
  }

  /** The guard of the failing branch: a switch during the pin carries the left backend's connector into a
      kind whose own pick has not been remembered. */
  predicate Taints(s: Bench, op: Op) {
    && op.SwitchTo? && op.senv.available && op.kind != s.active && s.monitor != "" && op.kind !in s.orig
    && Carries(s, op.kind, LeftConnector(s, op.senv), op.senv.coming, op.senv.carryOk)
  }

  lemma RememberKeepsPick(s: Bench, kind: string, k: string)
    ensures Pick(Remember(s, kind), k) == Pick(s, k)
    ensures kind in Remember(s, kind).orig
  {
  }

  lemma PointKeepsPick(s: Bench, kind: string, output: string, setOk: bool, k: string)
    requires kind in s.orig
    ensures var n := Point(s, kind, output, setOk).s;
            Pick(n, k) == Pick(s, k) && n == s.(outputs := n.outputs)
  {
  }

  lemma ApplyKeepsPick(s: Bench, kind: string, devices: seq<Device>, setOk: bool, k: string)
    ensures var n := Apply(s, kind, devices, setOk).s;
            Pick(n, k) == Pick(s, k) && n == s.(orig := n.orig, outputs := n.outputs)
  {
    if s.monitor != "" && Target(s, devices).Output? {
      RememberKeepsPick(s, kind, k);
      PointKeepsPick(Remember(s, kind), kind, Target(s, devices).name, setOk, k);
    }
  }

  lemma PinKeepsPick(s: Bench, env: PinEnv, deferRestart: bool, k: string)
    ensures var n := PinActive(s, env, deferRestart);
            Pick(n, k) == Pick(s, k) && n.monitor == s.monitor && n.base == s.base
  {
    if s.hasStream {
      ApplyKeepsPick(s, s.active, env.devices, env.setOk, k);
    }
  }

  lemma SetKeepsUndoLog(s: Bench, id: string, env: PinEnv, deferRestart: bool)
    requires UndoLog(s)
    ensures UndoLog(SetMonitor(s, id, env, deferRestart))
  {
    var asked := Asked(s, id, env);
    if !Acceptable(id, env) || AlreadySet(s, id, env) {
    } else if asked.monitor == "" {
    } else {
      forall k ensures Undoable(PinActive(asked, env, deferRestart), k) {
        if s.monitor != "" {
          assert Undoable(s, k);
        }
        assert Undoable(asked, k);
        PinKeepsPick(asked, env, deferRestart, k);
      }
      PinKeepsPick(asked, env, deferRestart, "");
    }
  }

  lemma CarryUndoable(s: Bench, kind: string, connector: string, devices: seq<Device>, setOk: bool, k: string)
    requires Undoable(s, k)
    ensures var n := Carry(s, kind, connector, devices, setOk);
            && n == s.(outputs := n.outputs)
            && (Undoable(n, k) <==> !(k == kind && kind !in s.orig && Carries(s, kind, connector, devices, setOk)))
  {
  }

  lemma LateKeepsPick(s: Bench, kind: string, env: SwitchEnv, k: string)
    ensures var n := PinLate(s, kind, env); Pick(n, k) == Pick(s, k) && n.monitor == s.monitor && n.base == s.base
  {
    ApplyKeepsPick(s, kind, env.up, env.lateOk, k);
  }

  /** What a switch does to a kind's undo: nothing, unless it carries into that kind. */
  lemma SwitchUndoable(s: Bench, kind: string, env: SwitchEnv, k: string)
    requires s.monitor != "" && Undoable(s, k)
    ensures var n := Switch(s, kind, env);
            && (Undoable(n, k) <==> !(k == kind && Taints(s, SwitchTo(kind, env))))
            && n.monitor == s.monitor && n.base == s.base
  {
    if env.available && kind != s.active {
      var next := s.(pending := false, hasStream := true, active := kind);
      var connector := LeftConnector(s, env);
      assert Carries(next, kind, connector, env.coming, env.carryOk) <==> Carries(s, kind, connector, env.coming, env.carryOk);
      assert Undoable(next, k);
      CarryUndoable(next, kind, connector, env.coming, env.carryOk, k);
      var carried := Carry(next, kind, connector, env.coming, env.carryOk);
      ApplyKeepsPick(carried, kind, env.coming, env.pinOk, k);
      var up := Restart(Apply(carried, kind, env.coming, env.pinOk).s, env.startOk);
      LateKeepsPick(up, kind, env, k);
    }
  }

  lemma SwitchUnpinned(s: Bench, kind: string, env: SwitchEnv)
    requires s.monitor == ""
    ensures var n := Switch(s, kind, env); n.monitor == "" && n.orig == s.orig
  {
  }

  /** A step keeps the undo log exactly when it does not taint it. */
  lemma StepKeepsUndoLog(s: Bench, op: Op)
    requires UndoLog(s)
    ensures UndoLog(Step(s, op)) <==> !Taints(s, op)
  {
    match op
    case Set(id, env, d) => SetKeepsUndoLog(s, id, env, d);
    case SwitchTo(kind, env) =>
      if s.monitor == "" {
        SwitchUnpinned(s, kind, env);
      } else {
        forall k ensures Undoable(Switch(s, kind, env), k) <==> !(k == kind && Taints(s, op)) {
          SwitchUndoable(s, kind, env, k);
        }
        SwitchUndoable(s, kind, env, kind);
      }
  }

  predicate Untainted(s: Bench, ops: seq<Op>) {
    ops == [] || (Untainted(s, ops[..|ops| - 1]) && !Taints(Run(s, ops[..|ops| - 1]), ops[|ops| - 1]))
  }

  lemma {:induction false} RunKeepsUndoLog(s: Bench, ops: seq<Op>)
    requires UndoLog(s) && Untainted(s, ops)
    ensures UndoLog(Run(s, ops))
  {
    if ops != [] {
      RunKeepsUndoLog(s, ops[..|ops| - 1]);
      StepKeepsUndoLog(Run(s, ops[..|ops| - 1]), ops[|ops| - 1]);
    }
  }

  /** Releasing the pin puts every backend's output back to what it was when the pin began, after any
      untainted sequence of pins, re-pins and switches, if the backends accept their own picks. */
  lemma ReleaseRestoresEveryBackend(s: Bench, ops: seq<Op>, env: PinEnv, deferRestart: bool, kind: string)
    requires UndoLog(s) && Untainted(s, ops) && Run(s, ops).monitor != "" && env.refused == {}
    ensures var pinned := Run(s, ops);
            var n := Step(pinned, Set("", env, deferRestart));
            n.monitor == "" && n.orig == map[] && OutputOf(n, kind) == Lookup(pinned.base, kind)
  {
    RunKeepsUndoLog(s, ops);
    ReleaseUndoes(Run(s, ops), env, deferRestart, kind);
  }

  lemma ReleaseUndoes(s: Bench, env: PinEnv, deferRestart: bool, kind: string)
    requires UndoLog(s) && s.monitor != "" && env.refused == {}
    ensures var n := SetMonitor(s, "", env, deferRestart);
            n.monitor == "" && n.orig == map[] && OutputOf(n, kind) == Lookup(s.base, kind)
  {
    assert Undoable(s, kind);
    RestoredAt(Asked(s, "", env), env.refused, deferRestart, env.startOk, kind);
  }

  lemma RestoredAt(s: Bench, refused: set<string>, deferRestart: bool, startOk: bool, kind: string)
    ensures var n := Restored(s, refused, deferRestart, startOk);
            && n.orig == map[] && n.monitor == s.monitor && n.hasStream == s.hasStream && n.active == s.active
            && OutputOf(n, kind) == if kind in s.orig && kind !in refused then s.orig[kind] else OutputOf(s, kind)
  {
    var back := PutBack(s.outputs, s.orig, refused);
    assert Restored(s, refused, deferRestart, startOk).outputs == back;
  }

  /** `base` is what the outputs were when a monitor was first set, and stays so while one is set. */
  lemma BaseIsFromTheFirstPin(s: Bench, op: Op)
    ensures var n := Step(s, op);
            if s.monitor != "" then n.base == s.base else n.monitor != "" ==> n.base == s.outputs
  {
    match op
    case Set(id, env, d) => PinKeepsPick(Asked(s, id, env), env, d, "");
    case SwitchTo(kind, env) =>
      if s.monitor == "" {
        SwitchUnpinned(s, kind, env);
      } else {
        SwitchKeepsBase(s, kind, env);
      }
  }

  lemma SwitchKeepsBase(s: Bench, kind: string, env: SwitchEnv)
    ensures Switch(s, kind, env).base == s.base
  {
    if env.available && kind != s.active {
      var next := s.(pending := false, hasStream := true, active := kind);
      var carried := Carry(next, kind, LeftConnector(s, env), env.coming, env.carryOk);
      ApplyKeepsPick(carried, kind, env.coming, env.pinOk, "");
      LateKeepsPick(Restart(Apply(carried, kind, env.coming, env.pinOk).s, env.startOk), kind, env, "");
    }
  }

  lemma CarriedOutput(s: Bench, kind: string, connector: string, devices: seq<Device>, setOk: bool)
    requires Carries(s, kind, connector, devices, setOk)
    ensures var n := Carry(s, kind, connector, devices, setOk);
            OutputOf(n, kind) == ByKey(devices, connector).name && n == s.(outputs := n.outputs)
  {
  }

  /** A carry into a kind not yet remembered becomes that kind's pick, pinned at once, later or never. */
  lemma CarriedIsThePick(s: Bench, kind: string, env: SwitchEnv)
    requires Taints(s, SwitchTo(kind, env))
    ensures var n := Switch(s, kind, env);
            n.monitor == s.monitor && n.base == s.base && Pick(n, kind) == ByKey(env.coming, LeftConnector(s, env)).name
  {
    var next := s.(pending := false, hasStream := true, active := kind);
    var carried := Carry(next, kind, LeftConnector(s, env), env.coming, env.carryOk);
    CarriedOutput(next, kind, LeftConnector(s, env), env.coming, env.carryOk);
    ApplyKeepsPick(carried, kind, env.coming, env.pinOk, kind);
    LateKeepsPick(Restart(Apply(carried, kind, env.coming, env.pinOk).s, env.startOk), kind, env, kind);
  }

  /** When the guard holds, the kind's own pick is lost: the release leaves it on the carried output, which is another. */
  lemma TaintedPickIsLost(s: Bench, kind: string, env: SwitchEnv, renv: PinEnv, deferRestart: bool)
    requires UndoLog(s) && Taints(s, SwitchTo(kind, env)) && renv.refused == {}
    ensures var n := SetMonitor(Switch(s, kind, env), "", renv, deferRestart);
            && OutputOf(n, kind) == ByKey(env.coming, LeftConnector(s, env)).name
            && OutputOf(n, kind) != Lookup(s.base, kind)
  {
    assert Undoable(s, kind);
    CarriedIsThePick(s, kind, env);
    RestoredAt(Asked(Switch(s, kind, env), "", renv), renv.refused, deferRestart, renv.startOk, kind);
  }

  // The witness: Sunshine at its own "0", which is HDMI-A-1, and RustShine left at DP-1.
  const SUNSHINE_DEVICES := [Device("HDMI-A-1", "DISPLAY1", "0")]
  const RUSTSHINE_DEVICES := [Device("HDMI-A-1", "DISPLAY1", "card|HDMI-A-1"), Device("DP-1", "DISPLAY2", "card|DP-1")]

  function Unpinned(): Bench {
    var outputs := map["sunshine" := "0", "rustshine" := "card|DP-1"];
    Bench("", "", map[], false, true, "sunshine", true, "0", outputs, map[])
  }

  function WitnessPin(): PinEnv { PinEnv(true, false, true, "", SUNSHINE_DEVICES, true, {}, true) }

  function WitnessSwitch(): SwitchEnv {
    SwitchEnv(true, SUNSHINE_DEVICES, RUSTSHINE_DEVICES, RUSTSHINE_DEVICES, true, true, true, true, true)
  }

  lemma WitnessPinned()
    ensures var s := Unpinned();
            SetMonitor(s, "DISPLAY1", WitnessPin(), false)
              == s.(monitor := "DISPLAY1", orig := map["sunshine" := "0"], base := s.outputs)
  {
    var s := Unpinned();
    assert !(VIRTUAL_PREFIX <= "DISPLAY1") by { assert VIRTUAL_PREFIX[0] != "DISPLAY1"[0]; }
    assert "DISPLAY1" != VIRTUAL_ID by { assert |"DISPLAY1"| != |VIRTUAL_ID|; }
    assert ByGdi(SUNSHINE_DEVICES, "DISPLAY1") == Output("0");
  }

  /** From no pin: Sunshine is pinned to the monitor it streams, a switch carries that into RustShine, and the release
      leaves RustShine on it, not on its own. */
  lemma PickCanBeLost(renv: PinEnv, deferRestart: bool)
    requires renv.refused == {}
    ensures var s := Unpinned();
            var ops := [Set("DISPLAY1", WitnessPin(), false), SwitchTo("rustshine", WitnessSwitch()), Set("", renv, deferRestart)];
            && UndoLog(s) && Taints(Run(s, ops[..1]), ops[1])
            && OutputOf(s, "rustshine") == "card|DP-1" && OutputOf(Run(s, ops), "rustshine") == "card|HDMI-A-1"
  {
    var s := Unpinned();
    var ops := [Set("DISPLAY1", WitnessPin(), false), SwitchTo("rustshine", WitnessSwitch()), Set("", renv, deferRestart)];
    assert ops[..2][..1] == ops[..1] && ops[..1][..0] == [];
    assert Run(s, ops[..1]) == Step(s, ops[0]);
    WitnessPinned();
    var pinned := Step(s, ops[0]);
    assert Run(s, ops[..2]) == Step(pinned, ops[1]);
    WitnessTaints(pinned);
    TaintedPickIsLost(pinned, "rustshine", WitnessSwitch(), renv, deferRestart);
  }

  lemma WitnessTaints(s: Bench)
    requires s == Unpinned().(monitor := "DISPLAY1", orig := map["sunshine" := "0"], base := Unpinned().outputs)
    ensures UndoLog(s) && Taints(s, SwitchTo("rustshine", WitnessSwitch()))
    ensures ByKey(RUSTSHINE_DEVICES, LeftConnector(s, WitnessSwitch())).name == "card|HDMI-A-1"
  {
    assert AfterBar("0") == Missing by { assert "0"[0] == '0' && "0"[1..] == ""; }
    assert !(VIRTUAL_PREFIX <= "0");
    assert KeyOf(SUNSHINE_DEVICES, "0") == "HDMI-A-1";
    assert LeftConnector(s, WitnessSwitch()) == "HDMI-A-1";
    assert |"card|HDMI-A-1"| != |"card|DP-1"|;
    assert |"rustshine"| != |"sunshine"|;
    assert "DISPLAY1" != VIRTUAL_ID by { assert |"DISPLAY1"| != |VIRTUAL_ID|; }
  }

  // ---------------------------------------------------------------- when it restarts

  /** The running backend's process is left alone, restarted at once, or to be restarted by the next switch. */
  predicate LeftAlone(s: Bench, n: Bench) {
    n.running == s.running && n.started == s.started && n.pending == s.pending
  }

  predicate RestartsAsAsked(s: Bench, n: Bench, deferRestart: bool, startOk: bool) {
    if !s.hasStream || !s.running || OutputOf(n, s.active) == OutputOf(s, s.active) then LeftAlone(s, n)
    else if deferRestart then n.running && n.started == s.started && n.pending
    else n.running == startOk && n.started == OutputOf(n, s.active) && n.pending == s.pending
  }

  lemma ApplyTellsChange(s: Bench, kind: string, devices: seq<Device>, setOk: bool)
    ensures var did := Apply(s, kind, devices, setOk);
            && (did.changed <==> OutputOf(did.s, kind) != OutputOf(s, kind)) && LeftAlone(s, did.s)
            && did.s.active == s.active && did.s.hasStream == s.hasStream
  {
  }

  lemma RestoredTellsChange(s: Bench, env: PinEnv, deferRestart: bool)
    ensures RestartsAsAsked(s, Restored(s, env.refused, deferRestart, env.startOk), deferRestart, env.startOk)
  {
    RestoredAt(s, env.refused, deferRestart, env.startOk, s.active);
    assert ActiveChanges(s, env.refused) <==>
             s.hasStream && OutputOf(Restored(s, env.refused, deferRestart, env.startOk), s.active) != OutputOf(s, s.active);
  }

  lemma PinTellsChange(s: Bench, env: PinEnv, deferRestart: bool)
    ensures RestartsAsAsked(s, PinActive(s, env, deferRestart), deferRestart, env.startOk)
  {
    ApplyTellsChange(s, s.active, env.devices, env.setOk);
  }

  /** A pin or a release restarts the running backend exactly when its output changes, on that output, at once or with the
      next switch as asked. */
  lemma SetRestartsExactly(s: Bench, id: string, env: PinEnv, deferRestart: bool)
    ensures RestartsAsAsked(s, SetMonitor(s, id, env, deferRestart), deferRestart, env.startOk)
  {
    var asked := Asked(s, id, env);
    if Acceptable(id, env) && !AlreadySet(s, id, env) {
      if asked.monitor == "" { RestoredTellsChange(asked, env, deferRestart); } else { PinTellsChange(asked, env, deferRestart); }
    }
  }

  /** A request that is refused, a mode that does not parse or a monitor that is not there, changes nothing. */
  lemma RefusedPinChangesNothing(s: Bench, id: string, env: PinEnv, deferRestart: bool)
    requires || (VIRTUAL_PREFIX <= id && !env.modeOk)
             || (!(VIRTUAL_PREFIX <= id) && id != "" && id != VIRTUAL_ID && !env.isVirtual && !env.known)
    ensures SetMonitor(s, id, env, deferRestart) == s
  {
  }

  /** A switch to the active kind only makes up for a restart that was put off; to another one it starts that on its
      output, once more when it could only be pinned late and that changed its output. */
  lemma SwitchRestartsExactly(s: Bench, kind: string, env: SwitchEnv)
    ensures var n := Switch(s, kind, env);
            if !env.available then n == s
            else if kind == s.active then
              n == if s.pending && s.hasStream
                   then s.(pending := false, running := env.startOk, started := OutputOf(s, s.active)) else s
            else
              && n.hasStream && n.active == kind && !n.pending && n.started == OutputOf(n, kind)
              && n.running == if MovesLate(s, kind, env) then env.restartOk else env.startOk
  {
    if env.available && kind != s.active {
      var carried := Entered(s, kind, env);
      ApplyTellsChange(carried, kind, env.coming, env.pinOk);
      var pinned := Apply(carried, kind, env.coming, env.pinOk);
      PinsAtOnce(carried, kind, env.coming, env.pinOk);
      LateRestarts(Restart(pinned.s, env.startOk), kind, env);
    }
  }

  lemma PinsAtOnce(s: Bench, kind: string, devices: seq<Device>, setOk: bool)
    ensures var did, target := Apply(s, kind, devices, setOk), Target(s, devices);
            && (did.ok <==> s.monitor == "" || (target.Output? && (setOk || target.name == OutputOf(s, kind))))
            && (!did.ok ==> OutputOf(did.s, kind) == OutputOf(s, kind)) && did.s.monitor == s.monitor && did.s.spec == s.spec
  {
  }

  lemma LateRestarts(s: Bench, kind: string, env: SwitchEnv)
    requires s.hasStream && s.active == kind && s.started == OutputOf(s, kind)
    ensures var n, target := PinLate(s, kind, env), Target(s, env.up);
            var moves := s.monitor != "" && target.Output? && env.lateOk && target.name != OutputOf(s, kind);
            && n.hasStream && n.active == kind && n.pending == s.pending && n.started == OutputOf(n, kind)
            && n.running == if moves then env.restartOk else s.running
  {
    PinsAtOnce(s, kind, env.up, env.lateOk);
    ApplyTellsChange(s, kind, env.up, env.lateOk);
  }

  /** The late pin moves the backend: it could not be pinned at once, and reports the monitor now. */
  predicate MovesLate(s: Bench, kind: string, env: SwitchEnv) {
    var before, first, late := OutputOf(Entered(s, kind, env), kind), Target(s, env.coming), Target(s, env.up);
    && s.monitor != "" && !(first.Output? && (env.pinOk || first.name == before))
    && late.Output? && env.lateOk && late.name != before
  }

  // ---------------------------------------------------------------- no stale process

  /** A running backend streams its current output, or its restart is due at the next switch. */
  predicate UpToDate(s: Bench) {
    s.hasStream && s.running ==> s.started == OutputOf(s, s.active) || s.pending
  }

  lemma PinKeepsUpToDate(s: Bench, env: PinEnv, deferRestart: bool)
    requires UpToDate(s)
    ensures UpToDate(PinActive(s, env, deferRestart))
  {
    if s.hasStream && s.monitor != "" && Target(s, env.devices).Output? {
      assert UpToDate(Remember(s, s.active));
    }
  }

  lemma LateKeepsUpToDate(s: Bench, env: SwitchEnv)
    requires UpToDate(s) && s.hasStream
    ensures UpToDate(PinLate(s, s.active, env))
  {
    if s.monitor != "" && Target(s, env.up).Output? {
      assert UpToDate(Remember(s, s.active));
    }
  }

  lemma SetKeepsUpToDate(s: Bench, id: string, env: PinEnv, deferRestart: bool)
    requires UpToDate(s)
    ensures UpToDate(SetMonitor(s, id, env, deferRestart))
  {
    var asked := Asked(s, id, env);
    if Acceptable(id, env) && !AlreadySet(s, id, env) {
      if asked.monitor == "" {
        RestoredAt(asked, env.refused, deferRestart, env.startOk, s.active);
      } else {
        PinKeepsUpToDate(asked, env, deferRestart);
      }
    }
  }

  lemma SwitchKeepsUpToDate(s: Bench, kind: string, env: SwitchEnv)
    requires UpToDate(s)
    ensures UpToDate(Switch(s, kind, env))
  {
    if env.available && kind != s.active {
      var next := s.(pending := false, hasStream := true, active := kind);
      var carried := Carry(next, kind, LeftConnector(s, env), env.coming, env.carryOk);
      var pinned := Apply(carried, kind, env.coming, env.pinOk);
      ApplyKeepsPick(carried, kind, env.coming, env.pinOk, "");
      assert pinned.s.hasStream && pinned.s.active == kind;
      LateKeepsUpToDate(Restart(pinned.s, env.startOk), env);
    }
  }

  /** Whatever changes the active backend's output while it runs restarts it or leaves its restart pending;
      restarts that fail leave it not running. */
  lemma StepKeepsUpToDate(s: Bench, op: Op)
    requires UpToDate(s)
    ensures UpToDate(Step(s, op))
  {
    match op
    case Set(id, env, d) => SetKeepsUpToDate(s, id, env, d);
    case SwitchTo(kind, env) => SwitchKeepsUpToDate(s, kind, env);
  }

  lemma {:induction false} EveryRunStaysUpToDate(s: Bench, ops: seq<Op>)
    requires UpToDate(s)
    ensures UpToDate(Run(s, ops))
  {
    if ops != [] {
      EveryRunStaysUpToDate(s, ops[..|ops| - 1]);
      StepKeepsUpToDate(Run(s, ops[..|ops| - 1]), ops[|ops| - 1]);
    }
  }

  // ---------------------------------------------------------------- the agent's fields

  function Except(m: map<string, string>, keys: set<string>): map<string, string> {
    map k | k in m && k !in keys :: m[k]
  }

  /** Putting one more pick back, whichever it is. */
  lemma PutOneBack(outputs: map<string, string>, done: map<string, string>, refused: set<string>, kind: string, pick: string)
    requires kind !in done
    ensures var back := PutBack(outputs, done, refused);
            && Lookup(back, kind) == Lookup(outputs, kind)
            && PutBack(outputs, done[kind := pick], refused)
                 == if kind !in refused && Lookup(outputs, kind) != pick then back[kind := pick] else back
  {
    var back, next := PutBack(outputs, done, refused), PutBack(outputs, done[kind := pick], refused);
    assert forall k | k != kind :: (k in next <==> k in back) && (k in back ==> next[k] == back[k]);
    if kind !in refused && Lookup(outputs, kind) != pick {
      assert next == back[kind := pick];
    } else {
      assert next == back;
    }
  }

  /** Every remembered pick goes back to its backend, in whatever order the map gives the kinds; `mine` is the
      active kind, if there is a stream. */
  method PutPicksBack(outputs: map<string, string>, orig: map<string, string>, refused: set<string>, mine: Found)
    returns (back: map<string, string>, mineChanged: bool)
    ensures back == PutBack(outputs, orig, refused)
    ensures mineChanged <==> mine.Output? && Moves(outputs, orig, refused, mine.name)
  {
    back, mineChanged := outputs, false;
    var todo := orig.Keys;
    while todo != {}
      invariant todo <= orig.Keys
      invariant back == PutBack(outputs, Except(orig, todo), refused)
      invariant mineChanged <==> mine.Output? && mine.name !in todo && Moves(outputs, orig, refused, mine.name)
      decreases |todo|
    {
      var kind :| kind in todo;
      PutOneBack(outputs, Except(orig, todo), refused, kind, orig[kind]);
      ExceptLess(orig, todo, kind);
      if Lookup(back, kind) != orig[kind] && kind !in refused {
        back := back[kind := orig[kind]];
        mineChanged := mineChanged || mine == Output(kind);
      }
      todo := todo - {kind};
    }
    assert orig == Except(orig, {});
  }

  lemma ExceptLess(m: map<string, string>, keys: set<string>, kind: string)
    requires kind in keys && kind in m
    ensures Except(m, keys - {kind}) == Except(m, keys)[kind := m[kind]]
  {
  }

  /** The benchmark's part of the agent, changed in place under its lock. */
  class BenchPins {
    var monitor: string
    var spec: string
    var orig: map<string, string>
    var pending: bool
    var hasStream: bool
    var active: string
    var running: bool
    var started: string
    var outputs: map<string, string>
    ghost var base: map<string, string>

    ghost function Current(): Bench
      reads this
    {
      Bench(monitor, spec, orig, pending, hasStream, active, running, started, outputs, base)
    }

    function CurrentOutput(kind: string): string
      reads this`outputs
    {
      Lookup(outputs, kind)
    }

    method RestartActive(startOk: bool)
      modifies this`running, this`started
      ensures Current() == Restart(old(Current()), startOk)
    {
      if hasStream {
        running := startOk;
        started := CurrentOutput(active);
      }
    }

    method ApplyPin(kind: string, devices: seq<Device>, setOk: bool) returns (changed: bool, ok: bool)
      modifies this`orig, this`outputs
      ensures Applied(Current(), changed, ok) == Apply(old(Current()), kind, devices, setOk)
    {
      if monitor == "" {
        return false, true;
      }
      var output := Missing;
      if monitor == VIRTUAL_ID {
        output := Output(spec);
      } else {
        output := ByGdi(devices, monitor);
      }
      if output.Missing? {
        return false, false;
      }
      var current := CurrentOutput(kind);
      if kind !in orig {
        orig := orig[kind := current];
      }
      if current == output.name {
        return false, true;
      }
      if !setOk {
        return false, false;
      }
      outputs := outputs[kind := output.name];
      return true, true;
    }

    method RestoreOutputs(refused: set<string>, deferRestart: bool, startOk: bool)
      modifies this`orig, this`outputs, this`pending, this`running, this`started
      ensures Current() == Restored(old(Current()), refused, deferRestart, startOk)
    {
      var back, changed := PutPicksBack(outputs, orig, refused, if hasStream then Output(active) else Missing);
      outputs, orig := back, map[];
      if changed && running {
        if deferRestart {
          pending := true;
        } else {
          RestartActive(startOk);
        }
      }
    }

    method PinActiveNow(env: PinEnv, deferRestart: bool)
      modifies this`orig, this`outputs, this`pending, this`running, this`started
      ensures Current() == PinActive(old(Current()), env, deferRestart)
    {
      if hasStream {
        var changed, ok := ApplyPin(active, env.devices, env.setOk);
        if changed && running {
          if deferRestart {
            pending := true;
          } else {
            RestartActive(env.startOk);
          }
        }
      }
    }

    /** The monitor a request stands for, and the mode it names; nothing when it is not acceptable. */
    method ResolveId(id: string, env: PinEnv) returns (ok: bool, asked: string, mode: string)
      ensures ok == Acceptable(id, env)
      ensures ok ==> asked == Resolved(id, env) && mode == if VIRTUAL_PREFIX <= id then id else ""
    {
      mode, asked := "", id;
      if VIRTUAL_PREFIX <= id {
        if !env.modeOk {
          return false, asked, mode;
        }
        mode, asked := id, VIRTUAL_ID;
      }
      if asked != "" && asked != VIRTUAL_ID && env.isVirtual {
        asked := VIRTUAL_ID;
      }
      ok := asked == "" || asked == VIRTUAL_ID || env.known;
    }

    method NoteMonitor(asked: string, mode: string, env: PinEnv)
      modifies this`monitor, this`spec, this`base
      ensures monitor == asked && base == if old(monitor) == "" then outputs else old(base)
      ensures spec == if asked != VIRTUAL_ID then old(spec)
                      else if mode != "" then mode
                      else if VIRTUAL_PREFIX <= Streamed(old(Current()), env) then Streamed(old(Current()), env)
                      else DEFAULT_SPEC
    {
      if monitor == "" {
        base := outputs;
      }
      monitor := asked;
      if asked == VIRTUAL_ID {
        var streamed := if hasStream && CurrentOutput(active) != "" then CurrentOutput(active) else env.configured;
        spec := if mode != "" then mode else if VIRTUAL_PREFIX <= streamed then streamed else DEFAULT_SPEC;
      }
    }

    method SetBenchMonitor(id: string, env: PinEnv, deferRestart: bool) returns (ok: bool)
      modifies this
      ensures Current() == SetMonitor(old(Current()), id, env, deferRestart) && ok == Acceptable(id, env)
    {
      var asked, mode;
      ok, asked, mode := ResolveId(id, env);
      if !ok || (asked == monitor && (mode == "" || mode == spec)) {
        return;
      }
      NoteMonitor(asked, mode, env);
      assert Current() == Asked(old(Current()), id, env);
      if asked == "" {
        RestoreOutputs(env.refused, deferRestart, env.startOk);
      } else {
        PinActiveNow(env, deferRestart);
      }
    }

    method CarryPin(kind: string, connector: string, devices: seq<Device>, setOk: bool)
      modifies this`outputs
      ensures Current() == Carry(old(Current()), kind, connector, devices, setOk)
    {
      if connector == "" {
        return;
      }
      var found := ByKey(devices, connector);
      if found.Missing? || found.name == CurrentOutput(kind) || !setOk {
        return;
      }
      outputs := outputs[kind := found.name];
    }

    method PinLateNow(kind: string, env: SwitchEnv)
      requires monitor != ""
      modifies this`orig, this`outputs, this`running, this`started
      ensures Current() == PinLate(old(Current()), kind, env)
    {
      var changed, ok := ApplyPin(kind, env.up, env.lateOk);
      if ok && changed {
        RestartActive(env.restartOk);
      }
    }

    method LeaveFor(kind: string, env: SwitchEnv) returns (connector: string)
      modifies this`pending, this`hasStream, this`active
      ensures connector == LeftConnector(old(Current()), env)
      ensures Current() == old(Current()).(pending := false, hasStream := true, active := kind)
    {
      connector := "";
      if hasStream {
        connector := PinConnector(CurrentOutput(active), env.leaving);
      }
      pending, hasStream, active := false, true, kind;
    }

    method SetStreamBackend(kind: string, env: SwitchEnv)
      modifies this`pending, this`hasStream, this`active, this`orig, this`outputs, this`running, this`started
      ensures Current() == Switch(old(Current()), kind, env)
    {
      if !env.available {
        return;
      }
      if kind == active {
        if pending && hasStream {
          pending := false;
          RestartActive(env.startOk);
        }
        return;
      }
      var connector := LeaveFor(kind, env);
      CarryPin(kind, connector, env.coming, env.carryOk);
      var changed, ok := ApplyPin(kind, env.coming, env.pinOk);
      RestartActive(env.startOk);
      if !ok && monitor != "" {
        PinLateNow(kind, env);
      }
    }
  }
}
