/** A guest pairs a Moonlight client while the owner may be ending the guest's share
    (agent/internal/app/guests.go `PairGuestClient`, agent/internal/guestauth/store.go and manager.go).
    Every access to the store, to the host's trust list and to its permissions is a step of its own, taken by
    pairings, revocations and sweeps in any order. */
module GuestPairing {

  const MAX_FINGERPRINTS := 4

  datatype Role = Viewer | Operator | Technician | Unknown

  // ---------------------------------------------------------------- permission masks

  /** The permissions of a Moonlight client, one bit of its mask each. */
  datatype Perm =
    | InputController | InputTouch | InputPen | InputMouse | InputKbd
    | ClipboardSet | ClipboardRead | FileUpload | FileDownload | ServerCmd | List | View | Launch

  const VIEW: set<Perm> := {List, View, Launch}
  const INPUT: set<Perm> := {InputController, InputTouch, InputPen, InputMouse, InputKbd}
  const CLIPBOARD: set<Perm> := {ClipboardSet, ClipboardRead}
  const FILES: set<Perm> := {FileUpload, FileDownload}
  const EVERYTHING: set<Perm> := VIEW + INPUT + CLIPBOARD + FILES + {ServerCmd}

  /** `guestMoonlightPerm`; every role is limited. */
  function Mask(r: Role): set<Perm> {
    match r
    case Viewer => VIEW
    case Operator => VIEW + INPUT + CLIPBOARD
    case Technician => VIEW + INPUT + CLIPBOARD + FILES
    case Unknown => {}
  }

  /** Each role may do what the one below it may, a Viewer touches neither input, clipboard nor files, and
      nobody runs commands on the host. */
  lemma MasksNest(r: Role)
    ensures Mask(Unknown) < Mask(Viewer) < Mask(Operator) < Mask(Technician) < EVERYTHING
    ensures Mask(Viewer) !! (INPUT + CLIPBOARD + FILES)
    ensures ServerCmd !in Mask(r)
  {
    assert InputKbd !in Mask(Viewer) && FileUpload !in Mask(Operator) && ServerCmd in EVERYTHING;
    assert InputKbd in Mask(Operator) && FileUpload in Mask(Technician) && View in Mask(Viewer);
  }

  /** What a trusted client may do: everything, as the host grants a fresh one, or its role's mask. */
  datatype Level = Full | As(role: Role)

  function Permissions(l: Level): set<Perm> {
    if l.Full? then EVERYTHING else Mask(l.role)
  }

  // ---------------------------------------------------------------- the store

  /** A share as the agent records it; `ended` once it is revoked or has expired. */
  datatype Share = Share(role: Role, ended: bool, prints: set<string>)

  /** `AddFingerprint`, for a known share: recorded already, full, or recorded now. */
  predicate CanAdd(sh: Share, fp: string) {
    fp in sh.prints || |sh.prints| < MAX_FINGERPRINTS
  }

  /** The store, each method one locked section. */
  class ShareStore {
    var shares: map<nat, Share>

    constructor ()
      ensures shares == map[]
    {
      shares := map[];
    }

    method Revoke(id: nat) returns (ok: bool)
      modifies this
      ensures ok == (id in old(shares))
      ensures shares == if ok then old(shares)[id := old(shares)[id].(ended := true)] else old(shares)
    {
      ok := id in shares;
      if ok {
        shares := shares[id := shares[id].(ended := true)];
      }
    }

    method AddFingerprint(id: nat, fp: string) returns (ok: bool)
      modifies this
      ensures ok == (id in old(shares) && CanAdd(old(shares)[id], fp))
      ensures shares == if ok then old(shares)[id := Added(old(shares)[id], fp)] else old(shares)
    {
      if id !in shares {
        return false;
      }
      var sh := shares[id];
      if fp in sh.prints {
        assert sh.prints + {fp} == sh.prints;
        assert shares == shares[id := Added(sh, fp)];
        return true;
      }
      if |sh.prints| >= MAX_FINGERPRINTS {
        return false;
      }
      shares := shares[id := sh.(prints := sh.prints + {fp})];
      return true;
    }

    method RemoveFingerprint(id: nat, fp: string)
      modifies this
      ensures shares == if id in old(shares) then old(shares)[id := Removed(old(shares)[id], fp)] else old(shares)
    {
      if id in shares {
        shares := shares[id := shares[id].(prints := shares[id].prints - {fp})];
      }
    }

    method TakeFingerprints(id: nat) returns (taken: set<string>)
      modifies this
      ensures taken == if id in old(shares) then old(shares)[id].prints else {}
      ensures shares == if id in old(shares) then old(shares)[id := old(shares)[id].(prints := {})] else old(shares)
    {
      taken := {};
      if id in shares {
        taken := shares[id].prints;
        shares := shares[id := shares[id].(prints := {})];
      }
    }
  }

  function Added(sh: Share, fp: string): Share { sh.(prints := sh.prints + {fp}) }

  function Removed(sh: Share, fp: string): Share { sh.(prints := sh.prints - {fp}) }

  // ---------------------------------------------------------------- the threads

  datatype PairPc =
    | Adding          // the share is known, its role may be paired here
    | Submitting      // the binding is recorded, the PIN goes to the host
    | Polling         // the host took the PIN
    | Checking        // the host trusts the certificate
    | Limiting        // the share was live
    | Unpairing       // the share had ended, or the client could not be limited
    | Forgetting      // the deadline passed
    | Over

  /** `limited`: the stream host can limit clients, so this one is to be. */
  datatype Pairing = Pairing(share: nat, fp: string, limited: bool, pc: PairPc)

  /** `dropCertificates` of a revocation or a sweep: before taking the share's certificates, or with those
      still to be unpaired. */
  datatype Dropper = Dropper(share: nat, taken: bool, todo: set<string>)

  /** Besides the store, the host's trust list with each client's permissions, and the threads: the history of
      grants, the (share, certificate) pairs of a pairing that found the certificate trusted and the share
      live, kept until the certificate is unpaired; and of the ended shares that a sweep has still to take from. */
  datatype World = World(
    shares: map<nat, Share>, trusted: map<string, Level>,
    pairings: map<nat, Pairing>, droppers: map<nat, Dropper>,
    granted: set<(nat, string)>, owes: set<nat>)

  function Init(): World { World(map[], map[], map[], map[], {}, {}) }

  datatype Event =
    | Invite(share: nat, role: Role)
    | Expire(share: nat)
    | Revoke(d: nat, share: nat)
    | Sweep(d: nat, share: nat)
    | Take(d: nat)
    | Drop(d: nat, fp: string, ok: bool)
    | Ask(p: nat, share: nat, fp: string, canLimit: bool)
    | Add(p: nat)
    | Submit(p: nat, ok: bool)
    | HostTrusts(fp: string)
    | Poll(p: nat)
    | Check(p: nat)
    | Limit(p: nat, ok: bool)
    | Unpair(p: nat, ok: bool)
    | GiveUp(p: nat)
    | Forget(p: nat)

  function Ended(w: World, share: nat): World {
    if share !in w.shares || w.shares[share].ended then w
    else w.(shares := w.shares[share := w.shares[share].(ended := true)], owes := w.owes + {share})
  }

  /** The host forgets a certificate. */
  function Untrusted(w: World, fp: string): World {
    w.(trusted := w.trusted - {fp}, granted := set g | g in w.granted && g.1 != fp)
  }

  function DropperStep(w: World, e: Event, d: nat, dr: Dropper): World {
    match e
    case Take(_) =>
      if dr.taken || dr.share !in w.shares then w else
      w.(shares := w.shares[dr.share := w.shares[dr.share].(prints := {})],
         droppers := w.droppers[d := dr.(taken := true, todo := w.shares[dr.share].prints)],
         owes := w.owes - {dr.share})
    case Drop(_, fp, ok) =>
      if !dr.taken || fp !in dr.todo then w else
      var next := w.(droppers := w.droppers[d := dr.(todo := dr.todo - {fp})]);
      if ok then Untrusted(next, fp)
      else if dr.share in w.shares && CanAdd(w.shares[dr.share], fp)
      then next.(shares := w.shares[dr.share := Added(w.shares[dr.share], fp)], owes := w.owes + {dr.share})
      else next
    case _ => w
  }

  function To(w: World, p: nat, pr: Pairing, pc: PairPc): World {
    w.(pairings := w.pairings[p := pr.(pc := pc)])
  }

  /** Pairing `p` of the share, whose role goes to a host that can or cannot limit clients. */
  function AskStep(w: World, p: nat, share: nat, fp: string, canLimit: bool): World {
    if p in w.pairings || share !in w.shares then w
    else if !canLimit && w.shares[share].role.Viewer? then w
    else w.(pairings := w.pairings[p := Pairing(share, fp, canLimit, Adding)])
  }

  function CheckStep(w: World, p: nat, pr: Pairing): World {
    if pr.share !in w.shares || w.shares[pr.share].ended then To(w, p, pr, Unpairing)
    else To(w.(granted := if pr.fp in w.trusted then w.granted + {(pr.share, pr.fp)} else w.granted),
            p, pr, if pr.limited then Limiting else Over)
  }

  function PairingStep(w: World, e: Event, p: nat, pr: Pairing): World {
    match (e, pr.pc)
    case (Add(_), Adding) =>
      if pr.share in w.shares && CanAdd(w.shares[pr.share], pr.fp)
      then To(w.(shares := w.shares[pr.share := Added(w.shares[pr.share], pr.fp)]), p, pr, Submitting)
      else To(w, p, pr, Over)
    case (Submit(_, ok), Submitting) => To(w, p, pr, if ok then Polling else Over)
    case (Poll(_), Polling) => if pr.fp in w.trusted then To(w, p, pr, Checking) else w
    case (Check(_), Checking) => CheckStep(w, p, pr)
    case (Limit(_, ok), Limiting) =>
      // a client the host does not trust cannot be limited
      if ok && pr.fp in w.trusted && pr.share in w.shares
      then To(w.(trusted := w.trusted[pr.fp := As(w.shares[pr.share].role)]), p, pr, Over)
      else To(w, p, pr, Unpairing)
    case (Unpair(_, ok), Unpairing) => To(if ok then Untrusted(w, pr.fp) else w, p, pr, Over)
    case (GiveUp(_), Polling) => To(w, p, pr, Forgetting)
    case (Forget(_), Forgetting) =>
      if pr.share in w.shares
      then To(w.(shares := w.shares[pr.share := Removed(w.shares[pr.share], pr.fp)]), p, pr, Over)
      else To(w, p, pr, Over)
    case _ => w
  }

  /** One step; a step that is not enabled changes nothing. */
  function Step(w: World, e: Event): World {
    match e
    case Invite(id, role) => if id in w.shares then w else w.(shares := w.shares[id := Share(role, false, {})])
    case Expire(id) => Ended(w, id)
    case Revoke(d, id) =>
      if d in w.droppers || id !in w.shares then w
      else Ended(w, id).(droppers := w.droppers[d := Dropper(id, false, {})])
    case Sweep(d, id) =>
      if d in w.droppers || id !in w.shares || !w.shares[id].ended then w
      else w.(droppers := w.droppers[d := Dropper(id, false, {})])
    case HostTrusts(fp) => if fp in w.trusted then w else w.(trusted := w.trusted[fp := Full])
    case Ask(p, share, fp, canLimit) => AskStep(w, p, share, fp, canLimit)
    case Take(d) => if d in w.droppers then DropperStep(w, e, d, w.droppers[d]) else w
    case Drop(d, _, _) => if d in w.droppers then DropperStep(w, e, d, w.droppers[d]) else w
    case _ => if e.p in w.pairings then PairingStep(w, e, e.p, w.pairings[e.p]) else w
  }

  function Run(w: World, es: seq<Event>): World {
    if es == [] then w else Step(Run(w, es[..|es| - 1]), es[|es| - 1])
  }

  // ---------------------------------------------------------------- the steps that fail

  predicate InFlight(pr: Pairing) { !pr.pc.Over? }

  predicate OfPairing(e: Event) {
    e.Add? || e.Submit? || e.Poll? || e.Check? || e.Limit? || e.Unpair? || e.GiveUp? || e.Forget?
  }

  predicate Bound(pc: PairPc) { pc.Submitting? || pc.Polling? || pc.Checking? }

  /** Another pairing of the certificate for the same share relies on the binding. */
  ghost predicate OtherRelies(w: World, share: nat, fp: string) {
    exists q :: q in w.pairings && w.pairings[q].share == share && w.pairings[q].fp == fp && Bound(w.pairings[q].pc)
  }

  /** Dropper `dr` has certificate `fp` of the share in its hands. */
  predicate Holds(dr: Dropper, share: nat, fp: string) {
    dr.share == share && dr.taken && fp in dr.todo
  }

  ghost predicate Held(w: World, share: nat, fp: string) {
    exists d :: d in w.droppers && Holds(w.droppers[d], share, fp)
  }

  ghost predicate HeldByAnother(w: World, d: nat, share: nat, fp: string) {
    exists c :: c in w.droppers && c != d && Holds(w.droppers[c], share, fp)
  }

  /** A pairing whose time is over forgets a binding that another pairing of the live share relies on, or that a grant
      needs which no revocation or sweep has in hand. */
  ghost predicate Forgets(w: World, e: Event) {
    && e.Forget? && e.p in w.pairings && w.pairings[e.p].pc.Forgetting? && w.pairings[e.p].share in w.shares
    && var pr := w.pairings[e.p];
       || (!w.shares[pr.share].ended && OtherRelies(w, pr.share, pr.fp))
       || ((pr.share, pr.fp) in w.granted && !Held(w, pr.share, pr.fp))
  }

  /** A granted certificate that could not be unpaired finds no room to be put back for the next sweep. */
  ghost predicate Mislays(w: World, e: Event) {
    && e.Drop? && !e.ok && e.d in w.droppers && w.droppers[e.d].share in w.shares
    && var share := w.droppers[e.d].share;
       && Holds(w.droppers[e.d], share, e.fp) && (share, e.fp) in w.granted
       && !HeldByAnother(w, e.d, share, e.fp) && !CanAdd(w.shares[share], e.fp)
  }

  /** The guard of bindings: a step that loses one which is still needed. */
  ghost predicate Unbinds(w: World, e: Event) { Forgets(w, e) || Mislays(w, e) }

  /** Some pairing, under way or over, is of the certificate: it is not the owner's own client's. */
  ghost predicate Named(w: World, fp: string) {
    exists p :: p in w.pairings && w.pairings[p].fp == fp
  }

  /** A pairing will still look at the certificate, or is about to unpair it. */
  predicate Minds(pr: Pairing, fp: string) {
    pr.fp == fp && (pr.pc.Adding? || Bound(pr.pc) || pr.pc.Unpairing?)
  }

  ghost predicate Minded(w: World, fp: string) {
    exists p :: p in w.pairings && Minds(w.pairings[p], fp)
  }

  ghost predicate MindedByAnother(w: World, p: nat, fp: string) {
    exists q :: q in w.pairings && q != p && Minds(w.pairings[q], fp)
  }

  ghost predicate Granted(w: World, fp: string) {
    exists g :: g in w.granted && g.1 == fp
  }

  /** The pairing stops without a further look at its certificate: the share has no room for it, the PIN's submission
      fails, the deadline passes, or unpairing fails. */
  predicate Leaves(w: World, e: Event) {
    && OfPairing(e) && e.p in w.pairings
    && var pr := w.pairings[e.p];
       match pr.pc
       case Adding => e.Add? && !(pr.share in w.shares && CanAdd(w.shares[pr.share], pr.fp))
       case Submitting => e.Submit? && !e.ok
       case Polling => e.GiveUp?
       case Unpairing => e.Unpair? && !e.ok
       case _ => false
  }

  /** The guard of trust: the host trusts a certificate that some pairing was of but none will look at, or the last
      pairing that would look at a trusted one which is not granted leaves. */
  ghost predicate Abandons(w: World, e: Event) {
    || (e.HostTrusts? && e.fp !in w.trusted && Named(w, e.fp) && !Granted(w, e.fp) && !Minded(w, e.fp))
    || (Leaves(w, e) &&
        var fp := w.pairings[e.p].fp; fp in w.trusted && !Granted(w, fp) && !MindedByAnother(w, e.p, fp))
  }

  ghost predicate NeverUnbinds(es: seq<Event>) {
    es == [] || (NeverUnbinds(es[..|es| - 1]) && !Unbinds(Run(Init(), es[..|es| - 1]), es[|es| - 1]))
  }

  ghost predicate NeverAbandons(es: seq<Event>) {
    es == [] || (NeverAbandons(es[..|es| - 1]) && !Abandons(Run(Init(), es[..|es| - 1]), es[|es| - 1]))
  }

  // ---------------------------------------------------------------- bindings

  /** A grant is of a trusted certificate bound to the share, or, the share having ended and its certificates
      been taken, about to be unpaired. */
  ghost predicate GrantBound(w: World, g: (nat, string)) {
    && g.0 in w.shares && g.1 in w.trusted
    && (g.1 in w.shares[g.0].prints || Held(w, g.0, g.1))
    && (w.shares[g.0].ended && g.0 !in w.owes ==> Held(w, g.0, g.1))
  }

  ghost predicate Grants(w: World) {
    forall g | g in w.granted :: GrantBound(w, g)
  }

  predicate PairingFits(w: World, pr: Pairing) {
    && pr.share in w.shares
    && (Bound(pr.pc) && !w.shares[pr.share].ended ==> pr.fp in w.shares[pr.share].prints)
  }

  ghost predicate Pairings(w: World) {
    forall p | p in w.pairings :: PairingFits(w, w.pairings[p])
  }

  predicate DropperFits(w: World, dr: Dropper) {
    dr.share in w.shares && w.shares[dr.share].ended
  }

  ghost predicate Droppers(w: World) {
    && (forall d | d in w.droppers :: DropperFits(w, w.droppers[d]))
    && (forall id | id in w.owes :: id in w.shares && w.shares[id].ended)
  }

  ghost predicate Bindings(w: World) {
    Grants(w) && Pairings(w) && Droppers(w)
  }

  /** Shares keep their bindings and ends, trust and the droppers' hands what they hold. */
  ghost predicate NothingTaken(w: World, n: World) {
    && w.shares.Keys <= n.shares.Keys && w.trusted.Keys <= n.trusted.Keys && w.owes == n.owes
    && (forall id | id in w.shares :: n.shares[id].ended == w.shares[id].ended && w.shares[id].prints <= n.shares[id].prints)
    && (forall d | d in w.droppers :: d in n.droppers && n.droppers[d] == w.droppers[d])
  }

  lemma GrantsStay(w: World, n: World)
    requires Grants(w) && NothingTaken(w, n) && n.granted <= w.granted
    ensures Grants(n)
  {
    HeldStays(w, n);
    forall g | g in n.granted ensures GrantBound(n, g) {
      assert GrantBound(w, g);
    }
  }

  lemma DroppersStay(w: World, n: World)
    requires Droppers(w) && NothingTaken(w, n) && n.droppers == w.droppers
    ensures Droppers(n)
  {
    forall d | d in n.droppers ensures DropperFits(n, n.droppers[d]) { assert DropperFits(w, w.droppers[d]); }
  }

  lemma FitStays(w: World, n: World, pr: Pairing)
    requires NothingTaken(w, n) && n.granted <= w.granted && PairingFits(w, pr)
    ensures PairingFits(n, pr)
  {
  }

  lemma InviteKeeps(w: World, id: nat, role: Role)
    requires Bindings(w)
    ensures Bindings(Step(w, Invite(id, role)))
  {
    var n := Step(w, Invite(id, role));
    GrantsStay(w, n);
    DroppersStay(w, n);
    forall p | p in n.pairings ensures PairingFits(n, n.pairings[p]) { FitStays(w, n, w.pairings[p]); }
  }

  lemma EndKeeps(w: World, id: nat)
    requires Bindings(w)
    ensures Bindings(Ended(w, id))
  {
    var n := Ended(w, id);
    HeldStays(w, n);
    forall p | p in n.pairings ensures PairingFits(n, n.pairings[p]) { assert PairingFits(w, w.pairings[p]); }
    forall g | g in n.granted ensures GrantBound(n, g) { assert GrantBound(w, g); }
    forall d | d in n.droppers ensures DropperFits(n, n.droppers[d]) { assert DropperFits(w, w.droppers[d]); }
  }

  lemma NewDropperKeeps(w: World, d: nat, id: nat)
    requires Bindings(w) && d !in w.droppers && id in w.shares && w.shares[id].ended
    ensures Bindings(w.(droppers := w.droppers[d := Dropper(id, false, {})]))
  {
    var n := w.(droppers := w.droppers[d := Dropper(id, false, {})]);
    HeldStays(w, n);
  }

  lemma TakeKeeps(w: World, d: nat)
    requires Bindings(w)
    ensures Bindings(Step(w, Take(d)))
  {
    var n := Step(w, Take(d));
    if n != w {
      var dr := w.droppers[d];
      forall g | g in n.granted ensures GrantBound(n, g) {
        assert GrantBound(w, g);
        if g.0 == dr.share && g.1 in w.shares[g.0].prints {
          assert Holds(n.droppers[d], g.0, g.1);
        } else if Held(w, g.0, g.1) {
          var c :| c in w.droppers && Holds(w.droppers[c], g.0, g.1);
          assert c in n.droppers && Holds(n.droppers[c], g.0, g.1);
        }
      }
    }
  }

  lemma DropKeeps(w: World, d: nat, fp: string)
    requires Bindings(w)
    ensures Bindings(Step(w, Drop(d, fp, true)))
  {
    var n := Step(w, Drop(d, fp, true));
    if n != w {
      forall g | g in n.granted ensures GrantBound(n, g) {
        assert GrantBound(w, g);
        if Held(w, g.0, g.1) {
          var c :| c in w.droppers && Holds(w.droppers[c], g.0, g.1);
          assert c in n.droppers && Holds(n.droppers[c], g.0, g.1);
        }
      }
    }
  }

  /** A dropper that fails to unpair a certificate lets go of it and of nothing else. */
  lemma LetsGo(w: World, d: nat, fp: string, g: (nat, string))
    requires d in w.droppers && Holds(w.droppers[d], w.droppers[d].share, fp) && w.droppers[d].share in w.shares
    ensures var n, share := Step(w, Drop(d, fp, false)), w.droppers[d].share;
            Held(n, g.0, g.1) <==> if g == (share, fp) then HeldByAnother(w, d, share, fp) else Held(w, g.0, g.1)
  {
    var n, share := Step(w, Drop(d, fp, false)), w.droppers[d].share;
    assert n.droppers == w.droppers[d := w.droppers[d].(todo := w.droppers[d].todo - {fp})];
    if Held(n, g.0, g.1) {
      var c :| c in n.droppers && Holds(n.droppers[c], g.0, g.1);
      assert Holds(w.droppers[c], g.0, g.1) && (g == (share, fp) ==> c != d);
    }
    if HeldByAnother(w, d, share, fp) {
      var c :| c in w.droppers && c != d && Holds(w.droppers[c], share, fp);
      assert Holds(n.droppers[c], share, fp);
    }
    if g != (share, fp) && Held(w, g.0, g.1) {
      var c :| c in w.droppers && Holds(w.droppers[c], g.0, g.1);
      assert Holds(n.droppers[c], g.0, g.1);
    }
  }

  lemma FailedDropKeeps(w: World, d: nat, fp: string)
    requires Bindings(w)
    ensures Bindings(Step(w, Drop(d, fp, false))) <==> !Mislays(w, Drop(d, fp, false))
  {
    var n := Step(w, Drop(d, fp, false));
    if d in w.droppers && Holds(w.droppers[d], w.droppers[d].share, fp) {
      assert DropperFits(w, w.droppers[d]);
      var share := w.droppers[d].share;
      FailedDropFits(w, d, fp);
      if Mislays(w, Drop(d, fp, false)) {
        LetsGo(w, d, fp, (share, fp));
        assert !GrantBound(n, (share, fp));
      } else {
        forall g | g in n.granted ensures GrantBound(n, g) {
          LetsGo(w, d, fp, g);
          assert GrantBound(w, g);
        }
      }
    }
  }

  lemma FailedDropFits(w: World, d: nat, fp: string)
    requires Bindings(w)
    ensures Pairings(Step(w, Drop(d, fp, false))) && Droppers(Step(w, Drop(d, fp, false)))
  {
    var n := Step(w, Drop(d, fp, false));
    forall p | p in n.pairings ensures PairingFits(n, n.pairings[p]) { assert PairingFits(w, w.pairings[p]); }
    forall c | c in n.droppers ensures DropperFits(n, n.droppers[c]) { assert DropperFits(w, w.droppers[c]); }
  }

  /** What droppers hold they keep, when none of them changed. */
  lemma HeldStays(w: World, n: World)
    requires forall d | d in w.droppers :: d in n.droppers && n.droppers[d] == w.droppers[d]
    ensures forall share, fp :: Held(w, share, fp) ==> Held(n, share, fp)
  {
    forall share, fp | Held(w, share, fp) ensures Held(n, share, fp) {
      var d :| d in w.droppers && Holds(w.droppers[d], share, fp);
      assert d in n.droppers && Holds(n.droppers[d], share, fp);
    }
  }

  lemma HostTrustsKeeps(w: World, fp: string)
    requires Bindings(w)
    ensures Bindings(Step(w, HostTrusts(fp)))
  {
    HeldStays(w, Step(w, HostTrusts(fp)));
  }

  lemma AskKeeps(w: World, e: Event)
    requires Bindings(w) && e.Ask?
    ensures Bindings(Step(w, e))
  {
    var n := Step(w, e);
    GrantsStay(w, n);
    DroppersStay(w, n);
    forall p | p in n.pairings ensures PairingFits(n, n.pairings[p]) {
      if p in w.pairings { FitStays(w, n, w.pairings[p]); }
    }
  }

  lemma AddKeeps(w: World, p: nat)
    requires Bindings(w)
    ensures Bindings(Step(w, Add(p)))
  {
    var n := Step(w, Add(p));
    if n != w {
      AddTakesNothing(w, p);
      GrantsStay(w, n);
      DroppersStay(w, n);
      forall q | q in n.pairings ensures PairingFits(n, n.pairings[q]) { FitStays(w, n, w.pairings[q]); }
    }
  }

  lemma AddTakesNothing(w: World, p: nat)
    requires p in w.pairings && w.pairings[p].pc.Adding?
    ensures var n := Step(w, Add(p));
            && NothingTaken(w, n) && n.granted == w.granted && n.droppers == w.droppers
            && (n.pairings[p].pc.Over? || (n.pairings[p].pc.Submitting? && PairingFits(n, n.pairings[p])))
  {
  }

  lemma ForgetKeeps(w: World, p: nat)
    requires Bindings(w) && !Forgets(w, Forget(p))
    ensures Bindings(Step(w, Forget(p)))
  {
    var n := Step(w, Forget(p));
    HeldStays(w, n);
    if n != w {
      forall q | q in n.pairings ensures PairingFits(n, n.pairings[q]) { assert PairingFits(w, w.pairings[q]); }
      forall g | g in n.granted ensures GrantBound(n, g) { assert GrantBound(w, g); }
    }
  }

  lemma ForgetUnbinds(w: World, p: nat)
    requires Bindings(w) && Forgets(w, Forget(p))
    ensures !Bindings(Step(w, Forget(p)))
  {
    var n, pr := Step(w, Forget(p)), w.pairings[p];
    if !w.shares[pr.share].ended && OtherRelies(w, pr.share, pr.fp) {
      var q :| q in w.pairings && w.pairings[q].share == pr.share && w.pairings[q].fp == pr.fp && Bound(w.pairings[q].pc);
      assert n.pairings[q] == w.pairings[q] && !PairingFits(n, n.pairings[q]);
    } else {
      assert !Held(n, pr.share, pr.fp) by { assert n.droppers == w.droppers; }
      assert !GrantBound(n, (pr.share, pr.fp));
    }
  }

  lemma CheckKeeps(w: World, p: nat)
    requires Bindings(w)
    ensures Bindings(Step(w, Check(p)))
  {
    var n := Step(w, Check(p));
    if n != w {
      CheckKeepsPairings(w, p);
      CheckKeepsGrants(w, p);
      DroppersStay(w, n);
    }
  }

  lemma CheckKeepsPairings(w: World, p: nat)
    requires Bindings(w) && p in w.pairings && w.pairings[p].pc.Checking?
    ensures Pairings(Step(w, Check(p)))
  {
    var n := Step(w, Check(p));
    forall q | q in n.pairings ensures PairingFits(n, n.pairings[q]) { assert PairingFits(w, w.pairings[q]); }
  }

  lemma CheckKeepsGrants(w: World, p: nat)
    requires Bindings(w) && p in w.pairings && w.pairings[p].pc.Checking?
    ensures Grants(Step(w, Check(p)))
  {
    var n := Step(w, Check(p));
    HeldStays(w, n);
    assert PairingFits(w, w.pairings[p]);
    forall g | g in n.granted ensures GrantBound(n, g) {
      if g in w.granted { assert GrantBound(w, g); }
    }
  }

  /** Submit, Poll and GiveUp only move the pairing on. */
  lemma MoveKeeps(w: World, e: Event)
    requires Bindings(w) && (e.Submit? || e.Poll? || e.GiveUp?)
    ensures Bindings(Step(w, e))
  {
    var n := Step(w, e);
    if n != w {
      GrantsStay(w, n);
      DroppersStay(w, n);
      assert PairingFits(n, n.pairings[e.p]) by { assert PairingFits(w, w.pairings[e.p]); }
      forall q | q in n.pairings ensures PairingFits(n, n.pairings[q]) {
        if q != e.p { FitStays(w, n, w.pairings[q]); }
      }
    }
  }

  lemma LimitKeeps(w: World, p: nat, ok: bool)
    requires Bindings(w)
    ensures Bindings(Step(w, Limit(p, ok)))
  {
    var n := Step(w, Limit(p, ok));
    if n != w {
      assert n.trusted.Keys == w.trusted.Keys;
      GrantsStay(w, n);
      DroppersStay(w, n);
      forall q | q in n.pairings ensures PairingFits(n, n.pairings[q]) { assert PairingFits(w, w.pairings[q]); }
    }
  }

  lemma UnpairKeeps(w: World, p: nat, ok: bool)
    requires Bindings(w)
    ensures Bindings(Step(w, Unpair(p, ok)))
  {
    var n := Step(w, Unpair(p, ok));
    if n != w {
      HeldStays(w, n);
      forall q | q in n.pairings ensures PairingFits(n, n.pairings[q]) { assert PairingFits(w, w.pairings[q]); }
      forall g | g in n.granted ensures GrantBound(n, g) { assert GrantBound(w, g); }
    }
  }

  lemma OtherStepKeepsBindings(w: World, e: Event)
    requires Bindings(w) && !e.Forget? && !(e.Drop? && !e.ok)
    ensures Bindings(Step(w, e))
  {
    match e
    case Invite(id, role) => InviteKeeps(w, id, role);
    case Expire(id) => EndKeeps(w, id);
    case Revoke(d, id) =>
      EndKeeps(w, id);
      if d !in w.droppers && id in w.shares { NewDropperKeeps(Ended(w, id), d, id); }
    case Sweep(d, id) =>
      if d !in w.droppers && id in w.shares && w.shares[id].ended { NewDropperKeeps(w, d, id); }
    case Take(d) => TakeKeeps(w, d);
    case Drop(d, fp, _) => DropKeeps(w, d, fp);
    case Ask(_, _, _, _) => AskKeeps(w, e);
    case Add(p) => AddKeeps(w, p);
    case Submit(_, _) => MoveKeeps(w, e);
    case HostTrusts(fp) => HostTrustsKeeps(w, fp);
    case Poll(_) => MoveKeeps(w, e);
    case Check(p) => CheckKeeps(w, p);
    case Limit(p, ok) => LimitKeeps(w, p, ok);
    case Unpair(p, ok) => UnpairKeeps(w, p, ok);
    case GiveUp(_) => MoveKeeps(w, e);
  }

  /** Any step keeps the bindings exactly when it does not unbind. */
  lemma StepKeepsBindings(w: World, e: Event)
    requires Bindings(w)
    ensures Bindings(Step(w, e)) <==> !Unbinds(w, e)
  {
    if e.Drop? && !e.ok {
      FailedDropKeeps(w, e.d, e.fp);
    } else if !e.Forget? {
      OtherStepKeepsBindings(w, e);
    } else if Forgets(w, e) {
      ForgetUnbinds(w, e.p);
    } else {
      ForgetKeeps(w, e.p);
    }
  }

  lemma {:induction false} EveryRunKeepsBindings(es: seq<Event>)
    requires NeverUnbinds(es)
    ensures Bindings(Run(Init(), es))
  {
    if es != [] {
      EveryRunKeepsBindings(es[..|es| - 1]);
      StepKeepsBindings(Run(Init(), es[..|es| - 1]), es[|es| - 1]);
    }
  }

  // ---------------------------------------------------------------- trust

  /** A trusted certificate that a pairing was of is granted, or a pairing still looks at it. */
  ghost predicate TrustAccounted(w: World) {
    forall fp | fp in w.trusted && Named(w, fp) :: Granted(w, fp) || Minded(w, fp)
  }

  /** Trust stays accounted for when no grant of it goes and every certificate that was minded still is, or is granted. */
  lemma TrustStays(w: World, n: World)
    requires TrustAccounted(w) && n.trusted.Keys <= w.trusted.Keys
    requires forall fp | fp in n.trusted && Named(n, fp) :: Named(w, fp) || Minded(n, fp)
    requires forall g | g in w.granted && g.1 in n.trusted :: g in n.granted
    requires forall p | p in w.pairings && w.pairings[p].fp in n.trusted && Minds(w.pairings[p], w.pairings[p].fp) ::
               Granted(n, w.pairings[p].fp) || Minded(n, w.pairings[p].fp)
    ensures TrustAccounted(n)
  {
    forall fp | fp in n.trusted && Named(n, fp) ensures Granted(n, fp) || Minded(n, fp) {
      if Granted(w, fp) {
        var g :| g in w.granted && g.1 == fp;
        assert g in n.granted && g.1 == fp;
      } else if Minded(w, fp) {
        var p :| p in w.pairings && Minds(w.pairings[p], fp);
        assert w.pairings[p].fp == fp;
      }
    }
  }

  lemma SamePairingsTrust(w: World, n: World)
    requires TrustAccounted(w) && n.pairings == w.pairings && n.trusted.Keys <= w.trusted.Keys
    requires forall g | g in w.granted && g.1 in n.trusted :: g in n.granted
    ensures TrustAccounted(n)
  {
    forall fp | Named(n, fp) ensures Named(w, fp) {}
    forall p | p in w.pairings && Minds(w.pairings[p], w.pairings[p].fp) ensures Minded(n, w.pairings[p].fp) {
      assert p in n.pairings;
    }
    TrustStays(w, n);
  }

  lemma ShareStepTrust(w: World, e: Event)
    requires TrustAccounted(w) && (e.Invite? || e.Expire? || e.Revoke? || e.Sweep? || e.Take? || e.Drop?)
    ensures TrustAccounted(Step(w, e))
  {
    var n := Step(w, e);
    assert n.pairings == w.pairings && n.trusted.Keys <= w.trusted.Keys
        && forall g | g in w.granted && g.1 in n.trusted :: g in n.granted by {
      match e
      case Invite(_, _) =>
      case Expire(_) =>
      case Revoke(_, _) =>
      case Sweep(_, _) =>
      case Take(_) =>
      case Drop(_, _, _) =>
    }
    SamePairingsTrust(w, n);
  }

  lemma HostTrustsTrust(w: World, fp: string)
    requires TrustAccounted(w)
    ensures TrustAccounted(Step(w, HostTrusts(fp))) <==> !Abandons(w, HostTrusts(fp))
  {
    var n := Step(w, HostTrusts(fp));
    assert forall f :: (Named(n, f) <==> Named(w, f)) && (Minded(n, f) <==> Minded(w, f)) && (Granted(n, f) <==> Granted(w, f));
    if Abandons(w, HostTrusts(fp)) {
      assert fp in n.trusted && Named(n, fp) && !Granted(n, fp) && !Minded(n, fp);
    }
  }

  lemma AskTrust(w: World, e: Event)
    requires TrustAccounted(w) && e.Ask?
    ensures TrustAccounted(Step(w, e))
  {
    var n := Step(w, e);
    if n != w {
      assert e.p in n.pairings && Minds(n.pairings[e.p], e.fp);
      forall fp | Named(n, fp) ensures Named(w, fp) || Minded(n, fp) {
        var q :| q in n.pairings && n.pairings[q].fp == fp;
        assert q == e.p || (q in w.pairings && w.pairings[q].fp == fp);
      }
      forall p | p in w.pairings && Minds(w.pairings[p], w.pairings[p].fp) ensures Minded(n, w.pairings[p].fp) {
        assert p in n.pairings && n.pairings[p] == w.pairings[p];
      }
      TrustStays(w, n);
    }
  }

  /** A pairing's step moves that pairing alone. */
  ghost predicate Moves(w: World, n: World, p: nat) {
    p in w.pairings && p in n.pairings && n.pairings == w.pairings[p := w.pairings[p].(pc := n.pairings[p].pc)]
  }

  lemma PairingStepMoves(w: World, e: Event, p: nat)
    requires p in w.pairings
    ensures Moves(w, PairingStep(w, e, p, w.pairings[p]), p)
  {
    match e
    case Add(_) =>
    case Submit(_, _) =>
    case Poll(_) =>
    case Check(_) =>
    case Limit(_, _) =>
    case Unpair(_, _) =>
    case GiveUp(_) =>
    case Forget(_) =>
    case _ => assert w.pairings == w.pairings[p := w.pairings[p]];
  }

  lemma MovesMinded(w: World, n: World, p: nat, fp: string)
    requires Moves(w, n, p)
    ensures Named(n, fp) <==> Named(w, fp)
    ensures Minded(n, fp) <==> MindedByAnother(w, p, fp) || Minds(n.pairings[p], fp)
    ensures Minded(w, fp) <==> MindedByAnother(w, p, fp) || Minds(w.pairings[p], fp)
  {
    if Named(n, fp) {
      var q :| q in n.pairings && n.pairings[q].fp == fp;
      assert q in w.pairings && w.pairings[q].fp == fp;
    }
    if Named(w, fp) {
      var q :| q in w.pairings && w.pairings[q].fp == fp;
      assert q in n.pairings && n.pairings[q].fp == fp;
    }
    if MindedByAnother(w, p, fp) {
      var q :| q in w.pairings && q != p && Minds(w.pairings[q], fp);
      assert q in n.pairings && Minds(n.pairings[q], fp);
    }
    if Minded(n, fp) {
      var q :| q in n.pairings && Minds(n.pairings[q], fp);
      assert q == p || (q in w.pairings && w.pairings[q] == n.pairings[q]);
    }
  }

  /** A step that moves a pairing keeps trust accounted for unless the pairing was the last to mind its certificate. */
  lemma MovedTrust(w: World, n: World, p: nat)
    requires TrustAccounted(w) && Moves(w, n, p) && n.trusted.Keys <= w.trusted.Keys
    requires forall g | g in w.granted && g.1 in n.trusted :: g in n.granted
    requires var pr := w.pairings[p];
             pr.fp in n.trusted && Minds(pr, pr.fp) ==>
               Minds(n.pairings[p], pr.fp) || Granted(n, pr.fp) || MindedByAnother(w, p, pr.fp)
    ensures TrustAccounted(n)
  {
    forall fp ensures Named(n, fp) ==> Named(w, fp) { MovesMinded(w, n, p, fp); }
    forall q | q in w.pairings && w.pairings[q].fp in n.trusted && Minds(w.pairings[q], w.pairings[q].fp)
      ensures Granted(n, w.pairings[q].fp) || Minded(n, w.pairings[q].fp)
    {
      MovesMinded(w, n, p, w.pairings[q].fp);
    }
    TrustStays(w, n);
  }

  /** A pairing that leaves is over or has only its binding to forget, and nothing else changes. */
  lemma LeavingEffect(w: World, e: Event)
    requires Leaves(w, e)
    ensures var pr := w.pairings[e.p];
            Step(w, e) == To(w, e.p, pr, if pr.pc.Polling? then Forgetting else Over)
  {
  }

  lemma LeavingTrust(w: World, e: Event)
    requires TrustAccounted(w) && Leaves(w, e)
    ensures TrustAccounted(Step(w, e)) <==> !Abandons(w, e)
  {
    var n, pr := Step(w, e), w.pairings[e.p];
    LeavingEffect(w, e);
    MovesMinded(w, n, e.p, pr.fp);
    assert Granted(n, pr.fp) <==> Granted(w, pr.fp);
    if Abandons(w, e) {
      assert Named(w, pr.fp);
    } else {
      MovedTrust(w, n, e.p);
    }
  }

  /** What a pairing's step does to trust, grants and the minding of its own certificate when it does not leave. */
  lemma StayingEffect(w: World, e: Event)
    requires OfPairing(e) && e.p in w.pairings && !Leaves(w, e)
    ensures var n, pr := Step(w, e), w.pairings[e.p];
            && n.trusted.Keys <= w.trusted.Keys && e.p in n.pairings
            && (forall g | g in w.granted && g.1 in n.trusted :: g in n.granted)
            && (pr.fp in n.trusted && Minds(pr, pr.fp) ==>
                  Minds(n.pairings[e.p], pr.fp) || (pr.share, pr.fp) in n.granted)
  {
    match e
    case Add(_) =>
    case Submit(_, _) =>
    case Poll(_) =>
    case Check(_) =>
    case Limit(_, _) =>
    case Unpair(_, _) =>
    case GiveUp(_) =>
    case Forget(_) =>
  }

  lemma StayingTrust(w: World, e: Event)
    requires TrustAccounted(w) && OfPairing(e) && e.p in w.pairings && !Leaves(w, e)
    ensures TrustAccounted(Step(w, e))
  {
    var n, pr := Step(w, e), w.pairings[e.p];
    StayingEffect(w, e);
    PairingStepMoves(w, e, e.p);
    assert (pr.share, pr.fp) in n.granted ==> Granted(n, pr.fp);
    MovedTrust(w, n, e.p);
  }

  /** Any step keeps trust accounted for exactly when it does not abandon a certificate. */
  lemma StepKeepsTrust(w: World, e: Event)
    requires TrustAccounted(w)
    ensures TrustAccounted(Step(w, e)) <==> !Abandons(w, e)
  {
    if e.HostTrusts? { HostTrustsTrust(w, e.fp); }
    else if e.Ask? { AskTrust(w, e); }
    else if !OfPairing(e) { ShareStepTrust(w, e); }
    else if Leaves(w, e) { LeavingTrust(w, e); }
    else if e.p in w.pairings { StayingTrust(w, e); }
  }

  lemma {:induction false} EveryRunAccountsForTrust(es: seq<Event>)
    requires NeverAbandons(es)
    ensures TrustAccounted(Run(Init(), es))
  {
    if es != [] {
      EveryRunAccountsForTrust(es[..|es| - 1]);
      StepKeepsTrust(Run(Init(), es[..|es| - 1]), es[|es| - 1]);
    }
  }

  // ---------------------------------------------------------------- one pairing

  /** A pairing watches until the host trusts its certificate, and then looks at the share. */
  lemma PairingWatches(w: World, p: nat)
    requires p in w.pairings && w.pairings[p].pc.Polling?
    ensures var n := Step(w, Poll(p));
            if w.pairings[p].fp in w.trusted then n == To(w, p, w.pairings[p], Checking) else n == w
  {
  }

  /** A share that has been revoked or has expired in between gets no grant, and the certificate is unpaired; a live one
      gets its grant. */
  lemma ShareIsLookedAtAgain(w: World, p: nat, end: Event)
    requires p in w.pairings && w.pairings[p].pc.Checking? && w.pairings[p].share in w.shares && w.pairings[p].fp in w.trusted
    requires end == Expire(w.pairings[p].share) || (end.Revoke? && end.share == w.pairings[p].share && end.d !in w.droppers)
    ensures !w.shares[w.pairings[p].share].ended ==>
              Step(w, Check(p)).granted == w.granted + {(w.pairings[p].share, w.pairings[p].fp)}
    ensures var checked := Step(Step(w, end), Check(p));
            && checked.granted == w.granted && p in checked.pairings && checked.pairings[p] == w.pairings[p].(pc := Unpairing)
            && w.pairings[p].fp !in Step(checked, Unpair(p, true)).trusted
  {
    var ended := Step(w, end);
    assert ended.pairings == w.pairings && ended.granted == w.granted && ended.shares[w.pairings[p].share].ended;
    assert Step(ended, Check(p)) == To(ended, p, w.pairings[p], Unpairing);
  }

  // ---------------------------------------------------------------- four certificates at most

  predicate FewPrints(w: World) {
    forall id | id in w.shares :: |w.shares[id].prints| <= 4
  }

  lemma AddedFew(sh: Share, fp: string)
    requires |sh.prints| <= 4
    ensures CanAdd(sh, fp) ==> |Added(sh, fp).prints| <= 4
    ensures |Removed(sh, fp).prints| <= 4
  {
    if fp in sh.prints {
      assert sh.prints + {fp} == sh.prints;
      assert |sh.prints - {fp}| == |sh.prints| - 1;
    } else {
      assert sh.prints - {fp} == sh.prints;
    }
  }

  lemma PairingStepKeepsFew(w: World, e: Event, p: nat)
    requires FewPrints(w) && p in w.pairings
    ensures FewPrints(PairingStep(w, e, p, w.pairings[p]))
  {
    var pr := w.pairings[p];
    if pr.share in w.shares { AddedFew(w.shares[pr.share], pr.fp); }
    if e.Add? {} else if e.Check? {} else if e.Forget? {} else if e.Limit? {} else if e.Unpair? {} else {}
  }

  lemma StepKeepsFew(w: World, e: Event)
    requires FewPrints(w)
    ensures FewPrints(Step(w, e))
  {
    match e
    case Invite(_, _) =>
    case Expire(_) =>
    case Revoke(_, _) =>
    case Sweep(_, _) =>
    case Take(_) =>
    case Drop(d, fp, _) =>
      if d in w.droppers && w.droppers[d].share in w.shares { AddedFew(w.shares[w.droppers[d].share], fp); }
    case Ask(_, _, _, _) =>
    case HostTrusts(_) =>
    case _ => if e.p in w.pairings { PairingStepKeepsFew(w, e, e.p); }
  }

  /** On every run a share has four certificates at most, put back ones and all. */
  lemma {:induction false} FourPrintsAtMost(es: seq<Event>)
    ensures FewPrints(Run(Init(), es))
  {
    if es != [] {
      FourPrintsAtMost(es[..|es| - 1]);
      StepKeepsFew(Run(Init(), es[..|es| - 1]), es[|es| - 1]);
    }
  }

  // ---------------------------------------------------------------- nothing left behind

  /** Every pairing is over and every revocation and sweep through. */
  predicate Settled(w: World) {
    && (forall p | p in w.pairings :: w.pairings[p].pc.Over?)
    && (forall d | d in w.droppers :: w.droppers[d].taken && w.droppers[d].todo == {})
  }

  /** Once everything is through, whatever the interleaving: every certificate the host trusts that a pairing was of was
      granted to a share and is still bound to it, and that share is live, or it has ended and the next sweep, which
      finds the binding, will take it. */
  lemma NothingLeftBehind(es: seq<Event>, fp: string) returns (share: nat)
    requires NeverUnbinds(es) && NeverAbandons(es) && Settled(Run(Init(), es))
    requires fp in Run(Init(), es).trusted && Named(Run(Init(), es), fp)
    ensures var w := Run(Init(), es);
            && (share, fp) in w.granted && share in w.shares && fp in w.shares[share].prints
            && (!w.shares[share].ended || share in w.owes)
  {
    EveryRunKeepsBindings(es);
    EveryRunAccountsForTrust(es);
    var w := Run(Init(), es);
    assert !Minded(w, fp);
    var g :| g in w.granted && g.1 == fp;
    assert GrantBound(w, g);
    assert !Held(w, g.0, g.1);
    share := g.0;
  }

  /** Revocations and sweeps unpair what they took. */
  predicate DropsWork(es: seq<Event>) {
    forall e | e in es :: e.Drop? ==> e.ok
  }

  ghost predicate TakenForGood(w: World) {
    forall d | d in w.droppers && w.droppers[d].taken :: w.droppers[d].share !in w.owes
  }

  lemma StepTakesForGood(w: World, e: Event)
    requires TakenForGood(w) && Droppers(w) && (e.Drop? ==> e.ok)
    ensures TakenForGood(Step(w, e))
  {
    forall d | d in w.droppers ensures DropperFits(w, w.droppers[d]) {}
    match e
    case Invite(_, _) =>
    case Expire(_) =>
    case Revoke(_, _) =>
    case Sweep(_, _) =>
    case Take(_) =>
    case Drop(_, _, _) =>
    case Ask(_, _, _, _) =>
    case HostTrusts(_) =>
    case _ => if e.p in w.pairings { PairingDropsNothing(w, e, e.p); }
  }

  lemma PairingDropsNothing(w: World, e: Event, p: nat)
    requires p in w.pairings
    ensures var n := PairingStep(w, e, p, w.pairings[p]); n.droppers == w.droppers && n.owes == w.owes
  {
    match e
    case Add(_) =>
    case Submit(_, _) =>
    case Poll(_) =>
    case Check(_) =>
    case Limit(_, _) =>
    case Unpair(_, _) =>
    case GiveUp(_) =>
    case Forget(_) =>
    case _ =>
  }

  lemma {:induction false} EveryRunTakesForGood(es: seq<Event>)
    requires NeverUnbinds(es) && DropsWork(es)
    ensures TakenForGood(Run(Init(), es))
  {
    if es != [] {
      var q, e := es[..|es| - 1], es[|es| - 1];
      assert e in es && forall f | f in q :: f in es;
      EveryRunTakesForGood(q);
      EveryRunKeepsBindings(q);
      StepTakesForGood(Run(Init(), q), e);
    }
  }

  /** A revoked share leaves nothing behind: once its revocation is through, a certificate granted to it can only be one
      that failed to be unpaired and was put back for the next sweep. */
  lemma RevokedShareHasNothing(es: seq<Event>, d: nat, fp: string)
    requires NeverUnbinds(es) && Settled(Run(Init(), es)) && d in Run(Init(), es).droppers
    ensures var w := Run(Init(), es);
            var share := w.droppers[d].share;
            && (DropsWork(es) ==> (share, fp) !in w.granted)
            && ((share, fp) in w.granted ==> share in w.owes && share in w.shares && fp in w.shares[share].prints)
  {
    EveryRunKeepsBindings(es);
    var w := Run(Init(), es);
    assert DropperFits(w, w.droppers[d]);
    assert !Held(w, w.droppers[d].share, fp);
    assert (w.droppers[d].share, fp) in w.granted ==> GrantBound(w, (w.droppers[d].share, fp));
    if DropsWork(es) { EveryRunTakesForGood(es); }
  }

  predicate AskedFor(w: World, g: (nat, string), p: nat) {
    p in w.pairings && w.pairings[p].share == g.0 && w.pairings[p].fp == g.1
  }

  lemma {:induction false} GrantsComeFromPairings(es: seq<Event>, g: (nat, string)) returns (p: nat)
    requires g in Run(Init(), es).granted
    ensures AskedFor(Run(Init(), es), g, p)
  {
    var q, e := es[..|es| - 1], es[|es| - 1];
    var w := Run(Init(), q);
    if g in w.granted {
      p := GrantsComeFromPairings(q, g);
      PairingsPersist(w, e, p);
    } else {
      NewGrantIsChecked(w, e, g);
      p := e.p;
    }
  }

  lemma NewGrantIsChecked(w: World, e: Event, g: (nat, string))
    requires g in Step(w, e).granted && g !in w.granted
    ensures e.Check? && AskedFor(Step(w, e), g, e.p)
  {
    match e
    case Invite(_, _) =>
    case Expire(_) =>
    case Revoke(_, _) =>
    case Sweep(_, _) =>
    case Take(_) =>
    case Drop(_, _, _) =>
    case Ask(_, _, _, _) =>
    case HostTrusts(_) =>
    case _ =>
  }

  /** So a certificate paired for revoked shares only is not trusted any more. */
  lemma RevokedCertificateUntrusted(es: seq<Event>, fp: string)
    requires NeverUnbinds(es) && NeverAbandons(es) && DropsWork(es) && Settled(Run(Init(), es)) && Named(Run(Init(), es), fp)
    requires var w := Run(Init(), es);
             forall p | p in w.pairings && w.pairings[p].fp == fp ::
               exists d :: d in w.droppers && w.droppers[d].share == w.pairings[p].share
    ensures fp !in Run(Init(), es).trusted
  {
    var w := Run(Init(), es);
    if fp in w.trusted {
      var share := NothingLeftBehind(es, fp);
      var p := GrantsComeFromPairings(es, (share, fp));
      var d :| d in w.droppers && w.droppers[d].share == w.pairings[p].share;
      RevokedShareHasNothing(es, d, fp);
    }
  }

  /** A granted certificate whose binding is forgotten outlives its share: whether the share is revoked now, or has ended
      already and is swept, there is nothing to take, and the host goes on trusting it. */
  lemma UnboundGrantOutlivesShare(w: World, p: nat, d: nat)
    requires Bindings(w) && p in w.pairings && w.pairings[p].pc.Forgetting? && d !in w.droppers
    requires (w.pairings[p].share, w.pairings[p].fp) in w.granted && !Held(w, w.pairings[p].share, w.pairings[p].fp)
    ensures var share, fp := w.pairings[p].share, w.pairings[p].fp;
            var end := if w.shares[share].ended then Sweep(d, share) else Revoke(d, share);
            var n := Step(Step(Step(w, Forget(p)), end), Take(d));
            && share in n.shares && n.shares[share].ended && share !in n.owes && n.shares[share].prints == {}
            && d in n.droppers && n.droppers[d].taken && !Held(n, share, fp)
            && fp in n.trusted && (share, fp) in n.granted
  {
    var share, fp := w.pairings[p].share, w.pairings[p].fp;
    assert GrantBound(w, (share, fp));
    var forgot := Step(w, Forget(p));
    assert fp !in forgot.shares[share].prints && forgot.droppers == w.droppers
        && forgot.shares[share].ended == w.shares[share].ended;
    var ended := Step(forgot, if w.shares[share].ended then Sweep(d, share) else Revoke(d, share));
    assert ended.droppers == w.droppers[d := Dropper(share, false, {})] && ended.shares[share].prints == forgot.shares[share].prints;
    NothingNewHeld(ended, d, share, fp);
  }

  lemma NothingNewHeld(w: World, d: nat, share: nat, fp: string)
    requires d in w.droppers && w.droppers[d] == Dropper(share, false, {}) && share in w.shares
    requires !Held(w, share, fp) && fp !in w.shares[share].prints
    ensures !Held(Step(w, Take(d)), share, fp)
  {
    var n := Step(w, Take(d));
    forall c | c in n.droppers ensures !Holds(n.droppers[c], share, fp) {
      assert c in w.droppers && !Holds(w.droppers[c], share, fp);
    }
  }

  // ---------------------------------------------------------------- pairings that follow one another

  /** No pairing of the same certificate for the same share is under way. */
  predicate NoOverlap(w: World, share: nat, fp: string) {
    forall p | p in w.pairings && w.pairings[p].share == share && w.pairings[p].fp == fp :: !InFlight(w.pairings[p])
  }

  /** A pairing is not asked for while another one of the same pair is under way, and its deadline does not pass on a pair
      that is granted already. */
  predicate FollowsOn(w: World, e: Event) {
    && (e.Ask? ==> NoOverlap(w, e.share, e.fp))
    && (e.GiveUp? && e.p in w.pairings && w.pairings[e.p].pc.Polling? ==>
          (w.pairings[e.p].share, w.pairings[e.p].fp) !in w.granted)
  }

  predicate NeverOverlaps(es: seq<Event>) {
    es == [] || (NeverOverlaps(es[..|es| - 1]) && FollowsOn(Run(Init(), es[..|es| - 1]), es[|es| - 1]))
  }

  predicate SamePair(a: Pairing, b: Pairing) { a.share == b.share && a.fp == b.fp }

  /** Pairings under way are of different pairs, and one about to forget its binding has no grant. */
  ghost predicate Apart(w: World) {
    && (forall p, q | p in w.pairings && q in w.pairings && p != q && InFlight(w.pairings[p]) && InFlight(w.pairings[q]) ::
          !SamePair(w.pairings[p], w.pairings[q]))
    && (forall p | p in w.pairings && w.pairings[p].pc.Forgetting? :: (w.pairings[p].share, w.pairings[p].fp) !in w.granted)
  }

  lemma ApartNeverForgets(w: World, e: Event)
    requires Apart(w)
    ensures !Forgets(w, e)
  {
    if e.Forget? && e.p in w.pairings && w.pairings[e.p].pc.Forgetting? {
      var pr := w.pairings[e.p];
      assert forall q | q in w.pairings && Bound(w.pairings[q].pc) ::
          InFlight(w.pairings[q]) && q != e.p && !SamePair(w.pairings[q], pr);
      assert !OtherRelies(w, pr.share, pr.fp);
    }
  }

  /** What a step does to pairings and grants: one pairing goes on at most, or a new one is asked for. */
  ghost predicate MovesOne(w: World, n: World, p: nat) {
    && (forall q | q in n.pairings && q != p :: q in w.pairings && n.pairings[q] == w.pairings[q])
    && (p in n.pairings && p in w.pairings ==>
          SamePair(n.pairings[p], w.pairings[p]) && (InFlight(n.pairings[p]) ==> InFlight(w.pairings[p])))
    && (forall g | g in n.granted && g !in w.granted ::
          p in w.pairings && g == (w.pairings[p].share, w.pairings[p].fp) && w.pairings[p].pc.Checking?)
    && (p in n.pairings && n.pairings[p].pc.Forgetting? && p in w.pairings && !w.pairings[p].pc.Forgetting? ==>
          (w.pairings[p].share, w.pairings[p].fp) !in n.granted)
  }

  lemma PairingMovesOne(w: World, e: Event, p: nat)
    requires p in w.pairings && FollowsOn(w, e) && (e.GiveUp? ==> e.p == p)
    ensures var n := PairingStep(w, e, p, w.pairings[p]); MovesOne(w, n, p) && n.pairings.Keys == w.pairings.Keys
  {
    if e.Check? {
      CheckMovesOne(w, p);
    } else {
      assert PairingStep(w, e, p, w.pairings[p]).granted <= w.granted by { PairingGrantsNothing(w, e, p); }
      PairingPersists(w, e, p, p);
      PairingTouchesOne(w, e, p);
    }
  }

  lemma CheckMovesOne(w: World, p: nat)
    requires p in w.pairings
    ensures var n := PairingStep(w, Check(p), p, w.pairings[p]); MovesOne(w, n, p) && n.pairings.Keys == w.pairings.Keys
  {
  }

  lemma PairingGrantsNothing(w: World, e: Event, p: nat)
    requires p in w.pairings && !e.Check?
    ensures PairingStep(w, e, p, w.pairings[p]).granted <= w.granted
  {
    if e.Unpair? {} else if e.Limit? {} else if e.Add? {} else if e.Forget? {} else {}
  }

  lemma PairingTouchesOne(w: World, e: Event, p: nat)
    requires p in w.pairings && !e.Check? && FollowsOn(w, e) && (e.GiveUp? ==> e.p == p)
    ensures var n := PairingStep(w, e, p, w.pairings[p]);
            && n.pairings.Keys == w.pairings.Keys && (forall q | q in n.pairings && q != p :: n.pairings[q] == w.pairings[q])
            && (InFlight(n.pairings[p]) ==> InFlight(w.pairings[p]))
            && (n.pairings[p].pc.Forgetting? && !w.pairings[p].pc.Forgetting? ==>
                  (w.pairings[p].share, w.pairings[p].fp) !in n.granted)
  {
    if e.Unpair? {} else if e.Limit? {} else if e.Add? {} else if e.Forget? {} else if e.GiveUp? {} else {}
  }

  lemma MoveKeepsApart(w: World, n: World, p: nat)
    requires Apart(w) && MovesOne(w, n, p) && (p in n.pairings ==> p in w.pairings)
    ensures Apart(n)
  {
    forall q | q in n.pairings && n.pairings[q].pc.Forgetting?
      ensures (n.pairings[q].share, n.pairings[q].fp) !in n.granted
    {
      var g := (n.pairings[q].share, n.pairings[q].fp);
      if (q != p || w.pairings[p].pc.Forgetting?) && g in n.granted && g !in w.granted {
        assert SamePair(w.pairings[q], w.pairings[p]);
      }
    }
  }

  lemma AskKeepsApart(w: World, e: Event)
    requires Apart(w) && e.Ask? && NoOverlap(w, e.share, e.fp)
    ensures Apart(Step(w, e))
  {
  }

  lemma OthersGrantNothing(w: World, e: Event)
    requires !e.Ask? && !OfPairing(e)
    ensures Step(w, e).pairings == w.pairings && Step(w, e).granted <= w.granted
  {
    match e
    case Invite(_, _) =>
    case Expire(_) =>
    case Revoke(_, _) =>
    case Sweep(_, _) =>
    case Take(_) =>
    case Drop(_, _, _) =>
    case HostTrusts(_) =>
  }

  lemma StepKeepsApart(w: World, e: Event)
    requires Apart(w) && FollowsOn(w, e)
    ensures Apart(Step(w, e))
  {
    if e.Ask? {
      AskKeepsApart(w, e);
    } else if OfPairing(e) {
      if e.p in w.pairings {
        PairingMovesOne(w, e, e.p);
        MoveKeepsApart(w, PairingStep(w, e, e.p, w.pairings[e.p]), e.p);
      }
    } else {
      OthersGrantNothing(w, e);
    }
  }

  /** When pairings of one certificate for one share follow one another and unpairing works, nothing is unbound. */
  lemma {:induction false} NoOverlapNeverUnbinds(es: seq<Event>)
    requires NeverOverlaps(es) && DropsWork(es)
    ensures NeverUnbinds(es) && Apart(Run(Init(), es))
  {
    if es != [] {
      var q, e := es[..|es| - 1], es[|es| - 1];
      assert e in es && forall f | f in q :: f in es;
      NoOverlapNeverUnbinds(q);
      ApartNeverForgets(Run(Init(), q), e);
      StepKeepsApart(Run(Init(), q), e);
    }
  }

  // ---------------------------------------------------------------- two pairings that overlap

  lemma {:induction false} RunFirst(w: World, e: Event, es: seq<Event>)
    ensures Run(w, [e] + es) == Run(Step(w, e), es)
  {
    if es == [] {
      assert ([e] + es)[..0] == [] && Run(w, []) == w;
    } else {
      assert ([e] + es)[..|es|] == [e] + es[..|es| - 1];
      RunFirst(w, e, es[..|es| - 1]);
    }
  }

  lemma StepTo(w: World, es: seq<Event>, k: nat, n: World)
    requires k < |es| && Step(w, es[k]) == n
    ensures Run(w, es[k..]) == Run(n, es[k + 1..])
  {
    RunFirst(w, es[k], es[k + 1..]);
    assert es[k..] == [es[k]] + es[k + 1..];
  }

  /** A share, its two pairings of one certificate in the states `a` and `b`, and whether it is bound. */
  function TwoPairings(fp: string, a: PairPc, b: PairPc, bound: bool): World {
    Init().(shares := map[1 := Share(Operator, false, if bound then {fp} else {})],
            pairings := map[1 := Pairing(1, fp, false, a), 2 := Pairing(1, fp, false, b)])
  }

  /** The same once the host trusts the certificate, granted to the second pairing. */
  function SecondGranted(fp: string): World {
    TwoPairings(fp, Over, Over, false).(trusted := map[fp := Full], granted := {(1, fp)})
  }

  function AskTwice(fp: string): seq<Event> {
    [Invite(1, Operator), Ask(1, 1, fp, false), Ask(2, 1, fp, false), Add(1), Add(2), Submit(1, true), Submit(2, true)]
  }

  function TrustLate(fp: string): seq<Event> {
    [GiveUp(1), Forget(1), HostTrusts(fp), Poll(2), Check(2)]
  }

  lemma AskingTwice(fp: string)
    ensures Run(Init(), AskTwice(fp)[0..]) == Run(TwoPairings(fp, Adding, Adding, false), AskTwice(fp)[3..])
  {
    var es, w0 := AskTwice(fp), Init();
    var w1 := w0.(shares := map[1 := Share(Operator, false, {})]);
    StepTo(w0, es, 0, w1);
    StepTo(w1, es, 1, w1.(pairings := map[1 := Pairing(1, fp, false, Adding)]));
    StepTo(w1.(pairings := map[1 := Pairing(1, fp, false, Adding)]), es, 2, TwoPairings(fp, Adding, Adding, false));
  }

  lemma BothAdded(fp: string)
    ensures Run(TwoPairings(fp, Adding, Adding, false), AskTwice(fp)[3..])
         == Run(TwoPairings(fp, Submitting, Submitting, true), AskTwice(fp)[5..])
  {
    var es := AskTwice(fp);
    assert {} + {fp} == {fp} && {fp} + {fp} == {fp};
    StepTo(TwoPairings(fp, Adding, Adding, false), es, 3, TwoPairings(fp, Submitting, Adding, true));
    StepTo(TwoPairings(fp, Submitting, Adding, true), es, 4, TwoPairings(fp, Submitting, Submitting, true));
  }

  lemma BothPolling(fp: string)
    ensures Run(TwoPairings(fp, Submitting, Submitting, true), AskTwice(fp)[5..]) == TwoPairings(fp, Polling, Polling, true)
  {
    var es := AskTwice(fp);
    StepTo(TwoPairings(fp, Submitting, Submitting, true), es, 5, TwoPairings(fp, Polling, Submitting, true));
    StepTo(TwoPairings(fp, Polling, Submitting, true), es, 6, TwoPairings(fp, Polling, Polling, true));
    assert Run(TwoPairings(fp, Polling, Polling, true), es[7..]) == TwoPairings(fp, Polling, Polling, true);
  }

  lemma DeadlineForgets(fp: string)
    ensures Run(TwoPairings(fp, Polling, Polling, true), TrustLate(fp)[0..]) == Run(TwoPairings(fp, Over, Polling, false), TrustLate(fp)[2..])
  {
    var es := TrustLate(fp);
    assert {fp} - {fp} == {};
    StepTo(TwoPairings(fp, Polling, Polling, true), es, 0, TwoPairings(fp, Forgetting, Polling, true));
    StepTo(TwoPairings(fp, Forgetting, Polling, true), es, 1, TwoPairings(fp, Over, Polling, false));
  }

  lemma LateTrustIsSeen(fp: string)
    ensures Run(TwoPairings(fp, Over, Polling, false), TrustLate(fp)[2..])
         == Run(TwoPairings(fp, Over, Checking, false).(trusted := map[fp := Full]), TrustLate(fp)[4..])
  {
    var es := TrustLate(fp);
    var trusted := TwoPairings(fp, Over, Polling, false).(trusted := map[fp := Full]);
    StepTo(TwoPairings(fp, Over, Polling, false), es, 2, trusted);
    StepTo(trusted, es, 3, TwoPairings(fp, Over, Checking, false).(trusted := map[fp := Full]));
  }

  lemma LateTrustIsGranted(fp: string)
    ensures Run(TwoPairings(fp, Over, Checking, false).(trusted := map[fp := Full]), TrustLate(fp)[4..]) == SecondGranted(fp)
  {
    StepTo(TwoPairings(fp, Over, Checking, false).(trusted := map[fp := Full]), TrustLate(fp), 4, SecondGranted(fp));
    assert Run(SecondGranted(fp), TrustLate(fp)[5..]) == SecondGranted(fp);
  }

  /** Two pairings of one certificate for one share that overlap break it: both look for it, the first one's
      deadline forgets the binding the second one relies on, the trust appears while the second one looks, and
      nothing fails. The revocation then finds no certificate to take, and the host goes on trusting it. */
  lemma OverlapLeavesCertificate(fp: string)
    ensures var asked := Run(Init(), AskTwice(fp));
            var granted := Run(asked, TrustLate(fp));
            var w := Step(Step(granted, Revoke(1, 1)), Take(1));
            Settled(w) && 1 in w.shares && w.shares[1].ended && w.owes == {} && fp in w.trusted && (1, fp) in w.granted
  {
    AskingTwice(fp);
    BothAdded(fp);
    BothPolling(fp);
    assert AskTwice(fp)[0..] == AskTwice(fp) && TrustLate(fp)[0..] == TrustLate(fp);
    DeadlineForgets(fp);
    LateTrustIsSeen(fp);
    LateTrustIsGranted(fp);
    var revoked := SecondGranted(fp).(shares := map[1 := Share(Operator, true, {})], owes := {1},
                                      droppers := map[1 := Dropper(1, false, {})]);
    assert Step(SecondGranted(fp), Revoke(1, 1)) == revoked;
    assert Step(revoked, Take(1)).droppers == map[1 := Dropper(1, true, {})];
  }

  // ---------------------------------------------------------------- limited clients

  /** A pairing of the certificate will yet limit it or unpair it, if it finds it trusted. */
  predicate ToLimit(pr: Pairing, fp: string) {
    Minds(pr, fp) || (pr.fp == fp && pr.pc.Limiting?)
  }

  ghost predicate ToBeLimited(w: World, fp: string) {
    exists p :: p in w.pairings && ToLimit(w.pairings[p], fp)
  }

  ghost predicate ToBeLimitedByAnother(w: World, p: nat, fp: string) {
    exists q :: q in w.pairings && q != p && ToLimit(w.pairings[q], fp)
  }

  /** The certificate carries the mask of the role of a share it was paired for. */
  ghost predicate HasRolesMask(w: World, fp: string) {
    fp in w.trusted &&
    exists p :: p in w.pairings && w.pairings[p].fp == fp && w.pairings[p].share in w.shares
             && w.trusted[fp] == As(w.shares[w.pairings[p].share].role)
  }

  ghost predicate LimitedOrMinded(w: World, fp: string) { HasRolesMask(w, fp) || ToBeLimited(w, fp) }

  /** The hosts that the certificate was paired on could limit clients. */
  predicate LimitedFor(w: World, fp: string) {
    forall p | p in w.pairings && w.pairings[p].fp == fp :: w.pairings[p].limited
  }

  predicate SharesKnown(w: World) {
    forall p | p in w.pairings :: w.pairings[p].share in w.shares
  }

  /** If the host trusts the certificate and a pairing was of it, it has a role's mask or is yet to be limited. */
  ghost predicate Masked(w: World, fp: string) {
    fp in w.trusted && Named(w, fp) ==> LimitedOrMinded(w, fp)
  }

  /** The guard of the certificate's mask: the host trusts it when some pairing was of it but none will limit it, or the
      last pairing that would limit it leaves while it is trusted without a role's mask. */
  ghost predicate Unlimits(w: World, e: Event, fp: string) {
    || (e == HostTrusts(fp) && fp !in w.trusted && Named(w, fp) && !ToBeLimited(w, fp))
    || (Leaves(w, e) && w.pairings[e.p].fp == fp
        && fp in w.trusted && !HasRolesMask(w, fp) && !ToBeLimitedByAnother(w, e.p, fp))
  }

  ghost predicate NeverUnlimits(es: seq<Event>, fp: string) {
    es == [] || (NeverUnlimits(es[..|es| - 1], fp) && !Unlimits(Run(Init(), es[..|es| - 1]), es[|es| - 1], fp))
  }

  /** Roles stay, and no share goes. */
  predicate RolesStay(w: World, n: World) {
    w.shares.Keys <= n.shares.Keys && forall id | id in w.shares :: n.shares[id].role == w.shares[id].role
  }

  /** Roles, shares and what the pairings are of stay. */
  ghost predicate PairsStay(w: World, n: World) {
    && RolesStay(w, n) && w.pairings.Keys <= n.pairings.Keys && SharesKnown(n)
    && (forall p | p in w.pairings :: n.pairings[p].fp == w.pairings[p].fp && n.pairings[p].share == w.pairings[p].share)
  }

  /** A mask stays with a certificate whose trust does. */
  lemma MaskStays(w: World, n: World, fp: string)
    requires PairsStay(w, n) && HasRolesMask(w, fp) && fp in n.trusted && n.trusted[fp] == w.trusted[fp]
    ensures HasRolesMask(n, fp)
  {
    var p :| p in w.pairings && w.pairings[p].fp == fp && w.pairings[p].share in w.shares
           && w.trusted[fp] == As(w.shares[w.pairings[p].share].role);
    assert p in n.pairings && n.pairings[p].fp == fp && n.pairings[p].share in n.shares;
  }

  /** The certificate's trust is as before or gone. */
  predicate TrustAsBefore(w: World, n: World, fp: string) {
    fp in n.trusted ==> fp in w.trusted && n.trusted[fp] == w.trusted[fp]
  }

  lemma SamePairingsMasked(w: World, n: World, fp: string)
    requires Masked(w, fp) && SharesKnown(w) && n.pairings == w.pairings && RolesStay(w, n) && TrustAsBefore(w, n, fp)
    ensures Masked(n, fp)
  {
    if fp in n.trusted && Named(n, fp) {
      assert Named(w, fp);
      if HasRolesMask(w, fp) { MaskStays(w, n, fp); } else { assert ToBeLimited(n, fp); }
    }
  }

  lemma ShareStepMask(w: World, e: Event, fp: string)
    requires Masked(w, fp) && SharesKnown(w) && (e.Invite? || e.Expire? || e.Revoke? || e.Sweep? || e.Take? || e.Drop?)
    ensures Masked(Step(w, e), fp)
  {
    var n := Step(w, e);
    assert n.pairings == w.pairings && RolesStay(w, n) && TrustAsBefore(w, n, fp) by {
      match e
      case Invite(_, _) =>
      case Expire(_) =>
      case Revoke(_, _) =>
      case Sweep(_, _) =>
      case Take(_) =>
      case Drop(_, _, _) =>
    }
    SamePairingsMasked(w, n, fp);
  }

  lemma HostTrustsMask(w: World, e: Event, fp: string)
    requires Masked(w, fp) && SharesKnown(w) && e.HostTrusts?
    ensures Masked(Step(w, e), fp) <==> !Unlimits(w, e, fp)
  {
    var n := Step(w, e);
    if e.fp == fp && fp !in w.trusted {
      assert (Named(n, fp) <==> Named(w, fp)) && (ToBeLimited(n, fp) <==> ToBeLimited(w, fp)) && !HasRolesMask(n, fp);
    } else {
      SamePairingsMasked(w, n, fp);
    }
  }

  lemma AskMask(w: World, e: Event, fp: string)
    requires Masked(w, fp) && SharesKnown(w) && e.Ask?
    ensures Masked(Step(w, e), fp)
  {
    var n := Step(w, e);
    if n != w && fp in n.trusted && Named(n, fp) {
      assert e.p in n.pairings && ToLimit(n.pairings[e.p], e.fp);
      if fp != e.fp {
        var q :| q in n.pairings && n.pairings[q].fp == fp;
        assert q in w.pairings && Named(w, fp);
        if HasRolesMask(w, fp) {
          MaskStays(w, n, fp);
        } else {
          var p :| p in w.pairings && ToLimit(w.pairings[p], fp);
          assert p in n.pairings && ToLimit(n.pairings[p], fp);
        }
      }
    }
  }

  lemma MovesToLimit(w: World, n: World, p: nat, fp: string)
    requires Moves(w, n, p)
    ensures ToBeLimited(n, fp) <==> ToBeLimitedByAnother(w, p, fp) || ToLimit(n.pairings[p], fp)
    ensures ToBeLimited(w, fp) <==> ToBeLimitedByAnother(w, p, fp) || ToLimit(w.pairings[p], fp)
  {
    if ToBeLimitedByAnother(w, p, fp) {
      var q :| q in w.pairings && q != p && ToLimit(w.pairings[q], fp);
      assert q in n.pairings && ToLimit(n.pairings[q], fp);
    }
    if ToBeLimited(n, fp) {
      var q :| q in n.pairings && ToLimit(n.pairings[q], fp);
      assert q == p || (q in w.pairings && w.pairings[q] == n.pairings[q]);
    }
  }

  /** A step that moves a pairing keeps the mask of a certificate that it trusts as before, if it still limits it. */
  lemma MovedMask(w: World, n: World, p: nat, fp: string)
    requires Masked(w, fp) && SharesKnown(w) && Moves(w, n, p) && RolesStay(w, n) && TrustAsBefore(w, n, fp)
    requires ToLimit(w.pairings[p], fp) && !HasRolesMask(w, fp) && fp in n.trusted ==>
               ToLimit(n.pairings[p], fp) || ToBeLimitedByAnother(w, p, fp)
    ensures Masked(n, fp)
  {
    MovesMinded(w, n, p, fp);
    MovesToLimit(w, n, p, fp);
    if fp in n.trusted && HasRolesMask(w, fp) { MaskStays(w, n, fp); }
  }

  lemma LeavingMask(w: World, e: Event, fp: string)
    requires Masked(w, fp) && SharesKnown(w) && Leaves(w, e)
    ensures Masked(Step(w, e), fp) <==> !Unlimits(w, e, fp)
  {
    var n := Step(w, e);
    LeavingEffect(w, e);
    LeftMask(w, e.p, if w.pairings[e.p].pc.Polling? then Forgetting else Over, fp);
    if !Unlimits(w, e, fp) { MovedMask(w, n, e.p, fp); }
  }

  lemma LeftMask(w: World, p: nat, pc: PairPc, fp: string)
    requires SharesKnown(w) && p in w.pairings && (pc.Over? || pc.Forgetting?)
    ensures var n := To(w, p, w.pairings[p], pc);
            && Moves(w, n, p) && (HasRolesMask(n, fp) <==> HasRolesMask(w, fp))
            && (w.pairings[p].fp == fp ==> Named(n, fp) && (ToBeLimited(n, fp) <==> ToBeLimitedByAnother(w, p, fp)))
  {
    var n := To(w, p, w.pairings[p], pc);
    MovesToLimit(w, n, p, fp);
    assert p in n.pairings && n.pairings[p].fp == w.pairings[p].fp;
    if HasRolesMask(w, fp) { MaskStays(w, n, fp); }
    if HasRolesMask(n, fp) { MaskStays(n, w, fp); }
  }

  /** Its certificate has the role's mask now, or the trust it had, and will be limited if it was to be; another's trust is
      as before. */
  predicate StaysToLimit(w: World, n: World, p: nat, fp: string) {
    && p in w.pairings && p in n.pairings && w.pairings[p].share in w.shares && RolesStay(w, n)
    && var pr := w.pairings[p];
       || (pr.fp == fp && fp in n.trusted && n.trusted[fp] == As(n.shares[pr.share].role))
       || (TrustAsBefore(w, n, fp) && (fp in n.trusted && ToLimit(pr, fp) ==> ToLimit(n.pairings[p], fp)))
  }

  lemma MoveStaysToLimit(w: World, e: Event, fp: string)
    requires (e.Add? || e.Submit? || e.Poll? || e.GiveUp? || e.Forget?) && e.p in w.pairings
    requires !Leaves(w, e) && w.pairings[e.p].share in w.shares
    ensures StaysToLimit(w, Step(w, e), e.p, fp)
  {
    if e.Add? {} else if e.Forget? {} else {}
  }

  lemma LookStaysToLimit(w: World, e: Event, fp: string)
    requires (e.Check? || e.Limit? || e.Unpair?) && e.p in w.pairings && w.pairings[e.p].share in w.shares
    requires !Leaves(w, e) && (w.pairings[e.p].fp == fp ==> w.pairings[e.p].limited)
    ensures StaysToLimit(w, Step(w, e), e.p, fp)
  {
    if e.Check? {} else if e.Limit? {} else {}
  }

  lemma StaysMasked(w: World, n: World, p: nat, fp: string)
    requires Masked(w, fp) && SharesKnown(w) && Moves(w, n, p) && StaysToLimit(w, n, p, fp)
    ensures Masked(n, fp)
  {
    var pr := w.pairings[p];
    if pr.fp == fp && fp in n.trusted && n.trusted[fp] == As(n.shares[pr.share].role) {
      assert n.pairings[p].fp == fp && n.pairings[p].share == pr.share && HasRolesMask(n, fp);
    } else {
      MovedMask(w, n, p, fp);
    }
  }

  lemma StayingMask(w: World, e: Event, fp: string)
    requires Masked(w, fp) && SharesKnown(w) && LimitedFor(w, fp) && OfPairing(e) && e.p in w.pairings && !Leaves(w, e)
    ensures Masked(Step(w, e), fp)
  {
    if e.Check? || e.Limit? || e.Unpair? { LookStaysToLimit(w, e, fp); } else { MoveStaysToLimit(w, e, fp); }
    PairingStepMoves(w, e, e.p);
    StaysMasked(w, Step(w, e), e.p, fp);
  }

  /** Where the hosts that a certificate was paired on could limit clients, any step keeps it under a role's mask, or yet
      to be limited, exactly when it does not leave it without. */
  lemma StepKeepsMask(w: World, e: Event, fp: string)
    requires Masked(w, fp) && SharesKnown(w) && LimitedFor(w, fp)
    ensures Masked(Step(w, e), fp) <==> !Unlimits(w, e, fp)
  {
    if e.HostTrusts? { HostTrustsMask(w, e, fp); }
    else if e.Ask? { AskMask(w, e, fp); }
    else if !OfPairing(e) { ShareStepMask(w, e, fp); }
    else if Leaves(w, e) { LeavingMask(w, e, fp); }
    else if e.p in w.pairings { StayingMask(w, e, fp); }
  }

  lemma {:induction false} EveryRunKeepsMask(es: seq<Event>, fp: string)
    requires NeverUnlimits(es, fp) && LimitedFor(Run(Init(), es), fp)
    ensures Masked(Run(Init(), es), fp)
  {
    if es != [] {
      var q, e := es[..|es| - 1], es[|es| - 1];
      LimitedBefore(Run(Init(), q), e, fp);
      EveryRunKeepsMask(q, fp);
      ViewersAreLimited(q);
      StepKeepsMask(Run(Init(), q), e, fp);
    }
  }

  lemma LimitedBefore(w: World, e: Event, fp: string)
    requires LimitedFor(Step(w, e), fp)
    ensures LimitedFor(w, fp)
  {
    forall p | p in w.pairings && w.pairings[p].fp == fp ensures w.pairings[p].limited {
      PairingsPersist(w, e, p);
    }
  }

  // ---------------------------------------------------------------- Viewers

  predicate ViewerFits(w: World, p: nat)
    requires p in w.pairings
  {
    && w.pairings[p].share in w.shares
    && (w.shares[w.pairings[p].share].role.Viewer? ==> w.pairings[p].limited)
  }

  lemma ViewerStays(w: World, n: World, p: nat)
    requires p in w.pairings && ViewerFits(w, p) && RolesStay(w, n) && p in n.pairings
    requires n.pairings[p] == w.pairings[p].(pc := n.pairings[p].pc)
    ensures ViewerFits(n, p)
  {
  }

  lemma StepKeepsRoles(w: World, e: Event)
    ensures RolesStay(w, Step(w, e))
  {
    match e
    case Invite(_, _) =>
    case Expire(_) =>
    case Revoke(_, _) =>
    case Sweep(_, _) =>
    case Take(_) =>
    case Drop(_, _, _) =>
    case Ask(_, _, _, _) =>
    case HostTrusts(_) =>
    case _ => if e.p in w.pairings { PairingKeepsRoles(w, e, e.p); }
  }

  lemma PairingKeepsRoles(w: World, e: Event, p: nat)
    requires p in w.pairings
    ensures RolesStay(w, PairingStep(w, e, p, w.pairings[p]))
  {
    if e.Add? {} else if e.Check? {} else if e.Forget? {} else if e.Limit? {} else if e.Unpair? {} else {}
  }

  lemma OthersAddNothing(w: World, e: Event)
    requires !e.Ask?
    ensures Step(w, e).pairings.Keys == w.pairings.Keys
  {
    if !OfPairing(e) { OthersGrantNothing(w, e); }
    else if e.p in w.pairings { PairingStepMoves(w, e, e.p); }
  }

  lemma AskedFits(w: World, e: Event, p: nat)
    requires e.Ask? && p in Step(w, e).pairings && p !in w.pairings
    ensures ViewerFits(Step(w, e), p)
  {
  }

  /** On every run, whatever the hosts can do: a pairing of a Viewer's share is one that will be limited. */
  lemma {:induction false} ViewersAreLimited(es: seq<Event>)
    ensures var w := Run(Init(), es);
            SharesKnown(w) && forall p | p in w.pairings :: w.shares[w.pairings[p].share].role.Viewer? ==> w.pairings[p].limited
  {
    if es != [] {
      var w, e := Run(Init(), es[..|es| - 1]), es[|es| - 1];
      ViewersAreLimited(es[..|es| - 1]);
      StepKeepsRoles(w, e);
      if !e.Ask? { OthersAddNothing(w, e); }
      forall p | p in Step(w, e).pairings ensures ViewerFits(Step(w, e), p) {
        if p in w.pairings {
          PairingsPersist(w, e, p);
          ViewerStays(w, Step(w, e), p);
        } else if e.Ask? {
          AskedFits(w, e, p);
        }
      }
    }
  }

  lemma PairingsPersist(w: World, e: Event, p: nat)
    requires p in w.pairings
    ensures p in Step(w, e).pairings
    ensures Step(w, e).pairings[p] == w.pairings[p].(pc := Step(w, e).pairings[p].pc)
  {
    match e
    case Invite(_, _) =>
    case Expire(_) =>
    case Revoke(_, _) =>
    case Sweep(_, _) =>
    case Take(_) =>
    case Drop(_, _, _) =>
    case Ask(_, _, _, _) =>
    case HostTrusts(_) =>
    case _ => if e.p in w.pairings { PairingPersists(w, e, e.p, p); }
  }

  lemma PairingPersists(w: World, e: Event, q: nat, p: nat)
    requires p in w.pairings && q in w.pairings
    ensures var n := PairingStep(w, e, q, w.pairings[q]);
            p in n.pairings && n.pairings[p] == w.pairings[p].(pc := n.pairings[p].pc)
  {
    match e
    case Add(_) =>
    case Submit(_, _) =>
    case Poll(_) =>
    case Check(_) =>
    case Limit(_, _) =>
    case Unpair(_, _) =>
    case GiveUp(_) =>
    case Forget(_) =>
    case _ =>
  }

  /** Once everything is through, a trusted certificate that was paired where clients can be limited carries the mask of the
      role of a share it was paired for: no such guest's client is left with everything. */
  lemma TrustedGuestsAreLimited(es: seq<Event>, fp: string)
    requires NeverUnlimits(es, fp) && Settled(Run(Init(), es)) && LimitedFor(Run(Init(), es), fp)
    requires fp in Run(Init(), es).trusted && Named(Run(Init(), es), fp)
    ensures HasRolesMask(Run(Init(), es), fp)
    ensures ServerCmd !in Permissions(Run(Init(), es).trusted[fp])
  {
    EveryRunKeepsMask(es, fp);
    SettledIsLimited(Run(Init(), es), fp);
  }

  lemma SettledIsLimited(w: World, fp: string)
    requires Masked(w, fp) && Settled(w) && fp in w.trusted && Named(w, fp)
    ensures HasRolesMask(w, fp) && ServerCmd !in Permissions(w.trusted[fp])
  {
    assert LimitedOrMinded(w, fp) && !ToBeLimited(w, fp);
    MasksNest(w.trusted[fp].role);
  }

  /** All pairings of the certificate were for Viewers' shares. */
  predicate ViewersOnly(w: World, fp: string) {
    forall p | p in w.pairings && w.pairings[p].fp == fp ::
      w.pairings[p].share in w.shares && w.shares[w.pairings[p].share].role.Viewer?
  }

  /** On any host, once everything is through, a trusted certificate that was paired for Viewers' shares may list, view and
      launch, and nothing else. */
  lemma ViewersOnlyView(es: seq<Event>, fp: string)
    requires NeverUnlimits(es, fp) && Settled(Run(Init(), es)) && ViewersOnly(Run(Init(), es), fp)
    requires fp in Run(Init(), es).trusted && Named(Run(Init(), es), fp)
    ensures Permissions(Run(Init(), es).trusted[fp]) == {List, View, Launch}
  {
    ViewersAreLimited(es);
    assert LimitedFor(Run(Init(), es), fp);
    TrustedGuestsAreLimited(es, fp);
    ViewerHasViewersMask(Run(Init(), es), fp);
  }

  lemma ViewerHasViewersMask(w: World, fp: string)
    requires HasRolesMask(w, fp) && ViewersOnly(w, fp)
    ensures w.trusted[fp] == As(Viewer)
  {
    var p :| p in w.pairings && w.pairings[p].fp == fp && w.pairings[p].share in w.shares
           && w.trusted[fp] == As(w.shares[w.pairings[p].share].role);
  }

  // ---------------------------------------------------------------- trust that nobody looks at

  /** A Viewer's pairing at `pc`, with the binding and the trust. */
  function OnePairing(fp: string, pc: PairPc, bound: bool, trusted: map<string, Level>): World {
    World(map[1 := Share(Viewer, false, if bound then {fp} else {})], trusted, map[1 := Pairing(1, fp, true, pc)], map[], {}, {})
  }

  function AskOnce(fp: string): seq<Event> { [Invite(1, Viewer), Ask(1, 1, fp, true), Add(1)] }

  lemma AskedOnce(fp: string)
    ensures Run(Init(), AskOnce(fp)) == OnePairing(fp, Submitting, true, map[])
  {
    var es := AskOnce(fp);
    var invited := Init().(shares := map[1 := Share(Viewer, false, {})]);
    assert {} + {fp} == {fp};
    StepTo(Init(), es, 0, invited);
    StepTo(invited, es, 1, OnePairing(fp, Adding, false, map[]));
    StepTo(OnePairing(fp, Adding, false, map[]), es, 2, OnePairing(fp, Submitting, true, map[]));
    assert es[0..] == es && Run(OnePairing(fp, Submitting, true, map[]), es[3..]) == OnePairing(fp, Submitting, true, map[]);
  }

  /** The host trusts the client while the PIN's submission still waits for its answer, and the submission then fails:
      nothing watches any more, and a live Viewer's client keeps every permission. */
  lemma FailedSubmitLeavesTrust(fp: string)
    ensures var trusting := Run(Init(), AskOnce(fp) + [HostTrusts(fp)]);
            var w := Step(trusting, Submit(1, false));
            && Abandons(trusting, Submit(1, false)) && Unlimits(trusting, Submit(1, false), fp)
            && Settled(w) && 1 in w.shares && w.shares[1] == Share(Viewer, false, {fp})
            && w.trusted == map[fp := Full] && w.granted == {}
  {
    var es := AskOnce(fp) + [HostTrusts(fp)];
    AskedOnce(fp);
    assert es[..3] == AskOnce(fp) && es[3] == HostTrusts(fp);
    var trusting := OnePairing(fp, Submitting, true, map[fp := Full]);
    assert Step(OnePairing(fp, Submitting, true, map[]), HostTrusts(fp)) == trusting;
    OnlyOneMinds(fp, Submitting, true);
    assert Step(trusting, Submit(1, false)) == OnePairing(fp, Over, true, map[fp := Full]);
  }

  lemma OnlyOneMinds(fp: string, pc: PairPc, bound: bool)
    ensures var w := OnePairing(fp, pc, bound, map[fp := Full]);
            !Granted(w, fp) && !MindedByAnother(w, 1, fp) && !ToBeLimitedByAnother(w, 1, fp) && !HasRolesMask(w, fp)
  {
  }

  function MissedTrust(fp: string): seq<Event> {
    [Submit(1, true), HostTrusts(fp), GiveUp(1), Forget(1)]
  }

  lemma TrustMissed(fp: string)
    ensures Run(OnePairing(fp, Submitting, true, map[]), MissedTrust(fp)[..2]) == OnePairing(fp, Polling, true, map[fp := Full])
  {
    var start, taken, es := OnePairing(fp, Submitting, true, map[]), [Submit(1, true)], MissedTrust(fp)[..2];
    assert Run(start, taken) == OnePairing(fp, Polling, true, map[]) by { assert taken[..0] == [] && Run(start, []) == start; }
    assert es[..1] == taken && es[1] == HostTrusts(fp);
  }

  lemma BindingForgotten(fp: string)
    ensures Run(OnePairing(fp, Submitting, true, map[]), MissedTrust(fp)) == OnePairing(fp, Over, false, map[fp := Full])
  {
    var es := MissedTrust(fp);
    var late := OnePairing(fp, Forgetting, true, map[fp := Full]);
    TrustMissed(fp);
    assert es[..3][..2] == es[..2] && es[..3][2] == GiveUp(1) && es[..4] == es;
    assert Step(OnePairing(fp, Polling, true, map[fp := Full]), GiveUp(1)) == late;
    assert {fp} - {fp} == {};
    assert Step(late, Forget(1)) == OnePairing(fp, Over, false, map[fp := Full]);
  }

  /** The host trusts the client after the last look before the deadline: the binding is forgotten, and a live Viewer's
      client keeps every permission, with nothing that would take it away. */
  lemma DeadlineMissesTrust(fp: string)
    ensures var asked := Run(Init(), AskOnce(fp));
            var trusting, w := Run(asked, MissedTrust(fp)[..2]), Run(asked, MissedTrust(fp));
            && Abandons(trusting, GiveUp(1)) && Unlimits(trusting, GiveUp(1), fp)
            && Settled(w) && 1 in w.shares && w.shares[1] == Share(Viewer, false, {})
            && w.trusted == map[fp := Full] && w.granted == {}
  {
    AskedOnce(fp);
    TrustMissed(fp);
    BindingForgotten(fp);
    OnlyOneMinds(fp, Polling, true);
  }
}
