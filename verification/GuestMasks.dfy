/** Which role's permissions a paired guest is left with (agent/internal/app/guests.go `PairGuestClient`): one
    certificate may be paired for shares of several roles, and the host keeps one mask for it. */
module GuestMasks {

  import opened GuestPairing

  predicate Live(w: World, share: nat) { share in w.shares && !w.shares[share].ended }

  /** The certificate is granted to a live share of another role. */
  ghost predicate GrantedOtherwise(w: World, fp: string, role: Role) {
    exists g :: g in w.granted && g.1 == fp && Live(w, g.0) && w.shares[g.0].role != role
  }

  /** The certificate has a mask, and it is not that of some live share that it is granted to. */
  ghost predicate WrongMask(w: World, fp: string) {
    fp in w.trusted && w.trusted[fp].As? && GrantedOtherwise(w, fp, w.trusted[fp].role)
  }

  ghost predicate RightMasks(w: World) {
    forall g | g in w.granted :: !WrongMask(w, g.1)
  }

  // ---------------------------------------------------------------- one role

  /** On a host that can limit clients, once everything is through: a trusted certificate that was paired for shares of
      one role only has that role's mask, and it is granted and bound to a share that is live or about to be swept. */
  lemma TrustedGuestHasItsRolesMask(es: seq<Event>, fp: string) returns (share: nat)
    requires NeverUnbinds(es) && NeverAbandons(es) && NeverUnlimits(es, fp)
    requires Settled(Run(Init(), es)) && LimitedFor(Run(Init(), es), fp)
    requires fp in Run(Init(), es).trusted && Named(Run(Init(), es), fp)
    requires OneRole(Run(Init(), es), fp)
    ensures var w := Run(Init(), es);
            && (share, fp) in w.granted && share in w.shares && fp in w.shares[share].prints
            && (!w.shares[share].ended || share in w.owes)
            && w.trusted[fp] == As(w.shares[share].role)
  {
    var w := Run(Init(), es);
    share := NothingLeftBehind(es, fp);
    var q := GrantsComeFromPairings(es, (share, fp));
    TrustedGuestsAreLimited(es, fp);
    var p :| p in w.pairings && w.pairings[p].fp == fp && w.pairings[p].share in w.shares
           && w.trusted[fp] == As(w.shares[w.pairings[p].share].role);
    assert w.shares[w.pairings[q].share].role == w.shares[w.pairings[p].share].role;
  }

  /** All pairings of the certificate are for shares of one role. */
  ghost predicate OneRole(w: World, fp: string) {
    forall p, q | p in w.pairings && q in w.pairings && w.pairings[p].fp == fp && w.pairings[q].fp == fp ::
      w.pairings[p].share in w.shares && w.pairings[q].share in w.shares ==>
        w.shares[w.pairings[p].share].role == w.shares[w.pairings[q].share].role
  }

  // ---------------------------------------------------------------- several roles

  predicate CanLimit(w: World, p: nat) {
    p in w.pairings && w.pairings[p].pc.Limiting? && w.pairings[p].fp in w.trusted && w.pairings[p].share in w.shares
  }

  /** Limiting a client leaves it with a wrong mask exactly when its certificate is granted to a live share of another
      role. */
  lemma LimitLeavesWrongMask(w: World, p: nat)
    requires CanLimit(w, p)
    ensures var pr := w.pairings[p];
            WrongMask(Step(w, Limit(p, true)), pr.fp) <==> GrantedOtherwise(w, pr.fp, w.shares[pr.share].role)
  {
    var n, pr := Step(w, Limit(p, true)), w.pairings[p];
    assert n.granted == w.granted && n.shares == w.shares && n.trusted[pr.fp] == As(w.shares[pr.share].role);
    assert forall share :: Live(n, share) == Live(w, share);
  }

  /** The two guards: a client is limited to one role while it is granted to a live share of another, or a certificate
      that has one role's mask is granted to a share of another. */
  ghost predicate LimitsOtherwise(w: World, e: Event) {
    e.Limit? && e.ok && CanLimit(w, e.p) && GrantedOtherwise(w, w.pairings[e.p].fp, w.shares[w.pairings[e.p].share].role)
  }

  predicate GrantsOtherwise(w: World, e: Event) {
    && e.Check? && e.p in w.pairings && w.pairings[e.p].pc.Checking? && Live(w, w.pairings[e.p].share)
    && var pr := w.pairings[e.p];
       pr.fp in w.trusted && w.trusted[pr.fp].As? && w.trusted[pr.fp].role != w.shares[pr.share].role
  }

  /** Grants, masks and live shares are as before or fewer. */
  ghost predicate NoNewMask(w: World, n: World) {
    && n.granted <= w.granted && RolesStay(w, n)
    && (forall share | Live(n, share) && share in w.shares :: Live(w, share))
    && (forall g | g in n.granted && g.1 in n.trusted :: g.1 in w.trusted && n.trusted[g.1] == w.trusted[g.1])
  }

  lemma NoNewMaskKeepsRight(w: World, n: World)
    requires RightMasks(w) && Grants(w) && NoNewMask(w, n)
    ensures RightMasks(n)
  {
    forall g | g in n.granted ensures !WrongMask(n, g.1) {
      assert GrantBound(w, g) && !WrongMask(w, g.1);
      assert forall h | h in n.granted :: GrantBound(w, h);
    }
  }

  lemma ShareStepMasks(w: World, e: Event)
    requires Grants(w) && (e.Invite? || e.Expire? || e.Revoke? || e.Sweep? || e.Take? || e.Drop? || e.HostTrusts? || e.Ask?)
    ensures NoNewMask(w, Step(w, e))
  {
    assert forall g | g in w.granted :: GrantBound(w, g);
    match e
    case Invite(_, _) =>
    case Expire(_) =>
    case Revoke(_, _) =>
    case Sweep(_, _) =>
    case Take(_) =>
    case Drop(_, _, _) =>
    case HostTrusts(_) =>
    case Ask(_, _, _, _) =>
  }

  lemma PairingStepMasks(w: World, e: Event, p: nat)
    requires Grants(w) && p in w.pairings
    requires e.Add? || e.Submit? || e.Poll? || e.Unpair? || e.GiveUp? || e.Forget? || (e.Limit? && !e.ok)
    ensures NoNewMask(w, PairingStep(w, e, p, w.pairings[p]))
  {
    if e.Add? {} else if e.Unpair? {} else if e.Forget? {} else if e.Limit? {} else {}
  }

  lemma LimitMasks(w: World, p: nat)
    requires RightMasks(w) && Grants(w)
    ensures RightMasks(Step(w, Limit(p, true))) <==> !LimitsOtherwise(w, Limit(p, true))
  {
    var n := Step(w, Limit(p, true));
    if CanLimit(w, p) {
      var fp := w.pairings[p].fp;
      LimitLeavesWrongMask(w, p);
      assert forall share :: Live(n, share) == Live(w, share);
      if LimitsOtherwise(w, Limit(p, true)) {
        var g :| g in w.granted && g.1 == fp && Live(w, g.0) && w.shares[g.0].role != w.shares[w.pairings[p].share].role;
        assert g in n.granted && WrongMask(n, g.1);
      } else {
        forall g | g in n.granted ensures !WrongMask(n, g.1) {
          if g.1 != fp { SameMask(w, n, g.1); }
        }
      }
    } else {
      assert n.granted == w.granted && n.shares == w.shares && n.trusted == w.trusted;
      NoNewMaskKeepsRight(w, n);
    }
  }

  lemma SameMask(w: World, n: World, fp: string)
    requires n.granted == w.granted && n.shares == w.shares && !WrongMask(w, fp)
    requires fp in n.trusted ==> fp in w.trusted && n.trusted[fp] == w.trusted[fp]
    ensures !WrongMask(n, fp)
  {
    assert forall share :: Live(n, share) == Live(w, share);
  }

  lemma CheckMasks(w: World, p: nat)
    requires RightMasks(w) && Grants(w)
    ensures RightMasks(Step(w, Check(p))) <==> !GrantsOtherwise(w, Check(p))
  {
    var n := Step(w, Check(p));
    if p in w.pairings && w.pairings[p].pc.Checking? {
      var pr := w.pairings[p];
      assert n.shares == w.shares && n.trusted == w.trusted && forall share :: Live(n, share) == Live(w, share);
      if GrantsOtherwise(w, Check(p)) {
        assert (pr.share, pr.fp) in n.granted && WrongMask(n, pr.fp);
      } else {
        forall g | g in n.granted ensures !WrongMask(n, g.1) { CheckedMask(w, p, g); }
      }
    }
  }

  lemma CheckedMask(w: World, p: nat, g: (nat, string))
    requires RightMasks(w) && Grants(w) && p in w.pairings && w.pairings[p].pc.Checking? && !GrantsOtherwise(w, Check(p))
    requires g in Step(w, Check(p)).granted
    ensures !WrongMask(Step(w, Check(p)), g.1)
  {
    var n, pr := Step(w, Check(p)), w.pairings[p];
    if WrongMask(n, g.1) {
      var h :| h in n.granted && h.1 == g.1 && Live(n, h.0) && n.shares[h.0].role != n.trusted[g.1].role;
      assert h in w.granted || h == (pr.share, pr.fp);
      assert h in w.granted ==> !WrongMask(w, h.1);
      assert Live(w, h.0);
      assert false;
    }
  }

  /** A step keeps every certificate's mask right exactly when neither guard holds. */
  lemma StepKeepsRightMasks(w: World, e: Event)
    requires RightMasks(w) && Grants(w)
    ensures RightMasks(Step(w, e)) <==> !LimitsOtherwise(w, e) && !GrantsOtherwise(w, e)
  {
    if e.Check? {
      CheckMasks(w, e.p);
    } else if e.Limit? && e.ok {
      LimitMasks(w, e.p);
    } else if e.Add? || e.Submit? || e.Poll? || e.Unpair? || e.GiveUp? || e.Forget? || e.Limit? {
      if e.p in w.pairings {
        PairingStepMasks(w, e, e.p);
        NoNewMaskKeepsRight(w, PairingStep(w, e, e.p, w.pairings[e.p]));
      }
    } else {
      ShareStepMasks(w, e);
      NoNewMaskKeepsRight(w, Step(w, e));
    }
  }

  ghost predicate NeverMixes(es: seq<Event>) {
    es == [] ||
    (NeverMixes(es[..|es| - 1])
     && !LimitsOtherwise(Run(Init(), es[..|es| - 1]), es[|es| - 1]) && !GrantsOtherwise(Run(Init(), es[..|es| - 1]), es[|es| - 1]))
  }

  lemma {:induction false} EveryRunKeepsRightMasks(es: seq<Event>)
    requires NeverUnbinds(es) && NeverMixes(es)
    ensures RightMasks(Run(Init(), es))
  {
    if es != [] {
      EveryRunKeepsRightMasks(es[..|es| - 1]);
      EveryRunKeepsBindings(es[..|es| - 1]);
      StepKeepsRightMasks(Run(Init(), es[..|es| - 1]), es[|es| - 1]);
    }
  }

  /** On a host that can limit clients, once everything is through and roles were never mixed, a trusted certificate
      has the mask of every live share that it is granted to. */
  lemma LiveSharesMaskIsApplied(es: seq<Event>, share: nat, fp: string)
    requires NeverUnbinds(es) && NeverUnlimits(es, fp) && NeverMixes(es)
    requires var w := Run(Init(), es); Settled(w) && LimitedFor(w, fp) && (share, fp) in w.granted && Live(w, share)
    ensures var w := Run(Init(), es); fp in w.trusted && w.trusted[fp] == As(w.shares[share].role)
  {
    var w, g := Run(Init(), es), (share, fp);
    EveryRunKeepsBindings(es);
    assert GrantBound(w, g);
    var p := GrantsComeFromPairings(es, g);
    EveryRunKeepsRightMasks(es);
    TrustedGuestsAreLimited(es, fp);
    assert !WrongMask(w, g.1);
  }

  // ---------------------------------------------------------------- a mask that stays

  /** A step that loses no binding, no trust and no limit. */
  ghost predicate Goes(fp: string, w: World, e: Event, n: World) {
    Step(w, e) == n && !Unbinds(w, e) && !Abandons(w, e) && !Unlimits(w, e, fp)
  }

  /** One certificate is paired for a Technician's share and for a Viewer's. The first is granted and revoked before its
      client is limited; the certificate is trusted anew, granted to the Viewer and limited, and only then the first
      pairing limits it, to its own role. */
  function MixedEvent(fp: string, k: nat): Event {
    if k == 0 then Invite(1, Technician)
    else if k == 1 then Invite(2, Viewer)
    else if k == 2 then Ask(1, 1, fp, true)
    else if k == 3 then Ask(2, 2, fp, true)
    else if k == 4 then Add(1)
    else if k == 5 then Add(2)
    else if k == 6 then Submit(1, true)
    else if k == 7 then Submit(2, true)
    else if k == 8 then HostTrusts(fp)
    else if k == 9 then Poll(1)
    else if k == 10 then Check(1)
    else if k == 11 then Revoke(1, 1)
    else if k == 12 then Take(1)
    else if k == 13 then Drop(1, fp, true)
    else if k == 14 then HostTrusts(fp)
    else if k == 15 then Poll(2)
    else if k == 16 then Check(2)
    else if k == 17 then Limit(2, true)
    else Limit(1, true)
  }

  function MixedRoles(fp: string): seq<Event> { seq(19, (k: nat) => MixedEvent(fp, k)) }

  function Prints(fp: string, bound: bool): set<string> { if bound then {fp} else {} }

  function TwoShares(fp: string, bound1: bool, ended1: bool, bound2: bool): map<nat, Share> {
    map[1 := Share(Technician, ended1, Prints(fp, bound1)), 2 := Share(Viewer, false, Prints(fp, bound2))]
  }

  function Pairs(fp: string, a: PairPc, b: PairPc): map<nat, Pairing> {
    map[1 := Pairing(1, fp, true, a), 2 := Pairing(2, fp, true, b)]
  }

  /** Before the revocation. */
  function Early(fp: string, bound1: bool, bound2: bool, a: PairPc, b: PairPc, trusted: map<string, Level>): World {
    World(TwoShares(fp, bound1, false, bound2), trusted, Pairs(fp, a, b), map[], {}, {})
  }

  /** The first share's certificates have been taken. */
  function Late(fp: string, todo: set<string>, trusted: map<string, Level>, granted: set<(nat, string)>, a: PairPc, b: PairPc): World {
    World(TwoShares(fp, false, true, true), trusted, Pairs(fp, a, b), map[1 := Dropper(1, true, todo)], granted, {})
  }

  function FirstGranted(fp: string): World {
    Early(fp, true, true, Limiting, Polling, map[fp := Full]).(granted := {(1, fp)})
  }

  function FirstRevoked(fp: string): World {
    FirstGranted(fp).(shares := TwoShares(fp, true, true, true), owes := {1}, droppers := map[1 := Dropper(1, false, {})])
  }

  function MixedState(fp: string, k: nat): World {
    if k == 0 then Init()
    else if k == 1 then Init().(shares := map[1 := Share(Technician, false, {})])
    else if k == 2 then Init().(shares := TwoShares(fp, false, false, false))
    else if k == 3 then Init().(shares := TwoShares(fp, false, false, false), pairings := map[1 := Pairing(1, fp, true, Adding)])
    else if k == 4 then Early(fp, false, false, Adding, Adding, map[])
    else if k == 5 then Early(fp, true, false, Submitting, Adding, map[])
    else if k == 6 then Early(fp, true, true, Submitting, Submitting, map[])
    else if k == 7 then Early(fp, true, true, Polling, Submitting, map[])
    else if k == 8 then Early(fp, true, true, Polling, Polling, map[])
    else if k == 9 then Early(fp, true, true, Polling, Polling, map[fp := Full])
    else if k == 10 then Early(fp, true, true, Checking, Polling, map[fp := Full])
    else if k == 11 then FirstGranted(fp)
    else if k == 12 then FirstRevoked(fp)
    else if k == 13 then Late(fp, {fp}, map[fp := Full], {(1, fp)}, Limiting, Polling)
    else if k == 14 then Late(fp, {}, map[], {}, Limiting, Polling)
    else if k == 15 then Late(fp, {}, map[fp := Full], {}, Limiting, Polling)
    else if k == 16 then Late(fp, {}, map[fp := Full], {}, Limiting, Checking)
    else if k == 17 then Late(fp, {}, map[fp := Full], {(2, fp)}, Limiting, Limiting)
    else if k == 18 then Late(fp, {}, map[fp := As(Viewer)], {(2, fp)}, Limiting, Over)
    else Late(fp, {}, map[fp := As(Technician)], {(2, fp)}, Over, Over)
  }

  lemma Invites(fp: string)
    ensures Goes(fp, MixedState(fp, 0), Invite(1, Technician), MixedState(fp, 1))
    ensures Goes(fp, MixedState(fp, 1), Invite(2, Viewer), MixedState(fp, 2))
  {
  }

  lemma Asks(fp: string)
    ensures Goes(fp, MixedState(fp, 2), Ask(1, 1, fp, true), MixedState(fp, 3))
    ensures Goes(fp, MixedState(fp, 3), Ask(2, 2, fp, true), MixedState(fp, 4))
  {
  }

  lemma AddsFirst(fp: string)
    ensures Goes(fp, MixedState(fp, 4), Add(1), MixedState(fp, 5))
  {
    assert {} + {fp} == {fp};
  }

  lemma AddsSecond(fp: string)
    ensures Goes(fp, MixedState(fp, 5), Add(2), MixedState(fp, 6))
  {
    assert {} + {fp} == {fp};
  }

  lemma Submits(fp: string)
    ensures Goes(fp, MixedState(fp, 6), Submit(1, true), MixedState(fp, 7))
    ensures Goes(fp, MixedState(fp, 7), Submit(2, true), MixedState(fp, 8))
  {
  }

  lemma FirstTrusted(fp: string)
    ensures Goes(fp, Early(fp, true, true, Polling, Polling, map[]), HostTrusts(fp),
                 Early(fp, true, true, Polling, Polling, map[fp := Full]))
  {
    assert Early(fp, true, true, Polling, Polling, map[]).pairings[1].pc.Polling?;
  }

  lemma FirstLooks(fp: string)
    ensures Goes(fp, Early(fp, true, true, Polling, Polling, map[fp := Full]), Poll(1),
                 Early(fp, true, true, Checking, Polling, map[fp := Full]))
  {
  }

  lemma FirstIsGranted(fp: string)
    ensures Goes(fp, Early(fp, true, true, Checking, Polling, map[fp := Full]), Check(1), FirstGranted(fp))
  {
    assert {} + {(1, fp)} == {(1, fp)};
  }

  lemma FirstIsRevoked(fp: string)
    ensures Goes(fp, FirstGranted(fp), Revoke(1, 1), FirstRevoked(fp))
  {
    assert {} + {1} == {1};
  }

  lemma TakeTakes(fp: string)
    ensures var w := FirstRevoked(fp);
            && w.shares[1 := w.shares[1].(prints := {})] == TwoShares(fp, false, true, true)
            && w.droppers[1 := Dropper(1, true, {fp})] == map[1 := Dropper(1, true, {fp})]
  {
  }

  lemma FirstIsTaken(fp: string)
    ensures Goes(fp, FirstRevoked(fp), Take(1), Late(fp, {fp}, map[fp := Full], {(1, fp)}, Limiting, Polling))
  {
    TakeTakes(fp);
    var w, n := FirstRevoked(fp), Late(fp, {fp}, map[fp := Full], {(1, fp)}, Limiting, Polling);
    assert w.owes - {1} == {};
    assert DropperStep(w, Take(1), 1, w.droppers[1]) == n;
  }

  lemma FirstIsDropped(fp: string)
    ensures Goes(fp, MixedState(fp, 13), Drop(1, fp, true), MixedState(fp, 14))
  {
    assert {fp} - {fp} == {} && map[fp := Full] - {fp} == map[];
    assert (set g | g in {(1, fp)} && g.1 != fp) == {};
  }

  lemma SecondTrusted(fp: string)
    ensures Goes(fp, Late(fp, {}, map[], {}, Limiting, Polling), HostTrusts(fp),
                 Late(fp, {}, map[fp := Full], {}, Limiting, Polling))
  {
    assert Late(fp, {}, map[], {}, Limiting, Polling).pairings[2].pc.Polling?;
  }

  lemma SecondLooks(fp: string)
    ensures Goes(fp, Late(fp, {}, map[fp := Full], {}, Limiting, Polling), Poll(2),
                 Late(fp, {}, map[fp := Full], {}, Limiting, Checking))
  {
  }

  lemma SecondIsGranted(fp: string)
    ensures Goes(fp, Late(fp, {}, map[fp := Full], {}, Limiting, Checking), Check(2),
                 Late(fp, {}, map[fp := Full], {(2, fp)}, Limiting, Limiting))
  {
    assert {} + {(2, fp)} == {(2, fp)};
  }

  lemma SecondLimits(fp: string)
    ensures Goes(fp, Late(fp, {}, map[fp := Full], {(2, fp)}, Limiting, Limiting), Limit(2, true),
                 Late(fp, {}, map[fp := As(Viewer)], {(2, fp)}, Limiting, Over))
  {
  }

  lemma FirstLimits(fp: string)
    ensures Goes(fp, Late(fp, {}, map[fp := As(Viewer)], {(2, fp)}, Limiting, Over), Limit(1, true),
                 Late(fp, {}, map[fp := As(Technician)], {(2, fp)}, Over, Over))
  {
  }

  lemma MixedGoesEarly(fp: string, k: nat)
    requires k < 10
    ensures Goes(fp, MixedState(fp, k), MixedEvent(fp, k), MixedState(fp, k + 1))
  {
    if k < 2 { Invites(fp); }
    else if k < 4 { Asks(fp); }
    else if k == 4 { AddsFirst(fp); }
    else if k == 5 { AddsSecond(fp); }
    else if k < 8 { Submits(fp); }
    else if k == 8 { FirstTrusted(fp); }
    else { FirstLooks(fp); }
  }

  lemma MixedGoesLate(fp: string, k: nat)
    requires 10 <= k < 19
    ensures Goes(fp, MixedState(fp, k), MixedEvent(fp, k), MixedState(fp, k + 1))
  {
    if k == 10 { FirstIsGranted(fp); }
    else if k == 11 { FirstIsRevoked(fp); }
    else if k == 12 { FirstIsTaken(fp); }
    else if k == 13 { FirstIsDropped(fp); }
    else if k == 14 { SecondTrusted(fp); }
    else if k == 15 { SecondLooks(fp); }
    else if k == 16 { SecondIsGranted(fp); }
    else if k == 17 { SecondLimits(fp); }
    else { FirstLimits(fp); }
  }

  lemma {:induction false} MixedLeads(fp: string, k: nat)
    requires k <= 19
    ensures var es := MixedRoles(fp)[..k];
            Run(Init(), es) == MixedState(fp, k) && NeverUnbinds(es) && NeverAbandons(es) && NeverUnlimits(es, fp)
  {
    var es := MixedRoles(fp)[..k];
    if k > 0 {
      MixedLeads(fp, k - 1);
      if k - 1 < 10 { MixedGoesEarly(fp, k - 1); } else { MixedGoesLate(fp, k - 1); }
      assert es[..k - 1] == MixedRoles(fp)[..k - 1] && es[k - 1] == MixedEvent(fp, k - 1);
    }
  }

  /** At the end all is through, and the certificate is granted to the live Viewer share alone, with a Technician's mask:
      it may use the keyboard. */
  lemma RevokedRolesMaskCanStay(fp: string)
    ensures var w := Run(Init(), MixedRoles(fp));
            && NeverUnbinds(MixedRoles(fp)) && NeverAbandons(MixedRoles(fp)) && NeverUnlimits(MixedRoles(fp), fp)
            && w == MixedState(fp, 19)
            && Settled(w) && LimitedFor(w, fp) && w.granted == {(2, fp)} && Live(w, 2) && w.shares[2].role == Viewer
            && w.trusted == map[fp := As(Technician)] && WrongMask(w, fp)
    ensures InputKbd in Permissions(As(Technician)) && InputKbd !in Mask(Viewer)
  {
    MixedLeads(fp, 19);
    assert MixedRoles(fp)[..19] == MixedRoles(fp);
    MixedEnd(fp);
    MasksNest(Viewer);
    assert InputKbd in INPUT;
  }

  lemma MixedEnd(fp: string)
    ensures var w := MixedState(fp, 19);
            Settled(w) && LimitedFor(w, fp) && Live(w, 2) && w.shares[2].role == Viewer && WrongMask(w, fp)
  {
    var w := MixedState(fp, 19);
    assert (2, fp) in w.granted && Live(w, 2);
  }
}
