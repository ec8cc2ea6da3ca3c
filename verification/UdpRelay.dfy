/** The per-peer UDP relay of one Sunshine port (agent/internal/app/sunshine_tsnet.go): one forwarder dials a
    backend socket for every peer it hears from, a relay per socket carries the replies back until the socket
    goes idle. The table of sockets is shared; every locked section, dial, read and write is a step of its own. */
module UdpRelay {

  type Peer = string
  type Bytes = seq<bv8>

  /** Where the relay of a socket is. */
  datatype Relay =
    | Dialled            // the socket exists, the forwarder has not stored it
    | Stored             // in the table, the relay not started
    | Reading
    | Sending(b: Bytes)
    | Leaving            // the read or the send failed
    | Removed            // its table entry is deleted, the socket still open
    | Gone

  /** A backend socket; what its relay read from the backend and what it sent to the peer are history. */
  datatype Socket = Socket(peer: Peer, relay: Relay, said: seq<Bytes>, sent: seq<Bytes>)

  datatype Heard = Heard(from: Peer, b: Bytes)

  datatype Forwarder =
    | Waiting
    | Got(from: Peer, b: Bytes)
    | Missing(from: Peer, b: Bytes)                  // looked up, no socket for the peer
    | Connected(from: Peer, b: Bytes, sock: nat)
    | Kept(from: Peer, b: Bytes, sock: nat)          // stored, the relay to be started
    | Writing(from: Peer, b: Bytes, sock: nat)

  /** A packet written to a backend socket, and a reply sent to a peer from one. */
  datatype Carried = Carried(sock: nat, from: Peer, b: Bytes)
  datatype Replied = Replied(sock: nat, to: Peer, b: Bytes)

  /** A table entry deleted, and the socket whose relay deleted it. */
  datatype Removal = Removal(relay: nat, entry: nat)

  datatype World = World(
    table: map<Peer, nat>, socks: map<nat, Socket>, dialled: nat, fwd: Forwarder,
    heard: seq<Heard>, carried: seq<Carried>, replied: seq<Replied>, removed: seq<Removal>)

  function Init(): World { World(map[], map[], 0, Waiting, [], [], [], []) }

  datatype Event =
    | Packet(from: Peer, b: Bytes)
    | LookUp
    | Dial(ok: bool)
    | Store
    | StartRelay
    | WriteBackend(ok: bool)
    | Read(sock: nat, reply: Bytes, ok: bool)
    | SendReply(sock: nat, ok: bool)
    | Remove(sock: nat)
    | CloseSocket(sock: nat)

  function Without(table: map<Peer, nat>, key: Peer): map<Peer, nat> { table - {key} }

  function To(w: World, sock: nat, r: Relay): World
    requires sock in w.socks
  {
    w.(socks := w.socks[sock := w.socks[sock].(relay := r)])
  }

  function ForwarderStep(w: World, e: Event): World {
    match (e, w.fwd)
    case (Packet(from, b), Waiting) => w.(fwd := Got(from, b), heard := w.heard + [Heard(from, b)])
    case (LookUp, Got(from, b)) =>
      w.(fwd := if from in w.table then Writing(from, b, w.table[from]) else Missing(from, b))
    case (Dial(ok), Missing(from, b)) =>
      if !ok then w.(fwd := Waiting)
      else w.(socks := w.socks[w.dialled := Socket(from, Dialled, [], [])], dialled := w.dialled + 1,
              fwd := Connected(from, b, w.dialled))
    case (Store, Connected(from, b, sock)) =>
      if sock !in w.socks then w
      else To(w.(table := w.table[from := sock], fwd := Kept(from, b, sock)), sock, Stored)
    case (StartRelay, Kept(from, b, sock)) =>
      if sock !in w.socks then w else To(w.(fwd := Writing(from, b, sock)), sock, Reading)
    case (WriteBackend(ok), Writing(from, b, sock)) =>
      w.(fwd := Waiting, carried := if ok then w.carried + [Carried(sock, from, b)] else w.carried)
    case _ => w
  }

  function RelayStep(w: World, e: Event, sock: nat, s: Socket): World
    requires sock in w.socks && w.socks[sock] == s
  {
    match (e, s.relay)
    case (Read(_, reply, ok), Reading) =>
      if !ok then To(w, sock, Leaving)
      else w.(socks := w.socks[sock := s.(relay := Sending(reply), said := s.said + [reply])])
    case (SendReply(_, ok), Sending(b)) =>
      if !ok then To(w, sock, Leaving)
      else w.(socks := w.socks[sock := s.(relay := Reading, sent := s.sent + [b])],
              replied := w.replied + [Replied(sock, s.peer, b)])
    case (Remove(_), Leaving) =>
      var took := if s.peer in w.table then [Removal(sock, w.table[s.peer])] else [];
      To(w.(table := Without(w.table, s.peer), removed := w.removed + took), sock, Removed)
    case (CloseSocket(_), Removed) => To(w, sock, Gone)
    case _ => w
  }

  /** One step; a step that is not enabled changes nothing. */
  function Step(w: World, e: Event): World {
    match e
    case Read(sock, _, _) => if sock in w.socks then RelayStep(w, e, sock, w.socks[sock]) else w
    case SendReply(sock, _) => if sock in w.socks then RelayStep(w, e, sock, w.socks[sock]) else w
    case Remove(sock) => if sock in w.socks then RelayStep(w, e, sock, w.socks[sock]) else w
    case CloseSocket(sock) => if sock in w.socks then RelayStep(w, e, sock, w.socks[sock]) else w
    case _ => ForwarderStep(w, e)
  }

  function Run(w: World, es: seq<Event>): World {
    if es == [] then w else Step(Run(w, es[..|es| - 1]), es[|es| - 1])
  }

  // ---------------------------------------------------------------- invariants

  predicate InTable(r: Relay) { r.Stored? || r.Reading? || r.Sending? || r.Leaving? }

  /** A socket is in the table exactly between being stored and being removed by its own relay. */
  ghost predicate TableMatches(w: World) {
    && (forall p | p in w.table :: w.table[p] in w.socks && w.socks[w.table[p]].peer == p && InTable(w.socks[w.table[p]].relay))
    && (forall s | s in w.socks :: s < w.dialled &&
          (InTable(w.socks[s].relay) ==> w.socks[s].peer in w.table && w.table[w.socks[s].peer] == s))
  }

  /** What the forwarder holds belongs to the packet's peer, and a socket it is dialling for has no rival. */
  ghost predicate ForwarderFits(w: World) {
    match w.fwd
    case Missing(from, _) => from !in w.table
    case Connected(from, _, sock) => from !in w.table && sock in w.socks && w.socks[sock].peer == from && w.socks[sock].relay.Dialled?
    case Kept(from, _, sock) => sock in w.socks && w.socks[sock].peer == from && w.socks[sock].relay.Stored?
    case Writing(from, _, sock) => sock in w.socks && w.socks[sock].peer == from
    case _ => true
  }

  predicate CarriedFor(w: World, c: Carried) { c.sock in w.socks && w.socks[c.sock].peer == c.from }

  predicate RepliedFor(w: World, r: Replied) { r.sock in w.socks && w.socks[r.sock].peer == r.to }

  predicate RemovedOwn(x: Removal) { x.relay == x.entry }

  ghost predicate HistoryFits(w: World) {
    && (forall c | c in w.carried :: CarriedFor(w, c))
    && (forall r | r in w.replied :: RepliedFor(w, r))
    && (forall x | x in w.removed :: RemovedOwn(x))
  }

  ghost predicate Inv(w: World) {
    TableMatches(w) && ForwarderFits(w) && HistoryFits(w)
  }

  /** No socket ever changes its peer or goes away. */
  predicate KeepsPeers(w: World, n: World) {
    forall s | s in w.socks :: s in n.socks && n.socks[s].peer == w.socks[s].peer
  }

  lemma ForwarderKeepsTable(w: World, e: Event)
    requires TableMatches(w) && ForwarderFits(w)
    ensures TableMatches(ForwarderStep(w, e)) && KeepsPeers(w, ForwarderStep(w, e))
  {
    assert w.dialled !in w.socks;
    if e.Dial? {} else if e.Store? {} else if e.StartRelay? {} else {}
  }

  lemma ForwarderStaysFit(w: World, e: Event)
    requires TableMatches(w) && ForwarderFits(w)
    ensures ForwarderFits(ForwarderStep(w, e))
  {
    if e.Dial? {} else if e.Store? {} else if e.StartRelay? {} else if e.LookUp? {} else {}
  }

  lemma HistoryStillFits(w: World, n: World)
    requires HistoryFits(w) && KeepsPeers(w, n)
    requires n.carried == w.carried || exists c :: n.carried == w.carried + [c] && CarriedFor(n, c)
    requires n.replied == w.replied || exists r :: n.replied == w.replied + [r] && RepliedFor(n, r)
    requires n.removed == w.removed || exists x :: n.removed == w.removed + [x] && RemovedOwn(x)
    ensures HistoryFits(n)
  {
    forall c | c in n.carried ensures CarriedFor(n, c) { if c in w.carried { assert CarriedFor(w, c); } }
    forall r | r in n.replied ensures RepliedFor(n, r) { if r in w.replied { assert RepliedFor(w, r); } }
  }

  lemma ForwarderKeepsInv(w: World, e: Event)
    requires Inv(w)
    ensures Inv(ForwarderStep(w, e))
  {
    ForwarderKeepsTable(w, e);
    ForwarderStaysFit(w, e);
    if w.fwd.Writing? {
      assert CarriedFor(w, Carried(w.fwd.sock, w.fwd.from, w.fwd.b));
    }
    HistoryStillFits(w, ForwarderStep(w, e));
  }

  lemma RelayKeepsTable(w: World, e: Event, sock: nat)
    requires TableMatches(w) && sock in w.socks
    ensures var n := RelayStep(w, e, sock, w.socks[sock]);
            TableMatches(n) && KeepsPeers(w, n) && n.fwd == w.fwd
  {
    if e.Read? {} else if e.SendReply? {} else if e.Remove? {} else {}
  }

  lemma RelayKeepsForwarderFit(w: World, e: Event, sock: nat)
    requires ForwarderFits(w) && sock in w.socks
    ensures ForwarderFits(RelayStep(w, e, sock, w.socks[sock]))
  {
    if e.Read? {} else if e.SendReply? {} else if e.Remove? {} else {}
  }

  lemma RelayKeepsInv(w: World, e: Event, sock: nat)
    requires Inv(w) && sock in w.socks
    ensures Inv(RelayStep(w, e, sock, w.socks[sock]))
  {
    RelayKeepsTable(w, e, sock);
    RelayKeepsForwarderFit(w, e, sock);
    if e.SendReply? && w.socks[sock].relay.Sending? {
      assert RepliedFor(w, Replied(sock, w.socks[sock].peer, w.socks[sock].relay.b));
    }
    HistoryStillFits(w, RelayStep(w, e, sock, w.socks[sock]));
  }

  lemma StepKeepsInv(w: World, e: Event)
    requires Inv(w)
    ensures Inv(Step(w, e))
  {
    match e
    case Read(sock, _, _) => if sock in w.socks { RelayKeepsInv(w, e, sock); }
    case SendReply(sock, _) => if sock in w.socks { RelayKeepsInv(w, e, sock); }
    case Remove(sock) => if sock in w.socks { RelayKeepsInv(w, e, sock); }
    case CloseSocket(sock) => if sock in w.socks { RelayKeepsInv(w, e, sock); }
    case _ => ForwarderKeepsInv(w, e);
  }

  lemma {:induction false} EveryRunKeepsInv(es: seq<Event>)
    ensures Inv(Run(Init(), es))
  {
    if es != [] {
      EveryRunKeepsInv(es[..|es| - 1]);
      StepKeepsInv(Run(Init(), es[..|es| - 1]), es[|es| - 1]);
    }
  }

  /** In every interleaving: the table maps a peer to a socket dialled for it whose relay has not removed
      itself, and has one for every such socket; so no two peers share one. */
  lemma TableIsPerPeer(es: seq<Event>, p: Peer, q: Peer)
    requires p in Run(Init(), es).table && q in Run(Init(), es).table
    ensures var w := Run(Init(), es);
            && w.table[p] in w.socks && w.socks[w.table[p]].peer == p && InTable(w.socks[w.table[p]].relay)
            && (p != q ==> w.table[p] != w.table[q])
            && (forall s | s in w.socks && w.socks[s].peer == p && InTable(w.socks[s].relay) :: s == w.table[p])
  {
    EveryRunKeepsInv(es);
  }

  /** Whatever a socket carried came from the peer its replies go to. */
  lemma RepliesReachTheSender(es: seq<Event>, c: Carried, r: Replied)
    requires c in Run(Init(), es).carried && r in Run(Init(), es).replied && c.sock == r.sock
    ensures c.from == r.to
  {
    EveryRunKeepsInv(es);
    assert CarriedFor(Run(Init(), es), c) && RepliedFor(Run(Init(), es), r);
  }

  /** A teardown deletes its own entry, and it always finds it: deleting by the peer's key never takes a
      newer socket of that peer out of the table. */
  lemma TeardownTakesItsOwnEntry(es: seq<Event>, s: nat)
    ensures var w := Run(Init(), es);
            && (forall x | x in w.removed :: x.relay == x.entry)
            && (s in w.socks && w.socks[s].relay.Leaving? ==>
                  && w.socks[s].peer in w.table && w.table[w.socks[s].peer] == s
                  && Step(w, Remove(s)).removed == w.removed + [Removal(s, s)])
  {
    EveryRunKeepsInv(es);
    assert forall x | x in Run(Init(), es).removed :: RemovedOwn(x);
  }

  // ---------------------------------------------------------------- nothing twice, and in order

  /** Some of `b`, in order. */
  predicate Subseq<T(==)>(a: seq<T>, b: seq<T>) {
    if a == [] then true
    else if b == [] then false
    else (a[|a| - 1] == b[|b| - 1] && Subseq(a[..|a| - 1], b[..|b| - 1])) || Subseq(a, b[..|b| - 1])
  }

  lemma SubseqMore<T>(a: seq<T>, b: seq<T>, x: T)
    requires Subseq(a, b)
    ensures Subseq(a, b + [x]) && Subseq(a + [x], b + [x])
  {
    assert (a + [x])[..|a|] == a && (b + [x])[..|b|] == b;
  }

  function PacketsOf(carried: seq<Carried>): seq<Heard> {
    if carried == [] then []
    else PacketsOf(carried[..|carried| - 1]) + [Heard(carried[|carried| - 1].from, carried[|carried| - 1].b)]
  }

  /** All but the last, which is `x`, cover `done`. */
  predicate InHand<T(==)>(done: seq<T>, all: seq<T>, x: T) {
    all != [] && all[|all| - 1] == x && Subseq(done, all[..|all| - 1])
  }

  /** The packets carried are some of those heard, in order, without the one in hand. */
  predicate PacketsInOrder(w: World) {
    if w.fwd.Waiting? then Subseq(PacketsOf(w.carried), w.heard)
    else InHand(PacketsOf(w.carried), w.heard, Heard(w.fwd.from, w.fwd.b))
  }

  predicate RepliesInOrder(s: Socket) {
    if s.relay.Sending? then InHand(s.sent, s.said, s.relay.b) else Subseq(s.sent, s.said)
  }

  lemma HandIsDone<T>(done: seq<T>, all: seq<T>, x: T)
    requires InHand(done, all, x)
    ensures Subseq(done, all) && Subseq(done + [x], all)
  {
    SubseqMore(done, all[..|all| - 1], x);
    assert all == all[..|all| - 1] + [x];
  }

  lemma ForwarderKeepsOrder(w: World, e: Event)
    requires PacketsInOrder(w)
    ensures PacketsInOrder(ForwarderStep(w, e))
  {
    if w.fwd.Waiting? {
      if e.Packet? { assert (w.heard + [Heard(e.from, e.b)])[..|w.heard|] == w.heard; }
    } else {
      HandIsDone(PacketsOf(w.carried), w.heard, Heard(w.fwd.from, w.fwd.b));
      if e.WriteBackend? && w.fwd.Writing? {
        var c := Carried(w.fwd.sock, w.fwd.from, w.fwd.b);
        assert (w.carried + [c])[..|w.carried|] == w.carried;
      }
    }
  }

  lemma RelayKeepsOrder(w: World, e: Event, sock: nat)
    requires sock in w.socks && RepliesInOrder(w.socks[sock])
    ensures RepliesInOrder(RelayStep(w, e, sock, w.socks[sock]).socks[sock])
  {
    var s := w.socks[sock];
    if s.relay.Sending? {
      HandIsDone(s.sent, s.said, s.relay.b);
    } else if e.Read? {
      assert (s.said + [e.reply])[..|s.said|] == s.said;
    }
  }

  /** A forwarder's step leaves what relays read and sent, and no relay is sending that was not. */
  lemma ForwarderLeavesReplies(w: World, e: Event, sock: nat)
    requires sock in ForwarderStep(w, e).socks && forall t | t in w.socks :: RepliesInOrder(w.socks[t]) && t < w.dialled
    requires ForwarderFits(w)
    ensures RepliesInOrder(ForwarderStep(w, e).socks[sock])
  {
    if e.Dial? {} else if e.Store? {} else if e.StartRelay? {} else {}
  }

  ghost predicate InOrder(w: World) {
    PacketsInOrder(w) && forall sock | sock in w.socks :: RepliesInOrder(w.socks[sock])
  }

  lemma RelayStaysInOrder(w: World, e: Event, sock: nat)
    requires InOrder(w) && sock in w.socks
    ensures InOrder(RelayStep(w, e, sock, w.socks[sock]))
  {
    var n := RelayStep(w, e, sock, w.socks[sock]);
    RelayKeepsOrder(w, e, sock);
    RelayTouchesItsOwn(w, e, sock);
  }

  lemma RelayTouchesItsOwn(w: World, e: Event, sock: nat)
    requires sock in w.socks
    ensures var n := RelayStep(w, e, sock, w.socks[sock]);
            && n.fwd == w.fwd && n.heard == w.heard && n.carried == w.carried
            && n.socks.Keys == w.socks.Keys && forall t | t in w.socks && t != sock :: n.socks[t] == w.socks[t]
  {
    if e.Read? {} else if e.SendReply? {} else if e.Remove? {} else {}
  }

  lemma ForwarderStaysInOrder(w: World, e: Event)
    requires InOrder(w) && Inv(w)
    ensures InOrder(ForwarderStep(w, e))
  {
    ForwarderKeepsOrder(w, e);
    forall sock | sock in ForwarderStep(w, e).socks ensures RepliesInOrder(ForwarderStep(w, e).socks[sock]) {
      ForwarderLeavesReplies(w, e, sock);
    }
  }

  lemma {:induction false} EveryRunIsInOrder(es: seq<Event>)
    ensures InOrder(Run(Init(), es))
  {
    if es != [] {
      var w, e := Run(Init(), es[..|es| - 1]), es[|es| - 1];
      EveryRunIsInOrder(es[..|es| - 1]);
      EveryRunKeepsInv(es[..|es| - 1]);
      match e
      case Read(sock, _, _) => if sock in w.socks { RelayStaysInOrder(w, e, sock); }
      case SendReply(sock, _) => if sock in w.socks { RelayStaysInOrder(w, e, sock); }
      case Remove(sock) => if sock in w.socks { RelayStaysInOrder(w, e, sock); }
      case CloseSocket(sock) => if sock in w.socks { RelayStaysInOrder(w, e, sock); }
      case _ => ForwarderStaysInOrder(w, e);
    }
  }

  /** Packets reach the backend unchanged, in order and at most once, and so do a socket's replies its peer. */
  lemma NothingIsMadeUp(es: seq<Event>, sock: nat)
    ensures var w := Run(Init(), es);
            && Subseq(PacketsOf(w.carried), w.heard)
            && (sock in w.socks ==> Subseq(w.socks[sock].sent, w.socks[sock].said))
  {
    EveryRunIsInOrder(es);
    var w := Run(Init(), es);
    if !w.fwd.Waiting? { HandIsDone(PacketsOf(w.carried), w.heard, Heard(w.fwd.from, w.fwd.b)); }
    if sock in w.socks && w.socks[sock].relay.Sending? {
      HandIsDone(w.socks[sock].sent, w.socks[sock].said, w.socks[sock].relay.b);
    }
  }

  // ---------------------------------------------------------------- no reply but the last is lost

  /** The replies of a socket among those sent to peers. */
  function RepliesOf(replied: seq<Replied>, sock: nat): seq<Bytes> {
    if replied == [] then []
    else RepliesOf(replied[..|replied| - 1], sock) + if replied[|replied| - 1].sock == sock then [replied[|replied| - 1].b] else []
  }

  /** What was read is sent, up to the reply in hand; a relay that leaves may have lost that one. */
  predicate AllSent(s: Socket) {
    match s.relay
    case Dialled => s.said == [] && s.sent == []
    case Stored => s.said == [] && s.sent == []
    case Reading => s.said == s.sent
    case Sending(b) => s.said == s.sent + [b]
    case _ => s.sent <= s.said && |s.said| <= |s.sent| + 1
  }

  predicate RepliesFit(w: World, sock: nat)
    requires sock in w.socks
  {
    AllSent(w.socks[sock]) && RepliesOf(w.replied, sock) == w.socks[sock].sent
  }

  ghost predicate NoLoss(w: World) {
    && (forall sock | sock in w.socks :: RepliesFit(w, sock))
    && (forall r | r in w.replied :: r.sock in w.socks)
  }

  lemma ReplyAdds(replied: seq<Replied>, r: Replied, sock: nat)
    ensures RepliesOf(replied + [r], sock) == RepliesOf(replied, sock) + if r.sock == sock then [r.b] else []
  {
    assert (replied + [r])[..|replied|] == replied;
  }

  lemma {:induction false} NoReplies(replied: seq<Replied>, sock: nat)
    requires forall r | r in replied :: r.sock != sock
    ensures RepliesOf(replied, sock) == []
  {
    if replied != [] {
      assert replied[|replied| - 1] in replied;
      NoReplies(replied[..|replied| - 1], sock);
    }
  }

  lemma SocketLosesNothing(w: World, e: Event, sock: nat)
    requires sock in w.socks && RepliesFit(w, sock)
    ensures var n := RelayStep(w, e, sock, w.socks[sock]);
            && sock in n.socks && AllSent(n.socks[sock]) && n.socks == w.socks[sock := n.socks[sock]]
            && ((n.replied == w.replied && n.socks[sock].sent == w.socks[sock].sent)
                || (exists r: Replied :: r.sock == sock && n.replied == w.replied + [r] && n.socks[sock].sent == w.socks[sock].sent + [r.b]))
  {
    if e.SendReply? && e.ok && w.socks[sock].relay.Sending? {
      var r := Replied(sock, w.socks[sock].peer, w.socks[sock].relay.b);
      assert RelayStep(w, e, sock, w.socks[sock]).replied == w.replied + [r];
    } else if e.Read? {
    } else if e.Remove? {
    } else {
    }
  }

  lemma RelayLosesNothing(w: World, e: Event, sock: nat)
    requires NoLoss(w) && sock in w.socks
    ensures NoLoss(RelayStep(w, e, sock, w.socks[sock]))
  {
    var n := RelayStep(w, e, sock, w.socks[sock]);
    assert RepliesFit(w, sock);
    SocketLosesNothing(w, e, sock);
    forall o | o in n.socks ensures RepliesFit(n, o) {
      assert RepliesFit(w, o);
      if n.replied != w.replied {
        var r: Replied :| r.sock == sock && n.replied == w.replied + [r] && n.socks[sock].sent == w.socks[sock].sent + [r.b];
        ReplyAdds(w.replied, r, o);
      }
    }
  }

  /** A reply that is read and sent goes to the socket's peer as it was read; a relay that cannot read, or cannot send,
      leaves without a reply. */
  lemma ReplyRuns(w: World, sock: nat, reply: Bytes, readOk: bool, sendOk: bool)
    requires sock in w.socks && w.socks[sock].relay.Reading?
    ensures var n := Step(Step(w, Read(sock, reply, readOk)), SendReply(sock, sendOk));
            && sock in n.socks && n.socks[sock].relay == (if readOk && sendOk then Reading else Leaving)
            && n.replied == w.replied + if readOk && sendOk then [Replied(sock, w.socks[sock].peer, reply)] else []
  {
    var read := Step(w, Read(sock, reply, readOk));
    assert read.socks[sock].relay == (if readOk then Sending(reply) else Leaving) && read.replied == w.replied;
    assert w.replied + [] == w.replied;
  }

  /** A relay that leaves takes its peer's entry with it and closes its socket. */
  lemma RelayEnds(w: World, sock: nat)
    requires sock in w.socks && w.socks[sock].relay.Leaving?
    ensures var n := Step(Step(w, Remove(sock)), CloseSocket(sock));
            && n.table == w.table - {w.socks[sock].peer} && sock in n.socks && n.socks[sock].relay.Gone?
            && n.replied == w.replied
  {
    assert Step(w, Remove(sock)).socks[sock].relay.Removed?;
  }

  lemma ForwarderLosesNothing(w: World, e: Event)
    requires NoLoss(w) && Inv(w)
    ensures NoLoss(ForwarderStep(w, e))
  {
    var n := ForwarderStep(w, e);
    assert w.dialled !in w.socks;
    NoReplies(w.replied, w.dialled);
    forall o | o in n.socks ensures RepliesFit(n, o) {
      if o in w.socks { assert RepliesFit(w, o); }
    }
  }

  lemma {:induction false} EveryRunLosesNothing(es: seq<Event>)
    ensures NoLoss(Run(Init(), es))
  {
    if es != [] {
      var w, e := Run(Init(), es[..|es| - 1]), es[|es| - 1];
      EveryRunLosesNothing(es[..|es| - 1]);
      EveryRunKeepsInv(es[..|es| - 1]);
      match e
      case Read(sock, _, _) => if sock in w.socks { RelayLosesNothing(w, e, sock); }
      case SendReply(sock, _) => if sock in w.socks { RelayLosesNothing(w, e, sock); }
      case Remove(sock) => if sock in w.socks { RelayLosesNothing(w, e, sock); }
      case CloseSocket(sock) => if sock in w.socks { RelayLosesNothing(w, e, sock); }
      case _ => ForwarderLosesNothing(w, e);
    }
  }

  /** What a relay read from the backend went to its peer, all but the one it has in hand or could not send. */
  lemma RepliesAreSent(es: seq<Event>, sock: nat)
    requires sock in Run(Init(), es).socks
    ensures var w := Run(Init(), es);
            var s := w.socks[sock];
            && RepliesOf(w.replied, sock) == s.sent && s.sent <= s.said && |s.said| <= |s.sent| + 1
            && (s.relay.Reading? ==> s.sent == s.said)
  {
    EveryRunLosesNothing(es);
    assert RepliesFit(Run(Init(), es), sock);
  }

  // ---------------------------------------------------------------- the forwarder's loop

  /** One turn of the forwarder's loop that nothing interrupts; a step that is not enabled changes nothing. */
  function Turn(w: World, from: Peer, b: Bytes, dials: bool, writes: bool): World {
    var found := Step(Step(w, Packet(from, b)), LookUp);
    var kept := Step(Step(found, Dial(dials)), Store);
    Step(Step(kept, StartRelay), WriteBackend(writes))
  }

  /** What a turn comes to. */
  function Turned(w: World, from: Peer, b: Bytes, dials: bool, writes: bool): World {
    var heard := w.(heard := w.heard + [Heard(from, b)]);
    if from in w.table then heard.(carried := w.carried + Written(w.table[from], from, b, writes))
    else if !dials then heard
    else heard.(table := w.table[from := w.dialled], socks := w.socks[w.dialled := Socket(from, Reading, [], [])],
                dialled := w.dialled + 1, carried := w.carried + Written(w.dialled, from, b, writes))
  }

  function Written(sock: nat, from: Peer, b: Bytes, writes: bool): seq<Carried> {
    if writes then [Carried(sock, from, b)] else []
  }

  lemma TurnForKnownPeer(w: World, from: Peer, b: Bytes, dials: bool, writes: bool)
    requires w.fwd.Waiting? && from in w.table
    ensures Turn(w, from, b, dials, writes) == Turned(w, from, b, dials, writes)
  {
    assert w.carried + [] == w.carried;
  }

  lemma TurnForNewPeer(w: World, from: Peer, b: Bytes, dials: bool, writes: bool)
    requires w.fwd.Waiting? && from !in w.table && w.dialled !in w.socks
    ensures Turn(w, from, b, dials, writes) == Turned(w, from, b, dials, writes)
  {
    if dials {
      TurnDials(w, from, b);
      assert w.carried + [] == w.carried;
    }
  }

  lemma TurnDials(w: World, from: Peer, b: Bytes)
    requires w.fwd.Waiting? && from !in w.table && w.dialled !in w.socks
    ensures var kept := Step(Step(Step(Step(w, Packet(from, b)), LookUp), Dial(true)), Store);
            Step(kept, StartRelay) == w.(heard := w.heard + [Heard(from, b)], table := w.table[from := w.dialled],
                                         socks := w.socks[w.dialled := Socket(from, Reading, [], [])],
                                         dialled := w.dialled + 1, fwd := Writing(from, b, w.dialled))
  {
    var kept := Step(Step(Step(Step(w, Packet(from, b)), LookUp), Dial(true)), Store);
    assert kept.socks == w.socks[w.dialled := Socket(from, Stored, [], [])];
  }

  lemma TurnComesTo(w: World, from: Peer, b: Bytes, dials: bool, writes: bool)
    requires Inv(w) && w.fwd.Waiting?
    ensures Turn(w, from, b, dials, writes) == Turned(w, from, b, dials, writes)
  {
    assert w.dialled !in w.socks;
    if from in w.table { TurnForKnownPeer(w, from, b, dials, writes); } else { TurnForNewPeer(w, from, b, dials, writes); }
  }

  /** It reaches the peer's socket: the one in the table, or a new one that is there from now on. */
  lemma TurnReachesThePeersSocket(w: World, from: Peer, b: Bytes, dials: bool, writes: bool)
    requires Inv(w) && w.fwd.Waiting? && (from in w.table || dials)
    ensures var n := Turn(w, from, b, dials, writes);
            && Inv(n) && n.fwd.Waiting? && from in n.table
            && (from in w.table ==> n.table == w.table && n.socks == w.socks)
            && (from !in w.table ==> n.table == w.table[from := w.dialled] && n.socks[w.dialled].relay.Reading?)
            && n.carried == w.carried + if writes then [Carried(n.table[from], from, b)] else []
  {
    TurnKeepsInv(w, from, b, dials, writes);
    TurnComesTo(w, from, b, dials, writes);
  }

  lemma TurnKeepsInv(w: World, from: Peer, b: Bytes, dials: bool, writes: bool)
    requires Inv(w)
    ensures Inv(Turn(w, from, b, dials, writes))
  {
    var w1 := Step(w, Packet(from, b));
    StepKeepsInv(w, Packet(from, b));
    var w2 := Step(w1, LookUp);
    StepKeepsInv(w1, LookUp);
    var w3 := Step(w2, Dial(dials));
    StepKeepsInv(w2, Dial(dials));
    var w4 := Step(w3, Store);
    StepKeepsInv(w3, Store);
    var w5 := Step(w4, StartRelay);
    StepKeepsInv(w4, StartRelay);
    StepKeepsInv(w5, WriteBackend(writes));
  }

  /** The forwarder of one port and its table, with what came and went. */
  class UdpForwarder {
    var backends: map<Peer, nat>
    var socks: map<nat, Socket>
    var dialled: nat
    var heard: seq<Heard>
    var carried: seq<Carried>
    var replied: seq<Replied>
    var removed: seq<Removal>

    /** Between two packets. */
    function Current(): World
      reads this
    {
      World(backends, socks, dialled, Waiting, heard, carried, replied, removed)
    }

    constructor ()
      ensures Current() == Init() && Inv(Current())
    {
      backends, socks, dialled := map[], map[], 0;
      heard, carried, replied, removed := [], [], [], [];
    }

    method LookUpBackend(key: Peer) returns (backend: nat, ok: bool)
      ensures ok == (key in backends) && (ok ==> backend == backends[key])
    {
      ok := key in backends;
      backend := if ok then backends[key] else 0;
    }

    method StoreBackend(key: Peer, backend: nat)
      modifies this`backends
      ensures backends == old(backends)[key := backend]
    {
      backends := backends[key := backend];
    }

    method DeleteBackend(key: Peer)
      modifies this`backends
      ensures backends == Without(old(backends), key)
    {
      backends := map k | k in backends && k != key :: backends[k];
    }

    /** One turn of forwardSunshineUDPPort's loop. */
    method Forward(from: Peer, b: Bytes, dials: bool, writes: bool)
      requires Inv(Current())
      modifies this
      ensures Current() == Turn(old(Current()), from, b, dials, writes) && Inv(Current())
    {
      TurnKeepsInv(Current(), from, b, dials, writes);
      TurnComesTo(Current(), from, b, dials, writes);
      heard := heard + [Heard(from, b)];
      var backend, ok := LookUpBackend(from);
      if !ok {
        if !dials { return; }
        backend := dialled;
        dialled := dialled + 1;
        StoreBackend(from, backend);
        socks := socks[backend := Socket(from, Reading, [], [])];
      }
      carried := carried + Written(backend, from, b, writes);
    }

    /** The deferred end of relaySunshineUDPReplies. */
    method TearDown(sock: nat)
      requires Inv(Current()) && sock in socks && socks[sock].relay.Leaving?
      modifies this
      ensures Current() == Step(Step(old(Current()), Remove(sock)), CloseSocket(sock)) && Inv(Current())
      ensures old(socks)[sock].peer !in backends
      ensures forall p | p in old(backends) && p != old(socks)[sock].peer :: p in backends && backends[p] == old(backends)[p]
    {
      StepKeepsInv(Current(), Remove(sock));
      StepKeepsInv(Step(Current(), Remove(sock)), CloseSocket(sock));
      var peer := socks[sock].peer;
      removed := removed + (if peer in backends then [Removal(sock, backends[peer])] else []);
      DeleteBackend(peer);
      socks := socks[sock := socks[sock].(relay := Gone)];
    }
  }
}
