/** The log writer that never blocks its callers (client/cmd/async_log_writer.go): callers queue copies of
    their lines in a bounded channel, one worker writes them out, `Close` stops it. Every channel operation,
    buffer write and inner write is a step of its own, taken in any order. */
module AsyncLog {

  const QUEUE_SIZE := 8192

  type Bytes = seq<bv8>

  /** What reaches the inner writer: a line from the worker, or the closing count of dropped lines. */
  datatype Out = Line(b: Bytes) | DroppedNotice(n: nat)

  /** The writer: `lines` is the channel, `stop` and `done` say whether those channels are closed. */
  datatype Log = Log(inner: seq<Out>, lines: seq<Bytes>, stop: bool, done: bool, dropped: nat)

  function NewLog(): Log { Log([], [], false, false, 0) }

  /** The non-blocking send of a copied line. */
  function Sent(w: Log, line: Bytes): Log {
    if |w.lines| < QUEUE_SIZE then w.(lines := w.lines + [line]) else w.(dropped := w.dropped + 1)
  }

  function Received(w: Log): Log
    requires w.lines != []
  {
    w.(lines := w.lines[1..])
  }

  function Reported(w: Log): Log {
    if w.dropped > 0 then w.(inner := w.inner + [DroppedNotice(w.dropped)]) else w
  }

  function AsLines(lines: seq<Bytes>): seq<Out> {
    seq(|lines|, i requires 0 <= i < |lines| => Line(lines[i]))
  }

  /** The writer's own methods, each run without another in between. */
  class AsyncLogWriter {
    var inner: seq<Out>
    var lines: seq<Bytes>
    var stop: bool
    var done: bool
    var dropped: nat

    function Current(): Log
      reads this
    {
      Log(inner, lines, stop, done, dropped)
    }

    constructor ()
      ensures Current() == NewLog()
    {
      inner, lines, stop, done, dropped := [], [], false, false, 0;
    }

    /** Queues a copy of the caller's buffer, never the buffer, and claims all of it was written. */
    method Write(p: array<bv8>) returns (n: nat)
      modifies this
      ensures Current() == Sent(old(Current()), old(p[..])) && n == p.Length
    {
      var cp := new bv8[p.Length];
      var k := 0;
      while k < p.Length
        invariant 0 <= k <= p.Length && cp[..k] == p[..k]
        modifies cp
      {
        cp[k] := p[k];
        k := k + 1;
      }
      assert cp[..] == p[..] == old(p[..]);
      if |lines| < QUEUE_SIZE {
        lines := lines + [cp[..]];
      } else {
        dropped := dropped + 1;
      }
      n := p.Length;
    }

    /** The worker's last loop: everything queued goes out in order, then it is done. */
    method Drain()
      modifies this
      ensures Current() == old(Current()).(inner := old(inner) + AsLines(old(lines)), lines := [], done := true)
    {
      var k := 0;
      while lines != []
        invariant 0 <= k <= |old(lines)| && lines == old(lines)[k..]
        invariant inner == old(inner) + AsLines(old(lines)[..k])
        invariant stop == old(stop) && dropped == old(dropped)
        decreases |lines|
      {
        inner := inner + [Line(lines[0])];
        lines := lines[1..];
        assert AsLines(old(lines)[..k + 1]) == AsLines(old(lines)[..k]) + [Line(old(lines)[k])];
        k := k + 1;
      }
      assert old(lines)[..k] == old(lines);
      done := true;
    }

    /** The rest of `Close`, once the worker is done or the wait timed out. */
    method Report()
      modifies this
      ensures Current() == Reported(old(Current()))
    {
      if dropped > 0 {
        inner := inner + [DroppedNotice(dropped)];
      }
    }
  }

  // ---------------------------------------------------------------- all interleavings

  /** A caller inside `Write`: `asked` is what its buffer held when it called, `copy` what it copied. */
  datatype Writer = Calling(asked: Bytes) | Copied(asked: Bytes, copy: Bytes) | Outside

  datatype Worker = Selecting | Writing(b: Bytes) | Draining | DrainWriting(b: Bytes) | Exited

  datatype Closer = NotClosing | Waiting | Reporting | Returned

  /** Besides the writer and the threads: the callers' buffers and the history of the accepted lines, with
      how many there were when the stop signal was given. */
  datatype World = World(
    log: Log, worker: Worker, writers: map<nat, Writer>, buffers: map<nat, Bytes>, closers: map<nat, Closer>,
    asked: nat, accepted: seq<Bytes>, atStop: nat, written: seq<Bytes>)

  function Init(): World {
    World(NewLog(), Selecting, map[], map[], map[], 0, [], 0, [])
  }

  datatype Event =
    | Scribble(id: nat, b: Bytes)   // a caller changes its own buffer, outside of its calls
    | Call(id: nat)
    | Copy(id: nat)
    | Send(id: nat)
    | Take
    | SeeStop
    | Put
    | DrainTake
    | DrainEmpty
    | Close(id: nat)
    | SeeDone(id: nat)
    | TimeOut(id: nat)
    | Report(id: nat)

  function WriterAt(w: World, id: nat): Writer { if id in w.writers then w.writers[id] else Outside }

  function CloserAt(w: World, id: nat): Closer { if id in w.closers then w.closers[id] else NotClosing }

  function BufferAt(w: World, id: nat): Bytes { if id in w.buffers then w.buffers[id] else [] }

  /** The send of a caller's copy. */
  function SendStep(w: World, id: nat, wr: Writer): World
    requires wr.Copied?
  {
    var taken := |w.log.lines| < QUEUE_SIZE;
    w.(log := Sent(w.log, wr.copy), writers := w.writers[id := Outside],
       accepted := if taken then w.accepted + [wr.asked] else w.accepted)
  }

  function WorkerStep(w: World, e: Event): World {
    match (e, w.worker)
    case (Take, Selecting) => if w.log.lines == [] then w else w.(log := Received(w.log), worker := Writing(w.log.lines[0]))
    case (SeeStop, Selecting) => if w.log.stop then w.(worker := Draining) else w
    case (Put, Writing(b)) =>
      w.(log := w.log.(inner := w.log.inner + [Line(b)]), worker := Selecting, written := w.written + [b])
    case (DrainTake, Draining) => if w.log.lines == [] then w else w.(log := Received(w.log), worker := DrainWriting(w.log.lines[0]))
    case (Put, DrainWriting(b)) =>
      w.(log := w.log.(inner := w.log.inner + [Line(b)]), worker := Draining, written := w.written + [b])
    case (DrainEmpty, Draining) => if w.log.lines == [] then w.(log := w.log.(done := true), worker := Exited) else w
    case _ => w
  }

  /** One step; a step that is not enabled changes nothing. */
  function Step(w: World, e: Event): World {
    match e
    case Scribble(id, b) => if WriterAt(w, id).Outside? then w.(buffers := w.buffers[id := b]) else w
    case Call(id) =>
      if WriterAt(w, id).Outside?
      then w.(writers := w.writers[id := Calling(BufferAt(w, id))], asked := w.asked + 1) else w
    case Copy(id) =>
      var wr := WriterAt(w, id);
      if wr.Calling? then w.(writers := w.writers[id := Copied(wr.asked, BufferAt(w, id))]) else w
    case Send(id) => if WriterAt(w, id).Copied? then SendStep(w, id, WriterAt(w, id)) else w
    case Close(id) =>
      if CloserAt(w, id).NotClosing? || CloserAt(w, id).Returned?
      then w.(log := w.log.(stop := true), closers := w.closers[id := Waiting],
              atStop := if w.log.stop then w.atStop else |w.accepted|)
      else w
    case SeeDone(id) => if CloserAt(w, id).Waiting? && w.log.done then w.(closers := w.closers[id := Reporting]) else w
    case TimeOut(id) => if CloserAt(w, id).Waiting? then w.(closers := w.closers[id := Reporting]) else w
    case Report(id) =>
      if CloserAt(w, id).Reporting? then w.(log := Reported(w.log), closers := w.closers[id := Returned]) else w
    case _ => WorkerStep(w, e)
  }

  function Run(w: World, es: seq<Event>): World {
    if es == [] then w else Step(Run(w, es[..|es| - 1]), es[|es| - 1])
  }

  // ---------------------------------------------------------------- conservation

  function InFlight(k: Worker): seq<Bytes> {
    match k
    case Writing(b) => [b]
    case DrainWriting(b) => [b]
    case _ => []
  }

  /** The lines among what reached the inner writer. */
  function Lines(out: seq<Out>): seq<Bytes> {
    if out == [] then []
    else Lines(out[..|out| - 1]) + (if out[|out| - 1].Line? then [out[|out| - 1].b] else [])
  }

  /** Calls that have not sent their line yet. */
  function Pending(writers: map<nat, Writer>): set<nat> {
    set id | id in writers && !writers[id].Outside?
  }

  /** A call works on what its caller's buffer held when it called. */
  predicate OwnCopy(w: World, id: nat, wr: Writer) {
    && (wr.Calling? ==> BufferAt(w, id) == wr.asked)
    && (wr.Copied? ==> wr.copy == wr.asked)
  }

  ghost predicate Copies(w: World) {
    forall id | id in w.writers :: OwnCopy(w, id, w.writers[id])
  }

  predicate InOrder(w: World) {
    w.written + InFlight(w.worker) + w.log.lines == w.accepted && Lines(w.log.inner) == w.written
  }

  predicate Counted(w: World) {
    |w.log.lines| <= QUEUE_SIZE && w.asked == |w.accepted| + w.log.dropped + |Pending(w.writers)|
  }

  predicate Stopping(w: World) {
    && (w.log.done <==> w.worker.Exited?)
    && (w.log.done ==> w.atStop <= |w.written|)
    && (w.log.stop ==> w.atStop <= |w.accepted|)
    && (w.worker.Draining? || w.worker.DrainWriting? || w.worker.Exited? ==> w.log.stop)
  }

  ghost predicate Inv(w: World) {
    Copies(w) && InOrder(w) && Counted(w) && Stopping(w)
  }

  lemma CopiesStep(w: World, e: Event)
    requires Copies(w)
    ensures Copies(Step(w, e))
  {
    if e.Scribble? || e.Call? || e.Copy? || e.Send? {
      if e.Send? {} else if e.Copy? {} else {}
    } else if e.Close? || e.SeeDone? || e.TimeOut? || e.Report? {
    } else {
      assert Step(w, e).writers == w.writers && Step(w, e).buffers == w.buffers;
    }
  }

  lemma LinesOfAppend(out: seq<Out>, o: Out)
    ensures Lines(out + [o]) == Lines(out) + (if o.Line? then [o.b] else [])
  {
    assert (out + [o])[..|out|] == out;
  }

  /** The first queued line is in hand, and nothing else has changed. */
  predicate TakenUp(w: World, n: World) {
    && w.log.lines != [] && InFlight(w.worker) == [] && InFlight(n.worker) == [w.log.lines[0]]
    && n.log.lines == w.log.lines[1..] && n.log.inner == w.log.inner
    && n.written == w.written && n.accepted == w.accepted
  }

  lemma TakenInOrder(w: World, n: World)
    requires InOrder(w) && TakenUp(w, n)
    ensures InOrder(n)
  {
    var lines := w.log.lines;
    assert w.written + [lines[0]] + lines[1..] == w.written + [] + lines;
  }

  predicate Takes(w: World, e: Event) {
    w.log.lines != [] && ((e.Take? && w.worker.Selecting?) || (e.DrainTake? && w.worker.Draining?))
  }

  lemma TakeTakesUp(w: World, e: Event)
    requires Takes(w, e)
    ensures TakenUp(w, WorkerStep(w, e))
  {
  }

  lemma TakeInOrder(w: World, e: Event)
    requires InOrder(w) && (e.Take? || e.DrainTake?)
    ensures InOrder(WorkerStep(w, e))
  {
    if Takes(w, e) {
      TakeTakesUp(w, e);
      TakenInOrder(w, WorkerStep(w, e));
    } else {
      assert WorkerStep(w, e) == w;
    }
  }

  /** The line in hand has gone to the inner writer, and nothing else has changed. */
  predicate HandedOn(w: World, n: World, b: Bytes) {
    && InFlight(w.worker) == [b] && InFlight(n.worker) == []
    && n.log.inner == w.log.inner + [Line(b)] && n.written == w.written + [b]
    && n.log.lines == w.log.lines && n.accepted == w.accepted
  }

  lemma HandedInOrder(w: World, n: World, b: Bytes)
    requires InOrder(w) && HandedOn(w, n, b)
    ensures InOrder(n)
  {
    LinesOfAppend(w.log.inner, Line(b));
    assert n.written + [] + n.log.lines == w.written + [b] + w.log.lines;
  }

  lemma PutHands(w: World)
    requires w.worker.Writing? || w.worker.DrainWriting?
    ensures HandedOn(w, WorkerStep(w, Put), w.worker.b)
  {
  }

  lemma PutInOrder(w: World)
    requires InOrder(w)
    ensures InOrder(WorkerStep(w, Put))
  {
    if w.worker.Writing? || w.worker.DrainWriting? {
      PutHands(w);
      HandedInOrder(w, WorkerStep(w, Put), w.worker.b);
    } else {
      assert WorkerStep(w, Put) == w;
    }
  }

  /** The worker's five moves keep the order: a line leaves the queue for the worker's hands, or those for
      the inner writer. */
  lemma WorkerInOrder(w: World, e: Event)
    requires InOrder(w)
    ensures InOrder(WorkerStep(w, e))
  {
    if e.Take? || e.DrainTake? {
      TakeInOrder(w, e);
    } else if e.Put? {
      PutInOrder(w);
    } else {
      var n := WorkerStep(w, e);
      assert n.written == w.written && InFlight(n.worker) == InFlight(w.worker) && n.log.lines == w.log.lines;
    }
  }

  lemma SendInOrder(w: World, id: nat)
    requires InOrder(w) && Copies(w) && WriterAt(w, id).Copied?
    ensures InOrder(SendStep(w, id, WriterAt(w, id)))
  {
    if |w.log.lines| < QUEUE_SIZE {
      var line := w.writers[id].copy;
      assert OwnCopy(w, id, w.writers[id]);
      assert w.written + InFlight(w.worker) + (w.log.lines + [line]) == w.accepted + [line];
    }
  }

  lemma ReportInOrder(w: World, id: nat)
    requires InOrder(w)
    ensures InOrder(Step(w, Report(id)))
  {
    LinesOfAppend(w.log.inner, DroppedNotice(w.log.dropped));
  }

  /** The steps that touch neither the queue nor what is written. */
  lemma AsideInOrder(w: World, e: Event)
    requires InOrder(w) && (e.Scribble? || e.Call? || e.Copy? || e.Close? || e.SeeDone? || e.TimeOut?)
    ensures InOrder(Step(w, e))
  {
    if e.Scribble? {} else if e.Call? {} else if e.Copy? {} else if e.Close? {} else if e.SeeDone? {} else {}
  }

  lemma OrderStep(w: World, e: Event)
    requires InOrder(w) && Copies(w)
    ensures InOrder(Step(w, e))
  {
    if e.Send? {
      if WriterAt(w, e.id).Copied? { SendInOrder(w, e.id); }
    } else if e.Report? {
      ReportInOrder(w, e.id);
    } else if e.Scribble? || e.Call? || e.Copy? || e.Close? || e.SeeDone? || e.TimeOut? {
      AsideInOrder(w, e);
    } else {
      WorkerInOrder(w, e);
    }
  }

  lemma PendingAfter(writers: map<nat, Writer>, id: nat, wr: Writer)
    ensures var was := id in Pending(writers);
            |Pending(writers[id := wr])| == |Pending(writers)|
              + (if wr.Outside? && was then -1 else if !wr.Outside? && !was then 1 else 0)
  {
    var n, p := Pending(writers[id := wr]), Pending(writers);
    if wr.Outside? {
      assert n == p - {id};
      if id in p { assert |p - {id}| == |p| - 1; } else { assert p - {id} == p; }
    } else {
      assert n == p + {id};
      if id in p { assert p + {id} == p; } else { assert |p + {id}| == |p| + 1; }
    }
  }

  lemma CountStep(w: World, e: Event)
    requires Counted(w)
    ensures Counted(Step(w, e))
  {
    match e
    case Call(id) => PendingAfter(w.writers, id, Calling(BufferAt(w, id)));
    case Copy(id) => if WriterAt(w, id).Calling? { PendingAfter(w.writers, id, Copied(WriterAt(w, id).asked, BufferAt(w, id))); }
    case Send(id) => PendingAfter(w.writers, id, Outside);
    case Scribble(_, _) =>
    case Close(_) =>
    case SeeDone(_) =>
    case TimeOut(_) =>
    case Report(_) =>
    case _ => WorkerCounts(w, e);
  }

  lemma WorkerCounts(w: World, e: Event)
    ensures var n := WorkerStep(w, e);
            && n.writers == w.writers && n.asked == w.asked && n.accepted == w.accepted
            && n.log.dropped == w.log.dropped && |n.log.lines| <= |w.log.lines|
  {
  }

  lemma StoppingStep(w: World, e: Event)
    requires Stopping(w) && InOrder(w)
    ensures Stopping(Step(w, e))
  {
    if e.Scribble? || e.Call? || e.Copy? || e.Send? {
    } else if e.Close? || e.SeeDone? || e.TimeOut? || e.Report? {
    } else if e.DrainEmpty? && w.worker.Draining? && w.log.lines == [] {
      assert w.accepted == w.written;
    } else {
    }
  }

  lemma StepKeepsInv(w: World, e: Event)
    requires Inv(w)
    ensures Inv(Step(w, e))
  {
    CopiesStep(w, e);
    OrderStep(w, e);
    CountStep(w, e);
    StoppingStep(w, e);
  }

  lemma {:induction false} EveryRunKeepsInv(es: seq<Event>)
    ensures Inv(Run(Init(), es))
  {
    if es != [] {
      EveryRunKeepsInv(es[..|es| - 1]);
      StepKeepsInv(Run(Init(), es[..|es| - 1]), es[|es| - 1]);
    } else {
      assert Pending(Init().writers) == {};
    }
  }

  /** In every reachable state the lines written, the one being written and those queued are the accepted
      lines, in order and with their contents at call time; the queue stays within its bound; and every call
      was accepted, dropped or has not sent yet. */
  lemma LinesAreConserved(es: seq<Event>)
    ensures var w := Run(Init(), es);
            && Lines(w.log.inner) + InFlight(w.worker) + w.log.lines == w.accepted
            && |w.log.lines| <= QUEUE_SIZE
            && w.asked == |w.accepted| + w.log.dropped + |Pending(w.writers)|
  {
    EveryRunKeepsInv(es);
  }

  /** A Close that gets to report tells how many lines were dropped: the calls that were neither accepted nor are under way. */
  lemma ReportTellsDropped(es: seq<Event>, id: nat)
    requires CloserAt(Run(Init(), es), id).Reporting?
    ensures var w := Run(Init(), es);
            var lost := w.asked - |w.accepted| - |Pending(w.writers)|;
            var n := Step(w, Report(id));
            && lost >= 0 && CloserAt(n, id).Returned? && n.log.lines == w.log.lines
            && n.log.inner == w.log.inner + if lost > 0 then [DroppedNotice(lost)] else []
  {
    EveryRunKeepsInv(es);
    ReportTells(Run(Init(), es), id);
  }

  lemma ReportTells(w: World, id: nat)
    requires Counted(w) && CloserAt(w, id).Reporting?
    ensures var n := Step(w, Report(id));
            && w.log.dropped == w.asked - |w.accepted| - |Pending(w.writers)|
            && CloserAt(n, id).Returned? && n.log.lines == w.log.lines
            && n.log.inner == w.log.inner + if w.log.dropped > 0 then [DroppedNotice(w.log.dropped)] else []
  {
  }

  ghost predicate TrueNotices(w: World) {
    forall k | 0 <= k < |w.log.inner| && w.log.inner[k].DroppedNotice? :: 0 < w.log.inner[k].n <= w.log.dropped
  }

  lemma StepKeepsNotices(w: World, e: Event)
    requires TrueNotices(w)
    ensures TrueNotices(Step(w, e))
  {
    match e
    case Scribble(_, _) =>
    case Call(_) =>
    case Copy(_) =>
    case Send(_) =>
    case Close(_) =>
    case SeeDone(_) =>
    case TimeOut(_) =>
    case Report(_) =>
    case Take =>
    case SeeStop =>
    case Put =>
    case DrainTake =>
    case DrainEmpty =>
  }

  /** And no notice ever tells of more lines than have been dropped. */
  lemma {:induction false} NoticesAreTrue(es: seq<Event>)
    ensures TrueNotices(Run(Init(), es))
  {
    if es != [] {
      NoticesAreTrue(es[..|es| - 1]);
      StepKeepsNotices(Run(Init(), es[..|es| - 1]), es[|es| - 1]);
    }
  }

  // ---------------------------------------------------------------- what threads get done

  /** A call that nothing interrupts queues what the caller's buffer holds, or drops it when 8192 lines are queued; the
      caller may then change its buffer, and not before. */
  lemma CallRuns(w: World, id: nat, later: Bytes)
    requires WriterAt(w, id).Outside?
    ensures var line := BufferAt(w, id);
            var calling := Step(w, Call(id));
            var n := Step(Step(calling, Copy(id)), Send(id));
            && Step(calling, Scribble(id, later)) == calling
            && WriterAt(n, id).Outside? && BufferAt(Step(n, Scribble(id, later)), id) == later
            && (if |w.log.lines| < 8192
                then n.log == w.log.(lines := w.log.lines + [line]) && n.accepted == w.accepted + [line]
                else n.log == w.log.(dropped := w.log.dropped + 1) && n.accepted == w.accepted)
  {
    var line := BufferAt(w, id);
    var calling := Step(w, Call(id));
    assert WriterAt(calling, id) == Calling(line) && BufferAt(calling, id) == line;
    var copied := Step(calling, Copy(id));
    assert WriterAt(copied, id) == Copied(line, line) && copied.log == w.log;
  }

  /** A free worker writes the line that has been queued longest. */
  lemma WorkerTurns(w: World)
    requires w.worker.Selecting? && w.log.lines != []
    ensures var n := Step(Step(w, Take), Put);
            && n.worker.Selecting? && n.log.lines == w.log.lines[1..] && n.log.inner == w.log.inner + [Line(w.log.lines[0])]
  {
    assert Step(w, Take).worker == Writing(w.log.lines[0]);
  }

  function Drains(n: nat): seq<Event> {
    if n == 0 then [] else Drains(n - 1) + [DrainTake, Put]
  }

  lemma DrainsOne(w: World)
    requires w.worker.Draining? && w.log.lines != []
    ensures var n := Step(Step(w, DrainTake), Put);
            && n.worker.Draining?
            && n.log == w.log.(inner := w.log.inner + [Line(w.log.lines[0])], lines := w.log.lines[1..])
  {
    assert Step(w, DrainTake).worker == DrainWriting(w.log.lines[0]);
  }

  lemma RunOfTwo(w: World, es: seq<Event>, a: Event, b: Event)
    ensures Run(w, es + [a, b]) == Step(Step(Run(w, es), a), b)
  {
    var all := es + [a, b];
    assert all[..|all| - 1] == es + [a] && (es + [a])[..|es|] == es;
  }

  lemma AsLinesOfNext(lines: seq<Bytes>, n: nat)
    requires n < |lines|
    ensures AsLines(lines[..n + 1]) == AsLines(lines[..n]) + [Line(lines[n])]
  {
  }

  lemma {:induction false} DrainsLines(w: World, n: nat)
    requires w.worker.Draining? && n <= |w.log.lines|
    ensures var m := Run(w, Drains(n));
            && m.worker.Draining? && m.log == w.log.(inner := w.log.inner + AsLines(w.log.lines[..n]), lines := w.log.lines[n..])
  {
    if n > 0 {
      DrainsLines(w, n - 1);
      var m := Run(w, Drains(n - 1));
      RunOfTwo(w, Drains(n - 1), DrainTake, Put);
      DrainsOne(m);
      AsLinesOfNext(w.log.lines, n - 1);
    } else {
      assert AsLines(w.log.lines[..0]) == [] && w.log.inner + [] == w.log.inner;
    }
  }

  /** Told to stop, a free worker writes everything queued, in order, and is done. */
  lemma StoppedWorkerFlushes(w: World)
    requires w.worker.Selecting? && w.log.stop
    ensures var n := Step(Run(Step(w, SeeStop), Drains(|w.log.lines|)), DrainEmpty);
            && n.worker.Exited? && n.log == w.log.(inner := w.log.inner + AsLines(w.log.lines), lines := [], done := true)
  {
    DrainsLines(Step(w, SeeStop), |w.log.lines|);
    assert w.log.lines[..|w.log.lines|] == w.log.lines;
  }

  /** Close gives the stop signal, waits for the worker to be done, or for its time to be over, reports and returns;
      nobody comes to its later steps without the ones before. */
  lemma CloseRuns(w: World, id: nat, timedOut: bool)
    requires CloserAt(w, id).NotClosing? || CloserAt(w, id).Returned?
    ensures var closing := Step(w, Close(id));
            var waited := Step(closing, if timedOut then TimeOut(id) else SeeDone(id));
            && closing.log == w.log.(stop := true) && CloserAt(closing, id).Waiting?
            && Step(w, SeeDone(id)) == Step(w, TimeOut(id)) == Step(w, Report(id)) == w
            && Step(closing, Close(id)) == closing && Step(closing, Report(id)) == closing
            && Step(waited, Close(id)) == waited
            && (timedOut || w.log.done ==> CloserAt(waited, id).Reporting? && CloserAt(Step(waited, Report(id)), id).Returned?)
            && (!timedOut && !w.log.done ==> waited == closing)
  {
  }

  /** Once the worker is done, every line accepted before the stop signal has been written, first and in order. */
  lemma DoneMeansFlushed(es: seq<Event>)
    requires Run(Init(), es).log.done
    ensures var w := Run(Init(), es);
            && w.log.stop && w.atStop <= |w.accepted| && w.atStop <= |Lines(w.log.inner)|
            && Lines(w.log.inner)[..w.atStop] == w.accepted[..w.atStop]
  {
    EveryRunKeepsInv(es);
    var w := Run(Init(), es);
    assert w.accepted == w.written + w.log.lines;
  }

  lemma FinalStep(w: World, e: Event)
    requires w.log.done && w.worker.Exited?
    ensures var n := Step(w, e); n.log.done && n.worker.Exited? && Lines(n.log.inner) == Lines(w.log.inner)
  {
    if e.Report? {
      LinesOfAppend(w.log.inner, DroppedNotice(w.log.dropped));
    } else if e.Send? {
    } else {
    }
  }

  /** Nothing queued after the worker has gone is ever written, and what was written stays. */
  lemma {:induction false} WrittenIsFinal(w: World, es: seq<Event>)
    requires w.log.done && w.worker.Exited?
    ensures var n := Run(w, es); n.log.done && n.worker.Exited? && Lines(n.log.inner) == Lines(w.log.inner)
  {
    if es != [] {
      WrittenIsFinal(w, es[..|es| - 1]);
      FinalStep(Run(w, es[..|es| - 1]), es[|es| - 1]);
    }
  }

  // ---------------------------------------------------------------- closing again

  predicate IsClosers(e: Event) { e.Close? || e.SeeDone? || e.TimeOut? || e.Report? }

  /** The same run without what the closers do. */
  function WithoutClosers(es: seq<Event>): seq<Event> {
    if es == [] then []
    else WithoutClosers(es[..|es| - 1]) + (if IsClosers(es[|es| - 1]) then [] else [es[|es| - 1]])
  }

  /** The world with other closers and another log behind it. */
  function With(w: World, closers: map<nat, Closer>, inner: seq<Out>): World {
    w.(closers := closers, log := w.log.(inner := inner))
  }

  /** The same but for the closers and their notices of dropped lines. */
  predicate SameButClosers(w: World, n: World) {
    Lines(n.log.inner) == Lines(w.log.inner) && n == With(w, n.closers, n.log.inner)
  }

  lemma WithWriters(w: World, closers: map<nat, Closer>, inner: seq<Out>, e: Event)
    requires e.Scribble? || e.Call? || e.Copy? || e.Send?
    ensures Step(With(w, closers, inner), e) == With(Step(w, e), closers, inner)
    ensures Step(w, e).log.inner == w.log.inner
  {
    match e
    case Scribble(_, _) =>
    case Call(_) =>
    case Copy(_) =>
    case Send(_) =>
  }

  lemma SameForWriters(w: World, n: World, e: Event)
    requires SameButClosers(w, n) && (e.Scribble? || e.Call? || e.Copy? || e.Send?)
    ensures SameButClosers(Step(w, e), Step(n, e))
  {
    WithWriters(w, n.closers, n.log.inner, e);
  }

  lemma PutMoves(w: World)
    requires w.worker.Writing? || w.worker.DrainWriting?
    ensures var b := w.worker.b;
            WorkerStep(w, Put) == w.(log := w.log.(inner := w.log.inner + [Line(b)]), written := w.written + [b],
                                     worker := if w.worker.Writing? then Selecting else Draining)
  {
  }

  lemma SameForPut(w: World, n: World)
    requires SameButClosers(w, n)
    ensures SameButClosers(WorkerStep(w, Put), WorkerStep(n, Put))
  {
    if w.worker.Writing? || w.worker.DrainWriting? {
      PutMoves(w);
      PutMoves(n);
      LinesOfAppend(w.log.inner, Line(w.worker.b));
      LinesOfAppend(n.log.inner, Line(w.worker.b));
    } else {
      assert WorkerStep(w, Put) == w && WorkerStep(n, Put) == n;
    }
  }

  lemma SameForWorker(w: World, n: World, e: Event)
    requires SameButClosers(w, n) && (e.Take? || e.SeeStop? || e.DrainTake? || e.DrainEmpty?)
    ensures SameButClosers(WorkerStep(w, e), WorkerStep(n, e))
  {
    match e
    case Take =>
    case SeeStop =>
    case DrainTake =>
    case DrainEmpty =>
  }

  lemma SameStep(w: World, n: World, e: Event)
    requires SameButClosers(w, n) && !IsClosers(e)
    ensures SameButClosers(Step(w, e), Step(n, e))
  {
    if e.Scribble? || e.Call? || e.Copy? || e.Send? {
      SameForWriters(w, n, e);
    } else if e.Put? {
      SameForPut(w, n);
    } else {
      SameForWorker(w, n, e);
    }
  }

  lemma CloserStep(w: World, e: Event)
    requires IsClosers(e) && w.log.stop
    ensures SameButClosers(w, Step(w, e))
  {
    if e.Report? { LinesOfAppend(w.log.inner, DroppedNotice(w.log.dropped)); }
    else if e.Close? {}
    else if e.SeeDone? {}
    else {}
  }

  lemma StopStays(w: World, e: Event)
    requires w.log.stop
    ensures Step(w, e).log.stop
  {
    if e.Send? {} else if e.Close? {} else if e.Report? {} else {}
  }

  /** Once the stop signal is given, closing again, and whatever closers do then, changes nothing of any run: the lines
      accepted, dropped, queued and written, the worker and its signals are those of the run without it. */
  lemma {:induction false} CloseAgainChangesNothing(w: World, es: seq<Event>)
    requires w.log.stop
    ensures Run(w, es).log.stop && SameButClosers(Run(w, WithoutClosers(es)), Run(w, es))
  {
    if es != [] {
      var q, e := es[..|es| - 1], es[|es| - 1];
      CloseAgainChangesNothing(w, q);
      StopStays(Run(w, q), e);
      if IsClosers(e) {
        CloserStep(Run(w, q), e);
        assert WithoutClosers(es) == WithoutClosers(q);
      } else {
        SameStep(Run(w, WithoutClosers(q)), Run(w, q), e);
        assert (WithoutClosers(q) + [e])[..|WithoutClosers(q)|] == WithoutClosers(q);
      }
    }
  }
}
