/** What every interleaving of the buffered writer keeps. */
module WriterSafety {
  import opened Prelude
  import opened WriterProtocol

  function TotalBytes(buffer: seq<string>): nat {
    if buffer == [] then 0 else TotalBytes(buffer[..|buffer| - 1]) + |buffer[|buffer| - 1]|
  }

  /** The contents captured by drains and not yet written. */
  function InFlight(drains: seq<Drain>): seq<string> {
    if drains == [] then []
    else Batch(drains[0]) + InFlight(drains[1..])
  }

  /** What a flush would write: the pending overflow, then the buffer. */
  function Queue(s: State): seq<string> {
    Pend(s) + s.buffer
  }

  /** How often x occurs. */
  ghost function Times(contents: seq<string>, x: string): nat {
    multiset(contents)[x]
  }

  /** How often a content is on its way to writeFn, or already there. */
  ghost function Held(s: State, x: string): nat {
    Times(Flatten(s.written), x) + Times(InFlight(s.drains), x) + Times(Queue(s), x)
  }

  /** Nothing accepted is lost or duplicated. */
  ghost predicate Conserved(s: State) {
    forall x :: Times(s.accepted, x) == Held(s, x)
  }

  /** What is left to do has someone to do it. */
  ghost predicate Attended(s: State) {
    && (s.pending.Some? ==> s.drains != [])
    && (s.buffer != [] ==> s.timer.Some?)
    && (s.timer.Some? ==> s.timer.value in s.callbacks)
    && (forall id :: id in s.callbacks ==> id < s.nextTimer)
  }

  ghost predicate WithinThresholds(cfg: Config, s: State) {
    && s.bufferBytes == TotalBytes(s.buffer)
    && |s.buffer| < cfg.maxBufferSize
    && s.bufferBytes < cfg.maxBufferBytes
  }

  ghost predicate Inv(cfg: Config, s: State) {
    && Conserved(s)
    && Attended(s)
    && WithinThresholds(cfg, s)
    && (s.closed ==> s.buffer == [] && Pend(s) == [] && s.timer.None?)
    && (forall i :: 0 <= i < |s.drains| && s.drains[i].Writing? ==> s.drains[i].batch != [])
    && (s.disposed ==> s.closed && s.drains == [])
  }

  function Batch(d: Drain): seq<string> {
    if d.Writing? then d.batch else []
  }

  lemma CountConcat(a: seq<string>, b: seq<string>, x: string)
    ensures Times(a + b, x) == Times(a, x) + Times(b, x)
  { }

  lemma {:induction false} InFlightUpdate(drains: seq<Drain>, i: nat, d: Drain, x: string)
    requires i < |drains|
    ensures Times(InFlight(drains[i := d]), x) + Times(Batch(drains[i]), x)
         == Times(InFlight(drains), x) + Times(Batch(d), x)
  {
    hide Times;
    var put := drains[i := d];
    CountConcat(Batch(drains[0]), InFlight(drains[1..]), x);
    CountConcat(Batch(put[0]), InFlight(put[1..]), x);
    if i == 0 {
      assert put[1..] == drains[1..];
    } else {
      InFlightUpdate(drains[1..], i - 1, d, x);
      assert put[1..] == drains[1..][i - 1 := d];
    }
  }

  lemma {:induction false} InFlightExit(drains: seq<Drain>, i: nat)
    requires i < |drains| && drains[i].AtTop?
    ensures InFlight(drains[..i] + drains[i + 1..]) == InFlight(drains)
  {
    var cut := drains[..i] + drains[i + 1..];
    if i == 0 {
      assert cut == drains[1..];
    } else {
      InFlightExit(drains[1..], i - 1);
      assert cut[1..] == drains[1..][..i - 1] + drains[1..][i..];
    }
  }

  lemma {:induction false} InFlightSnocTop(drains: seq<Drain>)
    ensures InFlight(drains + [AtTop]) == InFlight(drains)
  {
    if drains != [] {
      assert (drains + [AtTop])[1..] == drains[1..] + [AtTop];
      InFlightSnocTop(drains[1..]);
    }
  }

  lemma FlushWrites(s: State, stopped: bool)
    ensures Flatten(FlushLocked(s, stopped).written) == Flatten(s.written) + Queue(s)
    ensures Queue(FlushLocked(s, stopped)) == []
  {
    FlattenSnoc(s.written, s.buffer);
    if Pend(s) == [] {
      assert Queue(s) == s.buffer;
      assert Flatten(s.written) + [] == Flatten(s.written);
    } else {
      FlattenSnoc(s.written, Pend(s));
      FlattenSnoc(s.written + [Pend(s)], s.buffer);
      Associate(Flatten(s.written), Pend(s), s.buffer);
      if s.buffer == [] { assert Queue(s) == Pend(s); }
    }
  }

  lemma FlushConserves(s: State, stopped: bool)
    requires Conserved(s)
    ensures Conserved(FlushLocked(s, stopped))
  {
    FlushWrites(s, stopped);
    forall x ensures Times(s.accepted, x) == Held(FlushLocked(s, stopped), x) {
      assert Times(s.accepted, x) == Held(s, x);
      CountConcat(Flatten(s.written), Queue(s), x);
    }
  }

  lemma FlushKeeps(cfg: Config, s: State, stopped: bool)
    requires cfg.Ok() && Conserved(s) && (s.pending.Some? ==> s.drains != [])
    requires forall id :: id in s.callbacks ==> id < s.nextTimer
    requires forall i :: 0 <= i < |s.drains| && s.drains[i].Writing? ==> s.drains[i].batch != []
    requires s.bufferBytes == TotalBytes(s.buffer)
    requires s.disposed ==> s.closed && s.drains == []
    ensures Inv(cfg, FlushLocked(s, stopped))
  {
    FlushConserves(s, stopped);
    hide Conserved;
  }

  lemma AcceptQueues(cfg: Config, s: State, content: string, stopped: bool)
    requires !s.closed
    ensures var t := Accept(cfg, s, content, stopped);
            && t.accepted == s.accepted + [content] && Queue(t) == Queue(s) + [content]
            && t.written == s.written && InFlight(t.drains) == InFlight(s.drains)
  {
    InFlightSnocTop(s.drains);
    hide InFlight, Flatten;
    Associate(Pend(s), s.buffer, [content]);
    var t, more := Accept(cfg, s, content, stopped), s.buffer + [content];
    if t.buffer == [] && s.pending.Some? {
      assert t.pending == Some(s.pending.value + more) && Queue(t) == Pend(s) + more;
    } else if t.buffer == [] {
      assert t.pending == Some(more) && Queue(t) == more && Pend(s) + more == more;
    } else {
      assert t.pending == s.pending && t.buffer == more;
    }
  }

  lemma AcceptConserves(cfg: Config, s: State, content: string, stopped: bool)
    requires Conserved(s)
    ensures Conserved(Accept(cfg, s, content, stopped))
  {
    if !s.closed {
      AcceptQueues(cfg, s, content, stopped);
      hide Accept;
      var t := Accept(cfg, s, content, stopped);
      forall x ensures Times(t.accepted, x) == Held(t, x) {
        assert Times(s.accepted, x) == Held(s, x);
        CountConcat(s.accepted, [content], x);
        CountConcat(Queue(s), [content], x);
      }
    }
  }

  lemma AcceptKeeps(cfg: Config, s: State, content: string, stopped: bool)
    requires cfg.Ok() && Inv(cfg, s)
    ensures Inv(cfg, Accept(cfg, s, content, stopped))
  {
    AcceptConserves(cfg, s, content, stopped);
    hide Conserved;
    var more := s.buffer + [content];
    assert more[..|s.buffer|] == s.buffer;
  }

  lemma CaptureConserves(s: State, i: nat)
    requires Conserved(s) && Enabled(s, Capture(i))
    ensures Conserved(Captured(s, i))
  {
    var t := Captured(s, i);
    InFlightExit(s.drains, i);
    hide InFlight, Flatten;
    assert Queue(t) == s.buffer && (Pend(s) == [] ==> Queue(s) == s.buffer);
    hide Times;
    forall x ensures Times(t.accepted, x) == Held(t, x) {
      assert Times(s.accepted, x) == Held(s, x);
      InFlightUpdate(s.drains, i, Writing(Pend(s)), x);
      CountConcat(Pend(s), s.buffer, x);
    }
  }

  lemma DeliverConserves(s: State, i: nat)
    requires Conserved(s) && Enabled(s, Deliver(i))
    ensures Conserved(Delivered(s, i))
  {
    var t := Delivered(s, i);
    FlattenSnoc(s.written, s.drains[i].batch);
    hide InFlight, Flatten;
    hide Times;
    forall x ensures Times(t.accepted, x) == Held(t, x) {
      assert Times(s.accepted, x) == Held(s, x);
      InFlightUpdate(s.drains, i, AtTop, x);
      CountConcat(Flatten(s.written), s.drains[i].batch, x);
    }
  }

  lemma CaptureKeeps(cfg: Config, s: State, i: nat)
    requires Inv(cfg, s) && Enabled(s, Capture(i))
    ensures Inv(cfg, Captured(s, i))
  {
    CaptureConserves(s, i);
    hide Conserved;
  }

  lemma DeliverKeeps(cfg: Config, s: State, i: nat)
    requires Inv(cfg, s) && Enabled(s, Deliver(i))
    ensures Inv(cfg, Delivered(s, i))
  {
    DeliverConserves(s, i);
    hide Conserved;
  }

  lemma FireKeeps(cfg: Config, s: State, id: nat, stopped: bool)
    requires cfg.Ok() && Inv(cfg, s)
    ensures Inv(cfg, Fired(s, id, stopped))
  {
    var s1 := s.(callbacks := s.callbacks - {id});
    assert Conserved(s1) by { assert forall x :: Held(s1, x) == Held(s, x); }
    hide Conserved, FlushLocked;
    if !s.closed {
      FlushKeeps(cfg, s1, stopped);
    }
  }

  lemma CloseKeeps(cfg: Config, s: State, stopped: bool)
    requires cfg.Ok() && Inv(cfg, s)
    ensures Inv(cfg, Closing(s, stopped))
  {
    var s1 := s.(closed := true);
    assert Conserved(s1) by { assert forall x :: Held(s1, x) == Held(s, x); }
    hide Conserved, FlushLocked;
    if !s.closed {
      FlushKeeps(cfg, s1, stopped);
    }
  }

  lemma EndKeeps(cfg: Config, s: State)
    requires Inv(cfg, s) && Enabled(s, EndDispose)
    ensures Inv(cfg, s.(disposed := true))
  {
    assert forall x :: Held(s.(disposed := true), x) == Held(s, x);
  }

  lemma StepKeeps(cfg: Config, s: State, step: Step)
    requires cfg.Ok() && Inv(cfg, s) && Enabled(s, step)
    ensures Inv(cfg, Next(cfg, s, step))
  {
    hide Conserved, Accept, FlushLocked, Fired, Captured, Delivered, Closing;
    match step
    case Write(content, stopped) => AcceptKeeps(cfg, s, content, stopped);
    case Flush(stopped) => FlushKeeps(cfg, s, stopped);
    case Fire(id, stopped) => FireKeeps(cfg, s, id, stopped);
    case Capture(i) => CaptureKeeps(cfg, s, i);
    case Deliver(i) => DeliverKeeps(cfg, s, i);
    case BeginDispose(stopped) => CloseKeeps(cfg, s, stopped);
    case EndDispose => EndKeeps(cfg, s);
  }

  lemma {:induction false} RunKeeps(cfg: Config, s: State, steps: seq<Step>)
    requires cfg.Ok() && Inv(cfg, s) && CanRun(cfg, s, steps)
    ensures Inv(cfg, Exec(cfg, s, steps))
    decreases |steps|
  {
    if steps != [] {
      StepKeeps(cfg, s, steps[0]);
      RunKeeps(cfg, Next(cfg, s, steps[0]), steps[1..]);
    }
  }

  /** Conservation and progress, in every interleaving whatsoever: what was accepted is,
      as a multiset, what was written, captured, pending and buffered; a pending overflow
      has a live drain and a non-empty buffer a timer callback still to run; the buffer is
      below both thresholds; and once the first Dispose has returned, writeFn has been
      handed each accepted content exactly once. */
  lemma EveryInterleavingConserves(cfg: Config, steps: seq<Step>)
    requires cfg.Ok() && CanRun(cfg, INIT, steps)
    ensures var s := Exec(cfg, INIT, steps);
            && Conserved(s) && Attended(s) && WithinThresholds(cfg, s)
            && (s.disposed ==> multiset(Flatten(s.written)) == multiset(s.accepted))
  {
    RunKeeps(cfg, INIT, steps);
    var s := Exec(cfg, INIT, steps);
    if s.disposed { EmptiedIsWritten(s); }
  }

  lemma EmptiedIsWritten(s: State)
    requires Conserved(s) && s.drains == [] && Pend(s) == [] && s.buffer == []
    ensures multiset(Flatten(s.written)) == multiset(s.accepted)
  {
    var w, a := multiset(Flatten(s.written)), multiset(s.accepted);
    forall x ensures w[x] == a[x] {
      assert Times(s.accepted, x) == Held(s, x);
    }
  }

  // ---------- delivery ----------

  predicate Internal(step: Step) { step.Fire? || step.Capture? || step.Deliver? }

  function Rounds(d: Drain): nat {
    if d.Writing? then 2 else 1
  }

  function DrainWork(drains: seq<Drain>): nat {
    if drains == [] then 0 else Rounds(drains[0]) + DrainWork(drains[1..])
  }

  /** Steps the runtime still owes if nobody calls the writer again. */
  function Work(s: State): nat {
    |s.callbacks| + DrainWork(s.drains) + if Pend(s) != [] then 2 else 0
  }

  lemma {:induction false} DrainWorkUpdate(drains: seq<Drain>, i: nat, d: Drain)
    requires i < |drains|
    ensures DrainWork(drains[i := d]) + Rounds(drains[i]) == DrainWork(drains) + Rounds(d)
    ensures DrainWork(drains[..i] + drains[i + 1..]) + Rounds(drains[i]) == DrainWork(drains)
  {
    var put, cut := drains[i := d], drains[..i] + drains[i + 1..];
    if i == 0 {
      assert put[1..] == drains[1..] && cut == drains[1..];
    } else {
      DrainWorkUpdate(drains[1..], i - 1, d);
      assert put[1..] == drains[1..][i - 1 := d];
      assert cut[1..] == drains[1..][..i - 1] + drains[1..][i..];
    }
  }

  lemma SubsetSize(a: set<nat>, b: set<nat>)
    requires a <= b
    ensures |a| <= |b|
  {
    assert b == a + (b - a);
  }

  lemma InternalStepWorks(cfg: Config, s: State, step: Step)
    requires Internal(step) && Enabled(s, step)
    ensures Work(Next(cfg, s, step)) < Work(s)
  {
    hide DrainWork;
    match step
    case Fire(id, stopped) =>
      SubsetSize(Next(cfg, s, step).callbacks, s.callbacks - {id});
    case Capture(i) =>
      DrainWorkUpdate(s.drains, i, Writing(Pend(s)));
    case Deliver(i) =>
      DrainWorkUpdate(s.drains, i, AtTop);
    case _ =>
  }

  lemma {:induction false} InternalRunsAreShort(cfg: Config, s: State, steps: seq<Step>)
    requires CanRun(cfg, s, steps) && forall i :: 0 <= i < |steps| ==> Internal(steps[i])
    ensures |steps| + Work(Exec(cfg, s, steps)) <= Work(s)
    decreases |steps|
  {
    if steps != [] {
      InternalStepWorks(cfg, s, steps[0]);
      InternalRunsAreShort(cfg, Next(cfg, s, steps[0]), steps[1..]);
    }
  }

  lemma {:induction false} ExecAppend(cfg: Config, s: State, a: seq<Step>, b: seq<Step>)
    requires CanRun(cfg, s, a) && CanRun(cfg, Exec(cfg, s, a), b)
    ensures CanRun(cfg, s, a + b) && Exec(cfg, s, a + b) == Exec(cfg, Exec(cfg, s, a), b)
    decreases |a|
  {
    if a == [] {
      assert a + b == b;
    } else {
      assert (a + b)[0] == a[0] && (a + b)[1..] == a[1..] + b;
      ExecAppend(cfg, Next(cfg, s, a[0]), a[1..], b);
    }
  }

  /** Left alone, the writer delivers: from any reachable state, drains and timers can run
      only `Work` many steps, and when none of them can, everything accepted is written. */
  lemma LeftAloneItDelivers(cfg: Config, before: seq<Step>, alone: seq<Step>)
    requires cfg.Ok() && CanRun(cfg, INIT, before)
    requires CanRun(cfg, Exec(cfg, INIT, before), alone) && forall i :: 0 <= i < |alone| ==> Internal(alone[i])
    ensures var s, t := Exec(cfg, INIT, before), Exec(cfg, Exec(cfg, INIT, before), alone);
            && |alone| <= Work(s)
            && t.accepted == s.accepted
            && ((forall step :: Internal(step) ==> !Enabled(t, step)) ==> multiset(Flatten(t.written)) == multiset(t.accepted))
  {
    var s := Exec(cfg, INIT, before);
    InternalRunsAreShort(cfg, s, alone);
    InternalAcceptNothing(cfg, s, alone);
    RunKeeps(cfg, INIT, before);
    RunKeeps(cfg, s, alone);
    hide Conserved, Exec, CanRun, Next, Flatten, InFlight, DrainWork;
    var t := Exec(cfg, s, alone);
    if forall step :: Internal(step) ==> !Enabled(t, step) {
      assert Enabled(t, Capture(0)) || Enabled(t, Deliver(0)) || t.drains == [];
      assert t.timer.Some? ==> Enabled(t, Fire(t.timer.value, true));
      EmptiedIsWritten(t);
    }
  }

  lemma {:induction false} InternalAcceptNothing(cfg: Config, s: State, steps: seq<Step>)
    requires CanRun(cfg, s, steps) && forall i :: 0 <= i < |steps| ==> Internal(steps[i])
    ensures Exec(cfg, s, steps).accepted == s.accepted
    decreases |steps|
  {
    if steps != [] {
      InternalAcceptNothing(cfg, Next(cfg, s, steps[0]), steps[1..]);
    }
  }

  // ---------- order ----------

  function Line(s: State): seq<string> {
    Flatten(s.written) + (InFlight(s.drains) + Queue(s))
  }

  /** What the source's comments claim: one drain at most, and every accepted content in its
      place on the way to writeFn. */
  ghost predicate Claim(s: State) {
    |s.drains| <= 1 && Line(s) == s.accepted
  }

  /** The claim together with the bookkeeping meant to keep it: in an open writer the drain is
      alive exactly while the pending overflow is non-nil. */
  ghost predicate InOrder(s: State) {
    Claim(s) && (!s.closed ==> (s.pending.Some? <==> s.drains != []))
  }

  /** The steps that flush under the lock. */
  predicate Flushes(s: State, step: Step) {
    step.Flush? || (step.Fire? && !s.closed) || (step.BeginDispose? && !s.closed)
  }

  /** A flush that no live drain can notice. A final flush may also take the pending
      overflow away from a drain that has not captured it. */
  predicate Harmless(s: State, step: Step) {
    Flushes(s, step) ==>
      || s.drains == []
      || ((Pend(s) == [] || step.BeginDispose?) && s.drains == [AtTop])
      || Queue(s) == []
  }

  predicate AllHarmless(cfg: Config, s: State, steps: seq<Step>)
    requires CanRun(cfg, s, steps)
    decreases |steps|
  {
    steps == [] || (Harmless(s, steps[0]) && AllHarmless(cfg, Next(cfg, s, steps[0]), steps[1..]))
  }

  lemma OneInFlight(d: Drain)
    ensures InFlight([d]) == Batch(d)
  {
    assert [d][1..] == [];
    assert InFlight([d]) == Batch(d) + InFlight([]);
  }

  lemma HarmlessFlushKeepsOrder(s: State, stopped: bool)
    requires InOrder(s)
    requires s.drains == [] || (s.drains == [AtTop] && (Pend(s) == [] || s.closed)) || Queue(s) == []
    ensures InOrder(FlushLocked(s, stopped))
  {
    FlushWrites(s, stopped);
    OneInFlight(AtTop);
    var t, w := FlushLocked(s, stopped), Flatten(s.written);
    if Queue(s) == [] {
      assert w + [] == w;
    } else {
      assert InFlight(s.drains) == [] && [] + Queue(s) == Queue(s);
      assert w + Queue(s) + ([] + []) == w + Queue(s);
    }
  }

  lemma AcceptKeepsOrder(cfg: Config, s: State, content: string, stopped: bool)
    requires InOrder(s)
    ensures InOrder(Accept(cfg, s, content, stopped))
  {
    if !s.closed {
      AcceptQueues(cfg, s, content, stopped);
      Associate(InFlight(s.drains), Queue(s), [content]);
      Associate(Flatten(s.written), InFlight(s.drains) + Queue(s), [content]);
    }
  }

  lemma CaptureKeepsClaim(s: State, i: nat)
    requires Claim(s) && Enabled(s, Capture(i))
    ensures Claim(Captured(s, i))
  {
    assert s.drains == [AtTop];
    OneInFlight(AtTop);
    OneInFlight(Writing(Pend(s)));
    assert s.drains[..0] + s.drains[1..] == [];
    assert s.drains[0 := Writing(Pend(s))] == [Writing(Pend(s))];
    assert [] + Queue(s) == Queue(s) && [] + s.buffer == s.buffer;
  }

  lemma DeliverKeepsClaim(s: State, i: nat)
    requires Claim(s) && Enabled(s, Deliver(i))
    ensures Claim(Delivered(s, i))
  {
    assert s.drains == [s.drains[0]];
    OneInFlight(s.drains[0]);
    OneInFlight(AtTop);
    assert s.drains[0 := AtTop] == [AtTop];
    FlattenSnoc(s.written, s.drains[0].batch);
    Associate(Flatten(s.written), s.drains[0].batch, Queue(s));
    assert [] + Queue(s) == Queue(s);
  }

  lemma CaptureKeepsOrder(s: State, i: nat)
    requires InOrder(s) && Enabled(s, Capture(i))
    ensures InOrder(Captured(s, i))
  {
    CaptureKeepsClaim(s, i);
    hide Claim;
  }

  lemma DeliverKeepsOrder(s: State, i: nat)
    requires InOrder(s) && Enabled(s, Deliver(i))
    ensures InOrder(Delivered(s, i))
  {
    DeliverKeepsClaim(s, i);
    hide Claim;
  }

  lemma StepKeepsOrder(cfg: Config, s: State, step: Step)
    requires InOrder(s) && Enabled(s, step) && Harmless(s, step)
    requires s.closed ==> s.buffer == [] && Pend(s) == []
    ensures InOrder(Next(cfg, s, step))
  {
    hide InOrder, Accept, FlushLocked, Captured, Delivered;
    match step
    case Write(content, stopped) => AcceptKeepsOrder(cfg, s, content, stopped);
    case Flush(stopped) => HarmlessFlushKeepsOrder(s, stopped);
    case Fire(id, stopped) =>
      OrderLooksAtContents(s, s.(callbacks := s.callbacks - {id}));
      if !s.closed {
        HarmlessFlushKeepsOrder(s.(callbacks := s.callbacks - {id}), stopped);
      }
    case Capture(i) => CaptureKeepsOrder(s, i);
    case Deliver(i) => DeliverKeepsOrder(s, i);
    case BeginDispose(stopped) =>
      OrderLooksAtContents(s, s.(closed := true));
      if !s.closed {
        HarmlessFlushKeepsOrder(s.(closed := true), stopped);
      }
    case EndDispose => OrderLooksAtContents(s, s.(disposed := true));
  }

  lemma OrderLooksAtContents(s: State, t: State)
    requires InOrder(s)
    requires t == s.(callbacks := t.callbacks, closed := t.closed, disposed := t.disposed) && (s.closed ==> t.closed)
    ensures InOrder(t)
  { }

  lemma {:induction false} RunKeepsOrder(cfg: Config, s: State, steps: seq<Step>)
    requires cfg.Ok() && Inv(cfg, s) && InOrder(s) && CanRun(cfg, s, steps) && AllHarmless(cfg, s, steps)
    ensures InOrder(Exec(cfg, s, steps))
    decreases |steps|
  {
    if steps != [] {
      StepKeeps(cfg, s, steps[0]);
      StepKeepsOrder(cfg, s, steps[0]);
      RunKeepsOrder(cfg, Next(cfg, s, steps[0]), steps[1..]);
    }
  }

  /** In every run whose flushes are all harmless, writes reach writeFn in the order they
      were accepted, by at most one drain goroutine at a time; and after the first
      Dispose returned, exactly the accepted sequence has been written. */
  lemma HarmlessRunsKeepOrder(cfg: Config, steps: seq<Step>)
    requires cfg.Ok() && CanRun(cfg, INIT, steps) && AllHarmless(cfg, INIT, steps)
    ensures var s := Exec(cfg, INIT, steps);
            && InOrder(s)
            && (s.disposed ==> Flatten(s.written) == s.accepted)
  {
    RunKeeps(cfg, INIT, steps);
    RunKeepsOrder(cfg, INIT, steps);
    var s := Exec(cfg, INIT, steps);
    if s.disposed {
      assert Line(s) == Flatten(s.written);
    }
  }

  /** Exactly when a flush keeps order, single drain and bookkeeping: no live drain of an open
      writer loses its pending overflow, and what a drain holds captured commutes with what
      the flush writes before it. */
  lemma FlushKeepsBookkeepingIff(s: State, stopped: bool)
    requires InOrder(s)
    ensures var flushed := Queue(s);
            InOrder(FlushLocked(s, stopped)) <==>
              (s.closed || s.drains == [] || Pend(s) == []) && InFlight(s.drains) + flushed == flushed + InFlight(s.drains)
  {
    var t := FlushLocked(s, stopped);
    var w, c, f := Flatten(s.written), InFlight(s.drains), Queue(s);
    FlushWrites(s, stopped);
    assert c + [] == c;
    Associate(w, f, c);
    CancelPrefix(w, f + c, c + f);
  }

  /** What a step must respect, seen before it is taken. */
  predicate Respectful(s: State, step: Step) {
    Flushes(s, step) ==>
      && (s.closed || step.BeginDispose? || s.drains == [] || Pend(s) == [])
      && InFlight(s.drains) + Queue(s) == Queue(s) + InFlight(s.drains)
  }

  predicate AllRespectful(cfg: Config, s: State, steps: seq<Step>)
    requires CanRun(cfg, s, steps)
    decreases |steps|
  {
    steps == [] || (Respectful(s, steps[0]) && AllRespectful(cfg, Next(cfg, s, steps[0]), steps[1..]))
  }

  ghost predicate InOrderThroughout(cfg: Config, s: State, steps: seq<Step>)
    requires CanRun(cfg, s, steps)
    decreases |steps|
  {
    InOrder(s) && (steps == [] || InOrderThroughout(cfg, Next(cfg, s, steps[0]), steps[1..]))
  }

  lemma StepKeepsOrderIff(cfg: Config, s: State, step: Step)
    requires InOrder(s) && Enabled(s, step)
    requires s.closed ==> s.buffer == [] && Pend(s) == []
    ensures InOrder(Next(cfg, s, step)) <==> Respectful(s, step)
  {
    hide InOrder, Accept, FlushLocked, Captured, Delivered, InFlight;
    match step
    case Flush(stopped) => FlushKeepsBookkeepingIff(s, stopped);
    case Fire(id, stopped) =>
      OrderLooksAtContents(s, s.(callbacks := s.callbacks - {id}));
      FlushKeepsBookkeepingIff(s.(callbacks := s.callbacks - {id}), stopped);
    case BeginDispose(stopped) =>
      OrderLooksAtContents(s, s.(closed := true));
      FlushKeepsBookkeepingIff(s.(closed := true), stopped);
    case _ => StepKeepsOrder(cfg, s, step);
  }

  lemma {:induction false} RunKeepsOrderIff(cfg: Config, s: State, steps: seq<Step>)
    requires cfg.Ok() && Inv(cfg, s) && InOrder(s) && CanRun(cfg, s, steps)
    ensures InOrderThroughout(cfg, s, steps) <==> AllRespectful(cfg, s, steps)
    decreases |steps|
  {
    if steps != [] {
      var t := Next(cfg, s, steps[0]);
      StepKeeps(cfg, s, steps[0]);
      StepKeepsOrderIff(cfg, s, steps[0]);
      hide InOrder, Respectful, Next;
      if InOrder(t) {
        RunKeepsOrderIff(cfg, t, steps[1..]);
      }
    }
  }

  /** A run keeps order, single drain and the bookkeeping that ties the drain to the pending
      overflow in all its states exactly when every flush respects the drain. */
  lemma BookkeepingIsKeptIff(cfg: Config, steps: seq<Step>)
    requires cfg.Ok() && CanRun(cfg, INIT, steps)
    ensures InOrderThroughout(cfg, INIT, steps) <==> AllRespectful(cfg, INIT, steps)
  {
    RunKeepsOrderIff(cfg, INIT, steps);
  }

  // exactly when the claim itself holds

  /** A write that reaches a threshold. */
  predicate Trips(cfg: Config, s: State, step: Step) {
    step.Write? && !s.closed
    && (|s.buffer| + 1 >= cfg.maxBufferSize || s.bufferBytes + |step.content| >= cfg.maxBufferBytes)
  }

  /** A write that hands over finds its drain, and a flush writes nothing past one. */
  predicate Careful(cfg: Config, s: State, step: Step) {
    && (Trips(cfg, s, step) ==> s.pending.Some? || s.drains == [])
    && (Flushes(s, step) ==> InFlight(s.drains) + Queue(s) == Queue(s) + InFlight(s.drains))
  }

  predicate AllCareful(cfg: Config, s: State, steps: seq<Step>)
    requires CanRun(cfg, s, steps)
    decreases |steps|
  {
    steps == [] || (Careful(cfg, s, steps[0]) && AllCareful(cfg, Next(cfg, s, steps[0]), steps[1..]))
  }

  ghost predicate ClaimThroughout(cfg: Config, s: State, steps: seq<Step>)
    requires CanRun(cfg, s, steps)
    decreases |steps|
  {
    Claim(s) && (steps == [] || ClaimThroughout(cfg, Next(cfg, s, steps[0]), steps[1..]))
  }

  lemma AcceptKeepsClaimIff(cfg: Config, s: State, content: string, stopped: bool)
    requires Claim(s)
    ensures Claim(Accept(cfg, s, content, stopped)) <==> Careful(cfg, s, Write(content, stopped))
  {
    if !s.closed {
      AcceptQueues(cfg, s, content, stopped);
      Associate(InFlight(s.drains), Queue(s), [content]);
      Associate(Flatten(s.written), InFlight(s.drains) + Queue(s), [content]);
    }
    hide Flatten, InFlight, Queue;
  }

  lemma FlushKeepsClaimIff(s: State, stopped: bool)
    requires Claim(s)
    ensures Claim(FlushLocked(s, stopped)) <==> InFlight(s.drains) + Queue(s) == Queue(s) + InFlight(s.drains)
  {
    var w, c, f := Flatten(s.written), InFlight(s.drains), Queue(s);
    FlushWrites(s, stopped);
    assert c + [] == c;
    Associate(w, f, c);
    CancelPrefix(w, f + c, c + f);
  }

  lemma StepKeepsClaimIff(cfg: Config, s: State, step: Step)
    requires Claim(s) && Enabled(s, step)
    ensures Claim(Next(cfg, s, step)) <==> Careful(cfg, s, step)
  {
    hide Accept, FlushLocked, Captured, Delivered, InFlight;
    match step
    case Write(content, stopped) => AcceptKeepsClaimIff(cfg, s, content, stopped);
    case Flush(stopped) => FlushKeepsClaimIff(s, stopped);
    case Fire(id, stopped) => FlushKeepsClaimIff(s.(callbacks := s.callbacks - {id}), stopped);
    case BeginDispose(stopped) => FlushKeepsClaimIff(s.(closed := true), stopped);
    case Capture(i) => CaptureKeepsClaim(s, i);
    case Deliver(i) => DeliverKeepsClaim(s, i);
    case EndDispose =>
  }

  lemma {:induction false} RunKeepsClaimIff(cfg: Config, s: State, steps: seq<Step>)
    requires Claim(s) && CanRun(cfg, s, steps)
    ensures ClaimThroughout(cfg, s, steps) <==> AllCareful(cfg, s, steps)
    decreases |steps|
  {
    if steps != [] {
      var t := Next(cfg, s, steps[0]);
      StepKeepsClaimIff(cfg, s, steps[0]);
      hide Claim, Careful, Next;
      if Claim(t) {
        RunKeepsClaimIff(cfg, t, steps[1..]);
      }
    }
  }

  /** A run keeps the accepted order and a single drain in all its states exactly when each
      write that reaches a threshold finds either a non-nil pending overflow or no live drain,
      and what each flush writes commutes with what drains hold captured. */
  lemma OrderIsKeptIff(cfg: Config, steps: seq<Step>)
    requires CanRun(cfg, INIT, steps)
    ensures ClaimThroughout(cfg, INIT, steps) <==> AllCareful(cfg, INIT, steps)
  {
    RunKeepsClaimIff(cfg, INIT, steps);
  }

  /** Why the pending overflow must not be taken from a live drain: whatever the state, at
      most maxBufferSize further writes then start a second one. */
  lemma {:induction false} WritesStartSecondDrain(cfg: Config, s: State, content: string) returns (steps: seq<Step>)
    requires cfg.Ok() && Inv(cfg, s) && !s.closed && s.pending.None? && |s.drains| == 1
    ensures CanRun(cfg, s, steps) && |steps| <= cfg.maxBufferSize - |s.buffer|
    ensures forall i :: 0 <= i < |steps| ==> steps[i].Write?
    ensures |Exec(cfg, s, steps).drains| == 2
    decreases cfg.maxBufferSize - |s.buffer|
  {
    var step := Write(content, true);
    var t := Next(cfg, s, step);
    AcceptKeeps(cfg, s, content, true);
    if |t.drains| == 2 {
      assert CanRun(cfg, t, []);
      steps := [step];
    } else {
      var rest := WritesStartSecondDrain(cfg, t, content);
      steps := [step] + rest;
      assert steps[1..] == rest;
    }
  }

  lemma HarmfulFlushSplitsTheDrain(cfg: Config, s: State, stopped: bool) returns (steps: seq<Step>)
    requires cfg.Ok() && Inv(cfg, s) && InOrder(s) && !s.closed
    requires s.drains != [] && Pend(s) != []
    ensures CanRun(cfg, s, [Flush(stopped)] + steps) && |Exec(cfg, s, [Flush(stopped)] + steps).drains| == 2
    ensures forall i :: 0 <= i < |steps| ==> steps[i].Write?
  {
    FlushKeeps(cfg, s, stopped);
    steps := WritesStartSecondDrain(cfg, FlushLocked(s, stopped), "");
    assert ([Flush(stopped)] + steps)[1..] == steps;
  }

  lemma {:induction false} ExecSnoc(cfg: Config, s: State, steps: seq<Step>, step: Step)
    requires CanRun(cfg, s, steps) && Enabled(Exec(cfg, s, steps), step)
    ensures CanRun(cfg, s, steps + [step])
    ensures Exec(cfg, s, steps + [step]) == Next(cfg, Exec(cfg, s, steps), step)
    decreases |steps|
  {
    var all := steps + [step];
    if steps == [] {
      assert all[1..] == [];
    } else {
      assert all[1..] == steps[1..] + [step];
      ExecSnoc(cfg, Next(cfg, s, steps[0]), steps[1..], step);
    }
  }

  const ONE_AT_A_TIME := Config(1, 100)

  const BAD_PLAN := [Write("a", true), Capture(0), Write("b", true), Flush(true),
                     Deliver(0), Capture(0), BeginDispose(true), EndDispose]

  const BAD_RUN := [
    INIT,
    State([], 0, None, Some(["a"]), false, {}, 1, [AtTop], [], ["a"], false),
    State([], 0, None, Some([]), false, {}, 1, [Writing(["a"])], [], ["a"], false),
    State([], 0, None, Some(["b"]), false, {}, 2, [Writing(["a"])], [], ["a", "b"], false),
    State([], 0, None, None, false, {}, 2, [Writing(["a"])], [["b"]], ["a", "b"], false),
    State([], 0, None, None, false, {}, 2, [AtTop], [["b"], ["a"]], ["a", "b"], false),
    State([], 0, None, None, false, {}, 2, [], [["b"], ["a"]], ["a", "b"], false),
    State([], 0, None, None, true, {}, 2, [], [["b"], ["a"]], ["a", "b"], false),
    State([], 0, None, None, true, {}, 2, [], [["b"], ["a"]], ["a", "b"], true)]

  lemma BadWrite(i: nat)
    requires i == 0 || i == 2
    ensures Next(ONE_AT_A_TIME, BAD_RUN[i], BAD_PLAN[i]) == BAD_RUN[i + 1]
  {
    var none: set<nat>, no: seq<string> := {}, [];
    assert none + {0} - {0} == none && none + {1} - {1} == none;
    assert no + ["a"] == ["a"] && no + ["b"] == ["b"];
  }

  lemma BadStep(i: nat)
    requires i < 8
    ensures Enabled(BAD_RUN[i], BAD_PLAN[i]) && Next(ONE_AT_A_TIME, BAD_RUN[i], BAD_PLAN[i]) == BAD_RUN[i + 1]
  {
    if i == 0 || i == 2 {
      BadWrite(i);
    }
  }

  /** The unconditional order the source's comments claim does not hold: one flush while a
      drain is outside the lock writes the second content before the first. */
  lemma OrderFailsInGeneral()
    ensures ONE_AT_A_TIME.Ok() && CanRun(ONE_AT_A_TIME, INIT, BAD_PLAN)
    ensures var s := Exec(ONE_AT_A_TIME, INIT, BAD_PLAN);
            s.disposed && s.accepted == ["a", "b"] && s.written == [["b"], ["a"]]
  {
    hide Next, Enabled;
    var steps: seq<Step> := [];
    for i := 0 to 8
      invariant steps == BAD_PLAN[..i]
      invariant CanRun(ONE_AT_A_TIME, INIT, steps) && Exec(ONE_AT_A_TIME, INIT, steps) == BAD_RUN[i]
    {
      assert BAD_PLAN[..i + 1] == BAD_PLAN[..i] + [BAD_PLAN[i]];
      BadStep(i);
      ExecSnoc(ONE_AT_A_TIME, INIT, steps, BAD_PLAN[i]);
      steps := steps + [BAD_PLAN[i]];
    }
    assert BAD_PLAN[..8] == BAD_PLAN;
  }

  // ---------- timers ----------

  /** Every timer that is stopped in this step is stopped in time. */
  predicate Punctual(step: Step) {
    match step
    case Write(_, stopped) => stopped
    case Flush(stopped) => stopped
    case Fire(_, stopped) => stopped
    case BeginDispose(stopped) => stopped
    case _ => true
  }

  /** The armed timer is the only callback to come. */
  ghost predicate OneTimer(s: State) {
    && s.callbacks == (if s.timer.Some? then {s.timer.value} else {})
    && (s.closed ==> s.timer.None?)
  }

  lemma StepKeepsOneTimer(cfg: Config, s: State, step: Step)
    requires OneTimer(s) && Enabled(s, step) && Punctual(step)
    ensures OneTimer(Next(cfg, s, step))
  { }

  /** If timers are stopped in time, never more than one callback is outstanding, and it is the
      armed timer's: arming is idempotent and stopping takes the callback away. */
  lemma {:induction false} PunctualRunsHaveOneTimer(cfg: Config, s: State, steps: seq<Step>)
    requires OneTimer(s) && CanRun(cfg, s, steps) && forall i :: 0 <= i < |steps| ==> Punctual(steps[i])
    ensures OneTimer(Exec(cfg, s, steps))
    decreases |steps|
  {
    if steps != [] {
      StepKeepsOneTimer(cfg, s, steps[0]);
      PunctualRunsHaveOneTimer(cfg, Next(cfg, s, steps[0]), steps[1..]);
    }
  }

  /** A write that reaches no threshold leaves an armed timer armed: the oldest content waits no
      longer because of younger ones. */
  lemma WritesLeaveTheTimer(cfg: Config, s: State, content: string, stopped: bool)
    requires s.timer.Some? && !Trips(cfg, s, Write(content, stopped))
    ensures Next(cfg, s, Write(content, stopped)).timer == s.timer
    ensures Next(cfg, s, Write(content, stopped)).callbacks == s.callbacks
  { }

  /** No batch handed to writeFn is empty. */
  lemma {:induction false} NoEmptyBatch(cfg: Config, s: State, steps: seq<Step>)
    requires cfg.Ok() && Inv(cfg, s) && CanRun(cfg, s, steps)
    requires forall i :: 0 <= i < |s.written| ==> s.written[i] != []
    ensures forall i :: 0 <= i < |Exec(cfg, s, steps).written| ==> Exec(cfg, s, steps).written[i] != []
    decreases |steps|
  {
    if steps != [] {
      StepKeeps(cfg, s, steps[0]);
      StepWritesSome(cfg, s, steps[0]);
      NoEmptyBatch(cfg, Next(cfg, s, steps[0]), steps[1..]);
    }
  }

  lemma StepWritesSome(cfg: Config, s: State, step: Step)
    requires Inv(cfg, s) && Enabled(s, step)
    requires forall i :: 0 <= i < |s.written| ==> s.written[i] != []
    ensures forall i :: 0 <= i < |Next(cfg, s, step).written| ==> Next(cfg, s, step).written[i] != []
  {
    hide Conserved, Attended, WithinThresholds;
  }
}
