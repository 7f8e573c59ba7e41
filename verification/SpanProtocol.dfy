/** All interleavings of concurrent SetAttr, RecordError and End calls on one span.

    Attribute maps are mutable objects here, filled key by key by the call that made them;
    that nobody changes a map once it is published is proved, not built in. A state object
    is named by its version: the n-th successful swap publishes version n. */
module SpanProtocol {
  import opened Prelude
  import opened Span

  datatype State = State(attrs: nat, err: Option<string>, ended: bool) // attrs: a map's address

  datatype Pc =
    | Start
    | Copying(was: nat, own: nat)          // SetAttr, filling its private map
    | Ready(was: nat, next: State)         // about to compare-and-swap
    | Emitting(was: nat)                   // End has swapped and not yet called emitFunc
    | Returned

  datatype Thread = Thread(op: Op, pc: Pc, retries: nat)

  datatype System = System(
    states: seq<State>,
    maps: seq<Attrs>,
    threads: seq<Thread>,
    history: seq<Op>,          // the operations whose swap succeeded, in order
    late: seq<Op>,             // the operations that found the span ended
    order: seq<nat>,           // the calls behind both, in the order they took effect
    emitted: seq<Record>)

  /** The version the pointer holds. */
  function Cur(s: System): int {
    |s.states| - 1
  }

  datatype Step = Load(t: nat) | CopyOne(t: nat, key: string) | PutOwn(t: nat) | Swap(t: nat) | Emit(t: nat)

  ghost predicate Enabled(s: System, step: Step) {
    && step.t < |s.threads|
    && s.states != []
    && var pc := s.threads[step.t].pc;
       match step
       case Load(_) => pc.Start?
       case CopyOne(_, key) =>
         pc.Copying? && pc.was < |s.states| && s.states[pc.was].attrs < |s.maps| && pc.own < |s.maps|
         && key in s.maps[s.states[pc.was].attrs] && key !in s.maps[pc.own]
       case PutOwn(_) =>
         pc.Copying? && pc.was < |s.states| && s.states[pc.was].attrs < |s.maps| && pc.own < |s.maps|
         && s.threads[step.t].op.SetAttr? && s.maps[s.states[pc.was].attrs].Keys == s.maps[pc.own].Keys
       case Swap(_) => pc.Ready?
       case Emit(_) => pc.Emitting? && pc.was < |s.states| && s.states[pc.was].attrs < |s.maps|
  }

  function Go(s: System, t: nat, pc: Pc): seq<Thread>
    requires t < |s.threads|
  {
    s.threads[t := s.threads[t].(pc := pc)]
  }

  ghost function Next(s: System, step: Step): System
    requires Enabled(s, step)
  {
    var th := s.threads[step.t];
    match step
    case Load(t) =>
      var st := s.states[Cur(s)];
      if st.ended then s.(late := s.late + [th.op], order := s.order + [t], threads := Go(s, t, Returned))
      else
        (match th.op
         case SetAttr(_, _) => s.(threads := Go(s, t, Copying(Cur(s), |s.maps|)), maps := s.maps + [map[]])
         case RecordError(err) => s.(threads := Go(s, t, Ready(Cur(s), st.(err := Some(err)))))
         case End => s.(threads := Go(s, t, Ready(Cur(s), st.(ended := true)))))
    case CopyOne(t, key) =>
      s.(maps := s.maps[th.pc.own := s.maps[th.pc.own][key := s.maps[s.states[th.pc.was].attrs][key]]])
    case PutOwn(t) =>
      s.(maps := s.maps[th.pc.own := s.maps[th.pc.own][th.op.key := th.op.value]],
         threads := Go(s, t, Ready(th.pc.was, s.states[th.pc.was].(attrs := th.pc.own))))
    case Swap(t) =>
      if th.pc.was == Cur(s) then
        s.(states := s.states + [th.pc.next], history := s.history + [th.op], order := s.order + [t],
           threads := Go(s, t, if th.op.End? then Emitting(th.pc.was) else Returned))
      else s.(threads := s.threads[t := th.(pc := Start, retries := th.retries + 1)])
    case Emit(t) =>
      s.(emitted := s.emitted + [(s.maps[s.states[th.pc.was].attrs], s.states[th.pc.was].err)], threads := Go(s, t, Returned))
  }

  /** A fresh span with some calls about to start. */
  function Begin(ops: seq<Op>): System {
    System([State(0, None, false)], [map[]], seq(|ops|, i requires 0 <= i < |ops| => Thread(ops[i], Start, 0)), [], [], [], [])
  }

  ghost predicate CanRun(s: System, steps: seq<Step>)
    decreases |steps|
  {
    steps == [] || (Enabled(s, steps[0]) && CanRun(Next(s, steps[0]), steps[1..]))
  }

  ghost function Exec(s: System, steps: seq<Step>): System
    requires CanRun(s, steps)
    decreases |steps|
  {
    if steps == [] then s else Exec(Next(s, steps[0]), steps[1..])
  }

  // ---------- the invariant ----------

  /** Version v holds exactly what the first v swaps, replayed one after another, leave. */
  ghost predicate Faithful(s: System, v: nat)
    requires v < |s.states| && v <= |s.history|
  {
    && s.states[v].attrs < |s.maps|
    && Replay(s.history[..v]) == Value(s.maps[s.states[v].attrs], s.states[v].err, s.states[v].ended)
  }

  ghost predicate Published(s: System, m: nat) {
    exists v :: 0 <= v < |s.states| && s.states[v].attrs == m
  }

  /** The private map a call is filling or about to publish, if any. */
  function Private(th: Thread): Option<nat> {
    if th.pc.Copying? then Some(th.pc.own)
    else if th.pc.Ready? && th.op.SetAttr? then Some(th.pc.next.attrs)
    else None
  }

  ghost predicate ThreadOk(s: System, th: Thread) {
    match th.pc
    case Start => th.retries < |s.states|
    case Copying(was, own) =>
      && th.op.SetAttr? && was < |s.states| && !s.states[was].ended && th.retries <= was
      && own < |s.maps| && !Published(s, own)
      && s.states[was].attrs < |s.maps|
      && forall k :: k in s.maps[own] ==> k in s.maps[s.states[was].attrs] && s.maps[own][k] == s.maps[s.states[was].attrs][k]
    case Ready(was, next) =>
      && was < |s.states| && !s.states[was].ended && th.retries <= was
      && s.states[was].attrs < |s.maps| && next.attrs < |s.maps|
      && (th.op.SetAttr? ==> !Published(s, next.attrs))
      && (!th.op.SetAttr? ==> next.attrs == s.states[was].attrs)
      && Value(s.maps[next.attrs], next.err, next.ended)
           == Apply(Value(s.maps[s.states[was].attrs], s.states[was].err, false), th.op)
    case Emitting(was) =>
      th.op.End? && was + 2 == |s.states| && s.states[was + 1].ended && !s.states[was].ended && s.emitted == []
    case Returned => th.op.End? ==> s.states != [] && s.states[Cur(s)].ended
  }

  predicate Settled(th: Thread) { th.pc.Emitting? || th.pc.Returned? }

  ghost predicate VersionsOk(s: System) {
    && |s.states| == |s.history| + 1
    && (forall v :: 0 <= v < |s.states| ==> Faithful(s, v))
    && (s.late != [] ==> s.states[Cur(s)].ended)
  }

  ghost predicate ThreadsOk(s: System) {
    && (forall t :: 0 <= t < |s.threads| ==> ThreadOk(s, s.threads[t]))
    && (forall t, u :: 0 <= t < |s.threads| && 0 <= u < |s.threads| && t != u && Private(s.threads[t]).Some? ==>
          Private(s.threads[t]) != Private(s.threads[u]))
    && (forall t, u :: 0 <= t < u < |s.threads| ==> !(s.threads[t].pc.Emitting? && s.threads[u].pc.Emitting?))
  }

  ghost predicate SomeoneEmitting(s: System) {
    exists t :: 0 <= t < |s.threads| && s.threads[t].pc.Emitting?
  }

  ghost predicate EmissionOk(s: System) {
    if SomeoneEmitting(s) then s.emitted == [] else s.emitted == Emits(s.history)
  }

  ghost predicate Inv(s: System) {
    VersionsOk(s) && ThreadsOk(s) && EmissionOk(s)
  }

  // ---------- how a step touches the other calls ----------

  /** What the other calls may rely on while one of them takes a step: versions and the
      maps of versions stay, and a private map that is not the stepping call's is left alone. */
  ghost predicate Undisturbed(s: System, s': System, th: Thread) {
    && |s.states| <= |s'.states| && |s.maps| <= |s'.maps|
    && (forall v :: 0 <= v < |s.states| ==> s'.states[v] == s.states[v])
    && (forall v :: 0 <= v < |s.states| && s.states[v].attrs < |s.maps| ==> s'.maps[s.states[v].attrs] == s.maps[s.states[v].attrs])
    && (Private(th).Some? && Private(th).value < |s.maps| ==>
          && s'.maps[Private(th).value] == s.maps[Private(th).value]
          && (Published(s', Private(th).value) ==> Published(s, Private(th).value)))
  }

  lemma OtherThreadOk(s: System, s': System, th: Thread)
    requires ThreadOk(s, th) && Undisturbed(s, s', th)
    requires th.pc.Emitting? || (th.pc.Returned? && th.op.End?) ==> |s'.states| == |s.states|
    requires th.pc.Emitting? ==> s'.emitted == s.emitted
    ensures ThreadOk(s', th)
  { }

  /** A step of call t keeps all calls well-formed if it leaves the others undisturbed. */
  lemma ThreadsKept(s: System, s': System, t: nat)
    requires ThreadsOk(s) && t < |s.threads| && |s'.threads| == |s.threads|
    requires forall u :: 0 <= u < |s.threads| && u != t ==> s'.threads[u] == s.threads[u] && Undisturbed(s, s', s.threads[u])
    requires s.states != [] && s.states[Cur(s)].ended ==> |s'.states| == |s.states|
    requires s.threads[t].pc.Emitting? || s'.emitted == s.emitted
    requires ThreadOk(s', s'.threads[t])
    requires Private(s'.threads[t]) == Private(s.threads[t]) || Private(s'.threads[t]).None? || Private(s'.threads[t]) == Some(|s.maps|)
    requires forall u :: 0 <= u < |s.threads| && u != t && s'.threads[t].pc.Emitting? ==> !s.threads[u].pc.Emitting?
    ensures ThreadsOk(s')
  {
    forall u | 0 <= u < |s'.threads| ensures ThreadOk(s', s'.threads[u]) {
      if u != t {
        assert ThreadOk(s, s.threads[u]);
        OtherThreadOk(s, s', s.threads[u]);
      }
    }
    forall u | 0 <= u < |s.threads| && u != t ensures Private(s.threads[u]) != Some(|s.maps|) {
      assert ThreadOk(s, s.threads[u]);
    }
    hide ThreadOk, Undisturbed;
  }

  // ---------- each step ----------

  /** Versions stay faithful when none is added and no published map changes. */
  lemma VersionsKept(s: System, s': System)
    requires VersionsOk(s) && s'.states == s.states && s'.history == s.history
    requires s'.late == s.late || s.states[Cur(s)].ended
    requires |s.maps| <= |s'.maps|
    requires forall v :: 0 <= v < |s.states| && s.states[v].attrs < |s.maps| ==> s'.maps[s.states[v].attrs] == s.maps[s.states[v].attrs]
    ensures VersionsOk(s')
  {
    forall v | 0 <= v < |s'.states| ensures Faithful(s', v) {
      assert Faithful(s, v);
    }
  }

  lemma EmissionKept(s: System, s': System, t: nat)
    requires EmissionOk(s) && s'.emitted == s.emitted && s'.history == s.history
    requires |s'.threads| == |s.threads| && t < |s.threads| && !s.threads[t].pc.Emitting? && !s'.threads[t].pc.Emitting?
    requires forall u :: 0 <= u < |s.threads| && u != t ==> s'.threads[u] == s.threads[u]
    ensures EmissionOk(s')
  {
    if SomeoneEmitting(s) {
      var u :| 0 <= u < |s.threads| && s.threads[u].pc.Emitting?;
      assert s'.threads[u].pc.Emitting?;
    }
    if SomeoneEmitting(s') {
      var u :| 0 <= u < |s'.threads| && s'.threads[u].pc.Emitting?;
      assert s.threads[u].pc.Emitting?;
    }
  }

  /** What a step of call t must do to keep the invariant if it neither swaps nor emits. */
  ghost predicate Local(s: System, s': System, t: nat) {
    && s.states != [] && t < |s.threads| && |s.threads| == |s'.threads| && s'.threads == s.threads[t := s'.threads[t]]
    && s'.threads[t].op == s.threads[t].op && !Settled(s.threads[t]) && !s'.threads[t].pc.Emitting?
    && s'.states == s.states && s'.history == s.history && s'.emitted == s.emitted
    && s'.late == s.late + (if Settled(s'.threads[t]) then [s.threads[t].op] else [])
    && (Settled(s'.threads[t]) ==> s.states[Cur(s)].ended)
    && |s.maps| <= |s'.maps|
    && (forall v :: 0 <= v < |s.states| && s.states[v].attrs < |s.maps| ==> s'.maps[s.states[v].attrs] == s.maps[s.states[v].attrs])
    && (forall u :: 0 <= u < |s.threads| && u != t ==> Undisturbed(s, s', s.threads[u]))
    && ThreadOk(s', s'.threads[t])
    && (Private(s'.threads[t]) == Private(s.threads[t]) || Private(s'.threads[t]).None? || Private(s'.threads[t]) == Some(|s.maps|))
  }

  lemma LocalKeeps(s: System, s': System, t: nat)
    requires Inv(s) && Local(s, s', t)
    ensures Inv(s')
  {
    assert s'.late == s.late || s.states[Cur(s)].ended by { assert s.late + [] == s.late; }
    VersionsKept(s, s');
    hide ThreadOk, Undisturbed;
    assert s.late + [] == s.late;
    EmissionKept(s, s', t);
    ThreadsKept(s, s', t);
    hide VersionsOk, ThreadsOk, EmissionOk;
  }

  lemma MapsExist(s: System)
    requires VersionsOk(s)
    ensures forall v :: 0 <= v < |s.states| ==> s.states[v].attrs < |s.maps|
  {
    forall v | 0 <= v < |s.states| ensures s.states[v].attrs < |s.maps| { assert Faithful(s, v); }
  }

  lemma LoadIsLocal(s: System, t: nat)
    requires VersionsOk(s) && ThreadsOk(s) && Enabled(s, Load(t))
    ensures Local(s, Next(s, Load(t)), t)
  {
    assert Faithful(s, Cur(s));
    assert ThreadOk(s, s.threads[t]);
    var s' := Next(s, Load(t));
    assert s'.threads[t].op == s.threads[t].op;
    assert s.late + [] == s.late;
    MapsExist(s);
    hide Faithful, VersionsOk, ThreadsOk, Replay;
  }

  /** A call writes only to its own unpublished map. */
  lemma OwnMapOnly(s: System, s': System, t: nat, m: Attrs)
    requires VersionsOk(s) && ThreadsOk(s) && t < |s.threads|
    requires s.threads[t].pc.Copying? && s.threads[t].pc.own < |s.maps|
    requires s'.states == s.states && s'.maps == s.maps[s.threads[t].pc.own := m]
    ensures forall v :: 0 <= v < |s.states| ==> s.states[v].attrs < |s.maps| && s'.maps[s.states[v].attrs] == s.maps[s.states[v].attrs]
    ensures forall u :: 0 <= u < |s.threads| && u != t ==> Undisturbed(s, s', s.threads[u])
    ensures forall n :: Published(s', n) <==> Published(s, n)
  {
    assert ThreadOk(s, s.threads[t]);
    forall v | 0 <= v < |s.states| ensures s.states[v].attrs < |s.maps| && s.states[v].attrs != s.threads[t].pc.own {
      assert Faithful(s, v);
    }
    forall u | 0 <= u < |s.threads| && u != t ensures Undisturbed(s, s', s.threads[u]) {
      assert ThreadOk(s, s.threads[u]);
      assert Private(s.threads[t]) != Private(s.threads[u]);
    }
  }

  lemma CopyIsLocal(s: System, t: nat, key: string)
    requires VersionsOk(s) && ThreadsOk(s) && Enabled(s, CopyOne(t, key))
    ensures Local(s, Next(s, CopyOne(t, key)), t)
  {
    var s' := Next(s, CopyOne(t, key));
    assert ThreadOk(s, s.threads[t]);
    OwnMapOnly(s, s', t, s'.maps[s.threads[t].pc.own]);
    hide VersionsOk, ThreadsOk, Undisturbed, Replay;
    assert s.late + [] == s.late;
    assert ThreadOk(s', s'.threads[t]);
  }

  lemma PutIsLocal(s: System, t: nat)
    requires VersionsOk(s) && ThreadsOk(s) && Enabled(s, PutOwn(t))
    ensures Local(s, Next(s, PutOwn(t)), t)
  {
    var s' := Next(s, PutOwn(t));
    var th := s.threads[t];
    assert ThreadOk(s, th);
    assert Faithful(s, th.pc.was);
    OwnMapOnly(s, s', t, s'.maps[th.pc.own]);
    hide VersionsOk, ThreadsOk, Undisturbed, Replay;
    assert s.late + [] == s.late;
    assert s.maps[th.pc.own] == s.maps[s.states[th.pc.was].attrs];
    assert ThreadOk(s', s'.threads[t]);
  }

  lemma RetryIsLocal(s: System, t: nat)
    requires VersionsOk(s) && ThreadsOk(s) && Enabled(s, Swap(t)) && s.threads[t].pc.was != Cur(s)
    ensures Local(s, Next(s, Swap(t)), t)
  {
    var s' := Next(s, Swap(t));
    assert ThreadOk(s, s.threads[t]);
    hide VersionsOk, ThreadsOk, Replay;
    assert s.late + [] == s.late;
    assert ThreadOk(s', s'.threads[t]);
  }

  lemma PublishingIsFaithful(s: System, t: nat)
    requires VersionsOk(s) && ThreadsOk(s) && Enabled(s, Swap(t)) && s.threads[t].pc.was == Cur(s)
    ensures VersionsOk(Next(s, Swap(t)))
    ensures !s.states[Cur(s)].ended
    ensures Emits(s.history) == [] && Replay(s.history) == Value(s.maps[s.states[Cur(s)].attrs], s.states[Cur(s)].err, false)
  {
    var s', th := Next(s, Swap(t)), s.threads[t];
    assert ThreadOk(s, th);
    assert Faithful(s, Cur(s));
    assert s.history[..|s.history|] == s.history;
    EmitsSnoc(s.history, th.op);
    EmitsOnce(s.history);
    hide ThreadsOk, Replay, Emits;
    assert s'.history[..|s.history| + 1] == s'.history;
    forall v | 0 <= v < |s'.states| ensures Faithful(s', v) {
      if v < |s.states| {
        assert Faithful(s, v);
        assert s'.history[..v] == s.history[..v];
      }
    }
  }

  lemma PublishThreads(s: System, t: nat)
    requires VersionsOk(s) && ThreadsOk(s) && Enabled(s, Swap(t)) && s.threads[t].pc.was == Cur(s)
    requires s.emitted == []
    ensures ThreadsOk(Next(s, Swap(t)))
    ensures forall u :: 0 <= u < |s.threads| ==> !s.threads[u].pc.Emitting?
  {
    var s', th := Next(s, Swap(t)), s.threads[t];
    assert ThreadOk(s, th);
    assert Faithful(s, Cur(s));
    hide Faithful, VersionsOk, Replay;
    forall u | 0 <= u < |s.threads| && u != t ensures Undisturbed(s, s', s.threads[u]) && !s.threads[u].pc.Emitting? {
      assert ThreadOk(s, s.threads[u]);
      assert Private(th).Some? ==> Private(th) != Private(s.threads[u]);
    }
    assert ThreadOk(s', s'.threads[t]) by { SwappedOk(s, t); }
    hide ThreadOk, Undisturbed;
    ThreadsKept(s, s', t);
  }

  lemma SwappedOk(s: System, t: nat)
    requires ThreadsOk(s) && Enabled(s, Swap(t)) && s.threads[t].pc.was == Cur(s)
    requires s.threads[t].op.End? ==> s.emitted == []
    ensures ThreadOk(Next(s, Swap(t)), Next(s, Swap(t)).threads[t])
  {
    assert ThreadOk(s, s.threads[t]);
    hide ThreadsOk;
  }

  lemma PublishKeeps(s: System, t: nat)
    requires Inv(s) && Enabled(s, Swap(t)) && s.threads[t].pc.was == Cur(s)
    ensures Inv(Next(s, Swap(t)))
  {
    var s', th := Next(s, Swap(t)), s.threads[t];
    PublishingIsFaithful(s, t);
    hide VersionsOk, ThreadOk, Private;
    assert s.emitted == [] by { NobodyEmits(s, t); }
    PublishThreads(s, t);
    EmitsSnoc(s.history, th.op);
    if th.op.End? {
      assert s'.threads[t].pc.Emitting?;
    }
    hide ThreadsOk;
  }

  lemma NobodyEmits(s: System, t: nat)
    requires VersionsOk(s) && ThreadsOk(s) && EmissionOk(s) && Enabled(s, Swap(t)) && s.threads[t].pc.was == Cur(s)
    requires Emits(s.history) == []
    ensures s.emitted == []
  { }

  lemma EmitKeeps(s: System, t: nat)
    requires Inv(s) && Enabled(s, Emit(t))
    ensures Inv(Next(s, Emit(t)))
  {
    var s', th := Next(s, Emit(t)), s.threads[t];
    assert ThreadOk(s, th);
    VersionsKept(s, s');
    assert Emits(s.history) == s'.emitted by { EmittedRecord(s, t); }
    hide VersionsOk, Replay, Emits;
    forall u | 0 <= u < |s.threads| && u != t ensures Undisturbed(s, s', s.threads[u]) && !s.threads[u].pc.Emitting? { }
    assert !SomeoneEmitting(s');
    hide Undisturbed;
    ThreadsKept(s, s', t);
    hide ThreadsOk;
  }

  lemma EmittedRecord(s: System, t: nat)
    requires VersionsOk(s) && ThreadsOk(s) && Enabled(s, Emit(t))
    ensures Emits(s.history) == Next(s, Emit(t)).emitted
  {
    assert ThreadOk(s, s.threads[t]);
    var was := s.threads[t].pc.was;
    assert Faithful(s, was) && Faithful(s, was + 1);
    hide VersionsOk, ThreadsOk;
    assert s.history[..was + 1] == s.history == s.history[..was] + [s.history[was]];
    EmitsSnoc(s.history[..was], s.history[was]);
    EmitsOnce(s.history[..was]);
  }

  lemma StepKeeps(s: System, step: Step)
    requires Inv(s) && Enabled(s, step)
    ensures Inv(Next(s, step))
  {
    hide VersionsOk, ThreadsOk, EmissionOk, Local, Next;
    assert s.states != [];
    match step
    case Load(t) => LoadIsLocal(s, t); LocalKeeps(s, Next(s, step), t);
    case CopyOne(t, key) => CopyIsLocal(s, t, key); LocalKeeps(s, Next(s, step), t);
    case PutOwn(t) => PutIsLocal(s, t); LocalKeeps(s, Next(s, step), t);
    case Swap(t) =>
      if s.threads[t].pc.was == Cur(s) {
        PublishKeeps(s, t);
      } else {
        RetryIsLocal(s, t);
        LocalKeeps(s, Next(s, step), t);
      }
    case Emit(t) => EmitKeeps(s, t);
  }

  lemma {:induction false} RunKeeps(s: System, steps: seq<Step>)
    requires Inv(s) && CanRun(s, steps)
    ensures Inv(Exec(s, steps))
    decreases |steps|
  {
    hide Inv;
    if steps != [] {
      StepKeeps(s, steps[0]);
      RunKeeps(Next(s, steps[0]), steps[1..]);
    }
  }

  lemma BeginInv(ops: seq<Op>)
    ensures Inv(Begin(ops))
  {
    var s := Begin(ops);
    assert s.history[..0] == [];
  }

  // ---------- main results ----------

  lemma {:induction false} OpsStay(s: System, steps: seq<Step>)
    requires CanRun(s, steps)
    ensures var e := Exec(s, steps);
            |e.threads| == |s.threads| && forall t :: 0 <= t < |s.threads| ==> e.threads[t].op == s.threads[t].op
    decreases |steps|
  {
    if steps != [] {
      OpsStay(Next(s, steps[0]), steps[1..]);
    }
  }

  /** In every interleaving the published state is the fold, in swap order, of the updates
      that succeeded; at most one End emits, and what it emits is the fold of all updates
      before it; and no call retries more often than other calls have succeeded. */
  lemma EveryInterleavingLinearises(ops: seq<Op>, steps: seq<Step>)
    requires CanRun(Begin(ops), steps)
    ensures var s := Exec(Begin(ops), steps);
            && |s.states| == |s.history| + 1 && s.states[Cur(s)].attrs < |s.maps|
            && Replay(s.history) == Value(s.maps[s.states[Cur(s)].attrs], s.states[Cur(s)].err, s.states[Cur(s)].ended)
            && |s.emitted| <= 1
            && (s.emitted != [] ==> s.emitted == Emits(s.history))
            && forall t :: 0 <= t < |s.threads| && !s.threads[t].pc.Emitting? && !s.threads[t].pc.Returned? ==>
                 s.threads[t].retries <= |s.history|
  {
    BeginInv(ops);
    RunKeeps(Begin(ops), steps);
    var s := Exec(Begin(ops), steps);
    assert Faithful(s, Cur(s));
    assert s.history[..|s.history|] == s.history;
    EmitsOnce(s.history);
    forall t | 0 <= t < |s.threads| ensures ThreadOk(s, s.threads[t]) { }
  }

  /** The calls in `order` are distinct, are exactly those that have taken effect, and carry
      the operations of the history and of what came too late. */
  ghost predicate Ordered(s: System) {
    && |s.order| == |s.history| + |s.late|
    && (forall i :: 0 <= i < |s.order| ==> s.order[i] < |s.threads| && s.threads[s.order[i]].op == (s.history + s.late)[i])
    && (forall i, j :: 0 <= i < j < |s.order| ==> s.order[i] != s.order[j])
    && (forall t: nat :: t < |s.threads| ==> (Settled(s.threads[t]) <==> t in s.order))
  }

  lemma OrderGrows(s: System, s': System, t: nat)
    requires Ordered(s) && t < |s.threads| && |s'.threads| == |s.threads|
    requires forall u: nat :: u < |s.threads| ==> s'.threads[u].op == s.threads[u].op
    requires forall u: nat :: u < |s.threads| && u != t ==> s'.threads[u] == s.threads[u]
    requires if Settled(s'.threads[t]) && !Settled(s.threads[t]) then
               s'.order == s.order + [t] && s'.history + s'.late == s.history + s.late + [s.threads[t].op]
             else
               s'.order == s.order && s'.history + s'.late == s.history + s.late && (Settled(s'.threads[t]) <==> Settled(s.threads[t]))
    ensures Ordered(s') && s.order <= s'.order
  {
    assert |s'.history + s'.late| == |s'.order|;
    assert forall i :: 0 <= i < |s.order| ==> s'.order[i] == s.order[i] && (s'.history + s'.late)[i] == (s.history + s.late)[i];
  }

  lemma StepKeepsOrder(s: System, step: Step)
    requires Inv(s) && Ordered(s) && Enabled(s, step)
    ensures Ordered(Next(s, step)) && s.order <= Next(s, step).order
  {
    var s', th := Next(s, step), s.threads[step.t];
    assert ThreadOk(s, th);
    assert step.Swap? && th.pc.was == Cur(s) ==> s.late == [];
    hide VersionsOk, ThreadsOk, EmissionOk, ThreadOk, Ordered, Replay;
    assert s.history + (s.late + [th.op]) == s.history + s.late + [th.op];
    assert s.late == [] ==> s.history + [th.op] + s.late == s.history + s.late + [th.op];
    OrderGrows(s, s', step.t);
  }

  lemma {:induction false} RunKeepsOrder(s: System, steps: seq<Step>)
    requires Inv(s) && Ordered(s) && CanRun(s, steps)
    ensures Ordered(Exec(s, steps)) && s.order <= Exec(s, steps).order
    decreases |steps|
  {
    hide Inv, Ordered, Next, Enabled;
    if steps != [] {
      StepKeeps(s, steps[0]);
      StepKeepsOrder(s, steps[0]);
      RunKeepsOrder(Next(s, steps[0]), steps[1..]);
    }
  }

  /** The operations of some calls, in the order of the calls. */
  function InTurn(ops: seq<Op>, order: seq<nat>): seq<Op>
    requires forall i :: 0 <= i < |order| ==> order[i] < |ops|
  {
    seq(|order|, i requires 0 <= i < |order| => ops[order[i]])
  }

  /** Each call exactly once. */
  ghost predicate OfAll(n: nat, order: seq<nat>) {
    && (forall i :: 0 <= i < |order| ==> order[i] < n)
    && (forall i, j :: 0 <= i < j < |order| ==> order[i] != order[j])
    && (forall t: nat :: t < n ==> t in order)
  }

  ghost predicate AllReturned(s: System) {
    forall t :: 0 <= t < |s.threads| ==> s.threads[t].pc.Returned?
  }

  /** What the span holds is what the operations in order leave, late ones included. */
  lemma CurrentIsReplayed(s: System)
    requires VersionsOk(s)
    ensures s.states[Cur(s)].attrs < |s.maps|
    ensures Replay(s.history + s.late) == Value(s.maps[s.states[Cur(s)].attrs], s.states[Cur(s)].err, s.states[Cur(s)].ended)
    ensures Emits(s.history + s.late) == Emits(s.history)
  {
    assert Faithful(s, Cur(s));
    assert s.history[..|s.history|] == s.history;
    LateOpsDoNothing(s.history, s.late);
  }

  /** When all calls have returned, they have taken effect in some order, each exactly once,
      and the span holds and has emitted what that sequential order gives. */
  lemma FinishedRunsAreSequential(ops: seq<Op>, steps: seq<Step>)
    requires CanRun(Begin(ops), steps) && AllReturned(Exec(Begin(ops), steps))
    ensures var s := Exec(Begin(ops), steps);
            && OfAll(|ops|, s.order)
            && s.states != [] && s.states[Cur(s)].attrs < |s.maps|
            && Replay(InTurn(ops, s.order)) == Value(s.maps[s.states[Cur(s)].attrs], s.states[Cur(s)].err, s.states[Cur(s)].ended)
            && s.emitted == Emits(InTurn(ops, s.order))
  {
    BeginInv(ops);
    RunKeeps(Begin(ops), steps);
    assert Ordered(Begin(ops));
    RunKeepsOrder(Begin(ops), steps);
    OpsStay(Begin(ops), steps);
    hide Exec, CanRun, ThreadsOk, Ordered, Replay, Emits, InTurn;
    AllInOrder(ops, Exec(Begin(ops), steps));
    CurrentIsReplayed(Exec(Begin(ops), steps));
  }

  lemma AllInOrder(ops: seq<Op>, s: System)
    requires Ordered(s) && AllReturned(s) && |s.threads| == |ops|
    requires forall t :: 0 <= t < |ops| ==> s.threads[t].op == ops[t]
    ensures OfAll(|ops|, s.order) && InTurn(ops, s.order) == s.history + s.late && !SomeoneEmitting(s)
  { }

  /** A call that returned before another one loaded for the first time precedes it in that
      order, in every continuation of the run. */
  lemma OrderRespectsRealTime(ops: seq<Op>, before: seq<Step>, after: seq<Step>, t: nat, u: nat)
    requires CanRun(Begin(ops), before) && CanRun(Exec(Begin(ops), before), after)
    requires var mid := Exec(Begin(ops), before);
             t < |mid.threads| && u < |mid.threads| && mid.threads[t].pc.Returned? && mid.threads[u].pc.Start?
    ensures var s := Exec(Exec(Begin(ops), before), after);
            exists i :: 0 <= i < |s.order| && s.order[i] == t && forall j :: 0 <= j < |s.order| && s.order[j] == u ==> i < j
  {
    BeginInv(ops);
    RunKeeps(Begin(ops), before);
    RunKeepsOrder(Begin(ops), before);
    var mid := Exec(Begin(ops), before);
    RunKeepsOrder(mid, after);
    hide Exec, CanRun, Inv;
    EarlierFirst(mid, Exec(mid, after), t, u);
  }

  lemma EarlierFirst(mid: System, s: System, t: nat, u: nat)
    requires Ordered(mid) && mid.order <= s.order
    requires t < |mid.threads| && u < |mid.threads| && mid.threads[t].pc.Returned? && mid.threads[u].pc.Start?
    ensures exists i :: 0 <= i < |s.order| && s.order[i] == t && forall j :: 0 <= j < |s.order| && s.order[j] == u ==> i < j
  {
    assert Settled(mid.threads[t]) && !Settled(mid.threads[u]);
    var i :| 0 <= i < |mid.order| && mid.order[i] == t;
    assert s.order[i] == t && forall j :: 0 <= j < |mid.order| ==> s.order[j] == mid.order[j];
  }

  ghost predicate Extends(s: System, e: System) {
    && 1 <= |s.states| <= |e.states| && |s.maps| <= |e.maps|
    && (s.states[Cur(s)].ended ==> e.states == s.states)
    && forall v :: 0 <= v < |s.states| ==>
         e.states[v] == s.states[v] && s.states[v].attrs < |s.maps| && e.maps[s.states[v].attrs] == s.maps[s.states[v].attrs]
  }

  /** A published version and its attribute map never change, and an ended span stays as it is. */
  lemma {:induction false} PublishedNeverChanges(s: System, steps: seq<Step>)
    requires Inv(s) && CanRun(s, steps)
    ensures Extends(s, Exec(s, steps))
    decreases |steps|
  {
    if steps == [] {
      MapsExist(s);
    } else {
      hide VersionsOk, ThreadsOk, EmissionOk, Next, Enabled, Extends;
      StepPublishes(s, steps[0]);
      StepKeeps(s, steps[0]);
      var s1 := Next(s, steps[0]);
      PublishedNeverChanges(s1, steps[1..]);
      ExtendsTransitive(s, s1, Exec(s1, steps[1..]));
    }
  }

  lemma ExtendsTransitive(a: System, b: System, c: System)
    requires Extends(a, b) && Extends(b, c)
    ensures Extends(a, c)
  {
    forall v | 0 <= v < |a.states| ensures c.states[v] == a.states[v] && c.maps[a.states[v].attrs] == a.maps[a.states[v].attrs] {
      assert b.states[v] == a.states[v];
    }
  }

  lemma StepPublishes(s: System, step: Step)
    requires Inv(s) && Enabled(s, step)
    ensures Extends(s, Next(s, step))
  {
    assert ThreadOk(s, s.threads[step.t]);
    MapsExist(s);
    hide Replay, EmissionOk;
    if step.CopyOne? || step.PutOwn? {
      OwnMapOnly(s, Next(s, step), step.t, Next(s, step).maps[s.threads[step.t].pc.own]);
    }
  }

  /** An End that has returned finds the span emitted unless another End is between its
      swap and its emit. */
  lemma EmittedUnlessEmitting(ops: seq<Op>, steps: seq<Step>, t: nat)
    requires CanRun(Begin(ops), steps)
    requires t < |Exec(Begin(ops), steps).threads|
    requires Exec(Begin(ops), steps).threads[t].op.End? && Exec(Begin(ops), steps).threads[t].pc.Returned?
    ensures var s := Exec(Begin(ops), steps);
            |s.emitted| == 1 <==> !SomeoneEmitting(s)
    ensures var s := Exec(Begin(ops), steps);
            forall u :: 0 <= u < |s.threads| && s.threads[u].pc.Emitting? ==> u != t && s.threads[u].op.End?
  {
    BeginInv(ops);
    RunKeeps(Begin(ops), steps);
    var s := Exec(Begin(ops), steps);
    hide Exec, CanRun;
    assert ThreadOk(s, s.threads[t]);
    assert Faithful(s, Cur(s));
    assert s.history[..|s.history|] == s.history;
    EmitsOnce(s.history);
    forall u | 0 <= u < |s.threads| && s.threads[u].pc.Emitting? ensures u != t && s.threads[u].op.End? {
      assert ThreadOk(s, s.threads[u]);
    }
  }

  /** An End can return before anything is emitted if another one overtook it. */
  lemma SecondEndMayReturnFirst(ops: seq<Op>, i: nat, j: nat)
    requires i < |ops| && j < |ops| && i != j && ops[i].End? && ops[j].End?
    ensures var steps := [Load(i), Swap(i), Load(j)];
            CanRun(Begin(ops), steps) &&
            var s := Exec(Begin(ops), steps);
            |s.threads| == |ops| && s.threads[j] == Thread(End, Returned, 0) && s.emitted == []
  {
    var s0 := Begin(ops);
    var s1 := Next(s0, Load(i));
    var s2 := Next(s1, Swap(i));
    var s3 := Next(s2, Load(j));
    var steps := [Load(i), Swap(i), Load(j)];
    assert steps[1..] == [Swap(i), Load(j)] && [Swap(i), Load(j)][1..] == [Load(j)] && [Load(j)][1..] == [];
    assert Exec(s3, []) == s3;
    assert CanRun(s2, [Load(j)]) && Exec(s2, [Load(j)]) == s3;
    assert CanRun(s1, [Swap(i), Load(j)]) && Exec(s1, [Swap(i), Load(j)]) == s3;
  }

  /** In every state of every run of these calls, an End that has returned has been emitted. */
  ghost predicate ReturnedMeansEmitted(ops: seq<Op>) {
    forall steps, t: nat :: CanRun(Begin(ops), steps) && EndReturned(Exec(Begin(ops), steps), t) ==>
      |Exec(Begin(ops), steps).emitted| == 1
  }

  predicate EndReturned(s: System, t: nat) {
    t < |s.threads| && s.threads[t].op.End? && s.threads[t].pc.Returned?
  }

  /** Exactly when a returned End means that the span was emitted: the span's callers make at
      most one call of End. */
  lemma ReturnedEndHasEmittedIff(ops: seq<Op>)
    ensures ReturnedMeansEmitted(ops) <==> forall i, j :: 0 <= i < j < |ops| ==> !(ops[i].End? && ops[j].End?)
  {
    if i, j :| 0 <= i < j < |ops| && ops[i].End? && ops[j].End? {
      SecondEndMayReturnFirst(ops, i, j);
      assert EndReturned(Exec(Begin(ops), [Load(i), Swap(i), Load(j)]), j);
      assert !ReturnedMeansEmitted(ops);
    } else {
      forall steps, t: nat | CanRun(Begin(ops), steps) && EndReturned(Exec(Begin(ops), steps), t)
        ensures |Exec(Begin(ops), steps).emitted| == 1
      {
        EmittedUnlessEmitting(ops, steps, t);
        OpsStay(Begin(ops), steps);
        hide Exec, CanRun;
      }
    }
  }
}
