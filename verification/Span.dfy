/** Lock-free span state (internal/platform/logger/trace_context.go): operations that read
    a published state, build its successor and compare-and-swap the pointer. */
module Span {
  import opened Prelude

  datatype Op = SetAttr(key: string, value: string) | RecordError(err: string) | End

  type Attrs = map<string, string>

  /** What a span state holds. */
  datatype Value = Value(attrs: Attrs, err: Option<string>, ended: bool)

  const BLANK := Value(map[], None, false)

  /** An operation as the caller sees it: nothing happens to an ended span. */
  function Apply(v: Value, op: Op): Value {
    if v.ended then v
    else
      match op
      case SetAttr(key, value) => v.(attrs := v.attrs[key := value])
      case RecordError(err) => v.(err := Some(err))
      case End => v.(ended := true)
  }

  function Replay(ops: seq<Op>): Value {
    if ops == [] then BLANK else Apply(Replay(ops[..|ops| - 1]), ops[|ops| - 1])
  }

  type Record = (Attrs, Option<string>)

  /** What a history emits: the first End reports what the span held just before it. */
  function Emits(ops: seq<Op>): seq<Record> {
    if ops == [] then []
    else
      var before := Replay(ops[..|ops| - 1]);
      Emits(ops[..|ops| - 1]) + if ops[|ops| - 1].End? && !before.ended then [(before.attrs, before.err)] else []
  }

  lemma EmitsSnoc(ops: seq<Op>, op: Op)
    ensures Emits(ops + [op]) == Emits(ops) + if op.End? && !Replay(ops).ended then [(Replay(ops).attrs, Replay(ops).err)] else []
    ensures Replay(ops + [op]) == Apply(Replay(ops), op)
  {
    assert (ops + [op])[..|ops|] == ops;
  }

  /** A history emits once if it ends the span, and otherwise not at all. */
  lemma {:induction false} EmitsOnce(ops: seq<Op>)
    ensures |Emits(ops)| == if Replay(ops).ended then 1 else 0
    ensures Replay(ops).ended <==> End in ops
  {
    if ops != [] {
      EmitsOnce(ops[..|ops| - 1]);
      assert ops == ops[..|ops| - 1] + [ops[|ops| - 1]];
    }
  }

  /** Before the first End. */
  predicate Early(ops: seq<Op>, i: nat) { i < |ops| && End !in ops[..i + 1] }

  /** Operation i is the last early one that sets a key. */
  ghost predicate LastSet(ops: seq<Op>, i: nat, key: string) {
    && Early(ops, i) && ops[i].SetAttr? && ops[i].key == key
    && forall j: nat :: i < j && Early(ops, j) ==> !(ops[j].SetAttr? && ops[j].key == key)
  }

  ghost predicate LastError(ops: seq<Op>, i: nat) {
    && Early(ops, i) && ops[i].RecordError?
    && forall j: nat :: i < j && Early(ops, j) ==> !ops[j].RecordError?
  }

  lemma LastSetSnoc(ops: seq<Op>, key: string, i: nat)
    requires ops != []
    ensures var n := |ops| - 1;
            var sets := Early(ops, n) && ops[n].SetAttr? && ops[n].key == key;
            LastSet(ops, i, key) <==> if i == n then sets else LastSet(ops[..n], i, key) && !sets
  {
    EarlyFront(ops);
    hide Early;
    assert i != |ops| - 1 && LastSet(ops, i, key) ==> i < |ops| - 1;
  }

  lemma LastErrorSnoc(ops: seq<Op>, i: nat)
    requires ops != []
    ensures var n := |ops| - 1;
            var records := Early(ops, n) && ops[n].RecordError?;
            LastError(ops, i) <==> if i == n then records else LastError(ops[..n], i) && !records
  {
    EarlyFront(ops);
    hide Early;
    assert i != |ops| - 1 && LastError(ops, i) ==> i < |ops| - 1;
  }

  /** An operation of a live span takes effect, and one that follows an End does not. */
  lemma ReplayLast(ops: seq<Op>)
    requires ops != []
    ensures var before := Replay(ops[..|ops| - 1]);
            Replay(ops) == Apply(before, ops[|ops| - 1]) && (Early(ops, |ops| - 1) <==> !before.ended && !ops[|ops| - 1].End?)
  {
    EmitsOnce(ops[..|ops| - 1]);
    EarlyFront(ops);
  }

  /** The last writer before the first End wins: a span holds a key exactly if one sets it,
      with the value last set, and likewise the error last recorded. */
  lemma {:induction false} LastWriterWins(ops: seq<Op>, key: string)
    ensures key in Replay(ops).attrs ==> exists i: nat :: LastSet(ops, i, key)
    ensures forall i: nat :: LastSet(ops, i, key) ==> key in Replay(ops).attrs && Replay(ops).attrs[key] == ops[i].value
    ensures Replay(ops).err.Some? ==> exists i: nat :: LastError(ops, i)
    ensures forall i: nat :: LastError(ops, i) ==> Replay(ops).err == Some(ops[i].err)
  {
    if ops == [] {
      assert forall i: nat :: !Early(ops, i);
    } else {
      var front, last, n := ops[..|ops| - 1], ops[|ops| - 1], |ops| - 1;
      LastWriterWins(front, key);
      ReplayLast(ops);
      LastSetSnoc(ops, key, n);
      LastErrorSnoc(ops, n);
      hide Replay;
      forall i: nat ensures LastSet(ops, i, key) ==> key in Replay(ops).attrs && Replay(ops).attrs[key] == ops[i].value {
        LastSetSnoc(ops, key, i);
        LastInside(ops, key, i);
      }
      forall i: nat ensures LastError(ops, i) ==> Replay(ops).err == Some(ops[i].err) {
        LastErrorSnoc(ops, i);
        LastInside(ops, key, i);
      }
      hide LastSet, LastError, Early;
      if key in Replay(ops).attrs && !LastSet(ops, n, key) {
        var i: nat :| LastSet(front, i, key);
        LastSetSnoc(ops, key, i);
        FrontInside(front, key, i);
      }
      if Replay(ops).err.Some? && !LastError(ops, n) {
        var i: nat :| LastError(front, i);
        LastErrorSnoc(ops, i);
        FrontInside(front, key, i);
      }
    }
  }

  lemma LastInside(ops: seq<Op>, key: string, i: nat)
    ensures LastSet(ops, i, key) || LastError(ops, i) ==> i < |ops|
    ensures i < |ops| - 1 ==> ops[..|ops| - 1][i] == ops[i]
  { }

  lemma FrontInside(front: seq<Op>, key: string, i: nat)
    ensures LastSet(front, i, key) || LastError(front, i) ==> i < |front|
  { }

  lemma EarlyFront(ops: seq<Op>)
    requires ops != []
    ensures var front, n := ops[..|ops| - 1], |ops| - 1;
            && (forall i: nat :: i < n ==> (Early(ops, i) <==> Early(front, i)) && ops[i] == front[i])
            && (forall i: nat :: Early(front, i) ==> i < n) && (forall i: nat :: Early(ops, i) ==> i <= n)
            && (Early(ops, n) <==> End !in front && !ops[n].End?)
  {
    var front, n := ops[..|ops| - 1], |ops| - 1;
    forall i: nat | i < n ensures Early(ops, i) <==> Early(front, i) {
      assert ops[..i + 1] == front[..i + 1];
    }
    assert ops[..n + 1] == front + [ops[n]];
  }

  /** What is emitted is what the span held when it ended. */
  lemma {:induction false} EmitsWhatIsHeld(ops: seq<Op>)
    ensures End in ops ==> Emits(ops) == [(Replay(ops).attrs, Replay(ops).err)]
  {
    EmitsOnce(ops);
    if ops != [] {
      var front := ops[..|ops| - 1];
      assert ops == front + [ops[|ops| - 1]];
      EmitsOnce(front);
      EmitsWhatIsHeld(front);
    }
  }

  /** Operations on an ended span leave no trace. */
  lemma {:induction false} LateOpsDoNothing(ops: seq<Op>, late: seq<Op>)
    requires late == [] || Replay(ops).ended
    ensures Replay(ops + late) == Replay(ops) && Emits(ops + late) == Emits(ops)
  {
    if late == [] {
      assert ops + late == ops;
    } else {
      var front := late[..|late| - 1];
      LateOpsDoNothing(ops, front);
      EmitsSnoc(ops + front, late[|late| - 1]);
      assert ops + late == ops + front + [late[|late| - 1]];
    }
  }

  lemma RoundSnoc(rivals: seq<seq<Op>>, i: nat, before: seq<Op>)
    requires i < |rivals|
    ensures before + Flatten(rivals[..i]) + rivals[i] == before + Flatten(rivals[..i + 1])
  {
    FlattenSnoc(rivals[..i], rivals[i]);
    assert rivals[..i + 1] == rivals[..i] + [rivals[i]];
    Associate(before, Flatten(rivals[..i]), rivals[i]);
  }

  // ---------- one span object, with other goroutines between load and swap ----------

  /** A published state; immutable. */
  class SpanState {
    const v: Value
    constructor (v: Value)
      ensures this.v == v
    {
      this.v := v;
    }
  }

  /** The span: an atomic pointer, and what End has emitted. `history` lists all operations
      in the order they took effect. */
  class SpanCell {
    var cur: SpanState
    var emitted: seq<Record>
    ghost var history: seq<Op>

    ghost predicate Valid()
      reads this
    {
      cur.v == Replay(history) && emitted == Emits(history)
    }

    constructor ()
      ensures Valid() && history == [] && emitted == []
    {
      cur := new SpanState(BLANK);
      emitted, history := [], [];
    }

    method CompareAndSwap(old_: SpanState, next: SpanState) returns (swapped: bool)
      modifies this`cur
      ensures swapped <==> old(cur) == old_
      ensures cur == if swapped then next else old(cur)
    {
      swapped := cur == old_;
      if swapped {
        cur := next;
      }
    }

    method Rival(op: Op)
      requires Valid()
      modifies this
      ensures Valid() && history == old(history) + [op]
    {
      EmitsSnoc(history, op);
      history := history + [op];
      if op.End? && !cur.v.ended {
        emitted := emitted + [(cur.v.attrs, cur.v.err)];
      }
      var next := new SpanState(Apply(cur.v, op));
      cur := next;
    }

    /** What other goroutines do in the meantime. */
    method Meanwhile(ops: seq<Op>)
      requires Valid()
      modifies this
      ensures Valid() && history == old(history) + ops
      ensures ops == [] ==> cur == old(cur)
    {
      for i := 0 to |ops|
        invariant Valid() && history == old(history) + ops[..i]
        invariant i == 0 ==> cur == old(cur)
      {
        assert ops[..i + 1] == ops[..i] + [ops[i]];
        Rival(ops[i]);
      }
    }

    method CopyWith(attrs: Attrs, key: string, value: string) returns (out: Attrs)
      ensures out == attrs[key := value]
    {
      out := map[];
      var todo := attrs.Keys;
      while todo != {}
        invariant todo <= attrs.Keys
        invariant out == map k | k in attrs && k !in todo :: attrs[k]
        decreases todo
      {
        var k :| k in todo;
        out := out[k := attrs[k]];
        todo := todo - {k};
      }
      out := out[key := value];
    }

    /** The retry loop of SetAttr, against rivals that act between its loads and swaps: it
        takes effect exactly once, atomically, after some number of rival rounds. */
    method Set(key: string, value: string, rivals: seq<seq<Op>>) returns (ghost rounds: nat)
      requires Valid()
      modifies this
      ensures Valid() && rounds <= |rivals|
      ensures history == old(history) + Flatten(rivals[..rounds]) + [SetAttr(key, value)]
    {
      rounds := 0;
      var i := 0;
      assert history == history + Flatten(rivals[..0]);
      hide Flatten, Replay, Emits;
      while true
        invariant Valid() && i == rounds <= |rivals|
        invariant history == old(history) + Flatten(rivals[..rounds])
        decreases |rivals| - i
      {
        var was := cur;
        if was.v.ended {
          EmitsSnoc(history, SetAttr(key, value));
          history := history + [SetAttr(key, value)];
          return;
        }
        var newAttrs := CopyWith(was.v.attrs, key, value);
        var next := new SpanState(was.v.(attrs := newAttrs));
        if i < |rivals| {
          RoundSnoc(rivals, i, old(history));
          Meanwhile(rivals[i]);
          rounds, i := rounds + 1, i + 1;
        }
        var swapped := CompareAndSwap(was, next);
        if swapped {
          EmitsSnoc(history, SetAttr(key, value));
          history := history + [SetAttr(key, value)];
          return;
        }
      }
    }

    /** The retry loop of RecordError. */
    method Record(err: string, rivals: seq<seq<Op>>) returns (ghost rounds: nat)
      requires Valid()
      modifies this
      ensures Valid() && rounds <= |rivals|
      ensures history == old(history) + Flatten(rivals[..rounds]) + [RecordError(err)]
    {
      rounds := 0;
      var i := 0;
      assert history == history + Flatten(rivals[..0]);
      hide Flatten, Replay, Emits;
      while true
        invariant Valid() && i == rounds <= |rivals|
        invariant history == old(history) + Flatten(rivals[..rounds])
        decreases |rivals| - i
      {
        var was := cur;
        if was.v.ended {
          EmitsSnoc(history, RecordError(err));
          history := history + [RecordError(err)];
          return;
        }
        var next := new SpanState(was.v.(err := Some(err)));
        if i < |rivals| {
          RoundSnoc(rivals, i, old(history));
          Meanwhile(rivals[i]);
          rounds, i := rounds + 1, i + 1;
        }
        var swapped := CompareAndSwap(was, next);
        if swapped {
          EmitsSnoc(history, RecordError(err));
          history := history + [RecordError(err)];
          return;
        }
      }
    }

    /** The retry loop of End: the first one emits what the span held just before it. */
    method Finish(rivals: seq<seq<Op>>) returns (ghost rounds: nat)
      requires Valid()
      modifies this
      ensures Valid() && rounds <= |rivals| && cur.v.ended
      ensures history == old(history) + Flatten(rivals[..rounds]) + [End]
    {
      rounds := 0;
      var i := 0;
      assert history == history + Flatten(rivals[..0]);
      hide Flatten, Replay, Emits;
      while true
        invariant Valid() && i == rounds <= |rivals|
        invariant history == old(history) + Flatten(rivals[..rounds])
        decreases |rivals| - i
      {
        var was := cur;
        if was.v.ended {
          EmitsSnoc(history, End);
          history := history + [End];
          return;
        }
        var next := new SpanState(was.v.(ended := true));
        if i < |rivals| {
          RoundSnoc(rivals, i, old(history));
          Meanwhile(rivals[i]);
          rounds, i := rounds + 1, i + 1;
        }
        var swapped := CompareAndSwap(was, next);
        if swapped {
          EmitsSnoc(history, End);
          history := history + [End];
          emitted := emitted + [(was.v.attrs, was.v.err)];
          return;
        }
      }
    }
  }
}
