/** Committed scrollback is the ordered projection of the events of a run, whatever the
    preview drains and however producer and consumer interleave on the control channel. */
module Scrollback {
  import opened Prelude
  import opened Llm
  import opened LlmApp
  import EventGrammar

  // ---------- the projection, defined on events alone ----------

  function Spoken(e: Event): string {
    if e.Text? && !e.thinking then e.text else ""
  }

  /** All visible text. */
  function Visible(es: seq<Event>): string {
    if es == [] then "" else Visible(es[..|es| - 1]) + Spoken(es[|es| - 1])
  }

  function Thoughts(es: seq<Event>): string {
    if es == [] then ""
    else Thoughts(es[..|es| - 1]) + if es[|es| - 1].Text? && es[|es| - 1].thinking then es[|es| - 1].text else ""
  }

  predicate Thought(es: seq<Event>) {
    exists i :: 0 <= i < |es| && es[i].Text? && es[i].thinking
  }

  /** Just after the last tool call, tool result or finish. */
  function Cut(es: seq<Event>): (n: nat)
    ensures n <= |es|
  {
    if es == [] then 0 else if Boundary(es[|es| - 1]) then |es| else Cut(es[..|es| - 1])
  }

  /** The visible text since then: the maximal segment still open. */
  function Segment(es: seq<Event>): string {
    Visible(es[Cut(es)..])
  }

  /** The latest call of an id, or -1. */
  function LatestCall(es: seq<Event>, id: string): (i: int)
    ensures -1 <= i < |es|
    ensures i >= 0 ==> es[i].CallEvent? && es[i].use.id == id
    ensures forall j :: i < j < |es| && es[j].CallEvent? ==> es[j].use.id != id
  {
    if es == [] then -1
    else
      var last := es[|es| - 1];
      if last.CallEvent? && last.use.id == id then |es| - 1 else LatestCall(es[..|es| - 1], id)
  }

  function NameOf(es: seq<Event>, id: string): string {
    var i := LatestCall(es, id);
    if i < 0 then "" else es[i].use.name
  }

  /** The latest result that answers the call at position i: one of its id with no later
      call of that id in between. */
  function AnswerTo(es: seq<Event>, i: nat): Option<Event>
    requires i < |es| && es[i].CallEvent?
    decreases |es|
  {
    if |es| == i + 1 then None
    else
      var front, last := es[..|es| - 1], es[|es| - 1];
      if last.ResultEvent? && last.result.toolUseId == es[i].use.id && LatestCall(front, es[i].use.id) == i then Some(last)
      else AnswerTo(front, i)
  }

  function StateOf(answer: Option<Event>, name: string): ToolState {
    if name != "" && answer.Some? && answer.value.ResultEvent? then
      if answer.value.result.isError then Errored else Resolved
    else Running
  }

  function Segments(es: seq<Event>, e: Event): seq<Node> {
    if Boundary(e) && Segment(es) != "" then
      [MessageNode(Segment(es), SpeakerAssistant, e.Finish? && e.finish == FinishLength, false)]
    else []
  }

  /** What an event puts on the scrollback besides the segment it seals. */
  function Own(strip: bool, before: seq<Event>, e: Event, state: ToolState): seq<Node> {
    match e
    case CallEvent(_, use) => [ToolUseNode(use.id, use.name, use.input, state)]
    case ResultEvent(_, r, cached) =>
      var name := NameOf(before, r.toolUseId);
      if name == "" then [] else [ToolResultNode(r.toolUseId, name, r.content, r.isError, cached)]
    case Finish(_, finish, termCode, err) =>
      if finish == FinishUnset then []
      else
        FinishNodes(finish, termCode, err, Thought(before), if strip then "" else Thoughts(before),
                    Visible(before) != "", Segment(before) != "" && finish == FinishLength)
    case _ => []
  }

  function StateAt(es: seq<Event>, i: nat): ToolState
    requires i < |es|
  {
    if es[i].CallEvent? then StateOf(AnswerTo(es, i), es[i].use.name) else Running
  }

  /** What event i contributes to the scrollback of a run with events es. */
  function NodesAt(strip: bool, es: seq<Event>, i: nat): seq<Node>
    requires i < |es|
  {
    Segments(es[..i], es[i]) + Own(strip, es[..i], es[i], StateAt(es, i))
  }

  function ProjectionTo(strip: bool, es: seq<Event>, n: nat): seq<Node>
    requires n <= |es|
  {
    if n == 0 then [] else ProjectionTo(strip, es, n - 1) + NodesAt(strip, es, n - 1)
  }

  /** The scrollback a run's events call for. */
  function Projection(strip: bool, es: seq<Event>): seq<Node> {
    ProjectionTo(strip, es, |es|)
  }

  /** The tool timeline: each call with its latest answer. */
  function TimelineTo(es: seq<Event>, n: nat): seq<ToolEvent>
    requires n <= |es|
  {
    if n == 0 then []
    else
      TimelineTo(es, n - 1) +
        if es[n - 1].CallEvent? then [TimelineEntry(es[n - 1].use, AnswerTo(es, n - 1))] else []
  }

  function TimelineEntry(use: ToolUse, answer: Option<Event>): ToolEvent {
    if answer.Some? && answer.value.ResultEvent? then
      ToolEvent(use.name, use.input, answer.value.result.content, answer.value.result.isError, answer.value.cached)
    else ToolEvent(use.name, use.input, "", false, false)
  }

  // ---------- one event more ----------

  lemma Snoc(es: seq<Event>, e: Event)
    ensures var all := es + [e]; all[..|all| - 1] == es && all[|all| - 1] == e
  { }

  lemma SegmentSnoc(es: seq<Event>, e: Event)
    ensures Segment(es + [e]) == if Boundary(e) then "" else Segment(es) + Spoken(e)
  {
    Snoc(es, e);
    var all := es + [e];
    if !Boundary(e) {
      assert all[Cut(es)..] == es[Cut(es)..] + [e];
      Snoc(es[Cut(es)..], e);
    }
  }

  lemma VisibleNothing()
    ensures Visible([]) == ""
  { }

  lemma VisibleLast(es: seq<Event>)
    requires es != []
    ensures Visible(es) == Visible(es[..|es| - 1]) + Spoken(es[|es| - 1])
  { }

  lemma {:induction false} VisibleSplits(es: seq<Event>, n: nat)
    requires n <= |es|
    ensures Visible(es) == Visible(es[..n]) + Visible(es[n..])
    decreases |es|
  {
    hide Visible, Spoken;
    if n == |es| {
      VisibleNothing();
      assert es[..n] == es && es[n..] == [];
    } else {
      var front := es[..|es| - 1];
      VisibleSplits(front, n);
      var tail := es[n..];
      VisibleLast(es);
      VisibleLast(tail);
      assert front[..n] == es[..n] && front[n..] == tail[..|tail| - 1];
      Associate(Visible(es[..n]), Visible(front[n..]), Spoken(es[|es| - 1]));
    }
  }

  /** A later event can only change a call's state, and only by answering it. */
  lemma AnswerSnoc(es: seq<Event>, e: Event, i: nat)
    requires i < |es| && es[i].CallEvent?
    ensures AnswerTo(es + [e], i) ==
              if e.ResultEvent? && e.result.toolUseId == es[i].use.id && LatestCall(es, es[i].use.id) == i then Some(e)
              else AnswerTo(es, i)
  {
    Snoc(es, e);
  }

  lemma AnswersAreResults(es: seq<Event>, i: nat)
    requires i < |es| && es[i].CallEvent?
    ensures AnswerTo(es, i).Some? ==> AnswerTo(es, i).value.ResultEvent?
    decreases |es|
  {
    if |es| > i + 1 { AnswersAreResults(es[..|es| - 1], i); }
  }

  // ---------- transitions ----------

  predicate NoUse(sb: seq<Node>, id: string) {
    forall i :: 0 <= i < |sb| ==> !(sb[i].ToolUseNode? && sb[i].id == id)
  }

  lemma {:induction false} TransitionPastOthers(a: seq<Node>, b: seq<Node>, id: string, state: ToolState)
    requires NoUse(b, id)
    ensures Transition(a + b, id, state) == Transition(a, id, state) + b
  {
    if b == [] {
      assert a + b == a;
    } else {
      var front := b[..|b| - 1];
      assert (a + b)[..|a + b| - 1] == a + front;
      TransitionPastOthers(a, front, id, state);
      assert front + [b[|b| - 1]] == b;
    }
  }

  lemma {:induction false} TransitionInside(a: seq<Node>, b: seq<Node>, id: string, state: ToolState)
    requires !NoUse(b, id)
    ensures Transition(a + b, id, state) == a + Transition(b, id, state)
  {
    var front, last := b[..|b| - 1], b[|b| - 1];
    assert (a + b)[..|a + b| - 1] == a + front;
    if last.ToolUseNode? && last.id == id {
      assert a + front + [last.(state := state)] == a + (front + [last.(state := state)]);
    } else {
      TransitionInside(a, front, id, state);
    }
  }

  lemma FinishNodesUseNothing(finish: FinishReason, termCode: string, err: Option<Error>, t: bool, s: string, c: bool, i: bool, id: string)
    ensures NoUse(FinishNodes(finish, termCode, err, t, s, c, i), id)
  { }

  lemma NodesUseOnlyTheirCall(strip: bool, es: seq<Event>, i: nat, id: string)
    requires i < |es| && !(es[i].CallEvent? && es[i].use.id == id)
    ensures NoUse(NodesAt(strip, es, i), id)
  {
    hide FinishNodes, Visible, Thoughts, Thought, Segment, NameOf, AnswerTo, StateOf;
    var e, before := es[i], es[..i];
    if e.Finish? {
      FinishNodesUseNothing(e.finish, e.termCode, e.err, Thought(before), if strip then "" else Thoughts(before),
                            Visible(before) != "", Segment(before) != "" && e.finish == FinishLength, id);
    }
    var own := Own(strip, before, e, StateAt(es, i));
    assert NoUse(own, id) && NoUse(Segments(before, e), id);
    UseInside(Segments(before, e), own, id);
  }

  /** An event changes what earlier events contribute only if it answers a named call. */
  lemma SameState(es: seq<Event>, e: Event, i: nat)
    requires i < |es| && es[i].CallEvent?
    requires !(e.ResultEvent? && NameOf(es, e.result.toolUseId) != "" && LatestCall(es, e.result.toolUseId) == i)
    ensures StateAt(es + [e], i) == StateAt(es, i)
  {
    AnswerSnoc(es, e, i);
    hide AnswerTo, LatestCall;
  }

  lemma NodesSnoc(strip: bool, es: seq<Event>, e: Event, i: nat)
    requires i < |es|
    requires !(e.ResultEvent? && NameOf(es, e.result.toolUseId) != "" && LatestCall(es, e.result.toolUseId) == i)
    ensures NodesAt(strip, es + [e], i) == NodesAt(strip, es, i)
  {
    hide Own, StateAt, Segments, LatestCall, NameOf;
    var all := es + [e];
    assert all[..i] == es[..i] && all[i] == es[i];
    if es[i].CallEvent? {
      SameState(es, e, i);
    } else {
      NoState(all, i);
      NoState(es, i);
    }
  }

  lemma NoState(es: seq<Event>, i: nat)
    requires i < |es| && !es[i].CallEvent?
    ensures StateAt(es, i) == Running
  { }

  lemma AnsweredNode(strip: bool, es: seq<Event>, e: Event)
    requires e.ResultEvent? && NameOf(es, e.result.toolUseId) != ""
    ensures var i := LatestCall(es, e.result.toolUseId);
            var st := if e.result.isError then Errored else Resolved;
            && !NoUse(NodesAt(strip, es, i), e.result.toolUseId)
            && NodesAt(strip, es + [e], i) == Transition(NodesAt(strip, es, i), e.result.toolUseId, st)
  {
    var i := LatestCall(es, e.result.toolUseId);
    assert (es + [e])[..i] == es[..i];
    AnswerSnoc(es, e, i);
    hide AnswerTo, Segments, LatestCall;
    var seal, own := Segments(es[..i], es[i]), Own(strip, es[..i], es[i], StateAt(es, i));
    assert own[0].ToolUseNode? && own[0].id == e.result.toolUseId;
    UseInside(seal, own, e.result.toolUseId);
    TransitionInside(seal, own, e.result.toolUseId, if e.result.isError then Errored else Resolved);
    assert own[..0] == [];
  }

  lemma {:induction false} ProjectionSnocPlain(strip: bool, es: seq<Event>, e: Event, n: nat)
    requires n <= |es|
    requires !(e.ResultEvent? && NameOf(es, e.result.toolUseId) != "" && LatestCall(es, e.result.toolUseId) < n)
    ensures ProjectionTo(strip, es + [e], n) == ProjectionTo(strip, es, n)
  {
    hide NodesAt;
    if n > 0 {
      ProjectionSnocPlain(strip, es, e, n - 1);
      NodesSnoc(strip, es, e, n - 1);
    }
  }

  lemma {:induction false} ProjectionSnocAnswer(strip: bool, es: seq<Event>, e: Event, n: nat)
    requires n <= |es| && e.ResultEvent? && NameOf(es, e.result.toolUseId) != ""
    requires LatestCall(es, e.result.toolUseId) < n
    ensures !NoUse(ProjectionTo(strip, es, n), e.result.toolUseId)
    ensures ProjectionTo(strip, es + [e], n) ==
              Transition(ProjectionTo(strip, es, n), e.result.toolUseId, if e.result.isError then Errored else Resolved)
  {
    hide NodesAt, Transition, NoUse;
    var id, st := e.result.toolUseId, if e.result.isError then Errored else Resolved;
    var p, nodes := ProjectionTo(strip, es, n - 1), NodesAt(strip, es, n - 1);
    if LatestCall(es, id) == n - 1 {
      ProjectionSnocPlain(strip, es, e, n - 1);
      AnsweredNode(strip, es, e);
      UseInside(p, nodes, id);
      TransitionInside(p, nodes, id, st);
    } else {
      ProjectionSnocAnswer(strip, es, e, n - 1);
      NodesSnoc(strip, es, e, n - 1);
      NodesUseOnlyTheirCall(strip, es, n - 1, id);
      UseInside(p, nodes, id);
      TransitionPastOthers(p, nodes, id, st);
    }
  }

  lemma UseInside(a: seq<Node>, b: seq<Node>, id: string)
    ensures NoUse(a + b, id) <==> NoUse(a, id) && NoUse(b, id)
  {
    if NoUse(a + b, id) {
      forall i | 0 <= i < |a| ensures !(a[i].ToolUseNode? && a[i].id == id) { assert (a + b)[i] == a[i]; }
      forall i | 0 <= i < |b| ensures !(b[i].ToolUseNode? && b[i].id == id) { assert (a + b)[|a| + i] == b[i]; }
    }
  }

  // ---------- the consumer, over the controls of some events ----------

  /** The committed part of a model: everything but the preview. */
  function Committed(m: Model): Model {
    m.(previewNodes := [])
  }

  /** Committed output does not depend on what the preview drained. */
  lemma PreviewIsIrrelevant(m: Model, c: Control, drained: seq<Node>)
    ensures Committed(HandleControl(m, c, drained)) == HandleControl(Committed(m), c, []).(previewNodes := [])
  {
    hide FinishNodes, Transition, FilterThinkingOnlyEmpty;
  }

  function Fold(m: Model, cs: seq<Control>): Model {
    if cs == [] then m else Committed(HandleControl(Fold(m, cs[..|cs| - 1]), cs[|cs| - 1], []))
  }

  lemma FoldOne(m: Model, c: Control)
    ensures Fold(m, [c]) == Committed(HandleControl(m, c, []))
  {
    assert [c][..0] == [];
    assert Fold(m, [c][..0]) == m;
  }

  lemma {:induction false} FoldAppend(m: Model, a: seq<Control>, b: seq<Control>)
    ensures Fold(m, a + b) == Fold(Fold(m, a), b)
  {
    if b == [] {
      assert a + b == a;
    } else {
      assert (a + b)[..|a + b| - 1] == a + b[..|b| - 1];
      FoldAppend(m, a, b[..|b| - 1]);
    }
  }

  /** The model after the controls of a prefix `es` without a finish. */
  ghost predicate ShowsNodes(strip: bool, start: Model, es: seq<Event>, m: Model) {
    && m.scrollback == start.scrollback + Projection(strip, es)
    && forall id :: Named(m, id) == NameOf(es, id)
  }

  ghost predicate ShowsFlags(strip: bool, start: Model, es: seq<Event>, m: Model) {
    && (m.sawContent <==> Visible(es[..Cut(es)]) != "")
    && m.sawThinking == Thought(es)
    && m.thinkingBuf == (if strip then "" else Thoughts(es))
    && !m.sealedTruncated
    && m.lastSnapshot == start.lastSnapshot
    && m.previewNodes == []
  }

  function Named(m: Model, id: string): string {
    if id in m.toolUseNames then m.toolUseNames[id] else ""
  }

  /** The producer after the same events. */
  ghost predicate Holds(es: seq<Event>, p: Producer) {
    && p.seg == Segment(es)
    && p.cap.answer == Visible(es)
    && Indexed(p.cap)
    && p.cap.timeline == TimelineTo(es, |es|)
    && (forall id :: id in p.cap.idIndex <==> LatestCall(es, id) >= 0)
    && (forall id :: id in p.cap.idIndex ==> p.cap.idIndex[id] == |TimelineTo(es, LatestCall(es, id))|)
  }

  const FRESH := Producer("", Captured("", [], map[]))

  ghost predicate Started(start: Model) {
    && start.toolUseNames == map[] && !start.sawContent && !start.sawThinking && start.thinkingBuf == ""
    && !start.sealedTruncated && start.previewNodes == []
  }

  // the snapshot

  lemma {:induction false} TimelineSnoc(es: seq<Event>, e: Event, n: nat)
    requires n <= |es|
    ensures var i := if e.ResultEvent? then LatestCall(es, e.result.toolUseId) else -1;
            && |TimelineTo(es + [e], n)| == |TimelineTo(es, n)|
            && (0 <= i < n ==> |TimelineTo(es, i)| < |TimelineTo(es, n)|)
            && TimelineTo(es + [e], n) ==
                 if 0 <= i < n then TimelineTo(es, n)[|TimelineTo(es, i)| := TimelineEntry(es[i].use, Some(e))]
                 else TimelineTo(es, n)
  {
    if n > 0 {
      TimelineSnoc(es, e, n - 1);
      if es[n - 1].CallEvent? {
        AnswerSnoc(es, e, n - 1);
      }
      hide AnswerTo, LatestCall;
    }
  }

  lemma IndexHolds(es: seq<Event>, e: Event, p: Producer, id: string)
    requires Holds(es, p)
    ensures var idIndex := After(p, e).cap.idIndex;
            && (id in idIndex <==> LatestCall(es + [e], id) >= 0)
            && (id in idIndex ==> idIndex[id] == |TimelineTo(es + [e], LatestCall(es + [e], id))|)
  {
    Snoc(es, e);
    if LatestCall(es + [e], id) >= 0 {
      TimelineSnoc(es, e, LatestCall(es + [e], id));
    }
    hide TimelineTo, AnswerTo, Segment, Visible;
  }

  lemma {:induction false} TimelineAt(es: seq<Event>, i: nat, n: nat)
    requires i < n <= |es| && es[i].CallEvent?
    ensures |TimelineTo(es, i)| < |TimelineTo(es, n)|
    ensures TimelineTo(es, n)[|TimelineTo(es, i)|] == TimelineEntry(es[i].use, AnswerTo(es, i))
  {
    hide AnswerTo, TimelineEntry;
    if i < n - 1 {
      TimelineAt(es, i, n - 1);
    }
  }

  lemma TimelineHolds(es: seq<Event>, e: Event, p: Producer)
    requires Holds(es, p)
    ensures After(p, e).cap.timeline == TimelineTo(es + [e], |es| + 1)
  {
    Snoc(es, e);
    TimelineSnoc(es, e, |es|);
    var all := es + [e];
    assert TimelineTo(all, |es| + 1) == TimelineTo(all, |es|)
             + if e.CallEvent? then [TimelineEntry(e.use, AnswerTo(all, |es|))] else [];
    if e.ResultEvent? && LatestCall(es, e.result.toolUseId) >= 0 {
      TimelineAt(es, LatestCall(es, e.result.toolUseId), |es|);
      assert p.cap.idIndex[e.result.toolUseId] == |TimelineTo(es, LatestCall(es, e.result.toolUseId))|;
    } else if e.CallEvent? {
      assert AnswerTo(all, |es|) == None;
    }
    hide Segment, Visible, LatestCall, TimelineTo, AnswerTo;
    assert After(p, e).cap.timeline + [] == After(p, e).cap.timeline;
  }

  lemma ProducerHolds(es: seq<Event>, e: Event, p: Producer)
    requires Holds(es, p)
    ensures Holds(es + [e], After(p, e))
  {
    Snoc(es, e);
    SegmentSnoc(es, e);
    TimelineHolds(es, e, p);
    forall id
      ensures id in After(p, e).cap.idIndex <==> LatestCall(es + [e], id) >= 0
      ensures id in After(p, e).cap.idIndex ==>
                After(p, e).cap.idIndex[id] == |TimelineTo(es + [e], LatestCall(es + [e], id))|
    {
      IndexHolds(es, e, p, id);
    }
    hide AnswerTo, Segment, TimelineTo, LatestCall;
  }

  // the scrollback

  /** How the projection grows with an event. */
  lemma ProjectionStep(strip: bool, es: seq<Event>, e: Event)
    ensures var answers := e.ResultEvent? && NameOf(es, e.result.toolUseId) != "";
            && Projection(strip, es + [e]) ==
                 (if answers then Transition(Projection(strip, es), e.result.toolUseId, if e.result.isError then Errored else Resolved)
                  else Projection(strip, es)) + NodesAt(strip, es + [e], |es|)
            && (answers ==> !NoUse(Projection(strip, es), e.result.toolUseId))
  {
    hide NodesAt, Transition, NoUse;
    assert ProjectionTo(strip, es + [e], |es| + 1) == ProjectionTo(strip, es + [e], |es|) + NodesAt(strip, es + [e], |es|);
    hide ProjectionTo;
    if e.ResultEvent? && NameOf(es, e.result.toolUseId) != "" {
      ProjectionSnocAnswer(strip, es, e, |es|);
    } else {
      ProjectionSnocPlain(strip, es, e, |es|);
    }
  }

  function Sealing(es: seq<Event>, truncated: bool): seq<Node> {
    if Segment(es) == "" then [] else [MessageNode(Segment(es), SpeakerAssistant, truncated, false)]
  }

  /** What an event adds at the end of the scrollback when it arrives. */
  function Added(strip: bool, es: seq<Event>, e: Event): seq<Node> {
    match e
    case CallEvent(_, use) => Sealing(es, false) + [ToolUseNode(use.id, use.name, use.input, Running)]
    case ResultEvent(_, r, cached) =>
      var name := NameOf(es, r.toolUseId);
      Sealing(es, false) + if name == "" then [] else [ToolResultNode(r.toolUseId, name, r.content, r.isError, cached)]
    case Finish(_, finish, termCode, err) =>
      Sealing(es, finish == FinishLength) +
        if finish == FinishUnset then []
        else FinishNodes(finish, termCode, err, Thought(es), if strip then "" else Thoughts(es),
                         Visible(es) != "", Segment(es) != "" && finish == FinishLength)
    case _ => []
  }

  lemma NewNodes(strip: bool, es: seq<Event>, e: Event)
    ensures NodesAt(strip, es + [e], |es|) == Added(strip, es, e)
  {
    var all := es + [e];
    assert all[..|es|] == es && all[|es|] == e;
    assert StateAt(all, |es|) == Running;
    hide FinishNodes, Visible, Thoughts, Thought, Segment, NameOf, AnswerTo, StateAt;
  }

  // what the controls of one event do to the committed model

  function WithSeal(m: Model, seg: string, truncated: bool): Model {
    if seg == "" then m
    else m.(scrollback := m.scrollback + [MessageNode(seg, SpeakerAssistant, truncated, false)],
            sawContent := true, sealedTruncated := truncated)
  }

  function Effect(strip: bool, m: Model, seg: string, e: Event): Model {
    match e
    case Text(_, text, thinking) =>
      if thinking then m.(sawThinking := true, thinkingBuf := m.thinkingBuf + if strip then "" else text) else m
    case CallEvent(_, use) =>
      var s := WithSeal(m, seg, false);
      s.(toolUseNames := s.toolUseNames[use.id := use.name],
         scrollback := s.scrollback + [ToolUseNode(use.id, use.name, use.input, Running)])
    case ResultEvent(_, r, cached) =>
      var s := WithSeal(m, seg, false);
      var name := Named(m, r.toolUseId);
      if name == "" then s
      else s.(scrollback := Transition(s.scrollback, r.toolUseId, if r.isError then Errored else Resolved)
                + [ToolResultNode(r.toolUseId, name, r.content, r.isError, cached)])
    case _ => m
  }

  lemma SealEffect(m: Model, p: Producer, truncated: bool)
    requires m.previewNodes == []
    ensures Fold(m, SealSegment(p, truncated)) == WithSeal(m, p.seg, truncated)
  {
    assert Fold(m, []) == m;
    hide Fold;
    if p.seg != "" {
      FoldOne(m, Sealed(p.seg, truncated));
    }
  }

  lemma QuietEffect(strip: bool, prompt: string, m: Model, p: Producer, e: Event)
    requires m.previewNodes == [] && Indexed(p.cap) && !Boundary(e)
    ensures Fold(m, Controls(strip, prompt, p, e)) == Effect(strip, m, p.seg, e)
  {
    assert Fold(m, []) == m;
    hide Fold, Transition, FilterThinkingOnlyEmpty, FinishNodes;
    if e.Text? {
      FoldOne(m, if e.thinking then Thinking(if strip then "" else e.text) else PreviewTick);
    }
  }

  lemma SealKeepsNames(m: Model, seg: string)
    requires m.previewNodes == []
    ensures WithSeal(m, seg, false).previewNodes == []
    ensures WithSeal(m, seg, false).toolUseNames == m.toolUseNames
  { }

  lemma ControlsEffect(strip: bool, prompt: string, m: Model, p: Producer, e: Event)
    requires m.previewNodes == [] && Indexed(p.cap) && !e.Finish?
    ensures Fold(m, Controls(strip, prompt, p, e)) == Effect(strip, m, p.seg, e)
  {
    hide Fold, SealSegment, Transition, FilterThinkingOnlyEmpty, FinishNodes, WithSeal;
    if Boundary(e) {
      SealEffect(m, p, false);
      var s := WithSeal(m, p.seg, false);
      var c := if e.CallEvent? then Use(e.use) else Reply(e.result, e.cached);
      FoldAppend(m, SealSegment(p, false), [c]);
      FoldOne(s, c);
      SealKeepsNames(m, p.seg);
    } else {
      QuietEffect(strip, prompt, m, p, e);
    }
  }

  lemma NamesSnoc(es: seq<Event>, e: Event, id: string)
    ensures NameOf(es + [e], id) == if e.CallEvent? && e.use.id == id then e.use.name else NameOf(es, id)
  {
    Snoc(es, e);
  }

  lemma ThoughtsSnoc(es: seq<Event>, e: Event)
    ensures Thought(es + [e]) <==> Thought(es) || (e.Text? && e.thinking)
    ensures Thoughts(es + [e]) == Thoughts(es) + if e.Text? && e.thinking then e.text else ""
  {
    var all := es + [e];
    Snoc(es, e);
    if Thought(es) {
      var i :| 0 <= i < |es| && es[i].Text? && es[i].thinking;
      assert all[i] == es[i];
    }
    if e.Text? && e.thinking {
      assert all[|es|] == e;
    }
  }

  lemma VisibleSnoc(es: seq<Event>, e: Event)
    ensures Visible(es + [e]) == Visible(es) + Spoken(e)
    ensures Cut(es + [e]) == if Boundary(e) then |es| + 1 else Cut(es)
  {
    Snoc(es, e);
  }

  lemma SealedVisible(es: seq<Event>)
    ensures Visible(es) == Visible(es[..Cut(es)]) + Segment(es)
  {
    VisibleSplits(es, Cut(es));
  }

  /** The flags see exactly what has been sealed and thought. */
  lemma FlagsEffect(strip: bool, start: Model, es: seq<Event>, m: Model, e: Event)
    requires !e.Finish?
    ensures ShowsFlags(strip, start, es, m) ==> ShowsFlags(strip, start, es + [e], Effect(strip, m, Segment(es), e))
  {
    hide Visible, Cut, Thought, Thoughts, Transition;
    ThoughtsSnoc(es, e);
    VisibleSnoc(es, e);
    SealedVisible(es);
    var all := es + [e];
    if Boundary(e) {
      assert all[..|es| + 1] == all;
    } else {
      assert all[..Cut(es)] == es[..Cut(es)];
    }
  }

  lemma SealAppends(m: Model, es: seq<Event>, truncated: bool)
    ensures WithSeal(m, Segment(es), truncated).scrollback == m.scrollback + Sealing(es, truncated)
  {
    hide Segment;
  }

  lemma CallNodes(strip: bool, shown: seq<Node>, proj: seq<Node>, es: seq<Event>, m: Model, e: Event)
    requires m.scrollback == shown + proj && e.CallEvent?
    ensures Effect(strip, m, Segment(es), e).scrollback == shown + (proj + Added(strip, es, e))
  {
    SealAppends(m, es, false);
    hide Segment, NameOf, Sealing, WithSeal;
    var last := [ToolUseNode(e.use.id, e.use.name, e.use.input, Running)];
    var seal := Sealing(es, false);
    Associate(shown, proj, seal);
    Associate(shown, proj + seal, last);
    Associate(proj, seal, last);
  }

  lemma ResultNodes(strip: bool, start: Model, es: seq<Event>, m: Model, e: Event)
    requires ShowsNodes(strip, start, es, m) && e.ResultEvent?
    requires NameOf(es, e.result.toolUseId) != "" ==> !NoUse(Projection(strip, es), e.result.toolUseId)
    ensures var id, st := e.result.toolUseId, if e.result.isError then Errored else Resolved;
            var proj := if NameOf(es, id) != "" then Transition(Projection(strip, es), id, st) else Projection(strip, es);
            Effect(strip, m, Segment(es), e).scrollback == start.scrollback + (proj + Added(strip, es, e))
  {
    SealAppends(m, es, false);
    var id, st := e.result.toolUseId, if e.result.isError then Errored else Resolved;
    var proj, seal := Projection(strip, es), Sealing(es, false);
    assert NoUse(seal, id);
    hide Segment, Projection, NameOf, Sealing, WithSeal, Transition, NoUse;
    assert Named(m, id) == NameOf(es, id);
    if NameOf(es, id) == "" {
      assert seal + [] == seal;
      Associate(start.scrollback, proj, seal);
    } else {
      TransitionPastOthers(m.scrollback, seal, id, st);
      TransitionInside(start.scrollback, proj, id, st);
      var last := [ToolResultNode(id, NameOf(es, id), e.result.content, e.result.isError, e.cached)];
      var moved := Transition(proj, id, st);
      Associate(start.scrollback, moved, seal);
      Associate(start.scrollback, moved + seal, last);
      Associate(moved, seal, last);
    }
  }

  lemma NodesEffect(strip: bool, start: Model, es: seq<Event>, m: Model, e: Event)
    requires ShowsNodes(strip, start, es, m) && !e.Finish?
    ensures ShowsNodes(strip, start, es + [e], Effect(strip, m, Segment(es), e))
  {
    ProjectionStep(strip, es, e);
    NewNodes(strip, es, e);
    var m' := Effect(strip, m, Segment(es), e);
    forall id ensures Named(m', id) == NameOf(es + [e], id) {
      NamesSnoc(es, e, id);
      hide NameOf, Segment, Projection;
      assert Named(m, id) == NameOf(es, id);
    }
    if e.CallEvent? {
      CallNodes(strip, start.scrollback, Projection(strip, es), es, m, e);
    } else if e.ResultEvent? {
      ResultNodes(strip, start, es, m, e);
    } else {
      assert Projection(strip, es) + [] == Projection(strip, es);
    }
    hide Projection, NodesAt, NameOf, Sealing, Segment, Transition, NoUse, WithSeal;
  }

  lemma NothingShows(strip: bool, prompt: string, start: Model)
    requires Started(start)
    ensures Holds([], ProducerAfter(FRESH, []))
    ensures var m := Fold(start, AllControls(strip, prompt, FRESH, []));
            ShowsNodes(strip, start, [], m) && ShowsFlags(strip, start, [], m)
  {
    assert start.scrollback + [] == start.scrollback;
  }

  lemma {:induction false} PrefixShows(strip: bool, prompt: string, start: Model, es: seq<Event>)
    requires Started(start) && forall i :: 0 <= i < |es| ==> !es[i].Finish?
    ensures Holds(es, ProducerAfter(FRESH, es))
    ensures var m := Fold(start, AllControls(strip, prompt, FRESH, es));
            ShowsNodes(strip, start, es, m) && ShowsFlags(strip, start, es, m)
  {
    hide ShowsNodes, ShowsFlags, Holds, Fold, Controls, After;
    if es == [] {
      NothingShows(strip, prompt, start);
    } else {
      var front, e := es[..|es| - 1], es[|es| - 1];
      PrefixShows(strip, prompt, start, front);
      PrefixStep(strip, prompt, start, front, e, AllControls(strip, prompt, FRESH, front));
      assert front + [e] == es;
    }
  }

  lemma PrefixStep(strip: bool, prompt: string, start: Model, front: seq<Event>, e: Event, cs: seq<Control>)
    requires !e.Finish?
    requires Holds(front, ProducerAfter(FRESH, front))
    requires ShowsNodes(strip, start, front, Fold(start, cs)) && ShowsFlags(strip, start, front, Fold(start, cs))
    ensures Holds(front + [e], After(ProducerAfter(FRESH, front), e))
    ensures var m := Fold(start, cs + Controls(strip, prompt, ProducerAfter(FRESH, front), e));
            ShowsNodes(strip, start, front + [e], m) && ShowsFlags(strip, start, front + [e], m)
  {
    var p, m := ProducerAfter(FRESH, front), Fold(start, cs);
    ProducerHolds(front, e, p);
    FoldAppend(start, cs, Controls(strip, prompt, p, e));
    ControlsEffect(strip, prompt, m, p, e);
    NodesEffect(strip, start, front, m, e);
    FlagsEffect(strip, start, front, m, e);
    assert p.seg == Segment(front);
    hide ShowsNodes, ShowsFlags, Holds, Fold, Effect;
  }

  lemma FinishEffect(prompt: string, m: Model, p: Producer, fin: Event, strip: bool)
    requires m.previewNodes == [] && Indexed(p.cap) && fin.Finish? && fin.finish != FinishUnset
    ensures var s := WithSeal(m, p.seg, fin.finish == FinishLength);
            Fold(m, Controls(strip, prompt, p, fin)) ==
              s.(finishHandled := true,
                 scrollback := s.scrollback + FinishNodes(fin.finish, fin.termCode, fin.err, s.sawThinking, s.thinkingBuf,
                                                          s.sawContent, s.sealedTruncated),
                 lastSnapshot := if IsCancelled(fin.finish, fin.err) then s.lastSnapshot
                                 else Some(SnapshotOf(p.cap, prompt, fin.turn, fin.finish, fin.termCode)))
  {
    var truncated := fin.finish == FinishLength;
    SealEffect(m, p, truncated);
    var c := Finishing(fin.finish, fin.termCode, fin.err, SnapshotOf(p.cap, prompt, fin.turn, fin.finish, fin.termCode));
    FoldAppend(m, SealSegment(p, truncated), [c]);
    FoldOne(WithSeal(m, p.seg, truncated), c);
    hide Fold, SealSegment, FinishNodes;
  }

  lemma ControlsSnoc(strip: bool, prompt: string, es: seq<Event>, e: Event)
    ensures AllControls(strip, prompt, FRESH, es + [e]) ==
            AllControls(strip, prompt, FRESH, es) + Controls(strip, prompt, ProducerAfter(FRESH, es), e)
  {
    hide Controls, ProducerAfter;
    Snoc(es, e);
  }

  lemma FinishFlags(strip: bool, start: Model, es: seq<Event>, m: Model, truncated: bool)
    ensures ShowsFlags(strip, start, es, m) ==>
            var s := WithSeal(m, Segment(es), truncated);
            && (s.sawContent <==> Visible(es) != "") && s.sawThinking == Thought(es)
            && s.thinkingBuf == (if strip then "" else Thoughts(es)) && s.lastSnapshot == start.lastSnapshot
            && s.previewNodes == []
            && (s.sealedTruncated <==> Segment(es) != "" && truncated)
  {
    hide Visible, Cut, Thought, Thoughts, Segment;
    SealedVisible(es);
  }

  /** What a finished run leaves: the projection on the scrollback, no preview, and, unless
      the run was cancelled, a snapshot with all the visible text and the tool timeline. */
  lemma FinishedRunShows(strip: bool, prompt: string, start: Model, es: seq<Event>, fin: Event)
    requires Started(start) && (forall i :: 0 <= i < |es| ==> !es[i].Finish?)
    requires fin.Finish? && fin.finish != FinishUnset
    ensures var m := Fold(start, AllControls(strip, prompt, FRESH, es + [fin]));
            && m.scrollback == start.scrollback + Projection(strip, es + [fin])
            && m.previewNodes == [] && m.finishHandled
            && m.lastSnapshot ==
                 if Cancellation(fin.finish, fin.err) then start.lastSnapshot
                 else Some(Snapshot(prompt, Visible(es), TimelineTo(es, |es|), fin.turn, fin.finish, fin.termCode))
  {
    hide AllControls, ProducerAfter, Fold, Projection, NodesAt, Visible, Thought, Thoughts, Cut, Sealing, Segment,
         FinishNodes, TimelineTo, LatestCall, NameOf, WithSeal, Controls, Transition;
    PrefixShows(strip, prompt, start, es);
    var p, m := ProducerAfter(FRESH, es), Fold(start, AllControls(strip, prompt, FRESH, es));
    var truncated := fin.finish == FinishLength;
    ControlsSnoc(strip, prompt, es, fin);
    FoldAppend(start, AllControls(strip, prompt, FRESH, es), Controls(strip, prompt, p, fin));
    FinishEffect(prompt, m, p, fin, strip);
    FinishFlags(strip, start, es, m, truncated);
    SealAppends(m, es, truncated);
    ProjectionStep(strip, es, fin);
    NewNodes(strip, es, fin);
    var nodes := FinishNodes(fin.finish, fin.termCode, fin.err, Thought(es), if strip then "" else Thoughts(es),
                             Visible(es) != "", Segment(es) != "" && truncated);
    var proj, seal := Projection(strip, es), Sealing(es, truncated);
    Associate(start.scrollback, proj, seal);
    Associate(start.scrollback, proj + seal, nodes);
    Associate(proj, seal, nodes);
  }

  // ---------- every interleaving of producer and consumer ----------

  lemma {:induction false} PipeFolds(p: Pipe, steps: seq<PipeStep>)
    requires PipeCanRun(p, steps)
    ensures var q := PipeRun(p, steps);
            Fold(Committed(q.model), q.queue + q.toSend) == Fold(Committed(p.model), p.queue + p.toSend)
    decreases |steps|
  {
    hide HandleControl, Fold;
    if steps != [] {
      var q := PipeNext(p, steps[0]);
      if steps[0].Send? {
        assert q.queue + q.toSend == p.queue + p.toSend;
      } else {
        var c := p.queue[0];
        PreviewIsIrrelevant(p.model, c, steps[0].drained);
        assert p.queue + p.toSend == [c] + (q.queue + q.toSend);
        FoldAppend(Committed(p.model), [c], q.queue + q.toSend);
        FoldOne(Committed(p.model), c);
      }
      PipeFolds(q, steps[1..]);
    }
  }

  /** For every run that reaches its Finish control, every interleaving of producer and
      consumer on the bounded channel and every preview, the scrollback is then the user's
      line followed by the projection of the events. */
  lemma ScrollbackIsTheProjection(strip: bool, userText: string, before: Model, es: seq<Event>, fin: Event, steps: seq<PipeStep>)
    requires (forall i :: 0 <= i < |es| ==> !es[i].Finish?) && fin.Finish? && fin.finish != FinishUnset
    requires var start := Pipe(AllControls(strip, userText, FRESH, es + [fin]), [], Submit(before, userText));
             PipeCanRun(start, steps) && PipeRun(start, steps).toSend == [] && PipeRun(start, steps).queue == []
    ensures var m := PipeRun(Pipe(AllControls(strip, userText, FRESH, es + [fin]), [], Submit(before, userText)), steps).model;
            && m.scrollback == before.scrollback + [MessageNode(userText, SpeakerUser, false, false)] + Projection(strip, es + [fin])
            && m.finishHandled
            && m.lastSnapshot ==
                 if Cancellation(fin.finish, fin.err) then before.lastSnapshot
                 else Some(Snapshot(userText, Visible(es), TimelineTo(es, |es|), fin.turn, fin.finish, fin.termCode))
  {
    hide Projection, HandleControl, TimelineTo, Visible, AllControls;
    var model, controls := Submit(before, userText), AllControls(strip, userText, FRESH, es + [fin]);
    var start := Pipe(controls, [], model);
    PipeFolds(start, steps);
    var q := PipeRun(start, steps);
    assert q.queue + q.toSend == [] && [] + controls == controls;
    assert Committed(model) == model;
    FinishedRunShows(strip, userText, model, es, fin);
  }

  // ---------- properties of the projection ----------

  function AssistantText(nodes: seq<Node>): string {
    if nodes == [] then ""
    else
      AssistantText(nodes[..|nodes| - 1]) +
        if nodes[|nodes| - 1].MessageNode? && nodes[|nodes| - 1].speaker == SpeakerAssistant then nodes[|nodes| - 1].text else ""
  }

  lemma {:induction false} AssistantTextAppend(a: seq<Node>, b: seq<Node>)
    ensures AssistantText(a + b) == AssistantText(a) + AssistantText(b)
  {
    if b == [] {
      assert a + b == a;
    } else {
      var front := b[..|b| - 1];
      assert (a + b)[..|a + b| - 1] == a + front;
      AssistantTextAppend(a, front);
      Associate(AssistantText(a), AssistantText(front),
                if b[|b| - 1].MessageNode? && b[|b| - 1].speaker == SpeakerAssistant then b[|b| - 1].text else "");
    }
  }

  lemma OwnHasNoText(strip: bool, es: seq<Event>, i: nat)
    requires i < |es|
    ensures AssistantText(Own(strip, es[..i], es[i], StateAt(es, i))) == ""
  {
    hide AssistantText, Visible, Thoughts, Thought, Segment, AnswerTo, LatestCall, NameOf, StateOf;
    assert forall n :: n in Own(strip, es[..i], es[i], StateAt(es, i)) ==> !(n.MessageNode? && n.speaker == SpeakerAssistant);
    NoAssistant(Own(strip, es[..i], es[i], StateAt(es, i)));
  }

  lemma NewNodesText(strip: bool, es: seq<Event>, i: nat)
    requires i < |es|
    ensures AssistantText(NodesAt(strip, es, i)) == if Boundary(es[i]) then Segment(es[..i]) else ""
  {
    hide Segment, Own, StateAt;
    var seal := Segments(es[..i], es[i]);
    OwnHasNoText(strip, es, i);
    AssistantTextAppend(seal, Own(strip, es[..i], es[i], StateAt(es, i)));
    if seal != [] {
      assert seal[..0] == [] && AssistantText(seal[..0]) == "";
    }
  }

  lemma {:induction false} NoAssistant(nodes: seq<Node>)
    requires forall n :: n in nodes ==> !(n.MessageNode? && n.speaker == SpeakerAssistant)
    ensures AssistantText(nodes) == ""
  {
    if nodes != [] {
      assert nodes[|nodes| - 1] in nodes;
      NoAssistant(nodes[..|nodes| - 1]);
    }
  }

  lemma SegmentsJoin(front: seq<Event>, e: Event)
    ensures var all := front + [e];
            Visible(all[..Cut(all)]) == Visible(front[..Cut(front)]) + if Boundary(e) then Segment(front) else ""
  {
    var all := front + [e];
    hide Visible, Cut, Segment;
    VisibleSnoc(front, e);
    SealedVisible(front);
    if Boundary(e) {
      assert all[..|front| + 1] == all;
    } else {
      assert all[..Cut(front)] == front[..Cut(front)];
    }
  }

  lemma NothingSealed(strip: bool, es: seq<Event>)
    ensures AssistantText(ProjectionTo(strip, es, 0)) == Visible(es[..Cut(es[..0])]) == ""
  {
    assert es[..0] == [];
  }

  lemma {:induction false} SealedTextTo(strip: bool, es: seq<Event>, n: nat)
    requires n <= |es|
    ensures AssistantText(ProjectionTo(strip, es, n)) == Visible(es[..Cut(es[..n])])
  {
    hide NodesAt, AssistantText, Segment, Visible, Cut;
    if n == 0 {
      NothingSealed(strip, es);
    } else {
      var front, e := es[..n - 1], es[n - 1];
      SealedTextTo(strip, es, n - 1);
      NewNodesText(strip, es, n - 1);
      AssistantTextAppend(ProjectionTo(strip, es, n - 1), NodesAt(strip, es, n - 1));
      assert es[..n] == front + [e];
      SegmentsJoin(front, e);
      assert front[..Cut(front)] == es[..Cut(front)];
      assert (front + [e])[..Cut(front + [e])] == es[..Cut(es[..n])];
    }
  }

  /** The sealed segments of a finished run concatenate to its visible text, which is the
      FinalAnswer of its snapshot: nothing is lost, repeated or reordered. */
  lemma SealedTextIsTheAnswer(strip: bool, es: seq<Event>, fin: Event)
    requires fin.Finish?
    ensures AssistantText(Projection(strip, es + [fin])) == Visible(es)
  {
    hide ProjectionTo, AssistantText, Visible, Cut;
    var all := es + [fin];
    SealedTextTo(strip, all, |all|);
    assert all[..|all|] == all;
    VisibleSnoc(es, fin);
  }

  // ---------- how the end of a run is shown ----------

  /** A finish that counts as a cancellation. */
  predicate Cancellation(finish: FinishReason, err: Option<Error>) {
    finish == FinishCancelled || (finish == FinishError && err.Some? && err.value.cause == ContextCanceled)
  }

  predicate Coded(code: string) {
    code in {"DIAGNOSE.MAX_TURNS", "DIAGNOSE.TOTAL_TIMEOUT", "DIAGNOSE.TOOL_UNKNOWN", "DIAGNOSE.UNEXPECTED_PAUSE"}
  }

  /** The last node is a marker that begins with `text`, after exactly what is in `shown`. */
  predicate MarkedBy(nodes: seq<Node>, shown: seq<Node>, text: string) {
    && |nodes| == |shown| + 1 && nodes[..|shown|] == shown
    && var last := nodes[|shown|];
       last.MessageNode? && last.speaker == NoSpeaker && !last.truncated && !last.empty && text <= last.text
  }

  /** What the end of a run is judged by: its finish, code and error, whether the model
      thought, what of that may be shown, whether it answered, and whether an answer is open. */
  datatype Ending = Ending(finish: FinishReason, code: string, err: Option<Error>,
                           thought: bool, thinking: string, answered: bool, open: bool)

  function EndingOf(strip: bool, es: seq<Event>, finish: FinishReason, code: string, err: Option<Error>): Ending {
    Ending(finish, code, err, Thought(es), if strip then "" else Thoughts(es), Visible(es) != "", Segment(es) != "")
  }

  datatype EndKind = ByCode | ThoughtOnly | Stopped | Failed | Refused | Empty | CutOff

  /** When each kind of terminal marker is due. */
  predicate Due(kind: EndKind, e: Ending) {
    var cancelled, failed := Cancellation(e.finish, e.err), e.finish == FinishError && e.err.Some?;
    match kind
    case ByCode => Coded(e.code)
    case ThoughtOnly => !Coded(e.code) && e.finish == FinishStop && e.thought && !e.answered && e.thinking == ""
    case Stopped => !Coded(e.code) && cancelled
    case Failed => !Coded(e.code) && !cancelled && failed
    case Refused => !Coded(e.code) && e.finish == FinishRefusal
    case Empty => !Coded(e.code) && !e.answered && !cancelled && !failed && e.finish != FinishStop && e.finish != FinishRefusal
    case CutOff => !Coded(e.code) && e.answered && e.finish == FinishLength && !e.open
  }

  /** The terminal marker is the one due, or there is none. */
  ghost predicate EndsRight(nodes: seq<Node>, shown: seq<Node>, e: Ending) {
    && (Due(ByCode, e) ==> MarkedBy(nodes, shown, "[" + e.code + ": "))
    && (Due(ThoughtOnly, e) ==> MarkedBy(nodes, shown, "[模型仅返回 thinking"))
    && (Due(Stopped, e) ==> MarkedBy(nodes, shown, "[已取消]"))
    && (Due(Failed, e) ==> MarkedBy(nodes, shown, "[错误: " + e.err.value.text + "]"))
    && (Due(Refused, e) ==> MarkedBy(nodes, shown, "[LLM.PROVIDER_REFUSAL: "))
    && (Due(Empty, e) ==> MarkedBy(nodes, shown, "[LLM.STREAM_EMPTY: "))
    && (Due(CutOff, e) ==> MarkedBy(nodes, shown, "[截断: 达到 max_tokens]"))
    && ((exists kind :: Due(kind, e)) <==> nodes != shown)
  }

  /** The thinking node, shown unless there is nothing to show or a DIAGNOSE code ends the run. */
  function ThinkingPart(e: Ending): seq<Node> {
    if e.thinking == "" || Coded(e.code) then [] else [ThinkingNode(e.thinking)]
  }

  /** The end of every run is shown: after the run so far, the segment that the finish seals
      and the thinking comes the code of a DIAGNOSE end, the text of an error, a refusal, a
      cancellation, an empty stream, a truncation that no segment carries, or a run of
      stripped thoughts; and nothing for any other end. */
  lemma EndIsShown(strip: bool, es: seq<Event>, fin: Event)
    requires fin.Finish? && fin.finish != FinishUnset
    ensures var e := EndingOf(strip, es, fin.finish, fin.termCode, fin.err);
            var sealed := if Segment(es) == "" then [] else [MessageNode(Segment(es), SpeakerAssistant, fin.finish == FinishLength, false)];
            EndsRight(Projection(strip, es + [fin]), Projection(strip, es) + sealed + ThinkingPart(e), e)
  {
    var e := EndingOf(strip, es, fin.finish, fin.termCode, fin.err);
    hide Projection, Segment, Visible, Thought, Thoughts, Cut, NodesAt, FinishNodes, Due, EndsRight;
    ProjectionStep(strip, es, fin);
    NewNodes(strip, es, fin);
    var nodes := NodesOf(e);
    NodesOfEnd(e);
    var sealed := Sealing(es, fin.finish == FinishLength);
    var before := Projection(strip, es) + sealed;
    Associate(Projection(strip, es), sealed, nodes);
    Shift(before, ThinkingPart(e), nodes, e);
  }

  function NodesOf(e: Ending): seq<Node> {
    FinishNodes(e.finish, e.code, e.err, e.thought, e.thinking, e.answered, e.open && e.finish == FinishLength)
  }

  lemma MarkedAfter(before: seq<Node>, nodes: seq<Node>, shown: seq<Node>, text: string)
    requires MarkedBy(nodes, shown, text)
    ensures MarkedBy(before + nodes, before + shown, text)
  { }

  /** Markers stay markers when something is put before. */
  lemma Shift(before: seq<Node>, shown: seq<Node>, nodes: seq<Node>, e: Ending)
    requires EndsRight(nodes, shown, e)
    ensures EndsRight(before + nodes, before + shown, e)
  {
    CancelPrefix(before, nodes, shown);
    hide MarkedBy, Cancellation, Coded;
    forall text | MarkedBy(nodes, shown, text) ensures MarkedBy(before + nodes, before + shown, text) {
      MarkedAfter(before, nodes, shown, text);
    }
  }

  lemma CodesAreMarked(code: string)
    ensures TermMarker(code) != "" <==> Coded(code)
  { }

  lemma TurnsMarker()
    ensures "[" + "DIAGNOSE.MAX_TURNS" + ": " <= "[DIAGNOSE.MAX_TURNS: 诊断轮数达上限]"
  { }

  lemma TimeoutMarker()
    ensures "[" + "DIAGNOSE.TOTAL_TIMEOUT" + ": " <= "[DIAGNOSE.TOTAL_TIMEOUT: 诊断总时长超限]"
  { }

  lemma UnknownMarker()
    ensures "[" + "DIAGNOSE.TOOL_UNKNOWN" + ": " <= "[DIAGNOSE.TOOL_UNKNOWN: 模型请求未注册的工具]"
  { }

  lemma PauseMarker()
    ensures "[" + "DIAGNOSE.UNEXPECTED_PAUSE" + ": " <= "[DIAGNOSE.UNEXPECTED_PAUSE: 非预期 pause_turn]"
  { }

  lemma CodeMarkers(code: string)
    ensures TermMarker(code) != "" <==> Coded(code)
    ensures Coded(code) ==> "[" + code + ": " <= TermMarker(code)
  {
    CodesAreMarked(code);
    TurnsMarker();
    TimeoutMarker();
    UnknownMarker();
    PauseMarker();
    if code == "DIAGNOSE.MAX_TURNS" {
      assert TermMarker(code) == "[DIAGNOSE.MAX_TURNS: 诊断轮数达上限]";
    } else if code == "DIAGNOSE.TOTAL_TIMEOUT" {
      assert TermMarker(code) == "[DIAGNOSE.TOTAL_TIMEOUT: 诊断总时长超限]";
    } else if code == "DIAGNOSE.TOOL_UNKNOWN" {
      assert TermMarker(code) == "[DIAGNOSE.TOOL_UNKNOWN: 模型请求未注册的工具]";
    } else if code == "DIAGNOSE.UNEXPECTED_PAUSE" {
      assert TermMarker(code) == "[DIAGNOSE.UNEXPECTED_PAUSE: 非预期 pause_turn]";
    }
    hide TermMarker;
  }

  lemma FixedMarkers()
    ensures "[模型仅返回 thinking" <= THINKING_ONLY_MARKER && CANCELLED_MARKER == "[已取消]"
    ensures "[LLM.PROVIDER_REFUSAL: " <= "[LLM.PROVIDER_REFUSAL: 模型拒绝生成]" && "[LLM.STREAM_EMPTY: " <= "[LLM.STREAM_EMPTY: 无可见输出]"
  { }

  lemma Marked(shown: seq<Node>, text: string, prefix: string)
    requires prefix <= text
    ensures MarkedBy(shown + [Marker(text)], shown, prefix) && shown + [Marker(text)] != shown
  {
    assert |shown + [Marker(text)]| != |shown|;
  }

  /** One ending at a time. */
  lemma NodesOfEnd(e: Ending)
    requires e.finish != FinishUnset
    ensures EndsRight(NodesOf(e), ThinkingPart(e), e)
  {
    var nodes, shown := NodesOf(e), ThinkingPart(e);
    CodeMarkers(e.code);
    FixedMarkers();
    hide TermMarker, MarkedBy, Coded;
    if Due(ByCode, e) {
      Marked([], TermMarker(e.code), "[" + e.code + ": ");
      assert [] + nodes == nodes;
    } else if Due(ThoughtOnly, e) {
      Marked(shown, THINKING_ONLY_MARKER, "[模型仅返回 thinking");
    } else if Due(Stopped, e) {
      Marked(shown, CANCELLED_MARKER, "[已取消]");
    } else if Due(Failed, e) {
      Marked(shown, "[错误: " + e.err.value.text + "]", "[错误: " + e.err.value.text + "]");
    } else if Due(Refused, e) {
      Marked(shown, "[LLM.PROVIDER_REFUSAL: 模型拒绝生成]", "[LLM.PROVIDER_REFUSAL: ");
    } else if Due(Empty, e) {
      Marked(shown, "[LLM.STREAM_EMPTY: 无可见输出]", "[LLM.STREAM_EMPTY: ");
    } else if Due(CutOff, e) {
      Marked(shown, "[截断: 达到 max_tokens]", "[截断: 达到 max_tokens]");
    } else {
      assert nodes == shown;
    }
  }

  // ---------- with the grammar: nothing is left running ----------

  /** The announced calls that still await a result. */
  function Outstanding(p: EventGrammar.Phase): seq<string> {
    match p
    case Calling(_, ids) => ids
    case Answering(_, ids, n) => if n <= |ids| then ids[n..] else []
    case _ => []
  }

  ghost predicate UniqueCalls(es: seq<Event>) {
    forall i, j :: 0 <= i < j < |es| && es[i].CallEvent? && es[j].CallEvent? ==> es[i].use.id != es[j].use.id
  }

  ghost predicate Awaited(es: seq<Event>, i: nat, ids: seq<string>)
    requires i < |es| && es[i].CallEvent?
  {
    AnswerTo(es, i).Some? || es[i].use.id in ids
  }

  lemma StepAwaits(p: EventGrammar.Phase, e: Event, id: string)
    requires id in Outstanding(p)
    requires EventGrammar.Step(p, e) != EventGrammar.Bad && EventGrammar.Step(p, e) != EventGrammar.Done
    ensures id in Outstanding(EventGrammar.Step(p, e)) || (e.ResultEvent? && e.result.toolUseId == id)
  {
    var q := EventGrammar.Step(p, e);
    if p.Calling? && !e.CallEvent? {
      assert p.ids[0..] == p.ids;
      assert |p.ids| > 1 ==> p.ids == [p.ids[0]] + p.ids[1..];
    } else if p.Answering? {
      assert p.ids[p.answered..] == [p.ids[p.answered]] + p.ids[p.answered + 1..];
    }
  }

  lemma {:induction false} EveryCallIsAnsweredOrAwaited(es: seq<Event>, i: nat)
    requires i < |es| && es[i].CallEvent? && UniqueCalls(es)
    requires EventGrammar.PhaseOf(es) != EventGrammar.Bad && EventGrammar.PhaseOf(es) != EventGrammar.Done
    ensures Awaited(es, i, Outstanding(EventGrammar.PhaseOf(es)))
    decreases |es|
  {
    var front, e := es[..|es| - 1], es[|es| - 1];
    assert es == front + [e];
    var p := EventGrammar.PhaseOf(front);
    if i == |es| - 1 {
      assert e.use.id in Outstanding(EventGrammar.Step(p, e));
    } else {
      EveryCallIsAnsweredOrAwaited(front, i);
      AnswerSnoc(front, e, i);
      hide AnswerTo;
      if AnswerTo(front, i).None? {
        StepAwaits(p, e, es[i].use.id);
        var k := LatestCall(front, es[i].use.id);
        assert k == i by {
          assert k >= 0 && front[k].CallEvent? && front[k].use.id == es[i].use.id;
          assert es[k] == front[k];
        }
      }
    }
  }

  predicate NothingRunning(nodes: seq<Node>) {
    forall i :: 0 <= i < |nodes| ==> !(nodes[i].ToolUseNode? && nodes[i].state == Running)
  }

  lemma OwnNotRunning(strip: bool, before: seq<Event>, e: Event, state: ToolState)
    requires e.CallEvent? ==> state != Running
    ensures NothingRunning(Own(strip, before, e, state))
  {
    hide NameOf, Visible, Segment, Thoughts, Thought;
  }

  lemma {:induction false} NothingRunningTo(strip: bool, es: seq<Event>, n: nat)
    requires n <= |es|
    requires forall i :: 0 <= i < n && es[i].CallEvent? ==> StateAt(es, i) != Running
    ensures NothingRunning(ProjectionTo(strip, es, n))
  {
    hide StateAt, Own, Segment;
    if n > 0 {
      NothingRunningTo(strip, es, n - 1);
      OwnNotRunning(strip, es[..n - 1], es[n - 1], StateAt(es, n - 1));
    }
  }

  /** Once every announced call of the stream has its result, no tool call with a name is
      left in its running state. */
  lemma AnsweredTurnsLeaveNothingRunning(strip: bool, es: seq<Event>)
    requires UniqueCalls(es) && (forall i :: 0 <= i < |es| && es[i].CallEvent? ==> es[i].use.name != "")
    requires EventGrammar.PhaseOf(es).Between? || EventGrammar.PhaseOf(es).Talking?
    ensures NothingRunning(Projection(strip, es))
  {
    hide ProjectionTo, NothingRunning, AnswerTo;
    forall i | 0 <= i < |es| && es[i].CallEvent? ensures StateAt(es, i) != Running {
      EveryCallIsAnsweredOrAwaited(es, i);
      AnswersAreResults(es, i);
      hide EventGrammar.PhaseOf;
    }
    NothingRunningTo(strip, es, |es|);
  }

  /** The same with the finish that follows. */
  lemma FinishLeavesNothingRunning(strip: bool, es: seq<Event>, fin: Event)
    requires UniqueCalls(es) && (forall i :: 0 <= i < |es| && es[i].CallEvent? ==> es[i].use.name != "")
    requires EventGrammar.PhaseOf(es).Between? || EventGrammar.PhaseOf(es).Talking?
    requires fin.Finish?
    ensures NothingRunning(Projection(strip, es + [fin]))
  {
    hide ProjectionTo, NothingRunning, AnswerTo;
    var all := es + [fin];
    forall i | 0 <= i < |all| && all[i].CallEvent? ensures StateAt(all, i) != Running {
      assert all[i] == es[i];
      EveryCallIsAnsweredOrAwaited(es, i);
      AnswersAreResults(es, i);
      AnswerSnoc(es, fin, i);
      hide EventGrammar.PhaseOf;
    }
    NothingRunningTo(strip, all, |all|);
  }

  /** The cancelled marker is shown exactly when the snapshot is not adopted, unless a
      DIAGNOSE code has a marker of its own. */
  lemma CancelMarkerIffSnapshotKept(finish: FinishReason, termCode: string, err: Option<Error>, t: bool, s: string, c: bool, i: bool)
    requires TermMarker(termCode) == ""
    ensures Marker(CANCELLED_MARKER) in FinishNodes(finish, termCode, err, t, s, c, i) <==> Cancellation(finish, err)
  {
    assert CANCELLED_MARKER[1] == '已' && THINKING_ONLY_MARKER[1] == '模';
    if err.Some? {
      assert ("[错误: " + err.value.text + "]")[1] == '错';
    }
    assert "[LLM.PROVIDER_REFUSAL: 模型拒绝生成]"[1] == 'L' && "[LLM.STREAM_EMPTY: 无可见输出]"[1] == 'L' && "[截断: 达到 max_tokens]"[1] == '截';
  }
}
