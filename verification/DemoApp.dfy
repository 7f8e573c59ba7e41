/** The input line with history navigation (internal/app/cli/demoapp/model.go, with
    internal/app/cli/input/resolve.go and move.go). A string is a sequence of runes. */
module DemoApp {
  import opened History

  const LOG_CAPACITY := 256
  const KEY_BACKSPACE := 8
  const KEY_RUNE := 256
  const KEY_DELETE := 271

  datatype Action =
    | InsertRune | DeleteBackward | DeleteForward
    | MoveLeft | MoveRight | MoveHome | MoveEnd
    | HistoryPrev | HistoryNext
    | Submit | Cancel | NoAction | Quit

  datatype Msg = KeyAction(action: Action, code: int, rune: char) | CancelCmd | OtherMsg

  datatype Nav = Nav(active: bool, index: int, draft: string, draftCursor: int)

  const NO_NAV := Nav(false, 0, "", 0)

  /** What a model holds, with its ring's entries in place of the ring. */
  datatype View = View(buffer: string, cursor: int, history: seq<string>, nav: Nav, log: seq<string>)

  const BLANK := View("", 0, [], NO_NAV, [])

  function Clamp(cursor: int, n: nat): (c: nat)
    ensures c <= n
  {
    if cursor < 0 then 0 else if cursor > n then n else cursor
  }

  function ResolveMode(buffer: string, cursor: int, code: int, rune: char): (string, int) {
    var c := Clamp(cursor, |buffer|);
    if code == KEY_RUNE then (buffer[..c] + [rune] + buffer[c..], c + 1)
    else if code == KEY_BACKSPACE then
      if c == 0 then (buffer, c) else (buffer[..c - 1] + buffer[c..], c - 1)
    else if code == KEY_DELETE then
      if c >= |buffer| then (buffer, c) else (buffer[..c] + buffer[c + 1..], c)
    else (buffer, c)
  }

  function MoveCursor(buffer: string, cursor: int, action: Action): int {
    var c := Clamp(cursor, |buffer|);
    match action
    case MoveLeft => if c > 0 then c - 1 else 0
    case MoveRight => if c < |buffer| then c + 1 else |buffer|
    case MoveHome => 0
    case MoveEnd => |buffer|
    case _ => c
  }

  function Entry(history: seq<string>, i: int): string {
    if 0 <= i < |history| then history[i] else ""
  }

  function Prev(v: View): View {
    if v.history == [] then v
    else
      var nav := if v.nav.active then v.nav else Nav(true, |v.history|, v.buffer, v.cursor);
      if nav.index > 0 then
        var entry := Entry(v.history, nav.index - 1);
        v.(nav := nav.(index := nav.index - 1), buffer := entry, cursor := |entry|)
      else v.(nav := nav)
  }

  function Next(v: View): View {
    if !v.nav.active then v
    else if v.nav.index + 1 >= |v.history| then
      v.(nav := NO_NAV, buffer := v.nav.draft, cursor := v.nav.draftCursor)
    else
      var entry := Entry(v.history, v.nav.index + 1);
      v.(nav := v.nav.(index := v.nav.index + 1), buffer := entry, cursor := |entry|)
  }

  function Act(v: View, msg: Msg): View {
    match msg
    case CancelCmd => v.(buffer := "", cursor := 0, nav := NO_NAV)
    case OtherMsg => v
    case KeyAction(action, code, rune) =>
      match action
      case InsertRune | DeleteBackward | DeleteForward =>
        var r := ResolveMode(v.buffer, v.cursor, code, rune);
        v.(buffer := r.0, cursor := r.1, nav := NO_NAV)
      case MoveLeft | MoveRight | MoveHome | MoveEnd => v.(cursor := MoveCursor(v.buffer, v.cursor, action))
      case HistoryPrev => Prev(v)
      case HistoryNext => Next(v)
      case Submit =>
        var t := if v.buffer != "" then v.(history := Pushed(v.history, v.buffer), log := LastN(v.log + [v.buffer], LOG_CAPACITY)) else v;
        t.(buffer := "", cursor := 0, nav := NO_NAV)
      case Cancel => v.(buffer := "", cursor := 0, nav := NO_NAV)
      case NoAction => v
      case Quit => v
  }

  function Run(v: View, msgs: seq<Msg>): View {
    if msgs == [] then v else Act(Run(v, msgs[..|msgs| - 1]), msgs[|msgs| - 1])
  }

  lemma RunStep(v: View, msgs: seq<Msg>, n: nat)
    requires n < |msgs|
    ensures Run(v, msgs[..n + 1]) == Act(Run(v, msgs[..n]), msgs[n])
  {
    assert msgs[..n + 1][..n] == msgs[..n];
  }

  // ---------- invariants ----------

  /** While navigating, the buffer shows the entry at the index, and the draft is kept. */
  predicate Sound(v: View) {
    && Tidy(v.history) && |v.log| <= LOG_CAPACITY
    && 0 <= v.cursor <= |v.buffer|
    && (!v.nav.active ==> v.nav == NO_NAV)
    && (v.nav.active ==>
          && 0 <= v.nav.index < |v.history| && v.buffer == v.history[v.nav.index]
          && 0 <= v.nav.draftCursor <= |v.nav.draft|)
  }

  lemma ActKeepsSound(v: View, msg: Msg)
    requires Sound(v)
    ensures Sound(Act(v, msg))
  {
    if msg.KeyAction? && msg.action.Submit? {
      PushKeepsTidy(v.history, v.buffer);
    }
    hide Tidy, Pushed;
  }

  /** In every state of every session the cursor is inside the buffer, and navigation shows
      the ring's entry at its index. */
  lemma {:induction false} SessionsAreSound(v: View, msgs: seq<Msg>)
    requires Sound(v)
    ensures Sound(Run(v, msgs))
  {
    if msgs != [] {
      SessionsAreSound(v, msgs[..|msgs| - 1]);
      ActKeepsSound(Run(v, msgs[..|msgs| - 1]), msgs[|msgs| - 1]);
    }
  }

  /** The non-empty buffers submitted in a session. */
  function Submitted(v: View, msgs: seq<Msg>): seq<string> {
    if msgs == [] then []
    else
      var before := Run(v, msgs[..|msgs| - 1]);
      var last := msgs[|msgs| - 1];
      Submitted(v, msgs[..|msgs| - 1]) + if last.KeyAction? && last.action.Submit? && before.buffer != "" then [before.buffer] else []
  }

  /** History and log of a session are what was submitted in it, however it was typed,
      recalled or edited. */
  lemma HistoryIsWhatWasSubmitted(msgs: seq<Msg>)
    ensures Run(BLANK, msgs).history == LastN(Collapsed(Submitted(BLANK, msgs)), RING_CAPACITY)
    ensures Run(BLANK, msgs).log == LastN(Submitted(BLANK, msgs), LOG_CAPACITY)
  {
    HistoryReplays(msgs);
    RingIsRecentHistory(Submitted(BLANK, msgs));
    SubmittedIsNonEmpty(msgs);
  }

  lemma {:induction false} HistoryReplays(msgs: seq<Msg>)
    ensures Run(BLANK, msgs).history == Replay(Submitted(BLANK, msgs))
    ensures Run(BLANK, msgs).log == LastN(Submitted(BLANK, msgs), LOG_CAPACITY)
  {
    if msgs != [] {
      var front, last := msgs[..|msgs| - 1], msgs[|msgs| - 1];
      HistoryReplays(front);
      SubmitRecords(Submitted(BLANK, front), Run(BLANK, front), last);
      hide Act, Replay, LastN, Pushed;
    }
  }

  lemma SubmitRecords(done: seq<string>, v: View, msg: Msg)
    requires v.history == Replay(done) && v.log == LastN(done, LOG_CAPACITY)
    ensures var sent := done + if msg.KeyAction? && msg.action.Submit? && v.buffer != "" then [v.buffer] else [];
            Act(v, msg).history == Replay(sent) && Act(v, msg).log == LastN(sent, LOG_CAPACITY)
  {
    assert (done + [v.buffer])[..|done|] == done;
    assert done + [] == done;
    LastSnoc(done, v.buffer, LOG_CAPACITY);
    hide Pushed, ResolveMode, MoveCursor, LastN;
  }

  lemma {:induction false} SubmittedIsNonEmpty(msgs: seq<Msg>)
    ensures NonEmpty(Submitted(BLANK, msgs)) == Submitted(BLANK, msgs)
  {
    if msgs != [] {
      var front := msgs[..|msgs| - 1];
      SubmittedIsNonEmpty(front);
      var done := Submitted(BLANK, front);
      hide Run;
      assert forall x: string :: (done + [x])[..|done|] == done;
      assert done + [] == done;
    }
  }

  // ---------- navigation ----------

  predicate Navigates(msg: Msg) {
    msg.KeyAction? && (msg.action.HistoryPrev? || msg.action.HistoryNext? || Moves(msg.action))
  }

  predicate Moves(action: Action) {
    action.MoveLeft? || action.MoveRight? || action.MoveHome? || action.MoveEnd?
  }

  predicate AllNavigate(msgs: seq<Msg>) { forall i :: 0 <= i < |msgs| ==> Navigates(msgs[i]) }

  /** Where a reader of n entries and a draft stands after some keys: n is the draft. */
  function Position(n: nat, msgs: seq<Msg>): (p: nat)
    ensures p <= n
  {
    if msgs == [] then n
    else
      Moved(n, Position(n, msgs[..|msgs| - 1]), msgs[|msgs| - 1])
  }

  /** How many keys before the reader last left the draft. */
  function Home(n: nat, msgs: seq<Msg>): (k: nat)
    ensures k <= |msgs|
  {
    if msgs == [] || Position(n, msgs) == n then |msgs| else Home(n, msgs[..|msgs| - 1])
  }

  /** The view before the reader last left the draft. */
  function Left(start: View, msgs: seq<Msg>): View {
    Run(start, msgs[..Home(|start.history|, msgs)])
  }

  ghost predicate Reads(start: View, v: View, p: nat, home: View) {
    && v.history == start.history && v.log == start.log
    && p <= |start.history|
    && v.buffer == (start.history + [start.buffer])[p]
    && (v.nav.active <==> p < |start.history|)
    && (v.nav.active ==> v.nav.index == p && v.nav.draft == home.buffer && v.nav.draftCursor == home.cursor)
    && (!v.nav.active ==> v == home)
    && home.buffer == start.buffer
  }

  /** Any keys that only navigate read entry by entry through the history and the draft, like
      a position moved up and down, and the draft survives. */
  lemma {:induction false} NavigationReads(start: View, msgs: seq<Msg>)
    requires Sound(start) && !start.nav.active && AllNavigate(msgs)
    ensures Reads(start, Run(start, msgs), Position(|start.history|, msgs), Left(start, msgs))
  {
    if msgs == [] {
      assert msgs[..0] == [];
    } else {
      var front := msgs[..|msgs| - 1];
      NavigationReads(start, front);
      SessionsAreSound(start, front);
      LeftStep(start, msgs);
      hide Run, Position, Left, Reads, Sound, Act;
      NavigationStep(start, Run(start, front), Position(|start.history|, front), Left(start, front), msgs[|msgs| - 1]);
    }
  }

  function Moved(n: nat, p: nat, msg: Msg): (q: nat)
    requires p <= n
    ensures q <= n
  {
    if msg.KeyAction? && msg.action.HistoryPrev? then (if p > 0 then p - 1 else 0)
    else if msg.KeyAction? && msg.action.HistoryNext? then (if p < n then p + 1 else n)
    else p
  }

  lemma LeftStep(start: View, msgs: seq<Msg>)
    requires msgs != []
    ensures var n, front := |start.history|, msgs[..|msgs| - 1];
            && Position(n, msgs) == Moved(n, Position(n, front), msgs[|msgs| - 1])
            && Run(start, msgs) == Act(Run(start, front), msgs[|msgs| - 1])
            && Left(start, msgs) == if Position(n, msgs) == n then Run(start, msgs)
                                    else if Position(n, front) == n then Run(start, front)
                                    else Left(start, front)
  {
    var n, front := |start.history|, msgs[..|msgs| - 1];
    hide Act;
    assert msgs[..|msgs|] == msgs && front[..|front|] == front;
    var k, j := Home(n, msgs), Home(n, front);
    assert msgs[..j] == front[..j];
    assert Position(n, msgs) != n ==> k == j;
    hide Run;
  }

  /** One key of a navigation. */
  lemma NavigationStep(start: View, v: View, p: nat, home: View, msg: Msg)
    requires Sound(v) && Navigates(msg) && Reads(start, v, p, home)
    ensures var n := |start.history|;
            var q, next := Moved(n, p, msg), Act(v, msg);
            && Reads(start, next, q, if q == n then next else if p == n then v else home)
            && (p < n && q == n ==> next.cursor == home.cursor)
  {
    hide MoveCursor, Tidy, ResolveMode;
  }

  /** Leaving navigation, by pressing Next past the newest entry, brings back the buffer and
      the cursor that were there when it began. */
  lemma LeavingRestores(start: View, msgs: seq<Msg>)
    requires Sound(start) && !start.nav.active && msgs != [] && AllNavigate(msgs)
    requires Run(start, msgs[..|msgs| - 1]).nav.active && !Run(start, msgs).nav.active
    ensures var home := Left(start, msgs[..|msgs| - 1]);
            Run(start, msgs).buffer == home.buffer == start.buffer && Run(start, msgs).cursor == home.cursor
  {
    var front := msgs[..|msgs| - 1];
    NavigationReads(start, front);
    NavigationReads(start, msgs);
    SessionsAreSound(start, front);
    LeftStep(start, msgs);
    hide Run, Position, Left, Sound, Act;
    NavigationStep(start, Run(start, front), Position(|start.history|, front), Left(start, front), msgs[|msgs| - 1]);
  }

  // ---------- editing, as text before and behind the cursor ----------

  function Before(v: View): string
    requires 0 <= v.cursor <= |v.buffer|
  {
    v.buffer[..v.cursor]
  }

  function Behind(v: View): string
    requires 0 <= v.cursor <= |v.buffer|
  {
    v.buffer[v.cursor..]
  }

  /** An edit touches neither history nor log, and ends navigation. */
  predicate Edited(v: View, next: View) {
    && next.history == v.history && next.log == v.log && !next.nav.active
    && 0 <= next.cursor <= |next.buffer|
  }

  /** A typed rune lands before the cursor. */
  lemma TypingInserts(v: View, rune: char)
    requires Sound(v)
    ensures var next := Act(v, KeyAction(InsertRune, 256, rune));
            Edited(v, next) && Before(next) == Before(v) + [rune] && Behind(next) == Behind(v)
  { }

  /** Backspace takes the rune before the cursor, and nothing else. */
  lemma BackspaceRemoves(v: View, rune: char)
    requires Sound(v)
    ensures var next := Act(v, KeyAction(DeleteBackward, 8, rune));
            && Edited(v, next) && Behind(next) == Behind(v)
            && (if Before(v) == "" then Before(next) == "" else Before(v) == Before(next) + [Before(v)[|Before(v)| - 1]])
  {
    hide Tidy;
    var next := Act(v, KeyAction(DeleteBackward, 8, rune));
    if v.cursor > 0 {
      assert next.buffer == v.buffer[..v.cursor - 1] + v.buffer[v.cursor..];
    }
  }

  /** Delete takes the rune behind the cursor, and nothing else. */
  lemma DeleteRemoves(v: View, rune: char)
    requires Sound(v)
    ensures var next := Act(v, KeyAction(DeleteForward, 271, rune));
            && Edited(v, next) && Before(next) == Before(v)
            && (if Behind(v) == "" then Behind(next) == "" else Behind(v) == [Behind(v)[0]] + Behind(next))
  {
    hide Tidy;
    var next := Act(v, KeyAction(DeleteForward, 271, rune));
    if v.cursor < |v.buffer| {
      assert next.buffer == v.buffer[..v.cursor] + v.buffer[v.cursor + 1..];
    }
  }

  /** Backspace undoes typing. */
  lemma BackspaceUndoesTyping(v: View, rune: char, other: char)
    requires Sound(v)
    ensures var next := Act(Act(v, KeyAction(InsertRune, 256, rune)), KeyAction(DeleteBackward, 8, other));
            next.buffer == v.buffer && next.cursor == v.cursor
  {
    ActKeepsSound(v, KeyAction(InsertRune, 256, rune));
    var typed := Act(v, KeyAction(InsertRune, 256, rune));
    TypingInserts(v, rune);
    BackspaceRemoves(typed, other);
    assert v.buffer == Before(v) + Behind(v);
  }

  /** Moving changes the cursor only: by one rune within the buffer, or to one of its ends. */
  lemma MovingMoves(v: View, action: Action, code: int, rune: char)
    requires Sound(v) && Moves(action)
    ensures var next := Act(v, KeyAction(action, code, rune));
            && next == v.(cursor := next.cursor)
            && (action.MoveLeft? ==> next.cursor == v.cursor - 1 || (v.cursor == 0 == next.cursor))
            && (action.MoveRight? ==> next.cursor == v.cursor + 1 <= |v.buffer| || (v.cursor == |v.buffer| == next.cursor))
            && (action.MoveHome? ==> Before(next) == "")
            && (action.MoveEnd? ==> Behind(next) == "")
  { }

  /** Cancelling clears the line and keeps history and log. */
  lemma CancelClears(v: View, msg: Msg)
    requires msg.CancelCmd? || (msg.KeyAction? && msg.action.Cancel?)
    ensures Edited(v, Act(v, msg)) && Act(v, msg).buffer == "" && Act(v, msg).cursor == 0
  { }

  /** A recalled entry is shown with the cursor at its end. */
  lemma RecallEndsAtTheEntry(v: View, msg: Msg)
    requires Sound(v) && msg.KeyAction? && (msg.action.HistoryPrev? || msg.action.HistoryNext?)
    ensures var next := Act(v, msg); next.nav.active ==> next == v || next.cursor == |next.buffer|
  {
    hide Tidy;
  }

  // ---------- the model object ----------

  class Model {
    var buffer: string
    var cursor: int
    var ring: Ring
    var nav: Nav
    var log: seq<string>

    ghost predicate Valid()
      reads this, ring
    {
      ring.Valid()
    }

    ghost function Shown(): View
      requires Valid()
      reads this, ring, ring.entries
    {
      View(buffer, cursor, ring.Contents(), nav, log)
    }

    constructor ()
      ensures Valid() && fresh(ring) && fresh(ring.entries) && Shown() == BLANK
    {
      buffer, cursor, nav, log := "", 0, NO_NAV, [];
      ring := new Ring();
    }

    /** A copy that still shares the ring. */
    constructor Copy(m: Model)
      requires m.Valid()
      ensures ring == m.ring && Valid() && Shown() == m.Shown()
    {
      buffer, cursor, ring, nav, log := m.buffer, m.cursor, m.ring, m.nav, m.log;
    }

    /** One message. Nothing that existed before is changed, so every earlier model, its ring
        included, still shows what it showed. */
    method Update(msg: Msg) returns (next: Model)
      requires Valid()
      ensures next.Valid() && next.Shown() == Act(Shown(), msg)
      ensures next == this || fresh(next)
      ensures next.ring == ring || (fresh(next.ring) && fresh(next.ring.entries))
    {
      if msg.KeyAction? {
        next := HandleAction(msg.action, msg.code, msg.rune);
      } else if msg.CancelCmd? {
        next := new Model.Copy(this);
        next.buffer, next.cursor, next.nav := "", 0, NO_NAV;
      } else {
        next := this;
      }
    }

    method HandleAction(action: Action, code: int, rune: char) returns (next: Model)
      requires Valid()
      ensures fresh(next) && next.Valid() && next.Shown() == Act(Shown(), KeyAction(action, code, rune))
      ensures next.ring == ring || (fresh(next.ring) && fresh(next.ring.entries))
    {
      hide ResolveMode, MoveCursor, Pushed, LastN, Prev, Next;
      next := new Model.Copy(this);
      match action
      case InsertRune | DeleteBackward | DeleteForward =>
        var (b, c) := ResolveMode(buffer, cursor, code, rune);
        next.buffer, next.cursor, next.nav := b, c, NO_NAV;
      case MoveLeft | MoveRight | MoveHome | MoveEnd =>
        next.cursor := MoveCursor(buffer, cursor, action);
      case HistoryPrev =>
        next.ApplyHistoryPrev();
      case HistoryNext =>
        next.ApplyHistoryNext();
      case Submit =>
        if buffer != "" {
          var cloned := ring.Clone();
          cloned.Push(buffer);
          next.ring := cloned;
          next.log := AppendLogBounded(log, buffer);
        }
        next.buffer, next.cursor, next.nav := "", 0, NO_NAV;
      case Cancel =>
        next.buffer, next.cursor, next.nav := "", 0, NO_NAV;
      case NoAction | Quit =>
    }

    method ApplyHistoryPrev()
      requires Valid()
      modifies this`buffer, this`cursor, this`nav
      ensures Valid() && Shown() == Prev(old(Shown()))
    {
      if ring.size == 0 {
        return;
      }
      if !nav.active {
        nav := Nav(true, ring.size, buffer, cursor);
      }
      if nav.index > 0 {
        nav := nav.(index := nav.index - 1);
        var entry, _ := ring.At(nav.index);
        buffer := entry;
        cursor := |entry|;
      }
    }

    method ApplyHistoryNext()
      requires Valid()
      modifies this`buffer, this`cursor, this`nav
      ensures Valid() && Shown() == Next(old(Shown()))
    {
      if !nav.active {
        return;
      }
      nav := nav.(index := nav.index + 1);
      if nav.index >= ring.size {
        buffer := nav.draft;
        cursor := nav.draftCursor;
        nav := NO_NAV;
        return;
      }
      var entry, _ := ring.At(nav.index);
      buffer := entry;
      cursor := |entry|;
    }
  }

  method AppendLogBounded(log: seq<string>, entry: string) returns (next: seq<string>)
    ensures next == LastN(log + [entry], LOG_CAPACITY)
  {
    next := log + [entry];
    if |next| > LOG_CAPACITY {
      next := next[|next| - LOG_CAPACITY..];
    }
  }

  /** A session keeps every model it has been through: all of them still show their state. */
  method Session(msgs: seq<Msg>) returns (models: seq<Model>)
    ensures |models| == |msgs| + 1
    ensures forall i :: 0 <= i <= |msgs| ==> models[i].Valid() && models[i].Shown() == Run(BLANK, msgs[..i])
  {
    var m := new Model();
    assert Run(BLANK, msgs[..0]) == BLANK;
    hide Run, Act;
    models := [m];
    for n := 0 to |msgs|
      invariant |models| == n + 1
      invariant forall i :: 0 <= i <= n ==> models[i].Valid() && models[i].Shown() == Run(BLANK, msgs[..i])
    {
      RunStep(BLANK, msgs, n);
      m := models[n].Update(msgs[n]);
      models := models + [m];
    }
  }
}
