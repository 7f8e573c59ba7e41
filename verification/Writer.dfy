/** The buffered log writer (internal/platform/logger/buffered_writer.go), non-immediate
    mode, as a protocol: each section under the writer's lock is one step, and so is each
    call of writeFn a drain goroutine makes outside the lock. */
module WriterProtocol {
  import opened Prelude

  datatype Config = Config(maxBufferSize: nat, maxBufferBytes: nat) {
    predicate Ok() { 1 <= maxBufferSize && 1 <= maxBufferBytes }
  }

  /** A live drain goroutine: about to take the lock, or outside it with a captured batch. */
  datatype Drain = AtTop | Writing(batch: seq<string>)

  datatype State = State(
    buffer: seq<string>,
    bufferBytes: nat,
    timer: Option<nat>,            // the armed timer, by number
    pending: Option<seq<string>>,  // pendingOverflow; None is nil
    closed: bool,
    callbacks: set<nat>,           // timers whose callback has still to run
    nextTimer: nat,
    drains: seq<Drain>,            // counted by overflowWG
    written: seq<seq<string>>,     // the batches handed to writeFn, in order
    accepted: seq<string>,         // the contents of successful Writes, in order
    disposed: bool)                // the first Dispose has returned

  const INIT := State([], 0, None, None, false, {}, 0, [], [], [], false)

  datatype Step =
    | Write(content: string, stopped: bool)
    | Flush(stopped: bool)
    | Fire(id: nat, stopped: bool)
    | Capture(drain: nat)
    | Deliver(drain: nat)
    | BeginDispose(stopped: bool)
    | EndDispose

  function Pend(s: State): seq<string> {
    if s.pending.Some? then s.pending.value else []
  }

  /** timer.Stop either prevents the callback or comes too late (`stopped` false). */
  function StopTimer(s: State, stopped: bool): State {
    s.(timer := None, callbacks := if s.timer.Some? && stopped then s.callbacks - {s.timer.value} else s.callbacks)
  }

  function ScheduleFlush(s: State): State {
    if s.timer.Some? then s
    else s.(timer := Some(s.nextTimer), callbacks := s.callbacks + {s.nextTimer}, nextTimer := s.nextTimer + 1)
  }

  function FlushLocked(s: State, stopped: bool): State {
    var s1 := if Pend(s) != [] then s.(written := s.written + [Pend(s)], pending := None) else s;
    var s2 := if s1.buffer != [] then s1.(written := s1.written + [s1.buffer], buffer := [], bufferBytes := 0) else s1;
    StopTimer(s2, stopped)
  }

  function FlushDeferred(s: State, stopped: bool): State {
    var s1 := StopTimer(s.(buffer := [], bufferBytes := 0), stopped);
    if s.pending.Some? then s1.(pending := Some(s.pending.value + s.buffer))
    else s1.(pending := Some(s.buffer), drains := s1.drains + [AtTop])
  }

  function Accept(cfg: Config, s: State, content: string, stopped: bool): State {
    if s.closed then s
    else
      var s1 := ScheduleFlush(s.(buffer := s.buffer + [content], bufferBytes := s.bufferBytes + |content|,
                                 accepted := s.accepted + [content]));
      if |s1.buffer| >= cfg.maxBufferSize || s1.bufferBytes >= cfg.maxBufferBytes then FlushDeferred(s1, stopped) else s1
  }

  function Fired(s: State, id: nat, stopped: bool): State {
    var s1 := s.(callbacks := s.callbacks - {id});
    if s1.closed then s1 else FlushLocked(s1, stopped)
  }

  function Captured(s: State, i: nat): State
    requires i < |s.drains|
  {
    if Pend(s) == [] then s.(pending := None, drains := s.drains[..i] + s.drains[i + 1..])
    else s.(pending := Some([]), drains := s.drains[i := Writing(Pend(s))])
  }

  function Delivered(s: State, i: nat): State
    requires i < |s.drains| && s.drains[i].Writing?
  {
    s.(written := s.written + [s.drains[i].batch], drains := s.drains[i := AtTop])
  }

  function Closing(s: State, stopped: bool): State {
    if s.closed then s else FlushLocked(s.(closed := true), stopped)
  }

  predicate Enabled(s: State, step: Step) {
    match step
    case Fire(id, _) => id in s.callbacks
    case Capture(i) => i < |s.drains| && s.drains[i].AtTop?
    case Deliver(i) => i < |s.drains| && s.drains[i].Writing?
    case EndDispose => s.closed && s.drains == []
    case _ => true
  }

  function Next(cfg: Config, s: State, step: Step): State
    requires Enabled(s, step)
  {
    match step
    case Write(content, stopped) => Accept(cfg, s, content, stopped)
    case Flush(stopped) => FlushLocked(s, stopped)
    case Fire(id, stopped) => Fired(s, id, stopped)
    case Capture(i) => Captured(s, i)
    case Deliver(i) => Delivered(s, i)
    case BeginDispose(stopped) => Closing(s, stopped)
    case EndDispose => s.(disposed := true)
  }

  predicate CanRun(cfg: Config, s: State, steps: seq<Step>)
    decreases |steps|
  {
    steps == [] || (Enabled(s, steps[0]) && CanRun(cfg, Next(cfg, s, steps[0]), steps[1..]))
  }

  function Exec(cfg: Config, s: State, steps: seq<Step>): State
    requires CanRun(cfg, s, steps)
    decreases |steps|
  {
    if steps == [] then s else Exec(cfg, Next(cfg, s, steps[0]), steps[1..])
  }

  // ---------- the writer object ----------

  /** The struct, with the goroutines and callbacks it has outstanding. Its methods are
      the lock-protected sections; the protocol's functions say what each does. */
  class BufferedWriter {
    const cfg: Config
    var buffer: seq<string>
    var bufferBytes: nat
    var timer: Option<nat>
    var pendingOverflow: Option<seq<string>>
    var closed: bool
    var callbacks: set<nat>
    var nextTimer: nat
    var drains: seq<Drain>
    var written: seq<seq<string>>
    ghost var accepted: seq<string>
    ghost var disposed: bool

    ghost function Abs(): State
      reads this
    {
      State(buffer, bufferBytes, timer, pendingOverflow, closed, callbacks, nextTimer, drains, written, accepted, disposed)
    }

    constructor (cfg: Config)
      ensures this.cfg == cfg && Abs() == INIT
    {
      this.cfg := cfg;
      buffer, bufferBytes, timer, pendingOverflow, closed := [], 0, None, None, false;
      callbacks, nextTimer, drains, written := {}, 0, [], [];
      accepted, disposed := [], false;
    }

    method StopTimerLocked(stopped: bool)
      modifies this`timer, this`callbacks
      ensures Abs() == StopTimer(old(Abs()), stopped)
    {
      if timer.Some? {
        if stopped {
          callbacks := callbacks - {timer.value};
        }
        timer := None;
      }
    }

    method ScheduleFlushLocked()
      modifies this`timer, this`callbacks, this`nextTimer
      ensures Abs() == ScheduleFlush(old(Abs()))
    {
      if timer.Some? {
        return;
      }
      timer := Some(nextTimer);
      callbacks := callbacks + {nextTimer};
      nextTimer := nextTimer + 1;
    }

    method FlushAllLocked(stopped: bool)
      modifies this
      ensures Abs() == FlushLocked(old(Abs()), stopped)
    {
      if pendingOverflow.Some? && |pendingOverflow.value| > 0 {
        written := written + [pendingOverflow.value];
        pendingOverflow := None;
      }
      if |buffer| > 0 {
        written := written + [buffer];
        buffer := [];
        bufferBytes := 0;
      }
      StopTimerLocked(stopped);
    }

    method FlushDeferredLocked(stopped: bool)
      modifies this
      ensures Abs() == FlushDeferred(old(Abs()), stopped)
    {
      if pendingOverflow.Some? {
        pendingOverflow := Some(pendingOverflow.value + buffer);
        buffer := [];
        bufferBytes := 0;
        StopTimerLocked(stopped);
        return;
      }
      var detached := buffer;
      buffer := [];
      bufferBytes := 0;
      StopTimerLocked(stopped);
      pendingOverflow := Some(detached);
      drains := drains + [AtTop];
    }

    method WriteContent(content: string, stopped: bool) returns (ok: bool)
      modifies this
      ensures ok == !old(closed)
      ensures Abs() == Accept(cfg, old(Abs()), content, stopped)
    {
      hide ScheduleFlush, FlushDeferred;
      if closed {
        return false;
      }
      buffer := buffer + [content];
      bufferBytes := bufferBytes + |content|;
      accepted := accepted + [content];
      ScheduleFlushLocked();
      if |buffer| >= cfg.maxBufferSize || bufferBytes >= cfg.maxBufferBytes {
        FlushDeferredLocked(stopped);
      }
      return true;
    }

    method TimerCallback(id: nat, stopped: bool)
      modifies this
      ensures Abs() == Fired(old(Abs()), id, stopped)
    {
      callbacks := callbacks - {id};
      if closed {
        return;
      }
      FlushAllLocked(stopped);
    }

    /** The locked part of one round of drain goroutine i; it exits when nothing is pending. */
    method DrainCapture(i: nat) returns (exit: bool)
      requires i < |drains|
      modifies this
      ensures Abs() == Captured(old(Abs()), i)
      ensures exit <==> Pend(old(Abs())) == []
    {
      if pendingOverflow.None? || |pendingOverflow.value| == 0 {
        pendingOverflow := None;
        drains := drains[..i] + drains[i + 1..];
        return true;
      }
      var toWrite := pendingOverflow.value;
      pendingOverflow := Some([]);
      drains := drains[i := Writing(toWrite)];
      return false;
    }

    /** The writeFn call of drain goroutine i, outside the lock. */
    method DrainWrite(i: nat)
      requires i < |drains| && drains[i].Writing?
      modifies this
      ensures Abs() == Delivered(old(Abs()), i)
    {
      written := written + [drains[i].batch];
      drains := drains[i := AtTop];
    }

    /** Dispose up to the wait; `first` is false when the writer was closed already. */
    method DisposeLocked(stopped: bool) returns (first: bool)
      modifies this
      ensures Abs() == Closing(old(Abs()), stopped)
      ensures first == !old(closed)
    {
      if closed {
        return false;
      }
      closed := true;
      FlushAllLocked(stopped);
      return true;
    }
  }
}
