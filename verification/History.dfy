/** The input history ring (internal/app/cli/input/history.go). */
module History {
  const RING_CAPACITY := 256

  /** The last n entries. */
  function LastN<T>(s: seq<T>, n: nat): (r: seq<T>) {
    if |s| <= n then s else s[|s| - n..]
  }

  /** What pushing does to the entries, oldest first. */
  function Pushed(entries: seq<string>, entry: string): seq<string> {
    if entry == "" || (entries != [] && entries[|entries| - 1] == entry) then entries
    else LastN(entries + [entry], RING_CAPACITY)
  }

  /** The entries stored in a circle of slots, oldest first; head is the next slot to write. */
  function Unrolled(slots: seq<string>, head: nat, size: nat): seq<string>
    requires |slots| == RING_CAPACITY && head < RING_CAPACITY && size <= RING_CAPACITY
  {
    seq(size, i requires 0 <= i < size => slots[(head - size + i + RING_CAPACITY) % RING_CAPACITY])
  }

  lemma PushUnrolled(slots: seq<string>, head: nat, size: nat, entry: string)
    requires |slots| == RING_CAPACITY && head < RING_CAPACITY && size <= RING_CAPACITY
    ensures Unrolled(slots[head := entry], (head + 1) % RING_CAPACITY, if size < RING_CAPACITY then size + 1 else size) ==
            LastN(Unrolled(slots, head, size) + [entry], RING_CAPACITY)
  { }

  class Ring {
    const entries: array<string>
    var head: nat
    var size: nat

    ghost predicate Valid()
      reads this
    {
      entries.Length == RING_CAPACITY && head < RING_CAPACITY && size <= RING_CAPACITY
    }

    ghost function Contents(): (s: seq<string>)
      requires Valid()
      reads this, entries
      ensures |s| == size
    {
      Unrolled(entries[..], head, size)
    }

    constructor ()
      ensures Valid() && fresh(entries) && Contents() == []
    {
      entries := new string[RING_CAPACITY](_ => "");
      head, size := 0, 0;
    }

    /** A ring of its own with given storage. */
    constructor Copy(from: Ring)
      requires from.Valid()
      ensures Valid() && fresh(entries) && Contents() == from.Contents()
    {
      var slots := from.entries[..];
      entries := new string[RING_CAPACITY](i requires 0 <= i < RING_CAPACITY => slots[i]);
      head, size := from.head, from.size;
      new;
      assert entries[..] == slots;
    }

    method Push(entry: string)
      requires Valid()
      modifies this, entries
      ensures Valid() && Contents() == Pushed(old(Contents()), entry)
    {
      if entry == "" {
        return;
      }
      if size > 0 {
        var last := entries[(head - 1 + RING_CAPACITY) % RING_CAPACITY];
        assert Contents()[size - 1] == last;
        if last == entry {
          return;
        }
      }
      ghost var was, h, n := entries[..], head, size;
      entries[head] := entry;
      head := (head + 1) % RING_CAPACITY;
      if size < RING_CAPACITY {
        size := size + 1;
      }
      assert entries[..] == was[h := entry];
      PushUnrolled(was, h, n, entry);
    }

    method At(idx: int) returns (entry: string, ok: bool)
      requires Valid()
      ensures ok <==> 0 <= idx < size
      ensures entry == if ok then Contents()[idx] else ""
    {
      if idx < 0 || idx >= size {
        return "", false;
      }
      var pos := (head - size + idx + RING_CAPACITY) % RING_CAPACITY;
      return entries[pos], true;
    }

    /** The clone shares nothing with this ring: both objects are new. */
    method Clone() returns (r: Ring)
      requires Valid()
      ensures fresh(r) && fresh(r.entries) && r.Valid() && r.Contents() == Contents()
    {
      r := new Ring.Copy(this);
    }
  }

  // ---------- what the ring remembers ----------

  /** The ring's entries after some pushes into an empty ring. */
  function Replay(pushes: seq<string>): seq<string> {
    if pushes == [] then [] else Pushed(Replay(pushes[..|pushes| - 1]), pushes[|pushes| - 1])
  }

  function NonEmpty(pushes: seq<string>): seq<string> {
    if pushes == [] then []
    else
      var front, last := NonEmpty(pushes[..|pushes| - 1]), pushes[|pushes| - 1];
      if last == "" then front else front + [last]
  }

  /** The entries that differ from the one just before them. */
  function Collapsed(s: seq<string>): seq<string> {
    if |s| <= 1 then s
    else
      var front, last := Collapsed(s[..|s| - 1]), s[|s| - 1];
      if s[|s| - 2] == last then front else front + [last]
  }

  lemma {:induction false} CollapsedEndsAlike(s: seq<string>)
    requires s != []
    ensures Collapsed(s) != [] && Collapsed(s)[|Collapsed(s)| - 1] == s[|s| - 1]
  {
    if |s| > 1 && s[|s| - 2] == s[|s| - 1] {
      CollapsedEndsAlike(s[..|s| - 1]);
    }
  }

  lemma LastSnoc<T>(s: seq<T>, x: T, n: nat)
    requires n > 0
    ensures LastN(LastN(s, n) + [x], n) == LastN(s + [x], n)
  { }

  /** The ring holds the last RingCapacity non-empty pushes, consecutive repeats collapsed. */
  lemma {:induction false} RingIsRecentHistory(pushes: seq<string>)
    ensures Replay(pushes) == LastN(Collapsed(NonEmpty(pushes)), RING_CAPACITY)
  {
    if pushes != [] {
      var front, last := pushes[..|pushes| - 1], pushes[|pushes| - 1];
      RingIsRecentHistory(front);
      if last != "" {
        var kept := NonEmpty(front);
        assert (kept + [last])[..|kept|] == kept;
        var h := Collapsed(kept);
        if kept != [] {
          CollapsedEndsAlike(kept);
          assert LastN(h, RING_CAPACITY)[|LastN(h, RING_CAPACITY)| - 1] == h[|h| - 1];
        }
        hide Collapsed, NonEmpty;
        LastSnoc(h, last, RING_CAPACITY);
      }
    }
  }

  /** No entry is empty or repeats the one before it. */
  predicate Tidy(entries: seq<string>) {
    && |entries| <= RING_CAPACITY
    && (forall i :: 0 <= i < |entries| ==> entries[i] != "")
    && (forall i :: 0 < i < |entries| ==> entries[i] != entries[i - 1])
  }

  lemma PushKeepsTidy(entries: seq<string>, entry: string)
    requires Tidy(entries)
    ensures Tidy(Pushed(entries, entry))
  { }
}
