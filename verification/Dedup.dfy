/** The per-run cache of tool results (internal/app/diagnose/dedup.go). */
module Dedup {
  import opened Prelude
  import opened Llm
  import Hex

  datatype ToolOutput = ToolOutput(content: string, isError: bool, toolFilter: Option<seq<string>>)

  datatype Entry = Entry(out: ToolOutput, turn: nat)

  /** A SHA-256 sum. */
  type Digest = d: seq<Hex.byte> | |d| == 32 witness seq(32, _ => 0)

  function Key(name: string, sum: Digest): string {
    name + ":" + Hex.Encode(sum)
  }

  /** The text form of a key loses nothing, whatever colons the name holds. */
  lemma KeyInjective(n1: string, d1: Digest, n2: string, d2: Digest)
    requires Key(n1, d1) == Key(n2, d2)
    ensures n1 == n2 && d1 == d2
  {
    var k := Key(n1, d1);
    assert |n1| == |n2| == |k| - 65;
    assert k[..|k| - 65] == n1 && k[..|k| - 65] == n2;
    assert k[|k| - 64..] == Hex.Encode(d1) && k[|k| - 64..] == Hex.Encode(d2);
    if d1 != d2 {
      Hex.EncodeInjective(d1, d2);
    }
  }

  /** Whether an entry may still be served in turn `turn`. */
  predicate Live(e: Entry, window: nat, turn: nat) {
    turn - e.turn < window
  }

  class DedupCache {
    const enabled: bool
    const window: nat
    var entries: map<string, Entry>

    constructor (enabled: bool, window: nat)
      ensures this.enabled == enabled && this.window == window && entries == map[]
    {
      this.enabled, this.window, entries := enabled, window, map[];
    }

    method Lookup(key: string, curTurn: nat) returns (r: Option<ToolOutput>)
      ensures r.Some? <==> enabled && key in entries && Live(entries[key], window, curTurn)
      ensures r.Some? ==> r.value == entries[key].out
    {
      if !enabled {
        return None;
      }
      if key !in entries {
        return None;
      }
      var e := entries[key];
      if curTurn - e.turn >= window {
        return None;
      }
      return Some(e.out);
    }

    method Store(key: string, out: ToolOutput, curTurn: nat)
      modifies this
      ensures entries == if enabled && !out.isError then old(entries)[key := Entry(out, curTurn)] else old(entries)
    {
      if !enabled || out.isError {
        return;
      }
      entries := entries[key := Entry(out, curTurn)];
    }
  }
}
