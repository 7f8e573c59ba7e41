/** Allowed-tools scope (internal/app/diagnose/scope.go). */
module Scope {
  import opened Prelude
  import opened Llm

  const SKILL_TOOL_NAME := "Skill"

  type Filter = Option<seq<string>>

  /** The active filter blocks a dispatch of `name`. */
  predicate Denied(filter: Filter, name: string) {
    filter.Some? && name != SKILL_TOOL_NAME && name !in filter.value
  }

  /** The schemas a filter leaves, in their own order. */
  function Narrowed(tools: seq<ToolSchema>, filter: Filter): seq<ToolSchema> {
    if tools == [] then []
    else
      var rest := Narrowed(tools[..|tools| - 1], filter);
      var last := tools[|tools| - 1];
      if Denied(filter, last.name) then rest else rest + [last]
  }

  /** Each name once, where it first occurs. */
  function Distinct(names: seq<string>): seq<string> {
    if names == [] then []
    else
      var rest := Distinct(names[..|names| - 1]);
      var last := names[|names| - 1];
      if last in rest then rest else rest + [last]
  }

  function Normalized(filter: Filter): Filter {
    match filter
    case None => None
    case Some(names) => Some(Distinct(names))
  }

  method ApplyFilter(tools: seq<ToolSchema>, filter: Filter) returns (out: seq<ToolSchema>)
    ensures out == Narrowed(tools, filter)
  {
    if filter.None? {
      NoFilterNarrowsNothing(tools);
      return tools;
    }
    var allowed: set<string> := {};
    for i := 0 to |filter.value|
      invariant forall n :: n in allowed <==> n in filter.value[..i]
    {
      assert filter.value[..i + 1] == filter.value[..i] + [filter.value[i]];
      allowed := allowed + {filter.value[i]};
    }
    assert filter.value[..|filter.value|] == filter.value;
    allowed := allowed + {SKILL_TOOL_NAME};
    out := [];
    for i := 0 to |tools|
      invariant out == Narrowed(tools[..i], filter)
    {
      assert tools[..i + 1][..i] == tools[..i];
      if tools[i].name in allowed {
        out := out + [tools[i]];
      }
    }
    assert tools[..|tools|] == tools;
  }

  method NormalizeFilter(filter: Filter) returns (r: Filter)
    ensures r == Normalized(filter)
  {
    if filter.None? {
      return None;
    }
    var names := filter.value;
    var seen: set<string> := {};
    var out: seq<string> := [];
    for i := 0 to |names|
      invariant out == Distinct(names[..i])
      invariant forall n :: n in seen <==> n in out
    {
      assert names[..i + 1][..i] == names[..i];
      if names[i] !in seen {
        seen := seen + {names[i]};
        out := out + [names[i]];
      }
    }
    assert names[..|names|] == names;
    r := Some(out);
  }

  method ScopeDenied(filter: Filter, name: string) returns (denied: bool)
    ensures denied <==> Denied(filter, name)
    ensures denied <==> filter.Some? && name != "Skill" && name !in filter.value
  {
    if filter.None? || name == SKILL_TOOL_NAME {
      return false;
    }
    for i := 0 to |filter.value|
      invariant name !in filter.value[..i]
    {
      if filter.value[i] == name {
        return false;
      }
    }
    assert filter.value[..|filter.value|] == filter.value;
    return true;
  }

  lemma {:induction false} NoFilterNarrowsNothing(tools: seq<ToolSchema>)
    ensures Narrowed(tools, None) == tools
  {
    if tools != [] {
      NoFilterNarrowsNothing(tools[..|tools| - 1]);
    }
  }

  /** A schema is advertised exactly when dispatching its tool would not be denied,
      and as often as it was offered. */
  lemma {:induction false} AdvertisedIffDispatchable(tools: seq<ToolSchema>, filter: Filter, ts: ToolSchema)
    ensures ts in Narrowed(tools, filter) <==>
            ts in tools && (filter.None? || ts.name == "Skill" || ts.name in filter.value)
    ensures multiset(Narrowed(tools, filter))[ts] == if Denied(filter, ts.name) then 0 else multiset(tools)[ts]
  {
    if tools != [] {
      var front := tools[..|tools| - 1];
      AdvertisedIffDispatchable(front, filter, ts);
      assert tools == front + [tools[|tools| - 1]];
    }
  }

  /** Normalising keeps the set of names, removes repeats, and orders names by their
      first occurrence: what a longer list adds only comes after. */
  lemma {:induction false} DistinctIsFirstOccurrences(names: seq<string>, k: nat)
    requires k <= |names|
    ensures forall n :: n in Distinct(names) <==> n in names
    ensures forall i, j :: 0 <= i < j < |Distinct(names)| ==> Distinct(names)[i] != Distinct(names)[j]
    ensures Distinct(names[..k]) <= Distinct(names)
  {
    if names == [] {
    } else {
      var front := names[..|names| - 1];
      assert names == front + [names[|names| - 1]];
      if k < |names| {
        assert names[..k] == front[..k];
        DistinctIsFirstOccurrences(front, k);
      } else {
        assert names[..k] == names;
        DistinctIsFirstOccurrences(front, 0);
      }
    }
  }

  /** Normalising never changes which dispatches are denied. */
  lemma NormalizingKeepsVerdicts(filter: Filter, name: string)
    ensures Denied(Normalized(filter), name) <==> Denied(filter, name)
  {
    if filter.Some? {
      DistinctIsFirstOccurrences(filter.value, 0);
    }
  }

  lemma NarrowedSnoc(tools: seq<ToolSchema>, ts: ToolSchema, filter: Filter)
    ensures Narrowed(tools + [ts], filter) == Narrowed(tools, filter) + if Denied(filter, ts.name) then [] else [ts]
  {
    assert (tools + [ts])[..|tools|] == tools;
    assert Narrowed(tools, filter) + [] == Narrowed(tools, filter);
  }

  /** Narrowing keeps the order of the schemas. */
  lemma {:induction false} NarrowingKeepsOrder(a: seq<ToolSchema>, b: seq<ToolSchema>, filter: Filter)
    ensures Narrowed(a + b, filter) == Narrowed(a, filter) + Narrowed(b, filter)
  {
    if b == [] {
      assert a + b == a;
      assert Narrowed(a, filter) + [] == Narrowed(a, filter);
    } else {
      var front, last := b[..|b| - 1], b[|b| - 1];
      NarrowingKeepsOrder(a, front, filter);
      NarrowedSnoc(front, last, filter);
      NarrowedSnoc(a + front, last, filter);
      hide Narrowed;
      assert b == front + [last] && a + b == a + front + [last];
      Associate(Narrowed(a, filter), Narrowed(front, filter), if Denied(filter, last.name) then [] else [last]);
    }
  }
}
