/** Resolving same-named skills by precedence (internal/app/skills/namespace.go). */
module SkillNames {
  import opened Prelude
  import opened Order

  datatype Skill = Skill(name: string, description: string, body: string, precedence: int, path: string)

  datatype Kind = Shadowing | Unresolvable

  datatype Conflict = Conflict(name: string, kind: Kind, winner: Option<Skill>, shadowed: seq<Skill>)

  datatype Resolution = Resolution(active: seq<Skill>, shadowed: seq<Skill>, conflicts: seq<Conflict>)

  /** The skills of a name, in input order. */
  function Group(skills: seq<Skill>, name: string): seq<Skill> {
    if skills == [] then []
    else Group(skills[..|skills| - 1], name) + if skills[|skills| - 1].name == name then [skills[|skills| - 1]] else []
  }

  function NameSet(skills: seq<Skill>): set<string> {
    set s | s in skills && s.name != "" :: s.name
  }

  /** Position of the first skill of highest precedence. */
  function Best(group: seq<Skill>): (i: nat)
    requires group != []
    ensures i < |group|
    ensures forall j :: 0 <= j < |group| ==> group[j].precedence <= group[i].precedence
    ensures forall j :: 0 <= j < i ==> group[j].precedence < group[i].precedence
  {
    if |group| == 1 then 0
    else
      var b := Best(group[..|group| - 1]);
      if group[|group| - 1].precedence > group[b].precedence then |group| - 1 else b
  }

  /** How many skills of a group have precedence p. */
  function Peers(group: seq<Skill>, p: int): nat {
    if group == [] then 0 else Peers(group[..|group| - 1], p) + if group[|group| - 1].precedence == p then 1 else 0
  }

  /** Two or more skills share the highest precedence. */
  predicate Tied(group: seq<Skill>)
    requires group != []
  {
    Peers(group, group[Best(group)].precedence) > 1
  }

  function Without(group: seq<Skill>, i: nat): seq<Skill>
    requires i < |group|
  {
    group[..i] + group[i + 1..]
  }

  /** What one name contributes. */
  function Settle(name: string, group: seq<Skill>): Resolution
    requires group != []
  {
    if |group| == 1 then Resolution([group[0]], [], [])
    else if Tied(group) then Resolution([], [], [Conflict(name, Unresolvable, None, group)])
    else
      var top := Best(group);
      Resolution([group[top]], Without(group, top), [Conflict(name, Shadowing, Some(group[top]), Without(group, top))])
  }

  function Add(a: Resolution, b: Resolution): Resolution {
    Resolution(a.active + b.active, a.shadowed + b.shadowed, a.conflicts + b.conflicts)
  }

  function ResolveOver(skills: seq<Skill>, order: seq<string>): Resolution
    requires forall n :: n in order ==> Group(skills, n) != []
  {
    if order == [] then Resolution([], [], [])
    else
      assert forall n :: n in order[..|order| - 1] ==> n in order;
      Add(ResolveOver(skills, order[..|order| - 1]), Settle(order[|order| - 1], Group(skills, order[|order| - 1])))
  }

  /** The names of some skills, ascending. */
  ghost predicate NamesInOrder(skills: seq<Skill>, order: seq<string>) {
    Ascending(BEFORE, order) && forall n :: n in order <==> n in NameSet(skills)
  }

  /** The names of some skills, each at its first occurrence. */
  function Names(skills: seq<Skill>): seq<string> {
    if skills == [] then []
    else
      var front, last := Names(skills[..|skills| - 1]), skills[|skills| - 1].name;
      if last == "" || last in front then front else front + [last]
  }

  function NamesOf(skills: seq<Skill>): seq<string> {
    Sort(BEFORE, Names(skills))
  }

  /** What Resolve returns: each name settled by its group, names ascending. */
  function Resolved(skills: seq<Skill>): Resolution {
    NamesAreInOrder(skills);
    NamedGroupsExist(skills, NamesOf(skills));
    ResolveOver(skills, NamesOf(skills))
  }

  lemma {:induction false} NamesAreDistinct(skills: seq<Skill>)
    ensures forall n :: n in Names(skills) <==> n in NameSet(skills)
    ensures forall i, j :: 0 <= i < j < |Names(skills)| ==> Names(skills)[i] != Names(skills)[j]
  {
    if skills != [] {
      var front, last := skills[..|skills| - 1], skills[|skills| - 1];
      NamesAreDistinct(front);
      hide Names;
      assert skills == front + [last];
      forall n ensures n in NameSet(skills) <==> n in NameSet(front) || (n == last.name && n != "") {
        if n in NameSet(skills) {
          var s :| s in skills && s.name == n && n != "";
          assert s in front || s == last;
        }
        assert last in skills;
      }
    }
  }

  lemma NamesAreInOrder(skills: seq<Skill>)
    ensures NamesInOrder(skills, NamesOf(skills))
  {
    NamesAreDistinct(skills);
    SortedNamesAscend(Names(skills));
  }

  // ---------- the loops ----------

  lemma {:induction false} GroupHas(skills: seq<Skill>, name: string)
    ensures forall s :: s in Group(skills, name) <==> s in skills && s.name == name
  {
    if skills != [] {
      GroupHas(skills[..|skills| - 1], name);
      assert skills == skills[..|skills| - 1] + [skills[|skills| - 1]];
    }
  }

  lemma NamedGroupsExist(skills: seq<Skill>, order: seq<string>)
    requires NamesInOrder(skills, order)
    ensures forall n :: n in order ==> Group(skills, n) != []
  {
    forall n | n in order ensures Group(skills, n) != [] {
      GroupHas(skills, n);
      assert n in NameSet(skills);
      var s :| s in skills && s.name == n;
      assert s in Group(skills, n);
    }
  }

  method GroupByName(skills: seq<Skill>) returns (groups: map<string, seq<Skill>>, order: seq<string>)
    ensures groups.Keys == NameSet(skills)
    ensures forall n :: n in groups ==> groups[n] == Group(skills, n)
    ensures order == NamesOf(skills)
  {
    groups := map[];
    for i := 0 to |skills|
      invariant groups.Keys == NameSet(skills[..i])
      invariant forall n :: n in groups ==> groups[n] == Group(skills[..i], n)
    {
      assert skills[..i + 1][..i] == skills[..i] && skills[..i + 1] == skills[..i] + [skills[i]];
      var s := skills[i];
      if s.name == "" {
        continue;
      }
      if s.name !in groups {
        GroupsAreNamed(skills[..i], s.name);
      }
      groups := groups[s.name := (if s.name in groups then groups[s.name] else []) + [s]];
    }
    assert skills[..|skills|] == skills;
    var keys := KeyList(groups.Keys);
    order := Sort(BEFORE, keys);
    SortedNamesAscend(keys);
    OneOrder(skills, order);
  }

  lemma OneOrder(skills: seq<Skill>, order: seq<string>)
    requires NamesInOrder(skills, order)
    ensures order == NamesOf(skills)
  {
    NamesAreInOrder(skills);
    StringsAreOrdered();
    hide NamesOf;
    AscendingUnique(BEFORE, order, NamesOf(skills));
  }

  /** Ranging over a map's keys, in any order. */
  method KeyList(names: set<string>) returns (keys: seq<string>)
    ensures forall n :: n in keys <==> n in names
    ensures forall i, j :: 0 <= i < j < |keys| ==> keys[i] != keys[j]
  {
    keys := [];
    var todo := names;
    while todo != {}
      invariant todo <= names
      invariant forall n :: n in keys <==> n in names && n !in todo
      invariant forall i, j :: 0 <= i < j < |keys| ==> keys[i] != keys[j]
      decreases todo
    {
      var n :| n in todo;
      keys := keys + [n];
      todo := todo - {n};
    }
  }

  lemma GroupsAreNamed(skills: seq<Skill>, name: string)
    requires name != ""
    ensures Group(skills, name) != [] ==> name in NameSet(skills)
  {
    GroupHas(skills, name);
    if Group(skills, name) != [] {
      var s := Group(skills, name)[0];
      assert s in Group(skills, name);
      assert s.name in NameSet(skills);
    }
  }

  lemma SortedNamesAscend(keys: seq<string>)
    requires forall i, j :: 0 <= i < j < |keys| ==> keys[i] != keys[j]
    ensures Ascending(BEFORE, Sort(BEFORE, keys))
    ensures forall n :: n in Sort(BEFORE, keys) <==> n in keys
  {
    StringsAreOrdered();
    assert WeakOrder(BEFORE) by {
      forall a, b, c | !BEFORE(b, a) && !BEFORE(c, b) ensures !BEFORE(c, a) {
        assert a == b || BEFORE(a, b);
        assert b == c || BEFORE(b, c);
      }
    }
    SortSorts(BEFORE, keys);
    var r := Sort(BEFORE, keys);
    forall n ensures n in r <==> n in keys {
      assert n in r <==> n in multiset(r);
      assert n in keys <==> n in multiset(keys);
    }
    DistinctCounts(keys);
    forall i, j | 0 <= i < j < |r| ensures BEFORE(r[i], r[j]) {
      assert !BEFORE(r[j], r[i]);
      if r[i] == r[j] {
        TwoOccurrences(r, i, j);
      }
    }
  }

  lemma {:induction false} DistinctCounts(keys: seq<string>)
    requires forall i, j :: 0 <= i < j < |keys| ==> keys[i] != keys[j]
    ensures forall n :: multiset(keys)[n] <= 1
  {
    if keys != [] {
      DistinctCounts(keys[1..]);
      assert keys == [keys[0]] + keys[1..];
      assert keys[0] !in keys[1..];
    }
  }

  lemma TwoOccurrences(r: seq<string>, i: nat, j: nat)
    requires i < j < |r| && r[i] == r[j]
    ensures multiset(r)[r[i]] >= 2
  {
    assert r == r[..i] + [r[i]] + r[i + 1..j] + [r[j]] + r[j + 1..];
  }

  method TopByPrecedence(group: seq<Skill>) returns (idx: nat, tie: bool)
    requires group != []
    ensures idx == Best(group) && (tie <==> Tied(group))
  {
    var best := 0;
    var count := 1;
    assert group[..1] == [group[0]] && group[..1][..0] == [];
    for i := 1 to |group|
      invariant best == Best(group[..i])
      invariant count == Peers(group[..i], group[best].precedence)
    {
      assert group[..i + 1][..i] == group[..i];
      if group[i].precedence > group[best].precedence {
        NoPeers(group[..i], group[i].precedence);
        best := i;
        count := 1;
      } else if group[i].precedence == group[best].precedence {
        count := count + 1;
      }
    }
    assert group[..|group|] == group;
    return best, count > 1;
  }

  lemma {:induction false} NoPeers(group: seq<Skill>, p: int)
    ensures Peers(group, p) == 0 <==> forall j :: 0 <= j < |group| ==> group[j].precedence != p
  {
    if group != [] {
      NoPeers(group[..|group| - 1], p);
    }
  }

  /** The body of Resolve's loop. */
  method SettleName(name: string, group: seq<Skill>) returns (r: Resolution)
    requires group != []
    ensures r == Settle(name, group)
  {
    if |group| == 1 {
      return Resolution([group[0]], [], []);
    }
    var top, tie := TopByPrecedence(group);
    if tie {
      return Resolution([], [], [Conflict(name, Unresolvable, None, group)]);
    }
    SettleShadows(name, group);
    hide Settle, Tied, Best, Without;
    var losers: seq<Skill> := [];
    NoLosers(group);
    for k := 0 to |group|
      invariant losers == LosersAmong(group, k, top)
    {
      LoserStep(group, k, top);
      if k != top {
        losers := losers + [group[k]];
      }
    }
    AllLosers(group, top);
    r := Resolution([group[top]], losers, [Conflict(name, Shadowing, Some(group[top]), losers)]);
  }

  lemma SettleShadows(name: string, group: seq<Skill>)
    requires |group| > 1 && !Tied(group)
    ensures var top := Best(group);
            Settle(name, group) ==
              Resolution([group[top]], Without(group, top), [Conflict(name, Shadowing, Some(group[top]), Without(group, top))])
  { }

  /** The first k members without the winner. */
  function LosersAmong(group: seq<Skill>, k: nat, top: nat): seq<Skill>
    requires k <= |group|
  {
    if k <= top then group[..k] else Without(group[..k], top)
  }

  lemma NoLosers(group: seq<Skill>)
    ensures forall top: nat :: LosersAmong(group, 0, top) == []
  { }

  lemma AllLosers(group: seq<Skill>, top: nat)
    requires top < |group|
    ensures LosersAmong(group, |group|, top) == Without(group, top)
  {
    assert group[..|group|] == group;
  }

  lemma LoserStep(group: seq<Skill>, k: nat, top: nat)
    requires k < |group| && top < |group|
    ensures LosersAmong(group, k + 1, top) == if k == top then LosersAmong(group, k, top) else LosersAmong(group, k, top) + [group[k]]
  {
    if k == top {
      assert Without(group[..k + 1], top) == group[..k];
    } else if k > top {
      assert Without(group[..k + 1], top) == Without(group[..k], top) + [group[k]];
    } else {
      assert group[..k + 1] == group[..k] + [group[k]];
    }
  }

  method Resolve(skills: seq<Skill>) returns (res: Resolution)
    ensures res == Resolved(skills)
  {
    hide Settle, NamesOf;
    var groups, order := GroupByName(skills);
    NamesAreInOrder(skills);
    NamedGroupsExist(skills, order);
    res := Resolution([], [], []);
    for i := 0 to |order|
      invariant (forall n :: n in order[..i] ==> Group(skills, n) != []) && res == ResolveOver(skills, order[..i])
    {
      var name := order[i];
      assert name in order && name in NameSet(skills);
      var one := SettleName(name, groups[name]);
      ResolveSnoc(skills, order, i);
      res := Resolution(res.active + one.active, res.shadowed + one.shadowed, res.conflicts + one.conflicts);
    }
    assert order[..|order|] == order;
  }

  lemma ResolveSnoc(skills: seq<Skill>, order: seq<string>, i: nat)
    requires i < |order| && forall n :: n in order ==> Group(skills, n) != []
    ensures forall n :: n in order[..i + 1] ==> Group(skills, n) != []
    ensures forall n :: n in order[..i] ==> Group(skills, n) != []
    ensures ResolveOver(skills, order[..i + 1]) == Add(ResolveOver(skills, order[..i]), Settle(order[i], Group(skills, order[i])))
  {
    assert order[..i + 1][..i] == order[..i];
    hide Settle;
  }

  // ---------- what resolution means ----------

  /** All members of unresolvable conflicts. */
  function Stuck(conflicts: seq<Conflict>): seq<Skill> {
    if conflicts == [] then []
    else
      Stuck(conflicts[..|conflicts| - 1]) +
        if conflicts[|conflicts| - 1].kind == Unresolvable then conflicts[|conflicts| - 1].shadowed else []
  }

  function Times(skills: seq<Skill>, x: Skill): nat { multiset(skills)[x] }

  lemma TimesConcat(a: seq<Skill>, b: seq<Skill>, x: Skill)
    ensures Times(a + b, x) == Times(a, x) + Times(b, x)
  { }

  /** How often a skill appears in a resolution's three places. */
  function Placed(r: Resolution, x: Skill): nat {
    Times(r.active, x) + Times(r.shadowed, x) + Times(Stuck(r.conflicts), x)
  }

  lemma StuckSnoc(conflicts: seq<Conflict>, c: Conflict)
    ensures Stuck(conflicts + [c]) == Stuck(conflicts) + if c.kind == Unresolvable then c.shadowed else []
  {
    assert (conflicts + [c])[..|conflicts|] == conflicts;
  }

  lemma SettlePlacesAll(name: string, group: seq<Skill>, x: Skill)
    requires group != []
    ensures Placed(Settle(name, group), x) == Times(group, x)
  {
    hide Times, Tied, Best;
    NoTimes(x);
    var s := Settle(name, group);
    if |s.conflicts| == 1 {
      StuckSnoc([], s.conflicts[0]);
      assert [] + [s.conflicts[0]] == s.conflicts;
      assert [] + group == group;
    }
    if |group| == 1 {
      assert group == [group[0]];
    } else if !Tied(group) {
      DropTimes(group, Best(group), x);
    }
  }

  lemma NoTimes(x: Skill)
    ensures Times([], x) == 0 && Stuck([]) == []
  { }

  lemma DropTimes(group: seq<Skill>, i: nat, x: Skill)
    requires i < |group|
    ensures Times(group, x) == Times([group[i]], x) + Times(Without(group, i), x)
  {
    assert group == group[..i] + [group[i]] + group[i + 1..];
    TimesConcat(group[..i] + [group[i]], group[i + 1..], x);
    TimesConcat(group[..i], [group[i]], x);
    TimesConcat(group[..i], group[i + 1..], x);
  }

  lemma PlacedAdd(r: Resolution, s: Resolution, x: Skill)
    ensures Placed(Add(r, s), x) == Placed(r, x) + Placed(s, x)
  {
    hide Times;
    TimesConcat(r.active, s.active, x);
    TimesConcat(r.shadowed, s.shadowed, x);
    StuckAppend(r.conflicts, s.conflicts);
    TimesConcat(Stuck(r.conflicts), Stuck(s.conflicts), x);
  }

  lemma {:induction false} StuckAppend(a: seq<Conflict>, b: seq<Conflict>)
    ensures Stuck(a + b) == Stuck(a) + Stuck(b)
  {
    if b == [] {
      assert a + b == a;
    } else {
      var front, last := b[..|b| - 1], b[|b| - 1];
      StuckAppend(a, front);
      assert (a + b)[..|a + b| - 1] == a + front;
    }
  }

  lemma {:induction false} GroupTimes(skills: seq<Skill>, name: string, x: Skill)
    ensures Times(Group(skills, name), x) == if x.name == name then Times(skills, x) else 0
  {
    if skills != [] {
      var front, last := skills[..|skills| - 1], skills[|skills| - 1];
      GroupTimes(front, name, x);
      TimesConcat(front, [last], x);
      assert front + [last] == skills;
      TimesConcat(Group(front, name), if last.name == name then [last] else [], x);
    }
  }

  lemma {:induction false} PlacedOver(skills: seq<Skill>, order: seq<string>, x: Skill)
    requires forall n :: n in order ==> Group(skills, n) != []
    requires Ascending(BEFORE, order)
    ensures Placed(ResolveOver(skills, order), x) == if x.name in order then Times(skills, x) else 0
  {
    if order != [] {
      var front, last := order[..|order| - 1], order[|order| - 1];
      assert order == front + [last];
      PlacedOver(skills, front, x);
      hide Settle, Placed, Times, Ascending;
      SettlePlacesAll(last, Group(skills, last), x);
      PlacedAdd(ResolveOver(skills, front), Settle(last, Group(skills, last)), x);
      GroupTimes(skills, last, x);
      assert last !in front by { LastIsNew(order); }
    } else {
      assert Stuck([]) == [];
    }
  }

  lemma LastIsNew(order: seq<string>)
    requires order != [] && Ascending(BEFORE, order)
    ensures order[|order| - 1] !in order[..|order| - 1]
  {
    BeforeTotal(order[|order| - 1], order[|order| - 1]);
  }

  /** Every named skill is placed exactly once: active, shadowed, or in an unresolvable
      conflict, with its multiplicity; nameless skills nowhere. */
  lemma EverySkillIsPlacedOnce(skills: seq<Skill>, x: Skill)
    ensures Placed(Resolved(skills), x) == if x.name != "" then Times(skills, x) else 0
  {
    NamesAreInOrder(skills);
    NamedGroupsExist(skills, NamesOf(skills));
    hide NamesOf, Placed;
    PlacedOver(skills, NamesOf(skills), x);
    if x.name != "" && x in skills {
      assert x.name in NameSet(skills);
    }
  }

  /** A name's outcome: who is active under it, and which conflict it has. */
  ghost predicate Outcome(r: Resolution, name: string, group: seq<Skill>)
    requires group != []
  {
    if |group| > 1 && Tied(group) then
      && (forall s :: s in r.active ==> s.name != name)
      && (exists i :: 0 <= i < |r.conflicts| && r.conflicts[i] == Conflict(name, Unresolvable, None, group)
            && forall j :: 0 <= j < |r.conflicts| && j != i ==> r.conflicts[j].name != name)
    else
      && (exists i :: 0 <= i < |r.active| && r.active[i] == group[Best(group)]
            && forall j :: 0 <= j < |r.active| && j != i ==> r.active[j].name != name)
      && (forall c :: c in r.conflicts && c.name == name ==>
            c == Conflict(name, Shadowing, Some(group[Best(group)]), Without(group, Best(group))))
  }

  ghost predicate OnlyNames(r: Resolution, order: seq<string>) {
    (forall s :: s in r.active ==> s.name in order) && (forall c :: c in r.conflicts ==> c.name in order)
  }

  lemma OutcomeStays(r: Resolution, name: string, group: seq<Skill>, s: Resolution)
    requires group != [] && Outcome(r, name, group)
    requires (forall x :: x in s.active ==> x.name != name) && (forall c :: c in s.conflicts ==> c.name != name)
    ensures Outcome(Add(r, s), name, group)
  {
    var t := Add(r, s);
    if |group| > 1 && Tied(group) {
      var i :| 0 <= i < |r.conflicts| && r.conflicts[i] == Conflict(name, Unresolvable, None, group)
               && forall j :: 0 <= j < |r.conflicts| && j != i ==> r.conflicts[j].name != name;
      assert t.conflicts[i] == r.conflicts[i];
      forall j | 0 <= j < |t.conflicts| && j != i ensures t.conflicts[j].name != name {
        if j >= |r.conflicts| { assert t.conflicts[j] in s.conflicts; }
      }
    } else {
      var i :| 0 <= i < |r.active| && r.active[i] == group[Best(group)]
               && forall j :: 0 <= j < |r.active| && j != i ==> r.active[j].name != name;
      assert t.active[i] == r.active[i];
      forall j | 0 <= j < |t.active| && j != i ensures t.active[j].name != name {
        if j >= |r.active| { assert t.active[j] in s.active; }
      }
    }
  }

  lemma OutcomeArises(r: Resolution, name: string, group: seq<Skill>)
    requires group != [] && (forall s :: s in group ==> s.name == name)
    requires (forall x :: x in r.active ==> x.name != name) && (forall c :: c in r.conflicts ==> c.name != name)
    ensures Outcome(Add(r, Settle(name, group)), name, group)
    ensures forall x :: x in Settle(name, group).active ==> x.name == name
    ensures forall c :: c in Settle(name, group).conflicts ==> c.name == name
  {
    var s := Settle(name, group);
    var t := Add(r, s);
    if |group| > 1 && Tied(group) {
      assert t.conflicts[|r.conflicts|] == Conflict(name, Unresolvable, None, group);
      forall j | 0 <= j < |t.conflicts| && j != |r.conflicts| ensures t.conflicts[j].name != name {
        assert t.conflicts[j] in r.conflicts;
      }
    } else {
      assert t.active[|r.active|] == group[Best(group)];
      forall j | 0 <= j < |t.active| && j != |r.active| ensures t.active[j].name != name {
        assert t.active[j] in r.active;
      }
      assert |group| == 1 ==> s.conflicts == [] && r.conflicts + [] == r.conflicts;
    }
    assert group[Best(group)] in group && group[0] in group;
  }

  lemma {:induction false} OutcomesOver(skills: seq<Skill>, order: seq<string>)
    requires (forall n :: n in order ==> Group(skills, n) != []) && Ascending(BEFORE, order)
    ensures var r := ResolveOver(skills, order);
            OnlyNames(r, order) && forall n :: n in order ==> Outcome(r, n, Group(skills, n))
  {
    if order != [] {
      var front, last := order[..|order| - 1], order[|order| - 1];
      assert order == front + [last];
      OutcomesOver(skills, front);
      LastIsNew(order);
      GroupHas(skills, last);
      var r, s := ResolveOver(skills, front), Settle(last, Group(skills, last));
      OutcomeArises(r, last, Group(skills, last));
      hide Settle, Outcome;
      forall n | n in order ensures Outcome(Add(r, s), n, Group(skills, n)) {
        if n != last {
          OutcomeStays(r, n, Group(skills, n), s);
        }
      }
    }
  }

  /** Each name is active once, as its strictly highest-ranked skill, or is in exactly one
      unresolvable conflict that holds its whole group, never both. */
  lemma EachNameHasOneOutcome(skills: seq<Skill>, name: string)
    requires name in NameSet(skills)
    ensures Group(skills, name) != [] && Outcome(Resolved(skills), name, Group(skills, name))
  {
    NamesAreInOrder(skills);
    NamedGroupsExist(skills, NamesOf(skills));
    hide NamesOf, Outcome;
    OutcomesOver(skills, NamesOf(skills));
  }

  lemma LosersRankBelow(group: seq<Skill>)
    requires group != [] && !Tied(group)
    ensures forall s :: s in Without(group, Best(group)) ==> s in group && s.precedence < group[Best(group)].precedence
  {
    var top := Best(group);
    var rest, p := Without(group, top), group[top].precedence;
    PeersDrop(group, top, p);
    NoPeers(rest, p);
    forall s | s in rest ensures s in group && s.precedence < p {
      var k :| 0 <= k < |rest| && rest[k] == s;
      assert group[if k < top then k else k + 1] == s;
    }
  }

  /** A winner ranks strictly above everything it shadows. */
  lemma WinnersRankAbove(skills: seq<Skill>)
    ensures forall c, s :: c in Resolved(skills).conflicts && c.kind == Shadowing && s in c.shadowed ==>
              c.winner.Some? && s.precedence < c.winner.value.precedence && s.name == c.name == c.winner.value.name
  {
    NamesAreInOrder(skills);
    NamedGroupsExist(skills, NamesOf(skills));
    hide NamesOf;
    WinnersOver(skills, NamesOf(skills));
  }

  lemma {:induction false} WinnersOver(skills: seq<Skill>, order: seq<string>)
    requires forall n :: n in order ==> Group(skills, n) != []
    ensures forall c, s :: c in ResolveOver(skills, order).conflicts && c.kind == Shadowing && s in c.shadowed ==>
              c.winner.Some? && s.precedence < c.winner.value.precedence && s.name == c.name == c.winner.value.name
  {
    if order != [] {
      var front, last := order[..|order| - 1], order[|order| - 1];
      assert order == front + [last];
      WinnersOver(skills, front);
      var group := Group(skills, last);
      GroupHas(skills, last);
      if |group| > 1 && !Tied(group) {
        var top := Best(group);
        assert group[top] in group;
        LosersRankBelow(group);
      }
    }
  }

  // ---------- the order of the lists ----------

  lemma GroupSnoc(skills: seq<Skill>, s: Skill, name: string)
    ensures Group(skills + [s], name) == Group(skills, name) + if s.name == name then [s] else []
  {
    assert (skills + [s])[..|skills|] == skills;
  }

  lemma GroupNothing(name: string)
    ensures Group([], name) == []
  { }

  /** A group is the skills of its name in input order. */
  lemma {:induction false} GroupKeepsOrder(a: seq<Skill>, b: seq<Skill>, name: string)
    ensures Group(a + b, name) == Group(a, name) + Group(b, name)
  {
    hide Group;
    if b == [] {
      GroupNothing(name);
      assert a + b == a;
    } else {
      var front, last := b[..|b| - 1], b[|b| - 1];
      GroupKeepsOrder(a, front, name);
      GroupSnoc(front, last, name);
      GroupSnoc(a + front, last, name);
      assert b == front + [last] && a + b == a + front + [last];
      Associate(Group(a, name), Group(front, name), if last.name == name then [last] else []);
    }
  }

  lemma GroupOfOne(s: Skill, name: string)
    ensures Group([s], name) == if s.name == name then [s] else []
  { }

  /** The losers are the group without the winner, still in order. */
  lemma LosersKeepOrder(group: seq<Skill>, j: nat)
    requires group != [] && j < |group| - 1
    ensures var top := Best(group);
            Without(group, top)[j] == group[if j < top then j else j + 1]
  { }

  /** Everything the shadowing conflicts shadow, in their order. */
  function Losers(conflicts: seq<Conflict>): seq<Skill> {
    if conflicts == [] then []
    else
      Losers(conflicts[..|conflicts| - 1]) +
        if conflicts[|conflicts| - 1].kind == Shadowing then conflicts[|conflicts| - 1].shadowed else []
  }

  lemma LosersSnoc(conflicts: seq<Conflict>, c: Conflict)
    ensures Losers(conflicts + [c]) == Losers(conflicts) + if c.kind == Shadowing then c.shadowed else []
  {
    assert (conflicts + [c])[..|conflicts|] == conflicts;
  }

  lemma SettleLoses(r: Resolution, name: string, group: seq<Skill>)
    requires group != [] && r.shadowed == Losers(r.conflicts)
    ensures Add(r, Settle(name, group)).shadowed == Losers(Add(r, Settle(name, group)).conflicts)
  {
    hide Tied, Best;
    var s := Settle(name, group);
    if s.conflicts == [] {
      assert r.conflicts + [] == r.conflicts && r.shadowed + [] == r.shadowed;
    } else {
      LosersSnoc(r.conflicts, s.conflicts[0]);
      assert s.conflicts == [s.conflicts[0]];
      assert r.shadowed + [] == r.shadowed;
    }
  }

  ghost predicate ListedInOrder(r: Resolution) {
    && (forall i, j :: 0 <= i < j < |r.active| ==> Before(r.active[i].name, r.active[j].name))
    && (forall i, j :: 0 <= i < j < |r.conflicts| ==> Before(r.conflicts[i].name, r.conflicts[j].name))
    && r.shadowed == Losers(r.conflicts)
  }

  lemma {:induction false} ListedOver(skills: seq<Skill>, order: seq<string>)
    requires (forall n :: n in order ==> Group(skills, n) != []) && Ascending(BEFORE, order)
    ensures ListedInOrder(ResolveOver(skills, order))
  {
    if order != [] {
      var front, last := order[..|order| - 1], order[|order| - 1];
      assert order == front + [last];
      ListedOver(skills, front);
      OutcomesOver(skills, front);
      GroupHas(skills, last);
      var group := Group(skills, last);
      hide ListedInOrder, Outcome, Group;
      ListedLosers(ResolveOver(skills, front));
      SettleLoses(ResolveOver(skills, front), last, group);
      SettledAlone(last, group);
      hide Settle;
      AddListed(ResolveOver(skills, front), Settle(last, group), front, last);
    }
  }

  lemma ListedLosers(r: Resolution)
    requires ListedInOrder(r)
    ensures r.shadowed == Losers(r.conflicts)
  { }

  lemma SettledAlone(name: string, group: seq<Skill>)
    requires group != [] && forall s :: s in group ==> s.name == name
    ensures (forall x :: x in Settle(name, group).active ==> x.name == name) && |Settle(name, group).active| <= 1
    ensures (forall c :: c in Settle(name, group).conflicts ==> c.name == name) && |Settle(name, group).conflicts| <= 1
  {
    hide Tied;
    assert group[Best(group)] in group && group[0] in group;
  }

  lemma AddListed(r: Resolution, s: Resolution, front: seq<string>, last: string)
    requires ListedInOrder(r) && OnlyNames(r, front) && (forall n :: n in front ==> Before(n, last))
    requires (forall x :: x in s.active ==> x.name == last) && |s.active| <= 1
    requires (forall c :: c in s.conflicts ==> c.name == last) && |s.conflicts| <= 1
    requires Add(r, s).shadowed == Losers(Add(r, s).conflicts)
    ensures ListedInOrder(Add(r, s))
  {
    hide Losers;
    var t := Add(r, s);
    forall i, j | 0 <= i < j < |t.active| ensures Before(t.active[i].name, t.active[j].name) {
      if j == |r.active| {
        assert t.active[j] in s.active && t.active[i] in r.active;
      }
    }
    forall i, j | 0 <= i < j < |t.conflicts| ensures Before(t.conflicts[i].name, t.conflicts[j].name) {
      if j == |r.conflicts| {
        assert t.conflicts[j] in s.conflicts && t.conflicts[i] in r.conflicts;
      }
    }
  }

  /** Active skills and conflicts are listed by ascending name, and the shadowed skills are
      those of the conflicts, in the same order. */
  lemma ListsAreInOrder(skills: seq<Skill>)
    ensures ListedInOrder(Resolved(skills))
  {
    NamesAreInOrder(skills);
    NamedGroupsExist(skills, NamesOf(skills));
    hide NamesOf, ListedInOrder;
    ListedOver(skills, NamesOf(skills));
  }

  // ---------- input order ----------

  lemma {:induction false} GroupPermutes(a: seq<Skill>, b: seq<Skill>, name: string)
    requires multiset(a) == multiset(b)
    ensures multiset(Group(a, name)) == multiset(Group(b, name))
  {
    var x, y := multiset(Group(a, name)), multiset(Group(b, name));
    forall s ensures x[s] == y[s] {
      GroupTimes(a, name, s);
      GroupTimes(b, name, s);
      assert Times(Group(a, name), s) == Times(Group(b, name), s);
    }
  }

  /** Position of each member of the winning precedence is unique, so the winner is a
      function of the group's contents. */
  lemma SettlePermutes(name: string, a: seq<Skill>, b: seq<Skill>)
    requires a != [] && b != [] && multiset(a) == multiset(b)
    ensures Settle(name, a).active == Settle(name, b).active
  {
    assert |a| == |multiset(a)| == |multiset(b)| == |b|;
    BestPermutes(a, b);
    if |a| > 1 {
      PeersPermute(a, b, a[Best(a)].precedence);
      if !Tied(a) {
        var w := a[Best(a)];
        assert w in multiset(a) && w in multiset(b);
        var j :| 0 <= j < |b| && b[j] == w;
        LosersRankBelow(b);
        assert j != Best(b) ==> Without(b, Best(b))[if j < Best(b) then j else j - 1] == w;
      }
    } else {
      assert a == [a[0]] && b == [b[0]];
      assert a[0] in multiset(b);
    }
  }

  lemma BestPermutes(a: seq<Skill>, b: seq<Skill>)
    requires a != [] && b != [] && multiset(a) == multiset(b)
    ensures a[Best(a)].precedence == b[Best(b)].precedence
  {
    assert a[Best(a)] in multiset(b) && b[Best(b)] in multiset(a);
  }

  lemma {:induction false} PeersConcat(a: seq<Skill>, b: seq<Skill>, p: int)
    ensures Peers(a + b, p) == Peers(a, p) + Peers(b, p)
  {
    if b == [] {
      assert a + b == a;
    } else {
      assert (a + b)[..|a + b| - 1] == a + b[..|b| - 1];
      PeersConcat(a, b[..|b| - 1], p);
    }
  }

  lemma PeersDrop(group: seq<Skill>, i: nat, p: int)
    requires i < |group|
    ensures Peers(group, p) == Peers(Without(group, i), p) + if group[i].precedence == p then 1 else 0
  {
    var before, x, after := group[..i], group[i], group[i + 1..];
    assert Peers([x], p) == if x.precedence == p then 1 else 0;
    hide Peers;
    assert group == before + [x] + after;
    PeersConcat(before + [x], after, p);
    PeersConcat(before, [x], p);
    PeersConcat(before, after, p);
  }

  lemma DropElement(b: seq<Skill>, j: nat)
    requires j < |b|
    ensures multiset(Without(b, j)) == multiset(b) - multiset{b[j]}
    ensures |Without(b, j)| == |b| - 1
  {
    assert b == b[..j] + [b[j]] + b[j + 1..];
  }

  /** The last element of a list, found in a permutation of it, and what is left of both. */
  lemma MatchLast(a: seq<Skill>, b: seq<Skill>) returns (j: nat)
    requires a != [] && multiset(a) == multiset(b)
    ensures j < |b| && b[j] == a[|a| - 1] && |Without(a, |a| - 1)| < |a|
    ensures multiset(Without(a, |a| - 1)) == multiset(Without(b, j))
  {
    hide Without;
    var last := a[|a| - 1];
    assert last in multiset(b);
    j :| 0 <= j < |b| && b[j] == last;
    DropElement(b, j);
    DropElement(a, |a| - 1);
  }

  lemma NoneLeft(b: seq<Skill>)
    requires multiset(b) == multiset{}
    ensures b == []
  {
    assert |b| == |multiset(b)|;
  }

  lemma {:induction false} PeersPermute(a: seq<Skill>, b: seq<Skill>, p: int)
    requires multiset(a) == multiset(b)
    ensures Peers(a, p) == Peers(b, p)
    decreases |a|
  {
    hide Peers, Without;
    if a == [] {
      NoneLeft(b);
    } else {
      var j := MatchLast(a, b);
      PeersDrop(b, j, p);
      PeersDrop(a, |a| - 1, p);
      PeersPermute(Without(a, |a| - 1), Without(b, j), p);
    }
  }

  /** Which skills are active does not depend on the order in which they were found. */
  lemma ActiveIgnoresInputOrder(a: seq<Skill>, b: seq<Skill>)
    requires multiset(a) == multiset(b)
    ensures Resolved(a).active == Resolved(b).active
  {
    forall n ensures n in NameSet(a) <==> n in NameSet(b) {
      assert forall s :: s in a <==> s in multiset(a);
      assert forall s :: s in b <==> s in multiset(b);
    }
    NamesAreInOrder(a);
    OneOrder(b, NamesOf(a));
    NamedGroupsExist(a, NamesOf(a));
    NamedGroupsExist(b, NamesOf(a));
    hide NamesOf;
    ActiveOver(a, b, NamesOf(a));
  }

  lemma {:induction false} ActiveOver(a: seq<Skill>, b: seq<Skill>, order: seq<string>)
    requires multiset(a) == multiset(b)
    requires forall n :: n in order ==> Group(a, n) != [] && Group(b, n) != []
    ensures ResolveOver(a, order).active == ResolveOver(b, order).active
  {
    if order != [] {
      var front, last := order[..|order| - 1], order[|order| - 1];
      assert order == front + [last];
      ActiveOver(a, b, front);
      GroupPermutes(a, b, last);
      SettlePermutes(last, Group(a, last), Group(b, last));
      hide Settle;
    }
  }
}
