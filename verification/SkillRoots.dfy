/** Skill roots and their precedence (internal/app/skills/roots.go). */
module SkillRoots {
  import opened Prelude
  import opened Order

  datatype RootSpec = RootSpec(kind: string, band: int, subOrder: int, dir: string, pluginId: string, required: bool)

  datatype SkillRoot = SkillRoot(kind: string, precedence: nat, dir: string, pluginId: string, required: bool)

  datatype Key = Key(band: int, subOrder: int, dir: string)

  function KeyOf(s: RootSpec): Key { Key(s.band, s.subOrder, s.dir) }

  predicate KeyBefore(a: Key, b: Key) {
    if a.band != b.band then a.band < b.band
    else if a.subOrder != b.subOrder then a.subOrder < b.subOrder
    else Before(a.dir, b.dir)
  }

  const KEY_BEFORE := (a: Key, b: Key) => KeyBefore(a, b)
  const RANKS_BELOW := (a: RootSpec, b: RootSpec) => KeyBefore(KeyOf(a), KeyOf(b))

  lemma KeysAreOrdered()
    ensures StrictOrder(KEY_BEFORE) && WeakOrder(RANKS_BELOW)
  {
    forall a, b ensures (a != b ==> KEY_BEFORE(a, b) || KEY_BEFORE(b, a)) && !(KEY_BEFORE(a, b) && KEY_BEFORE(b, a)) {
      BeforeTotal(a.dir, b.dir);
    }
    forall a, b, c | KEY_BEFORE(a, b) && KEY_BEFORE(b, c) ensures KEY_BEFORE(a, c) {
      if Before(a.dir, b.dir) && Before(b.dir, c.dir) { BeforeTransitive(a.dir, b.dir, c.dir); }
    }
    forall a, b | RANKS_BELOW(a, b) ensures !RANKS_BELOW(b, a) { assert KEY_BEFORE(KeyOf(a), KeyOf(b)); }
    forall a, b, c | !RANKS_BELOW(b, a) && !RANKS_BELOW(c, b) ensures !RANKS_BELOW(c, a) {
      var x, y, z := KeyOf(a), KeyOf(b), KeyOf(c);
      assert x == y || KEY_BEFORE(x, y);
      assert y == z || KEY_BEFORE(y, z);
      assert x == z || KEY_BEFORE(x, z);
    }
  }

  lemma KeysAreTotal(a: Key, b: Key)
    requires a != b && !KeyBefore(b, a)
    ensures KeyBefore(a, b)
  {
    BeforeTotal(a.dir, b.dir);
  }

  predicate Lists(s: seq<RootSpec>, dir: string) {
    exists i :: 0 <= i < |s| && s[i].dir == dir
  }

  /** Each directory once, where it occurs last. */
  function KeepLast(s: seq<RootSpec>): (r: seq<RootSpec>)
    ensures |r| <= |s|
  {
    if s == [] then [] else if Lists(s[1..], s[0].dir) then KeepLast(s[1..]) else [s[0]] + KeepLast(s[1..])
  }

  function Kept(specs: seq<RootSpec>): seq<RootSpec> {
    KeepLast(Sort(RANKS_BELOW, specs))
  }

  function Ranked(s: RootSpec, rank: nat): SkillRoot {
    SkillRoot(s.kind, rank, s.dir, s.pluginId, s.required)
  }

  function Backwards<T>(s: seq<T>): (r: seq<T>)
    ensures |r| == |s|
  {
    if s == [] then [] else Backwards(s[1..]) + [s[0]]
  }

  lemma {:induction false} BackwardsAt<T>(s: seq<T>, k: nat)
    requires k < |s|
    ensures Backwards(s)[k] == s[|s| - 1 - k]
  {
    if k < |s| - 1 {
      BackwardsAt(s[1..], k);
    }
  }

  lemma {:induction false} BackwardsTwice<T>(s: seq<T>)
    ensures Backwards(Backwards(s)) == s
  {
    forall k | 0 <= k < |s| ensures Backwards(Backwards(s))[k] == s[k] {
      BackwardsAt(Backwards(s), k);
      BackwardsAt(s, |s| - 1 - k);
    }
  }

  method TurnAround(a: array<RootSpec>)
    modifies a
    ensures a[..] == Backwards(old(a[..]))
  {
    ghost var was := a[..];
    var l, r := 0, a.Length - 1;
    while l < r
      invariant 0 <= l <= a.Length && r == a.Length - 1 - l
      invariant forall k :: 0 <= k < a.Length ==> a[k] == was[if l <= k <= r then k else a.Length - 1 - k]
    {
      a[l], a[r] := a[r], a[l];
      l, r := l + 1, r - 1;
    }
    MirrorIsBackwards(was, a[..]);
  }

  lemma MirrorIsBackwards<T>(s: seq<T>, t: seq<T>)
    requires |s| == |t| && forall k :: 0 <= k < |s| ==> t[k] == s[|s| - 1 - k]
    ensures t == Backwards(s)
  {
    forall k | 0 <= k < |s| ensures t[k] == Backwards(s)[k] {
      BackwardsAt(s, k);
    }
  }

  method AssignPrecedence(specs: seq<RootSpec>) returns (out: seq<SkillRoot>)
    ensures |out| == |Kept(specs)|
    ensures forall i :: 0 <= i < |out| ==> out[i] == Ranked(Kept(specs)[i], i)
    ensures forall i :: 0 <= i < |out| ==>
              var s := Kept(specs)[i];
              out[i] == SkillRoot(s.kind, i, s.dir, s.pluginId, s.required)
  {
    var ordered := Sort(RANKS_BELOW, specs);
    var seen: set<string> := {};
    var deduped: seq<RootSpec> := [];
    for i := |ordered| downto 0
      invariant deduped == Backwards(KeepLast(ordered[i..]))
      invariant forall d :: d in seen <==> Lists(ordered[i..], d)
    {
      var rest := ordered[i + 1..];
      assert ordered[i..][0] == ordered[i] && ordered[i..][1..] == rest;
      ListsHead(ordered[i..]);
      if ordered[i].dir in seen {
        continue;
      }
      seen := seen + {ordered[i].dir};
      deduped := deduped + [ordered[i]];
      assert ([ordered[i]] + KeepLast(rest))[1..] == KeepLast(rest);
    }
    assert ordered[0..] == ordered;
    BackwardsTwice(Kept(specs));
    var a := new RootSpec[|deduped|](i requires 0 <= i < |deduped| => deduped[i]);
    assert a[..] == deduped;
    TurnAround(a);
    var result := a[..];
    out := [];
    for i := 0 to |result|
      invariant |out| == i && forall k :: 0 <= k < i ==> out[k] == Ranked(result[k], k)
    {
      out := out + [Ranked(result[i], i)];
    }
  }

  lemma ListsHead(s: seq<RootSpec>)
    requires s != []
    ensures forall d :: Lists(s, d) <==> s[0].dir == d || Lists(s[1..], d)
  {
    forall d ensures Lists(s, d) <==> s[0].dir == d || Lists(s[1..], d) {
      if Lists(s[1..], d) {
        var i :| 0 <= i < |s[1..]| && s[1..][i].dir == d;
        assert s[i + 1].dir == d;
      }
      if Lists(s, d) {
        var i :| 0 <= i < |s| && s[i].dir == d;
        if i > 0 { assert s[1..][i - 1].dir == d; }
      }
    }
  }

  // ---------- what the ranking means ----------

  /** s is the highest-ranked way its directory is listed. */
  ghost predicate Top(specs: seq<RootSpec>, k: Key) {
    && (exists s :: s in specs && KeyOf(s) == k)
    && forall s :: s in specs && s.dir == k.dir ==> !KeyBefore(k, KeyOf(s))
  }

  lemma {:induction false} KeepLastLists(s: seq<RootSpec>)
    ensures var r := KeepLast(s);
            && (forall d :: Lists(r, d) <==> Lists(s, d))
            && (forall x :: x in r ==> x in s)
            && (forall i, j :: 0 <= i < j < |r| ==> r[i].dir != r[j].dir)
  {
    if s != [] {
      var rest, r := s[1..], KeepLast(s[1..]);
      KeepLastLists(rest);
      ListsHead(s);
      if !Lists(rest, s[0].dir) {
        var kept := [s[0]] + r;
        ListsHead(kept);
        assert kept[1..] == r;
        forall j | 0 <= j < |r| ensures r[j].dir != s[0].dir {
          assert Lists(r, r[j].dir);
        }
      }
    }
  }

  lemma SortedHead(s: seq<RootSpec>)
    requires s != [] && Sorted(RANKS_BELOW, s)
    ensures Sorted(RANKS_BELOW, s[1..]) && forall y :: y in s[1..] ==> !KeyBefore(KeyOf(y), KeyOf(s[0]))
  {
    hide KeyBefore;
    forall y | y in s[1..] ensures !KeyBefore(KeyOf(y), KeyOf(s[0])) {
      var j :| 0 <= j < |s[1..]| && s[1..][j] == y;
      assert !RANKS_BELOW(s[j + 1], s[0]);
    }
  }

  lemma {:induction false} KeepLastSorted(s: seq<RootSpec>)
    requires Sorted(RANKS_BELOW, s)
    ensures Sorted(RANKS_BELOW, KeepLast(s))
  {
    if s != [] {
      var r := KeepLast(s[1..]);
      SortedHead(s);
      KeepLastSorted(s[1..]);
      KeepLastLists(s[1..]);
      hide KeyBefore, Lists;
      forall j | 0 <= j < |r| ensures !RANKS_BELOW(r[j], s[0]) {
        assert r[j] in r;
      }
    }
  }

  /** What is kept ranks highest for its directory. */
  lemma {:induction false} KeepLastTops(s: seq<RootSpec>, x: RootSpec, y: RootSpec)
    requires Sorted(RANKS_BELOW, s) && x in KeepLast(s) && y in s && y.dir == x.dir
    ensures !KeyBefore(KeyOf(x), KeyOf(y))
  {
    var rest := s[1..];
    SortedHead(s);
    KeepLastLists(rest);
    BeforeTotal(x.dir, x.dir);
    if x in KeepLast(rest) {
      hide KeyBefore;
      if y in rest {
        KeepLastTops(rest, x, y);
      }
    } else {
      assert forall j :: 0 <= j < |rest| ==> rest[j].dir != s[0].dir;
    }
  }

  /** AssignPrecedence lists each directory once, as its highest-ranked spec, in strictly
      increasing key order, so rank order is key order. */
  lemma RankingIsInjective(specs: seq<RootSpec>)
    ensures var r := Kept(specs);
            && (forall d :: Lists(r, d) <==> Lists(specs, d))
            && (forall i, j :: 0 <= i < j < |r| ==> r[i].dir != r[j].dir && KeyBefore(KeyOf(r[i]), KeyOf(r[j])))
            && (forall x :: x in r ==> x in specs && Top(specs, KeyOf(x)))
  {
    KeysAreOrdered();
    SortSorts(RANKS_BELOW, specs);
    var s, r := Sort(RANKS_BELOW, specs), Kept(specs);
    SameElements(s, specs);
    KeepLastSorted(s);
    KeepLastLists(s);
    forall x, y | x in r && y in s && y.dir == x.dir ensures !KeyBefore(KeyOf(x), KeyOf(y)) {
      KeepLastTops(s, x, y);
    }
    forall i, j | 0 <= i < j < |r| ensures KeyBefore(KeyOf(r[i]), KeyOf(r[j])) {
      assert !RANKS_BELOW(r[j], r[i]) && r[i].dir != r[j].dir;
      KeysAreTotal(KeyOf(r[i]), KeyOf(r[j]));
    }
  }

  lemma SameElements(a: seq<RootSpec>, b: seq<RootSpec>)
    requires multiset(a) == multiset(b)
    ensures forall x :: x in a <==> x in b
    ensures forall d :: Lists(a, d) <==> Lists(b, d)
  {
    forall x ensures x in a <==> x in b {
      assert x in a <==> x in multiset(a);
      assert x in b <==> x in multiset(b);
    }
    forall d ensures Lists(a, d) <==> Lists(b, d) {
      if Lists(a, d) {
        var i :| 0 <= i < |a| && a[i].dir == d;
        assert a[i] in b;
      }
      if Lists(b, d) {
        var i :| 0 <= i < |b| && b[i].dir == d;
        assert b[i] in a;
      }
    }
  }

  function Keys(s: seq<RootSpec>): seq<Key> {
    seq(|s|, i requires 0 <= i < |s| => KeyOf(s[i]))
  }

  /** The kept keys are exactly the top keys. */
  lemma KeptAreTops(specs: seq<RootSpec>, k: Key)
    ensures k in Keys(Kept(specs)) <==> Top(specs, k)
  {
    RankingIsInjective(specs);
    KeysAreOrdered();
    var r := Kept(specs);
    if k in Keys(r) {
      var i :| 0 <= i < |r| && KeyOf(r[i]) == k;
      assert r[i] in r;
    }
    if Top(specs, k) {
      var s :| s in specs && KeyOf(s) == k;
      var j :| 0 <= j < |specs| && specs[j] == s;
      assert Lists(specs, k.dir);
      assert Lists(r, k.dir);
      var i :| 0 <= i < |r| && r[i].dir == k.dir;
      assert r[i] in r && r[i] in specs;
      assert !KEY_BEFORE(k, KeyOf(r[i])) && !KEY_BEFORE(KeyOf(r[i]), k);
      assert KeyOf(r[i]) == k;
      assert Keys(r)[i] == k;
    }
  }

  /** The rank of a directory does not depend on the order of the specs. */
  lemma RanksIgnoreInputOrder(a: seq<RootSpec>, b: seq<RootSpec>)
    requires multiset(a) == multiset(b)
    ensures |Kept(a)| == |Kept(b)|
    ensures forall i :: 0 <= i < |Kept(a)| ==> Kept(a)[i].dir == Kept(b)[i].dir
  {
    KeysAreOrdered();
    SameElements(a, b);
    RankingIsInjective(a);
    RankingIsInjective(b);
    forall k ensures k in Keys(Kept(a)) <==> k in Keys(Kept(b)) {
      KeptAreTops(a, k);
      KeptAreTops(b, k);
    }
    hide Kept, Top;
    AscendingUnique(KEY_BEFORE, Keys(Kept(a)), Keys(Kept(b)));
    forall i | 0 <= i < |Kept(a)| ensures Kept(a)[i].dir == Kept(b)[i].dir {
      assert Keys(Kept(a))[i] == Keys(Kept(b))[i];
    }
  }

  // ---------- specs that rank alike ----------

  /** The last spec of a directory. */
  function LastOf(s: seq<RootSpec>, dir: string): Option<RootSpec> {
    if s == [] then None else if s[|s| - 1].dir == dir then Some(s[|s| - 1]) else LastOf(s[..|s| - 1], dir)
  }

  /** The spec of a directory that ranks highest, the latest of those that rank alike. */
  function Chosen(specs: seq<RootSpec>, dir: string): Option<RootSpec> {
    if specs == [] then None
    else
      var before, x := Chosen(specs[..|specs| - 1], dir), specs[|specs| - 1];
      if x.dir == dir && (before.None? || !KeyBefore(KeyOf(x), KeyOf(before.value))) then Some(x) else before
  }

  lemma LastSnoc(s: seq<RootSpec>, x: RootSpec, dir: string)
    ensures LastOf(s + [x], dir) == if x.dir == dir then Some(x) else LastOf(s, dir)
  {
    assert (s + [x])[..|s|] == s;
  }

  lemma {:induction false} LastOfIsIn(s: seq<RootSpec>, dir: string)
    ensures LastOf(s, dir).Some? ==> LastOf(s, dir).value in s && LastOf(s, dir).value.dir == dir
    ensures LastOf(s, dir).None? <==> !Lists(s, dir)
  {
    if s != [] {
      var front := s[..|s| - 1];
      LastOfIsIn(front, dir);
      assert s == front + [s[|s| - 1]];
      if Lists(front, dir) {
        var i :| 0 <= i < |front| && front[i].dir == dir;
        assert s[i].dir == dir;
      }
    }
  }

  /** Inserting keeps the last spec of a directory unless the new one ranks as high. */
  lemma {:induction false} InsertLast(s: seq<RootSpec>, x: RootSpec, dir: string)
    requires Sorted(RANKS_BELOW, s)
    ensures LastOf(Insert(RANKS_BELOW, s, x), dir) ==
              if x.dir == dir && (LastOf(s, dir).None? || !KeyBefore(KeyOf(x), KeyOf(LastOf(s, dir).value))) then Some(x)
              else LastOf(s, dir)
  {
    if s == [] || !RANKS_BELOW(x, s[|s| - 1]) {
      LastSnoc(s, x, dir);
      if x.dir == dir && LastOf(s, dir).Some? {
        LastOfIsIn(s, dir);
        var y, z := LastOf(s, dir).value, s[|s| - 1];
        var i :| 0 <= i < |s| && s[i] == y;
        KeysAreOrdered();
        assert i < |s| - 1 ==> !RANKS_BELOW(z, y);
        assert !RANKS_BELOW(x, y);
      }
    } else {
      var front, last := s[..|s| - 1], s[|s| - 1];
      InsertLast(front, x, dir);
      LastSnoc(Insert(RANKS_BELOW, front, x), last, dir);
    }
  }

  lemma {:induction false} SortChooses(specs: seq<RootSpec>, dir: string)
    ensures LastOf(Sort(RANKS_BELOW, specs), dir) == Chosen(specs, dir)
  {
    if specs != [] {
      var front, x := specs[..|specs| - 1], specs[|specs| - 1];
      SortChooses(front, dir);
      KeysAreOrdered();
      SortSorts(RANKS_BELOW, front);
      InsertLast(Sort(RANKS_BELOW, front), x, dir);
    }
  }

  lemma {:induction false} KeepLastChooses(s: seq<RootSpec>, x: RootSpec)
    requires x in KeepLast(s)
    ensures LastOf(s, x.dir) == Some(x)
  {
    var rest := s[1..];
    if x in KeepLast(rest) {
      KeepLastChooses(rest, x);
    } else {
      assert forall i :: 0 <= i < |rest| ==> rest[i].dir != x.dir;
      LastOfIsIn(rest, x.dir);
    }
    LastAfter(s, x.dir);
  }

  lemma {:induction false} LastAfter(s: seq<RootSpec>, dir: string)
    requires s != []
    ensures LastOf(s, dir) == if LastOf(s[1..], dir).Some? then LastOf(s[1..], dir) else if s[0].dir == dir then Some(s[0]) else None
  {
    if |s| > 1 {
      LastAfter(s[..|s| - 1], dir);
      assert s[1..][..|s| - 2] == s[..|s| - 1][1..];
    }
  }

  /** What is kept of a directory is its chosen spec: among specs that rank alike the latest. */
  lemma KeptIsChosen(specs: seq<RootSpec>, x: RootSpec)
    requires x in Kept(specs)
    ensures Chosen(specs, x.dir) == Some(x)
  {
    KeepLastChooses(Sort(RANKS_BELOW, specs), x);
    SortChooses(specs, x.dir);
  }
}
