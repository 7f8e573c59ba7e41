/** Go's order on strings, and strictly ascending lists. */
module Order {

  predicate Before(a: string, b: string) {
    b != "" && (a == "" || a[0] < b[0] || (a[0] == b[0] && Before(a[1..], b[1..])))
  }

  lemma {:induction false} BeforeTotal(a: string, b: string)
    ensures a != b ==> Before(a, b) || Before(b, a)
    ensures !(Before(a, b) && Before(b, a)) && !Before(a, a)
  {
    if a != "" && b != "" && a[0] == b[0] {
      assert a == [a[0]] + a[1..] && b == [b[0]] + b[1..];
      BeforeTotal(a[1..], b[1..]);
    }
    if a != "" { BeforeTotal(a[1..], a[1..]); }
  }

  lemma {:induction false} BeforeTransitive(a: string, b: string, c: string)
    requires Before(a, b) && Before(b, c)
    ensures Before(a, c)
  {
    if a != "" && a[0] == b[0] && b[0] == c[0] {
      BeforeTransitive(a[1..], b[1..], c[1..]);
    }
  }

  /** Everything the lists below need of an order. */
  ghost predicate StrictOrder<T(!new)>(lt: (T, T) -> bool) {
    && (forall a, b :: a != b ==> lt(a, b) || lt(b, a))
    && (forall a, b :: !(lt(a, b) && lt(b, a)))
    && (forall a, b, c :: lt(a, b) && lt(b, c) ==> lt(a, c))
  }

  const BEFORE := (a: string, b: string) => Before(a, b)

  lemma StringsAreOrdered()
    ensures StrictOrder(BEFORE)
  {
    forall a, b ensures (a != b ==> BEFORE(a, b) || BEFORE(b, a)) && !(BEFORE(a, b) && BEFORE(b, a)) {
      BeforeTotal(a, b);
    }
    forall a, b, c | BEFORE(a, b) && BEFORE(b, c) ensures BEFORE(a, c) {
      BeforeTransitive(a, b, c);
    }
  }

  ghost predicate Ascending<T>(lt: (T, T) -> bool, s: seq<T>) {
    forall i, j :: 0 <= i < j < |s| ==> lt(s[i], s[j])
  }

  lemma BothEmpty<T>(a: seq<T>, b: seq<T>)
    requires forall x :: x in a <==> x in b
    ensures a == [] <==> b == []
  {
    if a != [] { assert a[0] in a; }
    if b != [] { assert b[0] in b; }
  }

  /** A strictly ascending list is determined by its elements. */
  lemma {:induction false} AscendingUnique<T(!new)>(lt: (T, T) -> bool, a: seq<T>, b: seq<T>)
    requires StrictOrder(lt) && Ascending(lt, a) && Ascending(lt, b)
    requires forall x :: x in a <==> x in b
    ensures a == b
  {
    BothEmpty(a, b);
    if a != [] {
      assert a[0] in a && a[0] in b;
      assert b[0] in b && b[0] in a;
      var i :| 0 <= i < |b| && b[i] == a[0];
      var j :| 0 <= j < |a| && a[j] == b[0];
      assert a[0] == b[0];
      forall x ensures x in a[1..] <==> x in b[1..] {
        assert x in a <==> x in b;
        assert a == [a[0]] + a[1..] && b == [b[0]] + b[1..];
        assert !lt(a[0], a[0]);
        if x == a[0] {
          assert x !in a[1..] && x !in b[1..];
        }
      }
      AscendingUnique(lt, a[1..], b[1..]);
      assert a == [a[0]] + a[1..] && b == [b[0]] + b[1..];
    }
  }

  /** x inserted after everything that is not greater: the step of a stable sort. */
  function Insert<T>(lt: (T, T) -> bool, s: seq<T>, x: T): (r: seq<T>)
    ensures |r| == |s| + 1
  {
    if s == [] || !lt(x, s[|s| - 1]) then s + [x] else Insert(lt, s[..|s| - 1], x) + [s[|s| - 1]]
  }

  /** A stable sort (sort.SliceStable, sort.Strings). */
  function Sort<T>(lt: (T, T) -> bool, s: seq<T>): (r: seq<T>)
    ensures |r| == |s|
  {
    if s == [] then [] else Insert(lt, Sort(lt, s[..|s| - 1]), s[|s| - 1])
  }

  ghost predicate Sorted<T>(lt: (T, T) -> bool, s: seq<T>) {
    forall i, j :: 0 <= i < j < |s| ==> !lt(s[j], s[i])
  }

  lemma {:induction false} InsertSorted<T(!new)>(lt: (T, T) -> bool, s: seq<T>, x: T)
    requires Sorted(lt, s) && WeakOrder(lt)
    ensures Sorted(lt, Insert(lt, s, x)) && multiset(Insert(lt, s, x)) == multiset(s) + multiset{x}
  {
    if s == [] || !lt(x, s[|s| - 1]) {
      forall i | 0 <= i < |s| ensures !lt(x, s[i]) {
        if i < |s| - 1 { assert !lt(s[|s| - 1], s[i]); }
      }
    } else {
      var front, last := s[..|s| - 1], s[|s| - 1];
      assert s == front + [last];
      InsertSorted(lt, front, x);
      var r := Insert(lt, front, x);
      forall i | 0 <= i < |r| ensures !lt(last, r[i]) {
        assert r[i] in multiset(r);
        assert r[i] == x || r[i] in front;
      }
    }
  }

  /** An order whose ties form classes, as a comparison by key has. */
  ghost predicate WeakOrder<T(!new)>(lt: (T, T) -> bool) {
    && (forall a, b :: !(lt(a, b) && lt(b, a)))
    && (forall a, b, c :: !lt(b, a) && !lt(c, b) ==> !lt(c, a))
  }

  lemma {:induction false} SortSorts<T(!new)>(lt: (T, T) -> bool, s: seq<T>)
    requires WeakOrder(lt)
    ensures Sorted(lt, Sort(lt, s)) && multiset(Sort(lt, s)) == multiset(s)
  {
    if s != [] {
      var front, last := s[..|s| - 1], s[|s| - 1];
      assert s == front + [last];
      SortSorts(lt, front);
      InsertSorted(lt, Sort(lt, front), last);
    }
  }
}
