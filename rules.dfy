/**
  One conversion rule as loaded from a provider's configuration, and the
  order a provider's rules are kept in: Python's stable `sorted` by the key
  `(dimension_id, priority)`.
 */
module Rules {
  import opened Wrappers
  import opened ConversionTypes
  import opened Seqs

  /** A conversion plan file, already parsed and validated. */
  datatype ConversionRule = ConversionRule(
    planName: string,
    dimensionId: int,
    priority: int,
    focusColumn: string,           // the value of the target FOCUS column
    sourceColumn: Option<string>,
    conversionType: ConversionType,
    columnPrefix: Option<string>,
    conversionArgs: map<string, string>  // kind-specific arguments, opaque here
  )

  /** `attrgetter("dimension_id", "priority")`. */
  function Key(r: ConversionRule): (int, int) {
    (r.dimensionId, r.priority)
  }

  /** Python's tuple comparison `a <= b` on two-int keys. */
  predicate KeyLe(a: (int, int), b: (int, int)) {
    a.0 < b.0 || (a.0 == b.0 && a.1 <= b.1)
  }

  predicate Sorted(rs: seq<ConversionRule>) {
    forall i, j :: 0 <= i < j < |rs| ==> KeyLe(Key(rs[i]), Key(rs[j]))
  }

  /** The rules of `rs` whose key is `k`, in their order in `rs`. */
  function WithKey(rs: seq<ConversionRule>, k: (int, int)): seq<ConversionRule> {
    if rs == [] then []
    else (if Key(rs[0]) == k then [rs[0]] else []) + WithKey(rs[1..], k)
  }

  lemma {:induction false} WithKeyAppend(a: seq<ConversionRule>, b: seq<ConversionRule>, k: (int, int))
    ensures WithKey(a + b, k) == WithKey(a, k) + WithKey(b, k)
  {
    if a == [] {
      assert a + b == b;
    } else {
      ConsAppend(a, b);
      WithKeyAppend(a[1..], b, k);
    }
  }

  /**
    Inserts `x` in front of the first rule whose key is not below its own,
    so that `x` precedes every rule with an equal key.
   */
  function Insert(x: ConversionRule, rs: seq<ConversionRule>): (r: seq<ConversionRule>)
    ensures multiset(r) == multiset(rs) + multiset{x}
  {
    if rs == [] || KeyLe(Key(x), Key(rs[0])) then [x] + rs
    else
      assert rs == [rs[0]] + rs[1..];
      [rs[0]] + Insert(x, rs[1..])
  }

  lemma {:induction false} InsertSorted(x: ConversionRule, rs: seq<ConversionRule>)
    requires Sorted(rs)
    ensures Sorted(Insert(x, rs))
  {
    if rs != [] && !KeyLe(Key(x), Key(rs[0])) {
      var y, ys := rs[0], rs[1..];
      var t := Insert(x, ys);
      assert rs == [y] + ys;
      InsertSorted(x, ys);
      InsertAbove(x, ys, y);
      SortedCons(y, t);
    }
  }

  /** Every rule of `Insert(x, rs)` is at or above a key bound that `x` and `rs` meet. */
  lemma InsertAbove(x: ConversionRule, rs: seq<ConversionRule>, y: ConversionRule)
    requires KeyLe(Key(y), Key(x))
    requires forall i :: 0 <= i < |rs| ==> KeyLe(Key(y), Key(rs[i]))
    ensures forall z :: z in Insert(x, rs) ==> KeyLe(Key(y), Key(z))
  {
    forall z | z in Insert(x, rs) ensures KeyLe(Key(y), Key(z)) {
      assert z in multiset(Insert(x, rs));
      if z != x {
        assert z in multiset(rs);
      }
    }
  }

  lemma SortedCons(y: ConversionRule, t: seq<ConversionRule>)
    requires Sorted(t)
    requires forall z :: z in t ==> KeyLe(Key(y), Key(z))
    ensures Sorted([y] + t)
  {
    var r := [y] + t;
    forall i, j | 0 <= i < j < |r| ensures KeyLe(Key(r[i]), Key(r[j])) {
      if i == 0 {
        assert r[j] in t;
      } else {
        assert r[i] == t[i - 1] && r[j] == t[j - 1];
      }
    }
  }

  /** `x` comes first among the rules with its key; the others keep their order. */
  lemma {:induction false} InsertWithKey(x: ConversionRule, rs: seq<ConversionRule>, k: (int, int))
    ensures WithKey(Insert(x, rs), k) == (if Key(x) == k then [x] else []) + WithKey(rs, k)
  {
    SingletonWithKey(x, k);
    if rs == [] || KeyLe(Key(x), Key(rs[0])) {
      WithKeyAppend([x], rs, k);
    } else {
      var y, ys := rs[0], rs[1..];
      assert rs == [y] + ys;
      assert Insert(x, rs) == [y] + Insert(x, ys);
      InsertWithKey(x, ys, k);
      WithKeyPastOther(y, Insert(x, ys), ys, if Key(x) == k then [x] else [], k);
    }
  }

  /** Moving past a rule `y` of another key, or moving nothing, keeps the rules with key `k` in order. */
  lemma WithKeyPastOther(y: ConversionRule, t: seq<ConversionRule>, ys: seq<ConversionRule>,
                         w: seq<ConversionRule>, k: (int, int))
    requires WithKey(t, k) == w + WithKey(ys, k)
    requires w == [] || Key(y) != k
    ensures WithKey([y] + t, k) == w + WithKey([y] + ys, k)
  {
    var wy := if Key(y) == k then [y] else [];
    SingletonWithKey(y, k);
    WithKeyAppend([y], t, k);
    WithKeyAppend([y], ys, k);
    if w == [] {
      assert w + WithKey(ys, k) == WithKey(ys, k);
      assert w + (wy + WithKey(ys, k)) == wy + WithKey(ys, k);
    } else {
      assert wy == [];
      assert wy + (w + WithKey(ys, k)) == w + WithKey(ys, k);
      assert w + (wy + WithKey(ys, k)) == w + WithKey(ys, k);
    }
  }

  lemma SingletonWithKey(x: ConversionRule, k: (int, int))
    ensures WithKey([x], k) == if Key(x) == k then [x] else []
  {
    assert [x][1..] == [];
  }

  /** `sorted(rules, key=attrgetter("dimension_id", "priority"))`, as a stable insertion sort. */
  function SortRules(rs: seq<ConversionRule>): (r: seq<ConversionRule>)
    ensures Sorted(r)
    ensures multiset(r) == multiset(rs)
  {
    if rs == [] then []
    else
      assert rs == [rs[0]] + rs[1..];
      InsertSorted(rs[0], SortRules(rs[1..]));
      Insert(rs[0], SortRules(rs[1..]))
  }

  /** Stability: among rules with equal keys, the sorted plan keeps the input order. */
  lemma {:induction false} SortRulesStable(rs: seq<ConversionRule>, k: (int, int))
    ensures WithKey(SortRules(rs), k) == WithKey(rs, k)
  {
    if rs != [] {
      SortRulesStable(rs[1..], k);
      InsertWithKey(rs[0], SortRules(rs[1..]), k);
      assert WithKey(rs, k) == (if Key(rs[0]) == k then [rs[0]] else []) + WithKey(rs[1..], k);
    }
  }

  lemma {:induction false} WithKeyMembers(rs: seq<ConversionRule>, k: (int, int), z: ConversionRule)
    ensures z in WithKey(rs, k) <==> z in rs && Key(z) == k
  {
    if rs != [] {
      WithKeyMembers(rs[1..], k, z);
      assert rs == [rs[0]] + rs[1..];
    }
  }

  lemma {:induction false} SortedUniqueByKeys(a: seq<ConversionRule>, b: seq<ConversionRule>)
    requires Sorted(a) && Sorted(b)
    requires forall k :: WithKey(a, k) == WithKey(b, k)
    ensures a == b
  {
    if a == [] || b == [] {
      BothEmpty(a, b);
    } else {
      // the first rule of each side has the least key, so both keys coincide
      FirstKeyLeast(a, b);
      FirstKeyLeast(b, a);
      SameFirst(a, b);
      SameTails(a, b);
      SortedTail(a);
      SortedTail(b);
      SortedUniqueByKeys(a[1..], b[1..]);
      assert a == [a[0]] + a[1..] && b == [b[0]] + b[1..];
    }
  }

  /** A non-empty side has a rule with the key of its first rule, so the other side is not empty. */
  lemma BothEmpty(a: seq<ConversionRule>, b: seq<ConversionRule>)
    requires forall k :: WithKey(a, k) == WithKey(b, k)
    ensures a == [] <==> b == []
  {
    if a != [] {
      WithKeyMembers(a, Key(a[0]), a[0]);
      assert WithKey(b, Key(a[0])) != [];
    }
    if b != [] {
      WithKeyMembers(b, Key(b[0]), b[0]);
      assert WithKey(a, Key(b[0])) != [];
    }
  }

  lemma SortedTail(a: seq<ConversionRule>)
    requires a != [] && Sorted(a)
    ensures Sorted(a[1..])
  {
    forall i, j | 0 <= i < j < |a[1..]| ensures KeyLe(Key(a[1..][i]), Key(a[1..][j])) {
      assert a[1..][i] == a[i + 1] && a[1..][j] == a[j + 1];
    }
  }

  /** The first rule of `a` also occurs in `b`, whose first key is least. */
  lemma FirstKeyLeast(a: seq<ConversionRule>, b: seq<ConversionRule>)
    requires a != [] && b != [] && Sorted(b)
    requires WithKey(a, Key(a[0])) == WithKey(b, Key(a[0]))
    ensures KeyLe(Key(b[0]), Key(a[0]))
  {
    var x := a[0];
    assert WithKey(a, Key(x)) == [x] + WithKey(a[1..], Key(x));
    WithKeyMembers(b, Key(x), x);
    var j :| 0 <= j < |b| && b[j] == x;
    if j > 0 {
      assert KeyLe(Key(b[0]), Key(b[j]));
    }
  }

  /** With equal first keys, the first rules are the first of that key on each side. */
  lemma SameFirst(a: seq<ConversionRule>, b: seq<ConversionRule>)
    requires a != [] && b != []
    requires KeyLe(Key(a[0]), Key(b[0])) && KeyLe(Key(b[0]), Key(a[0]))
    requires WithKey(a, Key(a[0])) == WithKey(b, Key(a[0]))
    ensures a[0] == b[0]
  {
    var x, y := a[0], b[0];
    assert Key(x) == Key(y);
    var wa, wb := WithKey(a, Key(x)), WithKey(b, Key(x));
    assert wa == [x] + WithKey(a[1..], Key(x));
    assert wb == [y] + WithKey(b[1..], Key(x));
    assert x == wa[0] == wb[0] == y;
  }

  /** Equal first rules leave the tails with the same rules per key. */
  lemma SameTails(a: seq<ConversionRule>, b: seq<ConversionRule>)
    requires a != [] && b != [] && a[0] == b[0]
    requires forall k :: WithKey(a, k) == WithKey(b, k)
    ensures forall k :: WithKey(a[1..], k) == WithKey(b[1..], k)
  {
    var x := a[0];
    forall k ensures WithKey(a[1..], k) == WithKey(b[1..], k) {
      var ta, tb := WithKey(a[1..], k), WithKey(b[1..], k);
      var head := if Key(x) == k then [x] else [];
      assert WithKey(a, k) == head + ta;
      assert WithKey(b, k) == head + tb;
      assert ta == (head + ta)[|head|..];
      assert tb == (head + tb)[|head|..];
    }
  }

  /**
    The sorted plan is the only sorted arrangement that keeps, for every
    key, the input's order among rules with that key.
   */
  lemma {:induction false} SortRulesUnique(rs: seq<ConversionRule>, r: seq<ConversionRule>)
    requires Sorted(r)
    requires forall k :: WithKey(r, k) == WithKey(rs, k)
    ensures r == SortRules(rs)
  {
    forall k ensures WithKey(r, k) == WithKey(SortRules(rs), k) {
      SortRulesStable(rs, k);
    }
    SortedUniqueByKeys(r, SortRules(rs));
  }

  /**
    Reordering the input changes the sorted plan exactly when it changes the
    relative order of two rules with equal keys.
   */
  lemma {:induction false} SortRulesReorder(a: seq<ConversionRule>, b: seq<ConversionRule>)
    ensures SortRules(a) == SortRules(b) ==> forall k :: WithKey(a, k) == WithKey(b, k)
    ensures (forall k :: WithKey(a, k) == WithKey(b, k)) ==> SortRules(a) == SortRules(b)
  {
    if SortRules(a) == SortRules(b) {
      forall k ensures WithKey(a, k) == WithKey(b, k) {
        SortRulesStable(a, k);
        SortRulesStable(b, k);
      }
    }
    if forall k :: WithKey(a, k) == WithKey(b, k) {
      var sa := SortRules(a);
      forall k ensures WithKey(sa, k) == WithKey(b, k) {
        SortRulesStable(a, k);
      }
      SortRulesUnique(b, sa);
    }
  }

  /** Two different rules with one key: the input order decides the plan order. */
  lemma EqualKeysKeepInputOrder(r1: ConversionRule, r2: ConversionRule)
    requires Key(r1) == Key(r2) && r1 != r2
    ensures SortRules([r1, r2]) == [r1, r2]
    ensures SortRules([r2, r1]) == [r2, r1]
  {
    assert [r1, r2][1..] == [r2];
    assert [r2, r1][1..] == [r1];
    assert [r2][1..] == [];
    assert [r1][1..] == [];
  }

  /**
    The provider map built from the provider directories in listing order:
    each provider name maps to its sorted rules, and a later entry with the
    same name replaces an earlier one, as a dictionary assignment does.
   */
  function LoadedPlans(providers: seq<(string, seq<ConversionRule>)>): map<string, seq<ConversionRule>> {
    if providers == [] then map[]
    else
      var last := providers[|providers| - 1];
      LoadedPlans(providers[..|providers| - 1])[last.0 := SortRules(last.1)]
  }

  /** Exactly the listed providers have a plan. */
  lemma {:induction false} LoadedPlansKeys(providers: seq<(string, seq<ConversionRule>)>, p: string)
    ensures p in LoadedPlans(providers) <==> exists i :: 0 <= i < |providers| && providers[i].0 == p
  {
    if providers != [] {
      var init := providers[..|providers| - 1];
      LoadedPlansKeys(init, p);
      if exists i :: 0 <= i < |init| && init[i].0 == p {
        var i :| 0 <= i < |init| && init[i].0 == p;
        assert providers[i] == init[i];
      }
      if exists i :: 0 <= i < |providers| && providers[i].0 == p {
        var i :| 0 <= i < |providers| && providers[i].0 == p;
        if i < |init| {
          assert init[i] == providers[i];
        }
      }
    }
  }

  /** A provider that is not listed again later maps to its own rules, sorted. */
  lemma {:induction false} LoadedPlansAt(providers: seq<(string, seq<ConversionRule>)>, i: nat)
    requires i < |providers|
    requires forall j :: i < j < |providers| ==> providers[j].0 != providers[i].0
    ensures providers[i].0 in LoadedPlans(providers)
    ensures LoadedPlans(providers)[providers[i].0] == SortRules(providers[i].1)
  {
    var init := providers[..|providers| - 1];
    if i < |init| {
      assert init[i] == providers[i];
      LoadedPlansAt(init, i);
    }
  }
}
