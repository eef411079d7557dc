/** Sequence operations shared by several modules: first-occurrence
    de-duplication by a key (a seen-set loop in the source) and the stable
    sort that Python's `list.sort` and JavaScript's `Array.prototype.sort`
    perform with a consistent comparator. */
module Seqs {
  import opened Wrappers

  // ---------------------------------------------------------------------------
  // Keys and first-occurrence de-duplication
  // ---------------------------------------------------------------------------

  /** The keys of the elements of `s`. */
  function KeySet<T, K(==)>(s: seq<T>, key: T -> K): set<K> {
    if s == [] then {} else KeySet(s[..|s| - 1], key) + {key(s[|s| - 1])}
  }

  /** A key is in the key set exactly when some element has it. */
  lemma {:induction false} KeySetMembers<T, K>(s: seq<T>, key: T -> K)
    ensures forall i :: 0 <= i < |s| ==> key(s[i]) in KeySet(s, key)
    ensures forall k :: k in KeySet(s, key) ==> exists i :: 0 <= i < |s| && key(s[i]) == k
  {
    if s != [] {
      var init := s[..|s| - 1];
      KeySetMembers(init, key);
      forall k | k in KeySet(s, key) ensures exists i :: 0 <= i < |s| && key(s[i]) == k {
        if k in KeySet(init, key) {
          var i :| 0 <= i < |init| && key(init[i]) == k;
          assert key(s[i]) == k;
        } else {
          assert key(s[|s| - 1]) == k;
        }
      }
      forall i | 0 <= i < |s| ensures key(s[i]) in KeySet(s, key) {
        if i < |s| - 1 {
          assert s[i] == init[i];
        }
      }
    }
  }

  /** The elements of `s` whose key was not already taken by an earlier element:
      a left-to-right pass with a seen-set, first occurrence wins. */
  function FirstByKey<T, K(==)>(s: seq<T>, key: T -> K): (r: seq<T>)
    ensures |r| <= |s|
    ensures forall x :: x in r ==> x in s
  {
    if s == [] then []
    else
      var init := s[..|s| - 1];
      var x := s[|s| - 1];
      if key(x) in KeySet(init, key) then FirstByKey(init, key) else FirstByKey(init, key) + [x]
  }

  /** One more element: its key joins the key set, and the element is kept
      when its key is new. */
  lemma FirstByKeySnoc<T, K>(s: seq<T>, x: T, key: T -> K)
    ensures KeySet(s + [x], key) == KeySet(s, key) + {key(x)}
    ensures FirstByKey(s + [x], key) == if key(x) in KeySet(s, key) then FirstByKey(s, key) else FirstByKey(s, key) + [x]
  {
    assert (s + [x])[..|s + [x]| - 1] == s;
  }

  ghost predicate DistinctKeys<T, K>(s: seq<T>, key: T -> K) {
    forall i, j :: 0 <= i < j < |s| ==> key(s[i]) != key(s[j])
  }

  /** De-duplication keeps exactly the keys of its input. */
  lemma {:induction false} FirstByKeyKeepsKeys<T, K>(s: seq<T>, key: T -> K)
    ensures KeySet(FirstByKey(s, key), key) == KeySet(s, key)
  {
    if s != [] {
      var init := s[..|s| - 1];
      FirstByKeyKeepsKeys(init, key);
      var r := FirstByKey(init, key);
      if key(s[|s| - 1]) !in KeySet(init, key) {
        assert (r + [s[|s| - 1]])[..|r|] == r;
      }
    }
  }

  /** No two elements of the de-duplicated sequence share a key. */
  lemma {:induction false} FirstByKeyDistinct<T, K>(s: seq<T>, key: T -> K)
    ensures DistinctKeys(FirstByKey(s, key), key)
  {
    if s != [] {
      var init := s[..|s| - 1];
      var x := s[|s| - 1];
      FirstByKeyDistinct(init, key);
      FirstByKeyKeepsKeys(init, key);
      var r := FirstByKey(init, key);
      if key(x) !in KeySet(init, key) {
        var r' := r + [x];
        KeySetMembers(r, key);
        forall i, j | 0 <= i < j < |r'| ensures key(r'[i]) != key(r'[j]) {
          if j == |r| {
            assert key(r[i]) in KeySet(r, key);
          }
        }
      }
    }
  }

  /** An element whose key does not occur before it is kept. */
  lemma {:induction false} FirstOccurrenceKept<T, K>(s: seq<T>, key: T -> K, i: nat)
    requires i < |s|
    requires key(s[i]) !in KeySet(s[..i], key)
    ensures s[i] in FirstByKey(s, key)
  {
    var init := s[..|s| - 1];
    if i < |s| - 1 {
      assert init[..i] == s[..i];
      FirstOccurrenceKept(init, key, i);
    }
  }

  /** A sequence whose keys are already distinct is its own de-duplication. */
  lemma {:induction false} FirstByKeyOfDistinct<T, K>(s: seq<T>, key: T -> K)
    requires DistinctKeys(s, key)
    ensures FirstByKey(s, key) == s
  {
    if s != [] {
      var init := s[..|s| - 1];
      assert DistinctKeys(init, key);
      FirstByKeyOfDistinct(init, key);
      KeySetMembers(init, key);
      forall i | 0 <= i < |init| ensures key(init[i]) != key(s[|s| - 1]) {
        assert init[i] == s[i];
      }
    }
  }

  /** De-duplicating twice is the same as de-duplicating once. */
  lemma FirstByKeyIdempotent<T, K>(s: seq<T>, key: T -> K)
    ensures FirstByKey(FirstByKey(s, key), key) == FirstByKey(s, key)
  {
    FirstByKeyDistinct(s, key);
    FirstByKeyOfDistinct(FirstByKey(s, key), key);
  }

  // ---------------------------------------------------------------------------
  // Stable sort by a comparator
  // ---------------------------------------------------------------------------

  /** `le` is total and transitive: a consistent comparator. */
  ghost predicate TotalPreorder<T(!new)>(le: (T, T) -> bool) {
    && (forall a, b :: le(a, b) || le(b, a))
    && (forall a, b, c :: le(a, b) && le(b, c) ==> le(a, c))
  }

  predicate SortedBy<T>(s: seq<T>, le: (T, T) -> bool) {
    forall i, j :: 0 <= i < j < |s| ==> le(s[i], s[j])
  }

  /** Insert `x` after every element that is not greater than it. */
  function Insert<T>(s: seq<T>, x: T, le: (T, T) -> bool): (r: seq<T>)
    ensures multiset(r) == multiset(s) + multiset{x}
    ensures |r| == |s| + 1
  {
    if s == [] then [x]
    else if le(s[0], x) then
      assert s == [s[0]] + s[1..];
      [s[0]] + Insert(s[1..], x, le)
    else [x] + s
  }

  /** Insertion sort from the left: stable, since equal elements keep their order. */
  function SortBy<T>(s: seq<T>, le: (T, T) -> bool): (r: seq<T>)
    ensures multiset(r) == multiset(s)
    ensures |r| == |s|
  {
    if s == [] then []
    else
      assert s == s[..|s| - 1] + [s[|s| - 1]];
      Insert(SortBy(s[..|s| - 1], le), s[|s| - 1], le)
  }

  lemma {:induction false} InsertSorted<T(!new)>(s: seq<T>, x: T, le: (T, T) -> bool)
    requires TotalPreorder(le)
    requires SortedBy(s, le)
    ensures SortedBy(Insert(s, x, le), le)
  {
    if s != [] && le(s[0], x) {
      InsertSorted(s[1..], x, le);
      var r := Insert(s[1..], x, le);
      forall j | 0 <= j < |r| ensures le(s[0], r[j]) {
        assert r[j] in multiset(r);
        assert r[j] in multiset(s[1..]) + multiset{x};
        if r[j] != x {
          assert r[j] in s[1..];
        }
      }
    }
  }

  /** The sort yields a sorted permutation of its input. */
  lemma {:induction false} SortBySorted<T(!new)>(s: seq<T>, le: (T, T) -> bool)
    requires TotalPreorder(le)
    ensures SortedBy(SortBy(s, le), le)
  {
    if s != [] {
      SortBySorted(s[..|s| - 1], le);
      InsertSorted(SortBy(s[..|s| - 1], le), s[|s| - 1], le);
    }
  }

  /** Comparing integer keys is a consistent comparator. */
  lemma IntKeyPreorder<T(!new)>(key: T -> int)
    ensures TotalPreorder((a: T, b: T) => key(a) <= key(b))
  {
  }

  // ---------------------------------------------------------------------------
  // Insertion-ordered dictionaries (Python `dict`, JavaScript `Map`)
  // ---------------------------------------------------------------------------

  /** The keys of an association list, in order. */
  function Keys<K, V>(s: seq<(K, V)>): seq<K> {
    seq(|s|, i requires 0 <= i < |s| => s[i].0)
  }

  /** The values of an association list, in order (`list(d.values())`). */
  function Values<K, V>(s: seq<(K, V)>): seq<V> {
    seq(|s|, i requires 0 <= i < |s| => s[i].1)
  }

  /** `d.get(k)`: the value of the first pair with key `k`. */
  function Lookup<K(==), V>(s: seq<(K, V)>, k: K): Option<V> {
    if s == [] then None else if s[0].0 == k then Some(s[0].1) else Lookup(s[1..], k)
  }

  /** `d[k] = v`: an existing key keeps its position and takes the new value,
      a new key goes to the end. */
  function Upsert<K(==), V>(s: seq<(K, V)>, k: K, v: V): (r: seq<(K, V)>)
    ensures Lookup(r, k) == Some(v)
    ensures Keys(r) == if k in Keys(s) then Keys(s) else Keys(s) + [k]
  {
    if s == [] then [(k, v)]
    else if s[0].0 == k then
      assert Keys(s) == [k] + Keys(s[1..]);
      [(k, v)] + s[1..]
    else
      var t := Upsert(s[1..], k, v);
      assert Keys(s) == [s[0].0] + Keys(s[1..]);
      assert Keys([s[0]] + t) == [s[0].0] + Keys(t);
      [s[0]] + t
  }

  /** Assigning one key leaves the others as they were. */
  lemma {:induction false} UpsertOther<K, V>(s: seq<(K, V)>, k: K, v: V, k': K)
    requires k' != k
    ensures Lookup(Upsert(s, k, v), k') == Lookup(s, k')
  {
    if s != [] && s[0].0 != k {
      UpsertOther(s[1..], k, v, k');
    }
  }

  /** The dictionary built by assigning the pairs of `ps` one after another. */
  function Assign<K(==), V>(ps: seq<(K, V)>): seq<(K, V)> {
    if ps == [] then [] else Upsert(Assign(ps[..|ps| - 1]), ps[|ps| - 1].0, ps[|ps| - 1].1)
  }

  function First<K, V>(p: (K, V)): K { p.0 }

  /** The value of the last pair with key `k`. */
  function LastValue<K(==), V>(ps: seq<(K, V)>, k: K): Option<V> {
    if ps == [] then None
    else if ps[|ps| - 1].0 == k then Some(ps[|ps| - 1].1)
    else LastValue(ps[..|ps| - 1], k)
  }

  /** After a run of assignments a key holds the value assigned last. */
  lemma {:induction false} AssignLookup<K, V>(ps: seq<(K, V)>, k: K)
    ensures Lookup(Assign(ps), k) == LastValue(ps, k)
  {
    if ps != [] {
      var init, x := ps[..|ps| - 1], ps[|ps| - 1];
      AssignLookup(init, k);
      if x.0 != k {
        UpsertOther(Assign(init), x.0, x.1, k);
      }
    }
  }

  /** Later assignments win. */
  lemma {:induction false} LastValueAppend<K, V>(ps: seq<(K, V)>, qs: seq<(K, V)>, k: K)
    ensures LastValue(ps + qs, k) == if LastValue(qs, k).Some? then LastValue(qs, k) else LastValue(ps, k)
  {
    if qs == [] {
      assert ps + qs == ps;
    } else {
      var init := qs[..|qs| - 1];
      assert (ps + qs)[..|ps + qs| - 1] == ps + init;
      LastValueAppend(ps, init, k);
    }
  }

  /** The last assignment to a key decides its value. */
  lemma {:induction false} AssignLast<K, V>(ps: seq<(K, V)>, i: nat)
    requires i < |ps|
    requires forall j :: i < j < |ps| ==> ps[j].0 != ps[i].0
    ensures Lookup(Assign(ps), ps[i].0) == Some(ps[i].1)
  {
    var init := ps[..|ps| - 1];
    if i < |ps| - 1 {
      assert init[i] == ps[i];
      AssignLast(init, i);
      UpsertOther(Assign(init), ps[|ps| - 1].0, ps[|ps| - 1].1, ps[i].0);
    }
  }

  /** A key never assigned is absent. */
  lemma {:induction false} AssignAbsent<K, V>(ps: seq<(K, V)>, k: K)
    requires forall j :: 0 <= j < |ps| ==> ps[j].0 != k
    ensures Lookup(Assign(ps), k) == None
  {
    if ps != [] {
      AssignAbsent(ps[..|ps| - 1], k);
      UpsertOther(Assign(ps[..|ps| - 1]), ps[|ps| - 1].0, ps[|ps| - 1].1, k);
    }
  }

  lemma {:induction false} KeysMembers<K, V>(s: seq<(K, V)>, k: K)
    ensures k in Keys(s) <==> k in KeySet(s, First)
  {
    KeySetMembers(s, First);
    if k in Keys(s) {
      var i :| 0 <= i < |s| && Keys(s)[i] == k;
      assert First(s[i]) == k;
    }
    if k in KeySet(s, First) {
      var i :| 0 <= i < |s| && First(s[i]) == k;
      assert Keys(s)[i] == k;
    }
  }

  /** Keys appear in the order of their first assignment, each once: the same
      key order as first-occurrence de-duplication of the pairs. */
  lemma {:induction false} AssignKeys<K, V>(ps: seq<(K, V)>)
    ensures Keys(Assign(ps)) == Keys(FirstByKey(ps, First))
  {
    if ps != [] {
      var init := ps[..|ps| - 1];
      var x := ps[|ps| - 1];
      AssignKeys(init);
      var d := FirstByKey(init, First);
      FirstByKeyKeepsKeys(init, First);
      KeysMembers(d, x.0);
      if x.0 !in KeySet(init, First) {
        assert Keys(d + [x]) == Keys(d) + [x.0];
      }
    }
  }

  /** The keys of an assigned dictionary are distinct. */
  lemma AssignDistinct<K, V>(ps: seq<(K, V)>)
    ensures forall i, j :: 0 <= i < j < |Assign(ps)| ==> Assign(ps)[i].0 != Assign(ps)[j].0
  {
    AssignKeys(ps);
    FirstByKeyDistinct(ps, First);
    var d := FirstByKey(ps, First);
    forall i, j | 0 <= i < j < |Assign(ps)| ensures Assign(ps)[i].0 != Assign(ps)[j].0 {
      assert Keys(Assign(ps))[i] == Keys(d)[i];
      assert Keys(Assign(ps))[j] == Keys(d)[j];
      assert First(d[i]) != First(d[j]);
    }
  }

  /** One more assignment. */
  lemma AssignSnoc<K, V>(ps: seq<(K, V)>, x: (K, V))
    ensures Assign(ps + [x]) == Upsert(Assign(ps), x.0, x.1)
  {
    assert (ps + [x])[..|ps|] == ps;
  }

  function PairWith<T, K>(key: T -> K): T -> (K, T) {
    x => (key(x), x)
  }

  /** The elements that have a key, paired with it, in order. */
  function Pairs<T, K>(s: seq<T>, has: T -> bool, key: T -> K): seq<(K, T)> {
    MapSeq(Select(s, has, true), PairWith(key))
  }

  lemma PairsSnoc<T, K>(s: seq<T>, x: T, has: T -> bool, key: T -> K)
    ensures Pairs(s + [x], has, key) == Pairs(s, has, key) + (if has(x) then [(key(x), x)] else [])
  {
    SelectSnoc(s, x, has, true);
    if has(x) {
      MapSeqSnoc(Select(s, has, true), x, PairWith(key));
      assert PairWith(key)(x) == (key(x), x);
    }
  }

  /** One more element assigned under its key, after the pairs `pre`. */
  lemma AssignPairsSnoc<T, K>(pre: seq<(K, T)>, s: seq<T>, x: T, has: T -> bool, key: T -> K)
    ensures Assign(pre + Pairs(s + [x], has, key)) ==
      if has(x) then Upsert(Assign(pre + Pairs(s, has, key)), key(x), x) else Assign(pre + Pairs(s, has, key))
  {
    PairsSnoc(s, x, has, key);
    var ps := Pairs(s, has, key);
    if has(x) {
      assert pre + Pairs(s + [x], has, key) == (pre + ps) + [(key(x), x)];
      AssignSnoc(pre + ps, (key(x), x));
    } else {
      assert pre + Pairs(s + [x], has, key) == pre + ps;
    }
  }

  lemma PairsEmpty<T, K>(pre: seq<(K, T)>, s: seq<T>, has: T -> bool, key: T -> K)
    requires s == []
    ensures pre + Pairs(s, has, key) == pre
  {
  }

  /** `for x in s: if has(x): d[key(x)] = x`, on a dictionary that already
      holds the assignments `pre`. */
  method AssignEach<T, K(==)>(d: seq<(K, T)>, ghost pre: seq<(K, T)>, s: seq<T>, has: T -> bool, key: T -> K) returns (r: seq<(K, T)>)
    requires d == Assign(pre)
    ensures r == Assign(pre + Pairs(s, has, key))
  {
    r := d;
    PairsEmpty(pre, s[..0], has, key);
    for i := 0 to |s|
      invariant r == Assign(pre + Pairs(s[..i], has, key))
    {
      TakeSnoc(s, i);
      AssignPairsSnoc(pre, s[..i], s[i], has, key);
      if has(s[i]) {
        r := Upsert(r, key(s[i]), s[i]);
      }
    }
    assert s[..|s|] == s;
  }

  /** One step of an assignment loop. */
  lemma AssignStep<T, K>(pre: seq<(K, T)>, s: seq<T>, i: nat, has: T -> bool, key: T -> K, d: seq<(K, T)>)
    requires i < |s| && d == Assign(pre + Pairs(s[..i], has, key))
    ensures (if has(s[i]) then Upsert(d, key(s[i]), s[i]) else d) == Assign(pre + Pairs(s[..i + 1], has, key))
  {
    TakeSnoc(s, i);
    AssignPairsSnoc(pre, s[..i], s[i], has, key);
  }

  lemma NoneStopSnoc<T>(s: seq<T>, i: nat, stop: T -> bool)
    requires i < |s| && NoneStop(s[..i], stop) && !stop(s[i])
    ensures NoneStop(s[..i + 1], stop)
  {
    assert forall k | 0 <= k < i :: s[..i + 1][k] == s[..i][k];
  }

  /** No element of `s` is picked by `stop`. */
  predicate NoneStop<T>(s: seq<T>, stop: T -> bool) {
    forall k | 0 <= k < |s| :: !stop(s[k])
  }

  /** `AssignEach` on a loop that raises at the first element `stop` picks,
      leaving nothing. */
  method AssignUntil<T, K(==)>(d: seq<(K, T)>, ghost pre: seq<(K, T)>, s: seq<T>, has: T -> bool, key: T -> K, stop: T -> bool)
    returns (r: Option<seq<(K, T)>>)
    requires d == Assign(pre)
    ensures r.None? <==> !NoneStop(s, stop)
    ensures r.Some? ==> r.value == Assign(pre + Pairs(s, has, key))
  {
    var byKey := d;
    PairsEmpty(pre, s[..0], has, key);
    for i := 0 to |s|
      invariant byKey == Assign(pre + Pairs(s[..i], has, key))
      invariant NoneStop(s[..i], stop)
    {
      if stop(s[i]) {
        assert !NoneStop(s, stop);
        return None;
      }
      AssignStep(pre, s, i, has, key, byKey);
      NoneStopSnoc(s, i, stop);
      if has(s[i]) {
        byKey := Upsert(byKey, key(s[i]), s[i]);
      }
    }
    assert s[..|s|] == s;
    return Some(byKey);
  }

  /** One more element: it is the last value of its key, if it has one. */
  lemma LastValuePairsSnoc<T, K>(s: seq<T>, x: T, has: T -> bool, key: T -> K, k: K)
    ensures LastValue(Pairs(s + [x], has, key), k) ==
      if has(x) && key(x) == k then Some(x) else LastValue(Pairs(s, has, key), k)
  {
    PairsSnoc(s, x, has, key);
    var ps := Pairs(s, has, key);
    if has(x) {
      var q := ps + [(key(x), x)];
      assert q[..|q| - 1] == ps;
    } else {
      assert ps + [] == ps;
    }
  }

  /** `i` is the last position of `s` that has key `k`. */
  ghost predicate LastWithKey<T, K>(s: seq<T>, has: T -> bool, key: T -> K, k: K, i: int) {
    && 0 <= i < |s| && has(s[i]) && key(s[i]) == k
    && forall j | i < j < |s| :: !has(s[j]) || key(s[j]) != k
  }

  /** The value paired last with `k` is the last element with that key. */
  lemma {:induction false} LastValuePairs<T, K>(s: seq<T>, has: T -> bool, key: T -> K, k: K)
    ensures LastValue(Pairs(s, has, key), k).None? <==> forall i | 0 <= i < |s| :: !has(s[i]) || key(s[i]) != k
    ensures LastValue(Pairs(s, has, key), k).Some? ==>
      exists i :: LastWithKey(s, has, key, k, i) && s[i] == LastValue(Pairs(s, has, key), k).value
  {
    if s != [] {
      var init, x := s[..|s| - 1], s[|s| - 1];
      assert s == init + [x];
      LastValuePairs(init, has, key, k);
      LastValuePairsSnoc(init, x, has, key, k);
      var v := LastValue(Pairs(s, has, key), k);
      assert forall i | 0 <= i < |init| :: init[i] == s[i];
      if has(x) && key(x) == k {
        assert LastWithKey(s, has, key, k, |s| - 1) && s[|s| - 1] == v.value;
      } else if v.Some? {
        var i :| LastWithKey(init, has, key, k, i) && init[i] == v.value;
        assert LastWithKey(s, has, key, k, i) && s[i] == v.value;
      }
    }
  }

  /** Concatenation is associative; stated once for any element type. */
  lemma ConcatAssoc<T>(a: seq<T>, b: seq<T>, c: seq<T>)
    ensures a + (b + c) == a + b + c
  {
  }

  // ---------------------------------------------------------------------------
  // First element satisfying a condition
  // ---------------------------------------------------------------------------

  /** The first element of `s` satisfying `p`, if any. */
  function FirstWhere<T>(s: seq<T>, p: T -> bool): (r: Option<T>)
    ensures r.Some? ==> p(r.value) && r.value in s
  {
    if s == [] then None else if p(s[0]) then Some(s[0]) else FirstWhere(s[1..], p)
  }

  /** The index of the first element satisfying `p`. */
  function FirstIndexWhere<T>(s: seq<T>, p: T -> bool): (r: Option<nat>)
    ensures r.Some? ==> r.value < |s| && p(s[r.value]) && forall k | 0 <= k < r.value :: !p(s[k])
    ensures r.None? ==> forall k | 0 <= k < |s| :: !p(s[k])
  {
    if s == [] then None
    else if p(s[0]) then Some(0)
    else match FirstIndexWhere(s[1..], p)
      case None => None
      case Some(k) => Some(k + 1)
  }

  /** The first index is the one before which nothing satisfies `p`. */
  lemma FirstIndexWhereAt<T>(s: seq<T>, p: T -> bool, i: nat)
    requires i < |s| && p(s[i])
    requires forall k | 0 <= k < i :: !p(s[k])
    ensures FirstIndexWhere(s, p) == Some(i)
  {
  }

  /** `FirstWhere` finds the earliest element satisfying the condition, and
      nothing exactly when no element does. */
  lemma {:induction false} FirstWhereEarliest<T>(s: seq<T>, p: T -> bool)
    ensures FirstWhere(s, p).None? <==> forall i | 0 <= i < |s| :: !p(s[i])
    ensures FirstWhere(s, p).Some? ==>
      exists i | 0 <= i < |s| :: s[i] == FirstWhere(s, p).value && forall j | 0 <= j < i :: !p(s[j])
  {
    if s != [] && !p(s[0]) {
      FirstWhereEarliest(s[1..], p);
      if FirstWhere(s, p).Some? {
        var i :| 0 <= i < |s[1..]| && s[1..][i] == FirstWhere(s, p).value && forall j | 0 <= j < i :: !p(s[1..][j]);
        assert s[i + 1] == FirstWhere(s, p).value;
        forall j | 0 <= j < i + 1 ensures !p(s[j]) {
          if j > 0 {
            assert s[j] == s[1..][j - 1];
          }
        }
      } else {
        forall i | 0 <= i < |s| ensures !p(s[i]) {
          if i > 0 {
            assert s[i] == s[1..][i - 1];
          }
        }
      }
    }
  }

  /** The element found is the one before which nothing satisfies `p`. */
  lemma {:induction false} FirstWhereAt<T>(s: seq<T>, p: T -> bool, i: nat)
    requires i < |s| && p(s[i])
    requires forall k | 0 <= k < i :: !p(s[k])
    ensures FirstWhere(s, p) == Some(s[i])
  {
    if i > 0 {
      FirstWhereAt(s[1..], p, i - 1);
    }
  }

  /** `FirstWhere` on a suffix, in terms of the whole sequence's indices. */
  lemma FirstWhereSuffix<T>(s: seq<T>, i: nat, p: T -> bool)
    requires i <= |s|
    ensures FirstWhere(s[i..], p).None? <==> forall j | i <= j < |s| :: !p(s[j])
    ensures FirstWhere(s[i..], p).Some? ==>
      exists j | i <= j < |s| :: s[j] == FirstWhere(s[i..], p).value && p(s[j]) && forall m | i <= m < j :: !p(s[m])
  {
    var rest := s[i..];
    FirstWhereEarliest(rest, p);
    assert forall j | i <= j < |s| :: s[j] == rest[j - i];
    if FirstWhere(rest, p).Some? {
      var j :| 0 <= j < |rest| && rest[j] == FirstWhere(rest, p).value && forall m | 0 <= m < j :: !p(rest[m]);
      assert s[i + j] == rest[j];
      forall m | i <= m < i + j ensures !p(s[m]) {
        assert s[m] == rest[m - i];
      }
    } else {
      forall j | i <= j < |s| ensures !p(s[j]) {
        assert s[j] == rest[j - i];
      }
    }
  }

  // ---------------------------------------------------------------------------
  // De-duplication with exemptions
  // ---------------------------------------------------------------------------

  /** The elements `x` of `s` with `p(x) == b`, in order. */
  function Select<T>(s: seq<T>, p: T -> bool, b: bool): (r: seq<T>)
    ensures |r| <= |s|
  {
    if s == [] then [] else Select(s[..|s| - 1], p, b) + (if p(s[|s| - 1]) == b then [s[|s| - 1]] else [])
  }

  /** Removing keys that were never added commutes with adding them. */
  lemma UnionMinus<T>(a: set<T>, w: set<T>, raw: set<T>)
    requires w !! raw
    ensures (a + w) - raw == (a - raw) + w
  {
  }

  /** Selecting from two elements keeps each one that matches, in order. */
  lemma SelectPair<T>(x: T, y: T, p: T -> bool, b: bool)
    ensures Select([x, y], p, b) == (if p(x) == b then [x] else []) + (if p(y) == b then [y] else [])
  {
    assert [x, y][..1] == [x] && [x][..0] == [];
  }

  /** The keys a seen-set records when exempt elements are not recorded. */
  function SeenExcept<T, K(==)>(s: seq<T>, key: T -> K, exempt: T -> bool): set<K> {
    if s == [] then {}
    else SeenExcept(s[..|s| - 1], key, exempt) + (if exempt(s[|s| - 1]) then {} else {key(s[|s| - 1])})
  }

  /** A seen-set pass in which exempt elements are always kept and never
      recorded, and any other element is kept iff its key is not yet recorded. */
  function DedupExcept<T, K(==)>(s: seq<T>, key: T -> K, exempt: T -> bool): seq<T> {
    if s == [] then []
    else
      var x := s[|s| - 1];
      var init := s[..|s| - 1];
      if exempt(x) || key(x) !in SeenExcept(init, key, exempt) then DedupExcept(init, key, exempt) + [x]
      else DedupExcept(init, key, exempt)
  }

  lemma SelectSnoc<T>(s: seq<T>, x: T, p: T -> bool, b: bool)
    ensures Select(s + [x], p, b) == Select(s, p, b) + (if p(x) == b then [x] else [])
  {
    assert (s + [x])[..|s|] == s;
  }

  /** One more element of a prefix. */
  lemma TakeSnoc<T>(s: seq<T>, i: nat)
    requires i < |s|
    ensures s[..i + 1] == s[..i] + [s[i]]
  {
  }

  /** `[f(x) for x in s]`. */
  function MapSeq<T, U>(s: seq<T>, f: T -> U): (r: seq<U>)
    ensures |r| == |s| && forall i | 0 <= i < |s| :: r[i] == f(s[i])
  {
    seq(|s|, i requires 0 <= i < |s| => f(s[i]))
  }

  lemma MapSeqSnoc<T, U>(s: seq<T>, x: T, f: T -> U)
    ensures MapSeq(s + [x], f) == MapSeq(s, f) + [f(x)]
  {
  }

  lemma {:induction false} SelectAppend<T>(s: seq<T>, t: seq<T>, p: T -> bool, b: bool)
    ensures Select(s + t, p, b) == Select(s, p, b) + Select(t, p, b)
  {
    if t != [] {
      var init := t[..|t| - 1];
      SelectAppend(s, init, p, b);
      assert (s + t)[..|s + t| - 1] == s + init;
      ConcatAssoc(Select(s, p, b), Select(init, p, b), if p(t[|t| - 1]) == b then [t[|t| - 1]] else []);
    } else {
      assert s + t == s;
    }
  }

  /** Selecting from a prefix gives a prefix of the selection. */
  lemma SelectPrefix<T>(s: seq<T>, n: nat, p: T -> bool, b: bool)
    requires n <= |s|
    ensures |Select(s[..n], p, b)| <= |Select(s, p, b)|
    ensures Select(s, p, b)[..|Select(s[..n], p, b)|] == Select(s[..n], p, b)
  {
    assert s == s[..n] + s[n..];
    SelectAppend(s[..n], s[n..], p, b);
  }

  /** The selection keeps every element iff every element matches. */
  lemma {:induction false} SelectAll<T>(s: seq<T>, p: T -> bool, b: bool)
    ensures |Select(s, p, b)| == |s| <==> forall i | 0 <= i < |s| :: p(s[i]) == b
  {
    if s != [] {
      var init := s[..|s| - 1];
      SelectAll(init, p, b);
      if forall i | 0 <= i < |s| :: p(s[i]) == b {
        assert forall i | 0 <= i < |init| :: p(init[i]) == b by {
          forall i | 0 <= i < |init| ensures p(init[i]) == b { assert init[i] == s[i]; }
        }
      }
      if |Select(s, p, b)| == |s| {
        assert |Select(init, p, b)| == |init|;
        forall i | 0 <= i < |s| ensures p(s[i]) == b {
          if i < |init| { assert init[i] == s[i]; }
        }
      }
    }
  }

  /** The selection holds exactly the elements that match. */
  lemma {:induction false} SelectMembers<T>(s: seq<T>, p: T -> bool, b: bool)
    ensures forall x | x in Select(s, p, b) :: p(x) == b && x in s
    ensures forall x | x in s && p(x) == b :: x in Select(s, p, b)
  {
    if s != [] {
      var init := s[..|s| - 1];
      SelectMembers(init, p, b);
      assert s == init + [s[|s| - 1]];
    }
  }

  /** Nothing is selected exactly when nothing matches. */
  lemma SelectEmpty<T>(s: seq<T>, p: T -> bool)
    ensures Select(s, p, true) == [] <==> forall i | 0 <= i < |s| :: !p(s[i])
  {
    SelectMembers(s, p, true);
    if Select(s, p, true) != [] {
      assert Select(s, p, true)[0] in Select(s, p, true);
    }
    if exists i | 0 <= i < |s| :: p(s[i]) {
      var i :| 0 <= i < |s| && p(s[i]);
      assert s[i] in Select(s, p, true);
    }
  }

  /** One more element offered to the pass. */
  lemma DedupExceptSnoc<T, K>(s: seq<T>, x: T, key: T -> K, exempt: T -> bool)
    ensures DedupExcept(s + [x], key, exempt)
      == DedupExcept(s, key, exempt) + (if exempt(x) || key(x) !in SeenExcept(s, key, exempt) then [x] else [])
    ensures SeenExcept(s + [x], key, exempt) == SeenExcept(s, key, exempt) + (if exempt(x) then {} else {key(x)})
  {
    assert (s + [x])[..|s|] == s;
  }

  /** The seen-set holds the keys of the non-exempt elements. */
  lemma {:induction false} SeenExceptKeys<T, K>(s: seq<T>, key: T -> K, exempt: T -> bool)
    ensures SeenExcept(s, key, exempt) == KeySet(Select(s, exempt, false), key)
  {
    if s != [] {
      SeenExceptKeys(s[..|s| - 1], key, exempt);
      var n := Select(s[..|s| - 1], exempt, false);
      if !exempt(s[|s| - 1]) {
        assert (n + [s[|s| - 1]])[..|n|] == n;
      } else {
        assert n + [] == n;
      }
    }
  }

  /** The non-exempt elements kept are exactly the first occurrences of each
      key among the non-exempt elements, and every exempt element is kept. */
  lemma {:induction false} DedupExceptSplits<T, K>(s: seq<T>, key: T -> K, exempt: T -> bool)
    ensures Select(DedupExcept(s, key, exempt), exempt, false) == FirstByKey(Select(s, exempt, false), key)
    ensures Select(DedupExcept(s, key, exempt), exempt, true) == Select(s, exempt, true)
  {
    if s != [] {
      var init := s[..|s| - 1];
      var x := s[|s| - 1];
      var d := DedupExcept(init, key, exempt);
      DedupExceptSplits(init, key, exempt);
      SeenExceptKeys(init, key, exempt);
      assert s == init + [x];
      SelectSnoc(init, x, exempt, false);
      SelectSnoc(init, x, exempt, true);
      if exempt(x) || key(x) !in SeenExcept(init, key, exempt) {
        SelectSnoc(d, x, exempt, false);
        SelectSnoc(d, x, exempt, true);
      }
      var n := Select(init, exempt, false);
      if !exempt(x) {
        assert (n + [x])[..|n|] == n;
      } else {
        assert n + [] == n;
        assert Select(d, exempt, false) + [] == Select(d, exempt, false);
      }
      if exempt(x) {
        assert Select(init, exempt, true) + [x] == Select(s, exempt, true);
      } else {
        assert Select(d, exempt, true) + [] == Select(d, exempt, true);
        assert Select(init, exempt, true) + [] == Select(init, exempt, true);
      }
    }
  }

  // ---------------------------------------------------------------------------
  // A loop that skips some failures and propagates the others
  // ---------------------------------------------------------------------------

  /** Apply `f` to each element in order: successes are collected, failures
      that `skip` accepts are passed over, and the first other failure ends
      the pass (a loop with `try`/`except ...: continue`). */
  function Collect<T, U, E>(xs: seq<T>, f: T -> Result<U, E>, skip: E -> bool): (r: Result<seq<U>, E>)
    ensures r.Success? ==> |r.value| <= |xs|
  {
    if xs == [] then Success([])
    else
      match Collect(xs[..|xs| - 1], f, skip)
      case Failure(e) => Failure(e)
      case Success(done) =>
        match f(xs[|xs| - 1])
        case Success(y) => Success(done + [y])
        case Failure(e) => if skip(e) then Success(done) else Failure(e)
  }

  /** One more element. */
  lemma CollectSnoc<T, U, E>(xs: seq<T>, x: T, f: T -> Result<U, E>, skip: E -> bool)
    ensures Collect(xs + [x], f, skip) ==
      match Collect(xs, f, skip)
      case Failure(e) => Failure(e)
      case Success(done) =>
        match f(x)
        case Success(y) => Success(done + [y])
        case Failure(e) => if skip(e) then Success(done) else Failure(e)
  {
    assert (xs + [x])[..|xs|] == xs;
  }

  /** A failure of a prefix is the failure of the whole pass. */
  lemma {:induction false} CollectFailure<T, U, E>(xs: seq<T>, f: T -> Result<U, E>, skip: E -> bool, i: nat)
    requires i <= |xs| && Collect(xs[..i], f, skip).Failure?
    ensures Collect(xs, f, skip) == Collect(xs[..i], f, skip)
  {
    if i < |xs| {
      assert xs[..|xs| - 1][..i] == xs[..i];
      CollectFailure(xs[..|xs| - 1], f, skip, i);
    } else {
      assert xs[..i] == xs;
    }
  }

  /** The pass succeeds iff every failure is skippable; it then holds exactly
      the successful results, each from some element. */
  lemma {:induction false} CollectMembers<T, U, E>(xs: seq<T>, f: T -> Result<U, E>, skip: E -> bool)
    ensures Collect(xs, f, skip).Success? <==> forall i | 0 <= i < |xs| :: f(xs[i]).Success? || skip(f(xs[i]).error)
    ensures Collect(xs, f, skip).Success? ==>
      && (forall y | y in Collect(xs, f, skip).value :: exists i | 0 <= i < |xs| :: f(xs[i]) == Success(y))
      && (forall i | 0 <= i < |xs| && f(xs[i]).Success? :: f(xs[i]).value in Collect(xs, f, skip).value)
  {
    if xs != [] {
      var init := xs[..|xs| - 1];
      var x := xs[|xs| - 1];
      CollectMembers(init, f, skip);
      assert forall i | 0 <= i < |init| :: init[i] == xs[i];
      if Collect(xs, f, skip).Success? {
        var done := Collect(init, f, skip).value;
        var r := Collect(xs, f, skip).value;
        forall y | y in r ensures exists i | 0 <= i < |xs| :: f(xs[i]) == Success(y) {
          if y in done {
            var i :| 0 <= i < |init| && f(init[i]) == Success(y);
            assert f(xs[i]) == Success(y);
          } else {
            assert f(xs[|xs| - 1]) == Success(y);
          }
        }
      }
    }
  }

  /** Skips nothing. */
  predicate Never<E>(e: E) { false }

  /** The loop `Collect` specifies: one pass, stopping at the first failure
      that is not skipped. */
  method CollectEach<T, U, E>(xs: seq<T>, f: T -> Result<U, E>, skip: E -> bool) returns (r: Result<seq<U>, E>)
    ensures r == Collect(xs, f, skip)
  {
    var done: seq<U> := [];
    for i := 0 to |xs|
      invariant Collect(xs[..i], f, skip) == Success(done)
    {
      assert xs[..i + 1] == xs[..i] + [xs[i]];
      CollectSnoc(xs[..i], xs[i], f, skip);
      match f(xs[i])
      case Success(y) =>
        done := done + [y];
      case Failure(e) =>
        if !skip(e) {
          CollectFailure(xs, f, skip, i + 1);
          return Failure(e);
        }
    }
    assert xs[..|xs|] == xs;
    return Success(done);
  }

  /** With nothing skipped, a pass succeeds iff every element does, and then
      maps the elements one to one. */
  lemma {:induction false} CollectAll<T, U, E>(xs: seq<T>, f: T -> Result<U, E>)
    ensures Collect(xs, f, Never).Success? <==> forall i | 0 <= i < |xs| :: f(xs[i]).Success?
    ensures Collect(xs, f, Never).Success? ==>
      |Collect(xs, f, Never).value| == |xs| && forall i | 0 <= i < |xs| :: Collect(xs, f, Never).value[i] == f(xs[i]).value
  {
    if xs != [] {
      var init := xs[..|xs| - 1];
      CollectAll(init, f);
      assert forall i | 0 <= i < |init| :: init[i] == xs[i];
    }
  }

  /** With nothing skipped, a failing pass fails with the error of the
      first element that fails. */
  lemma {:induction false} CollectFirstFailure<T, U, E>(xs: seq<T>, f: T -> Result<U, E>)
    ensures Collect(xs, f, Never).Failure? ==>
      exists i | 0 <= i < |xs| ::
        && f(xs[i]) == Failure(Collect(xs, f, Never).error)
        && forall j | 0 <= j < i :: f(xs[j]).Success?
  {
    if xs != [] {
      var init := xs[..|xs| - 1];
      CollectFirstFailure(init, f);
      CollectAll(init, f);
      assert forall j | 0 <= j < |init| :: init[j] == xs[j];
      if Collect(init, f, Never).Failure? {
        var i :| 0 <= i < |init| && f(init[i]) == Failure(Collect(init, f, Never).error)
          && forall j | 0 <= j < i :: f(init[j]).Success?;
        assert f(xs[i]) == Failure(Collect(xs, f, Never).error);
      } else if Collect(xs, f, Never).Failure? {
        var i := |xs| - 1;
        assert f(xs[i]) == Failure(Collect(xs, f, Never).error);
      }
    }
  }

  /** A pass over the selected elements fails iff some selected element
      fails, and then with the error of the first selected one that does. */
  lemma {:induction false} CollectSelectFirstFailure<T, U, E>(xs: seq<T>, p: T -> bool, f: T -> Result<U, E>)
    ensures Collect(Select(xs, p, true), f, Never).Failure? <==>
      exists i | 0 <= i < |xs| :: p(xs[i]) && f(xs[i]).Failure?
    ensures Collect(Select(xs, p, true), f, Never).Failure? ==>
      exists i | 0 <= i < |xs| ::
        && p(xs[i]) && f(xs[i]) == Failure(Collect(Select(xs, p, true), f, Never).error)
        && forall j | 0 <= j < i :: p(xs[j]) ==> f(xs[j]).Success?
  {
    if xs != [] {
      var init := xs[..|xs| - 1];
      var x := xs[|xs| - 1];
      var sel := Select(init, p, true);
      CollectSelectFirstFailure(init, p, f);
      assert forall j | 0 <= j < |init| :: init[j] == xs[j];
      assert Select(xs, p, true) == sel + (if p(x) then [x] else []);
      if p(x) {
        CollectSnoc(sel, x, f, Never);
      } else {
        assert Select(xs, p, true) == sel;
      }
      if Collect(sel, f, Never).Failure? {
        var i :| 0 <= i < |init| && p(init[i]) && f(init[i]) == Failure(Collect(sel, f, Never).error)
          && forall j | 0 <= j < i :: p(init[j]) ==> f(init[j]).Success?;
        assert p(xs[i]) && f(xs[i]) == Failure(Collect(Select(xs, p, true), f, Never).error);
      } else if Collect(Select(xs, p, true), f, Never).Failure? {
        var i := |xs| - 1;
        assert p(xs[i]) && f(xs[i]) == Failure(Collect(Select(xs, p, true), f, Never).error);
      }
    }
  }

  /** No two distinct elements are each not greater than the other. */
  ghost predicate Antisymmetric<T(!new)>(le: (T, T) -> bool) {
    forall a, b :: le(a, b) && le(b, a) ==> a == b
  }

  /** Under an antisymmetric comparator there is only one sorted arrangement
      of a collection. */
  lemma {:induction false} SortedUnique<T(!new)>(a: seq<T>, b: seq<T>, le: (T, T) -> bool)
    requires Antisymmetric(le)
    requires SortedBy(a, le) && SortedBy(b, le) && multiset(a) == multiset(b)
    ensures a == b
  {
    if a == [] {
      assert |b| == |multiset(b)| == 0;
    } else {
      assert |b| == |multiset(b)| == |a|;
      SortedHead(a, b, le);
      assert a == [a[0]] + a[1..];
      assert b == [b[0]] + b[1..];
      assert multiset(a[1..]) == multiset(a) - multiset{a[0]};
      assert multiset(b[1..]) == multiset(b) - multiset{b[0]};
      SortedTail(a, le);
      SortedTail(b, le);
      SortedUnique(a[1..], b[1..], le);
    }
  }

  lemma SortedHead<T(!new)>(a: seq<T>, b: seq<T>, le: (T, T) -> bool)
    requires Antisymmetric(le)
    requires a != [] && SortedBy(a, le) && SortedBy(b, le) && multiset(a) == multiset(b)
    ensures b != [] && a[0] == b[0]
  {
    assert a[0] in multiset(b);
    var j :| 0 <= j < |b| && b[j] == a[0];
    assert b[0] in multiset(a);
    var i :| 0 <= i < |a| && a[i] == b[0];
    assert le(a[0], a[i]) || i == 0;
    assert le(b[0], b[j]) || j == 0;
  }

  lemma SortedTail<T>(a: seq<T>, le: (T, T) -> bool)
    requires a != [] && SortedBy(a, le)
    ensures SortedBy(a[1..], le)
  {
    forall i, j | 0 <= i < j < |a[1..]| ensures le(a[1..][i], a[1..][j]) {
      assert a[1..][i] == a[i + 1] && a[1..][j] == a[j + 1];
    }
  }

  /** Sorting depends on the collection only, not on the order it comes in. */
  lemma SortByOrderFree<T(!new)>(a: seq<T>, b: seq<T>, le: (T, T) -> bool)
    requires TotalPreorder(le) && Antisymmetric(le)
    requires multiset(a) == multiset(b)
    ensures SortBy(a, le) == SortBy(b, le)
  {
    SortBySorted(a, le);
    SortBySorted(b, le);
    SortedUnique(SortBy(a, le), SortBy(b, le), le);
  }

  // ---------------------------------------------------------------------------
  // Nested `defaultdict(lambda: defaultdict(list))`
  // ---------------------------------------------------------------------------

  /** `d[k]` of a nested dictionary, empty when absent. */
  function Inner<K1(==), K2, V>(g: seq<(K1, seq<(K2, seq<V>)>)>, k1: K1): seq<(K2, seq<V>)> {
    match Lookup(g, k1)
    case None => []
    case Some(inner) => inner
  }

  /** `d[k]` of a dictionary of lists, empty when absent. */
  function Cell<K2(==), V>(inner: seq<(K2, seq<V>)>, k2: K2): seq<V> {
    match Lookup(inner, k2)
    case None => []
    case Some(l) => l
  }

  /** `d[k1][k2].append(v)`. */
  function NestedAppend<K1(==), K2(==), V>(g: seq<(K1, seq<(K2, seq<V>)>)>, k1: K1, k2: K2, v: V): seq<(K1, seq<(K2, seq<V>)>)> {
    Upsert(g, k1, Upsert(Inner(g, k1), k2, Cell(Inner(g, k1), k2) + [v]))
  }

  /** The nested dictionary after appending every triple in turn. */
  function Nest<K1(==), K2(==), V>(ts: seq<(K1, K2, V)>): seq<(K1, seq<(K2, seq<V>)>)> {
    if ts == [] then []
    else
      var t := ts[|ts| - 1];
      NestedAppend(Nest(ts[..|ts| - 1]), t.0, t.1, t.2)
  }

  function At<K1(==), K2(==), V>(k1: K1, k2: K2): ((K1, K2, V)) -> bool {
    (t: (K1, K2, V)) => t.0 == k1 && t.1 == k2
  }

  function Third<K1, K2, V>(t: (K1, K2, V)): V { t.2 }

  /** Each cell holds the values appended under its two keys, in order. */
  lemma {:induction false} NestCell<K1, K2, V>(ts: seq<(K1, K2, V)>, k1: K1, k2: K2)
    ensures Cell(Inner(Nest(ts), k1), k2) == MapSeq(Select(ts, At(k1, k2), true), Third)
  {
    if ts != [] {
      var init, t := ts[..|ts| - 1], ts[|ts| - 1];
      assert ts == init + [t];
      NestCell(init, k1, k2);
      var g := Nest(init);
      var sel := Select(init, At(k1, k2), true);
      SelectSnoc(init, t, At(k1, k2), true);
      var inner := Upsert(Inner(g, t.0), t.1, Cell(Inner(g, t.0), t.1) + [t.2]);
      if t.0 == k1 {
        assert Inner(Nest(ts), k1) == inner;
        if t.1 == k2 {
          assert At(k1, k2)(t);
          MapSeqSnoc(sel, t, Third);
        } else {
          assert !At(k1, k2)(t);
          UpsertOther(Inner(g, t.0), t.1, Cell(Inner(g, t.0), t.1) + [t.2], k2);
        }
      } else {
        assert !At(k1, k2)(t);
        UpsertOther(g, t.0, inner, k1);
        assert Inner(Nest(ts), k1) == Inner(g, k1);
      }
    }
  }

  /** One more append. */
  lemma NestSnoc<K1, K2, V>(ts: seq<(K1, K2, V)>, t: (K1, K2, V))
    ensures Nest(ts + [t]) == NestedAppend(Nest(ts), t.0, t.1, t.2)
  {
    assert (ts + [t])[..|ts|] == ts;
  }

  /** Every outer key of the nested dictionary came from some triple. */
  lemma {:induction false} NestKeyFrom<K1, K2, V>(ts: seq<(K1, K2, V)>, j: nat)
    requires j < |Nest(ts)|
    ensures exists i | 0 <= i < |ts| :: ts[i].0 == Nest(ts)[j].0
  {
    var init, t := ts[..|ts| - 1], ts[|ts| - 1];
    var g := Nest(init);
    var n := Nest(ts);
    assert n == NestedAppend(g, t.0, t.1, t.2);
    var kn, kg := Keys(n), Keys(g);
    assert kn == if t.0 in kg then kg else kg + [t.0];
    assert kn[j] == n[j].0;
    if j < |g| {
      assert kn[j] == kg[j] == g[j].0;
      NestKeyFrom(init, j);
      var i :| 0 <= i < |init| && init[i].0 == g[j].0;
      assert ts[i] == init[i];
    } else {
      assert kn == kg + [t.0];
      assert kn[j] == t.0;
    }
  }

  /** The nested dictionary is empty only when nothing was appended. */
  lemma NestEmpty<K1, K2, V>(ts: seq<(K1, K2, V)>)
    ensures Nest(ts) == [] <==> ts == []
  {
    if ts != [] {
      var t := ts[|ts| - 1];
      assert Lookup(Nest(ts), t.0).Some?;
    }
  }

  /** The values that are present, in order. */
  function Somes<U>(s: seq<Option<U>>): seq<U> {
    if s == [] then []
    else Somes(s[..|s| - 1]) + (if s[|s| - 1].Some? then [s[|s| - 1].value] else [])
  }

  lemma SomesSnoc<U>(s: seq<Option<U>>, x: Option<U>)
    ensures Somes(s + [x]) == Somes(s) + (if x.Some? then [x.value] else [])
  {
    assert (s + [x])[..|s|] == s;
  }

  /** `Somes` keeps exactly the present values. */
  lemma {:induction false} SomesMembers<U>(s: seq<Option<U>>)
    ensures forall u | u in Somes(s) :: Some(u) in s
    ensures forall i | 0 <= i < |s| && s[i].Some? :: s[i].value in Somes(s)
  {
    if s != [] {
      var init := s[..|s| - 1];
      SomesMembers(init);
      assert s == init + [s[|s| - 1]];
      assert forall i | 0 <= i < |init| :: init[i] == s[i];
    }
  }

  /** When every value is present, `Somes` is the values one to one. */
  lemma {:induction false} SomesAll<U>(s: seq<Option<U>>)
    requires forall i | 0 <= i < |s| :: s[i].Some?
    ensures |Somes(s)| == |s| && forall i | 0 <= i < |s| :: Somes(s)[i] == s[i].value
  {
    if s != [] {
      var init := s[..|s| - 1];
      assert forall i | 0 <= i < |init| :: init[i] == s[i];
      SomesAll(init);
    }
  }

  /** One step of a loop that gathers optional triples into a nested
      dictionary and stops at the first failure. */
  lemma GatherStep<T, K1, K2, V, E>(xs: seq<T>, i: nat, f: T -> Result<Option<(K1, K2, V)>, E>,
                                     found: seq<Option<(K1, K2, V)>>, outcome: Result<Option<(K1, K2, V)>, E>)
    requires i < |xs| && Collect(xs[..i], f, Never) == Success(found) && outcome == f(xs[i])
    ensures outcome.Failure? ==> Collect(xs, f, Never) == Failure(outcome.error)
    ensures outcome.Success? ==> Collect(xs[..i + 1], f, Never) == Success(found + [outcome.value])
    ensures outcome.Success? && outcome.value.None? ==> Nest(Somes(found + [outcome.value])) == Nest(Somes(found))
    ensures outcome.Success? && outcome.value.Some? ==>
      var t := outcome.value.value;
      Nest(Somes(found + [outcome.value])) == NestedAppend(Nest(Somes(found)), t.0, t.1, t.2)
  {
    KeepStep(xs, i, f, found, outcome);
    if outcome.Success? {
      var s := Somes(found);
      if outcome.value.Some? {
        assert Somes(found + [outcome.value]) == s + [outcome.value.value];
        NestSnoc(s, outcome.value.value);
      } else {
        assert Somes(found + [outcome.value]) == s;
      }
    }
  }

  /** One step of a loop that keeps the present values and stops at the
      first failure. */
  lemma KeepStep<T, U, E>(xs: seq<T>, i: nat, f: T -> Result<Option<U>, E>,
                          found: seq<Option<U>>, outcome: Result<Option<U>, E>)
    requires i < |xs| && Collect(xs[..i], f, Never) == Success(found) && outcome == f(xs[i])
    ensures outcome.Failure? ==> Collect(xs, f, Never) == Failure(outcome.error)
    ensures outcome.Success? ==> Collect(xs[..i + 1], f, Never) == Success(found + [outcome.value])
    ensures outcome.Success? ==>
      Somes(found + [outcome.value]) == Somes(found) + if outcome.value.Some? then [outcome.value.value] else []
  {
    TakeSnoc(xs, i);
    CollectSnoc(xs[..i], xs[i], f, Never);
    if outcome.Failure? {
      CollectFailure(xs, f, Never, i + 1);
    } else {
      SomesSnoc(found, outcome.value);
    }
  }

  /** An element the selection skips leaves the selection of the prefix as it was. */
  lemma SelectSkip<T>(s: seq<T>, i: nat, p: T -> bool, b: bool)
    requires i < |s| && p(s[i]) != b
    ensures Select(s[..i + 1], p, b) == Select(s[..i], p, b)
  {
    TakeSnoc(s, i);
    SelectSnoc(s[..i], s[i], p, b);
  }

  /** One step of a loop that processes the selected elements and stops at
      the first failure. */
  lemma CollectSelectedStep<T, U, E>(xs: seq<T>, i: nat, p: T -> bool, f: T -> Result<U, E>,
                                     done: seq<U>, outcome: Result<U, E>)
    requires i < |xs| && p(xs[i]) && outcome == f(xs[i])
    requires Collect(Select(xs[..i], p, true), f, Never) == Success(done)
    ensures outcome.Failure? ==> Collect(Select(xs, p, true), f, Never) == Failure(outcome.error)
    ensures outcome.Success? ==> Collect(Select(xs[..i + 1], p, true), f, Never) == Success(done + [outcome.value])
  {
    var sel := Select(xs[..i], p, true);
    TakeSnoc(xs, i);
    SelectSnoc(xs[..i], xs[i], p, true);
    CollectSnoc(sel, xs[i], f, Never);
    if outcome.Failure? {
      SelectPrefix(xs, i + 1, p, true);
      CollectFailure(Select(xs, p, true), f, Never, |sel| + 1);
    }
  }

  // ---------------------------------------------------------------------------
  // Overlaying a dictionary on a list
  // ---------------------------------------------------------------------------

  /** `d[k]` after `Lookup(s, k)` found nothing before the last pair. */
  lemma {:induction false} LookupSnoc<K, V>(s: seq<(K, V)>, x: (K, V), k: K)
    ensures Lookup(s + [x], k) == if Lookup(s, k).Some? then Lookup(s, k) else if x.0 == k then Some(x.1) else None
  {
    if s != [] {
      assert (s + [x])[1..] == s[1..] + [x];
      LookupSnoc(s[1..], x, k);
    }
  }

  /** A key is found iff some pair has it. */
  lemma {:induction false} LookupNone<K, V>(s: seq<(K, V)>, k: K)
    ensures Lookup(s, k).None? <==> forall i | 0 <= i < |s| :: s[i].0 != k
  {
    if s != [] {
      LookupNone(s[1..], k);
      assert forall i | 1 <= i < |s| :: s[1..][i - 1] == s[i];
    }
  }

  /** Selecting pairs that keep every pair with key `k` does not change
      what `k` finds. */
  lemma {:induction false} LookupSelect<K, V>(s: seq<(K, V)>, p: ((K, V)) -> bool, k: K)
    requires forall i | 0 <= i < |s| && s[i].0 == k :: p(s[i])
    ensures Lookup(Select(s, p, true), k) == Lookup(s, k)
  {
    if s != [] {
      var init, x := s[..|s| - 1], s[|s| - 1];
      assert s == init + [x];
      assert forall i | 0 <= i < |init| :: init[i] == s[i];
      LookupSelect(init, p, k);
      LookupSnoc(init, x, k);
      if p(x) {
        LookupSnoc(Select(init, p, true), x, k);
      } else {
        assert Select(s, p, true) == Select(init, p, true);
      }
    }
  }

  /** Two tests that agree on every element select the same elements. */
  lemma {:induction false} SelectCongruent<T>(s: seq<T>, p: T -> bool, q: T -> bool, b: bool)
    requires forall i | 0 <= i < |s| :: p(s[i]) == q(s[i])
    ensures Select(s, p, b) == Select(s, q, b)
  {
    if s != [] {
      var init := s[..|s| - 1];
      assert forall i | 0 <= i < |init| :: init[i] == s[i];
      SelectCongruent(init, p, q, b);
    }
  }

  /** Selecting twice selects by both tests. */
  lemma {:induction false} SelectSelect<T>(s: seq<T>, p: T -> bool, q: T -> bool, r: T -> bool)
    requires forall i | 0 <= i < |s| :: r(s[i]) == (p(s[i]) && q(s[i]))
    ensures Select(Select(s, p, true), q, true) == Select(s, r, true)
  {
    if s != [] {
      var init, x := s[..|s| - 1], s[|s| - 1];
      assert forall i | 0 <= i < |init| :: init[i] == s[i];
      SelectSelect(init, p, q, r);
      if p(x) {
        SelectSnoc(Select(init, p, true), x, q, true);
      } else {
        assert Select(s, p, true) == Select(init, p, true);
      }
    }
  }

  /** A test every element passes selects them all. */
  lemma {:induction false} SelectEvery<T>(s: seq<T>, p: T -> bool, b: bool)
    requires forall i | 0 <= i < |s| :: p(s[i]) == b
    ensures Select(s, p, b) == s
  {
    if s != [] {
      var init := s[..|s| - 1];
      assert forall i | 0 <= i < |init| :: init[i] == s[i];
      SelectEvery(init, p, b);
    }
  }

  function KeyIsNot<K(==), V>(k: K): ((K, V)) -> bool {
    (x: (K, V)) => x.0 != k
  }

  /** `del d[k]`. */
  function Remove<K(==), V>(s: seq<(K, V)>, k: K): seq<(K, V)> {
    Select(s, KeyIsNot(k), true)
  }

  /** The pass over `os` that replaces each element whose key is in the
      dictionary `m` by its entry there and deletes that entry: the replaced
      list, the elements left as they were, and the entries left over. */
  function Overlay<K(==), V>(os: seq<V>, m: seq<(K, V)>, id: V -> K): (seq<V>, seq<V>, seq<(K, V)>) {
    if os == [] then ([], [], m)
    else
      var r := Overlay(os[..|os| - 1], m, id);
      var o := os[|os| - 1];
      match Lookup(r.2, id(o))
      case Some(v) => (r.0 + [v], r.1, Remove(r.2, id(o)))
      case None => (r.0 + [o], r.1 + [o], r.2)
  }

  /** The element, or its entry in `m` when there is one. */
  function Overridden<K(==), V>(m: seq<(K, V)>, id: V -> K): V -> V {
    (o: V) => match Lookup(m, id(o)) case Some(v) => v case None => o
  }

  function Unmatched<K(==), V>(m: seq<(K, V)>, id: V -> K): V -> bool {
    (o: V) => Lookup(m, id(o)).None?
  }

  function Unclaimed<K(==), V>(os: seq<V>, id: V -> K): ((K, V)) -> bool {
    (x: (K, V)) => x.0 !in KeySet(os, id)
  }

  /** When the keys of `os` are distinct, the pass replaces every element
      that has an entry by that entry, keeps the others, and leaves over
      exactly the entries whose key no element has, in their order. */
  lemma {:induction false} OverlayClosed<K, V>(os: seq<V>, m: seq<(K, V)>, id: V -> K)
    requires DistinctKeys(os, id)
    ensures Overlay(os, m, id).0 == MapSeq(os, Overridden(m, id))
    ensures Overlay(os, m, id).1 == Select(os, Unmatched(m, id), true)
    ensures Overlay(os, m, id).2 == Select(m, Unclaimed(os, id), true)
  {
    if os == [] {
      SelectEvery(m, Unclaimed(os, id), true);
    } else {
      var init, o := os[..|os| - 1], os[|os| - 1];
      assert os == init + [o];
      assert forall i | 0 <= i < |init| :: init[i] == os[i];
      OverlayClosed(init, m, id);
      KeySetMembers(init, id);
      OverlayStep(init, o, m, id);
    }
  }

  /** One more element, whose key the earlier ones do not have. */
  lemma OverlayStep<K, V>(init: seq<V>, o: V, m: seq<(K, V)>, id: V -> K)
    requires id(o) !in KeySet(init, id)
    requires Overlay(init, m, id).0 == MapSeq(init, Overridden(m, id))
    requires Overlay(init, m, id).1 == Select(init, Unmatched(m, id), true)
    requires Overlay(init, m, id).2 == Select(m, Unclaimed(init, id), true)
    ensures Overlay(init + [o], m, id).0 == MapSeq(init + [o], Overridden(m, id))
    ensures Overlay(init + [o], m, id).1 == Select(init + [o], Unmatched(m, id), true)
    ensures Overlay(init + [o], m, id).2 == Select(m, Unclaimed(init + [o], id), true)
  {
    var os := init + [o];
    var k := id(o);
    assert os[..|os| - 1] == init;
    LookupSelect(m, Unclaimed(init, id), k);
    MapSeqSnoc(init, o, Overridden(m, id));
    SelectSnoc(init, o, Unmatched(m, id), true);
    assert KeySet(os, id) == KeySet(init, id) + {k};
    if Lookup(m, k).Some? {
      SelectSelect(m, Unclaimed(init, id), KeyIsNot(k), Unclaimed(os, id));
    } else {
      LookupNone(m, k);
      SelectCongruent(m, Unclaimed(init, id), Unclaimed(os, id), true);
    }
  }

  /** The dictionary pass: `for o in os: if id(o) in d: ...; del d[id(o)]`. */
  method OverlayEach<K(==), V>(os: seq<V>, m: seq<(K, V)>, id: V -> K)
    returns (updated: seq<V>, kept: seq<V>, remaining: seq<(K, V)>)
    ensures (updated, kept, remaining) == Overlay(os, m, id)
  {
    updated, kept, remaining := [], [], m;
    for i := 0 to |os|
      invariant (updated, kept, remaining) == Overlay(os[..i], m, id)
    {
      TakeSnoc(os, i);
      assert (os[..i] + [os[i]])[..i] == os[..i];
      var k := id(os[i]);
      var found := Lookup(remaining, k);
      if found.Some? {
        updated := updated + [found.value];
        remaining := Remove(remaining, k);
      } else {
        updated := updated + [os[i]];
        kept := kept + [os[i]];
      }
    }
    assert os[..|os|] == os;
  }

  /** A pass whose every step succeeds with `g` of its element is `g` mapped. */
  lemma CollectMapped<T, U, E>(xs: seq<T>, ys: seq<T>, f: T -> Result<U, E>, g: T -> U)
    requires forall x | x in xs :: x in ys
    requires forall i | 0 <= i < |ys| :: f(ys[i]) == Success(g(ys[i]))
    ensures Collect(xs, f, Never) == Success(MapSeq(xs, g))
  {
    forall i | 0 <= i < |xs| ensures f(xs[i]) == Success(g(xs[i])) {
      assert xs[i] in xs;
      var j :| 0 <= j < |ys| && ys[j] == xs[i];
    }
    CollectAll(xs, f);
    assert Collect(xs, f, Never).value == MapSeq(xs, g);
  }

  /** A pass over the overlaid list: the replaced elements, then the
      entries left over. */
  lemma OverlayCollect<K, V, U, E>(os: seq<V>, m: seq<(K, V)>, id: V -> K, f: V -> Result<U, E>)
    requires DistinctKeys(os, id)
    ensures var all := MapSeq(os, Overridden(m, id)) + Values(Select(m, Unclaimed(os, id), true));
      var o := Overlay(os, m, id);
      var c := Collect(o.0 + Values(o.2), f, Never);
      && (c.Success? <==> forall i | 0 <= i < |all| :: f(all[i]).Success?)
      && (c.Success? ==> |c.value| == |all| && forall i | 0 <= i < |all| :: c.value[i] == f(all[i]).value)
  {
    OverlayClosed(os, m, id);
    var o := Overlay(os, m, id);
    CollectAll(o.0 + Values(o.2), f);
  }

  // ---------------------------------------------------------------------------
  // Grouping into a dictionary of lists (`groups[k] ||= []; groups[k].push(x)`)
  // ---------------------------------------------------------------------------

  /** The elements whose key is `k`. */
  function KeyIs<T, K(==)>(key: T -> K, k: K): T -> bool {
    (x: T) => key(x) == k
  }

  /** Appending every element, in order, to the list under its key. */
  function GroupBy<T, K(==)>(s: seq<T>, key: T -> K): map<K, seq<T>> {
    if s == [] then map[]
    else
      var m := GroupBy(s[..|s| - 1], key);
      var x := s[|s| - 1];
      m[key(x) := (if key(x) in m then m[key(x)] else []) + [x]]
  }

  /** There is a group for every key that occurs, and it lists the elements
      with that key in their original order. */
  lemma {:induction false} GroupByGroups<T, K>(s: seq<T>, key: T -> K)
    ensures GroupBy(s, key).Keys == KeySet(s, key)
    ensures forall k | k in GroupBy(s, key) :: GroupBy(s, key)[k] == Select(s, KeyIs(key, k), true)
  {
    if s != [] {
      var init := s[..|s| - 1];
      var x := s[|s| - 1];
      GroupByGroups(init, key);
      assert s == init + [x];
      forall k | k in GroupBy(s, key) ensures GroupBy(s, key)[k] == Select(s, KeyIs(key, k), true) {
        SelectSnoc(init, x, KeyIs(key, k), true);
        if k != key(x) {
          assert k in GroupBy(init, key);
        } else if k !in GroupBy(init, key) {
          KeySetMembers(init, key);
          SelectEmpty(init, KeyIs(key, k));
        }
      }
    }
  }

  /** The grouping loop. */
  method GroupEach<T, K(==)>(s: seq<T>, key: T -> K) returns (m: map<K, seq<T>>)
    ensures m == GroupBy(s, key)
  {
    m := map[];
    for i := 0 to |s|
      invariant m == GroupBy(s[..i], key)
    {
      var k := key(s[i]);
      if k !in m {
        m := m[k := []];
      }
      m := m[k := m[k] + [s[i]]];
      assert s[..i + 1][..i] == s[..i];
    }
    assert s[..|s|] == s;
  }

  /** Replacing an element that is not selected by another that is not
      selected leaves the selection as it was. */
  lemma {:induction false} SelectUpdateSkip<T>(s: seq<T>, j: nat, v: T, p: T -> bool)
    requires j < |s| && !p(s[j]) && !p(v)
    ensures Select(s[j := v], p, true) == Select(s, p, true)
  {
    var init := s[..|s| - 1];
    if j == |s| - 1 {
      assert s[j := v][..|s| - 1] == init;
    } else {
      SelectUpdateSkip(init, j, v, p);
      assert s[j := v][..|s| - 1] == init[j := v];
    }
  }

  /** Sorting every list of a dictionary of lists, one key at a time. */
  method SortEachGroup<K, T>(groups: map<K, seq<T>>, le: (T, T) -> bool) returns (r: map<K, seq<T>>)
    ensures r.Keys == groups.Keys
    ensures forall k | k in r :: r[k] == SortBy(groups[k], le)
  {
    r := map[];
    var todo := groups.Keys;
    while todo != {}
      invariant todo <= groups.Keys && r.Keys == groups.Keys - todo
      invariant forall k | k in r :: r[k] == SortBy(groups[k], le)
      decreases |todo|
    {
      var k :| k in todo;
      r := r[k := SortBy(groups[k], le)];
      todo := todo - {k};
    }
  }

  /** The lists of an association list of lists, one after another
      (`Object.values(d)` walked list by list). */
  function Flatten<K, V>(entries: seq<(K, seq<V>)>): seq<V> {
    if entries == [] then [] else Flatten(entries[..|entries| - 1]) + entries[|entries| - 1].1
  }

  /** A list and a prefix of the next one. */
  lemma FlattenStep<K, V>(entries: seq<(K, seq<V>)>, i: nat, j: nat)
    requires i < |entries| && j < |entries[i].1|
    ensures Flatten(entries[..i]) + entries[i].1[..j + 1] == (Flatten(entries[..i]) + entries[i].1[..j]) + [entries[i].1[j]]
  {
    assert entries[i].1[..j + 1] == entries[i].1[..j] + [entries[i].1[j]];
  }

  /** Finishing a list. */
  lemma FlattenNext<K, V>(entries: seq<(K, seq<V>)>, i: nat)
    requires i < |entries|
    ensures Flatten(entries[..i + 1]) == Flatten(entries[..i]) + entries[i].1[..|entries[i].1|]
  {
    assert entries[..i + 1][..i] == entries[..i];
    assert entries[i].1[..|entries[i].1|] == entries[i].1;
  }

  // ---------------------------------------------------------------------------
  // Distinctness, selection by equal tests, counting
  // ---------------------------------------------------------------------------

  predicate NoDuplicates<T(==)>(s: seq<T>) {
    forall i, j | 0 <= i < j < |s| :: s[i] != s[j]
  }

  lemma {:induction false} OneCopy<T>(s: seq<T>, x: T)
    requires NoDuplicates(s)
    ensures multiset(s)[x] <= 1
  {
    if s != [] {
      var init := s[..|s| - 1];
      assert s == init + [s[|s| - 1]];
      assert NoDuplicates(init);
      OneCopy(init, x);
      if x == s[|s| - 1] {
        assert x !in init by {
          forall i | 0 <= i < |init| ensures init[i] != x { assert init[i] == s[i]; }
        }
      }
    }
  }

  lemma TwoCopies<T>(s: seq<T>, i: nat, j: nat)
    requires i < j < |s| && s[i] == s[j]
    ensures multiset(s)[s[i]] >= 2
  {
    assert s == s[..j] + [s[j]] + s[j + 1..];
    assert s[i] == s[..j][i];
  }

  /** A permutation of a list without duplicates has none. */
  lemma DistinctPermutation<T>(s: seq<T>, t: seq<T>)
    requires multiset(s) == multiset(t) && NoDuplicates(s)
    ensures NoDuplicates(t)
  {
    forall i, j | 0 <= i < j < |t| ensures t[i] != t[j] {
      if t[i] == t[j] {
        TwoCopies(t, i, j);
        OneCopy(s, t[i]);
      }
    }
  }

  /** Selections by two tests that agree on every element are equal. */
  lemma {:induction false} SelectSame<T>(s: seq<T>, p: T -> bool, q: T -> bool, b: bool)
    requires forall i | 0 <= i < |s| :: p(s[i]) == q(s[i])
    ensures Select(s, p, b) == Select(s, q, b)
  {
    if s != [] {
      var init := s[..|s| - 1];
      assert forall i | 0 <= i < |init| :: init[i] == s[i];
      SelectSame(init, p, q, b);
    }
  }

  /** The keys of `m` whose value passes `p`. */
  function KeysWhere<K, V>(m: map<K, V>, p: V -> bool): set<K> {
    set k | k in m && p(m[k])
  }

  /** The number of keys of `m` whose value passes `p`. */
  method CountKeys<K, V>(m: map<K, V>, p: V -> bool) returns (count: nat)
    ensures count == |KeysWhere(m, p)|
  {
    count := 0;
    var todo := m.Keys;
    while todo != {}
      invariant todo <= m.Keys
      invariant count == |set k | k in m && k !in todo && p(m[k])|
      decreases |todo|
    {
      var k :| k in todo;
      ghost var before := set k' | k' in m && k' !in todo && p(m[k']);
      todo := todo - {k};
      if p(m[k]) {
        assert (set k' | k' in m && k' !in todo && p(m[k'])) == before + {k};
        count := count + 1;
      } else {
        assert (set k' | k' in m && k' !in todo && p(m[k'])) == before;
      }
    }
    assert KeysWhere(m, p) == set k | k in m && k !in todo && p(m[k]);
  }

  /** The number of elements of `Flatten(entries)` that pass `p`. */
  method CountFlat<K, V>(entries: seq<(K, seq<V>)>, p: V -> bool) returns (count: nat)
    ensures count == |Select(Flatten(entries), p, true)|
  {
    count := 0;
    for i := 0 to |entries|
      invariant count == |Select(Flatten(entries[..i]), p, true)|
    {
      var values := entries[i].1;
      assert Flatten(entries[..i]) + values[..0] == Flatten(entries[..i]);
      for j := 0 to |values|
        invariant count == |Select(Flatten(entries[..i]) + values[..j], p, true)|
      {
        FlattenStep(entries, i, j);
        SelectSnoc(Flatten(entries[..i]) + values[..j], values[j], p, true);
        if p(values[j]) {
          count := count + 1;
        }
      }
      FlattenNext(entries, i);
    }
    assert entries[..|entries|] == entries;
  }

  /** Sorting a list without duplicates gives a sorted list of the same
      members without duplicates. */
  lemma SortDistinct<T(!new)>(s: seq<T>, le: (T, T) -> bool)
    requires TotalPreorder(le) && NoDuplicates(s)
    ensures SortedBy(SortBy(s, le), le) && NoDuplicates(SortBy(s, le))
    ensures forall x :: x in SortBy(s, le) <==> x in s
  {
    SortBySorted(s, le);
    DistinctPermutation(s, SortBy(s, le));
    assert forall x :: x in SortBy(s, le) <==> x in multiset(SortBy(s, le));
  }

  // ---------------------------------------------------------------------------
  // Pruning a map of maps
  // ---------------------------------------------------------------------------

  /** The entries of `m` whose value passes `p`. */
  function KeepValues<K, V>(m: map<K, V>, p: V -> bool): map<K, V> {
    map k | k in m && p(m[k]) :: m[k]
  }

  method FilterValues<K, V>(m: map<K, V>, p: V -> bool) returns (kept: map<K, V>)
    ensures kept == KeepValues(m, p)
  {
    kept := map[];
    var todo := m.Keys;
    while todo != {}
      invariant todo <= m.Keys
      invariant forall k :: k in kept <==> k in m && k !in todo && p(m[k])
      invariant forall k | k in kept :: kept[k] == m[k]
      decreases |todo|
    {
      var k :| k in todo;
      todo := todo - {k};
      if p(m[k]) {
        kept := kept[k := m[k]];
      }
    }
  }

  /** The selected outer keys, each with the inner entries that pass, and
      without the outer keys left with none. */
  function Prune<K, U, V>(m: map<K, map<U, V>>, sel: K -> bool, p: V -> bool): map<K, map<U, V>> {
    map k | k in m && sel(k) && |KeepValues(m[k], p)| > 0 :: KeepValues(m[k], p)
  }

  /** Builds `Prune(m, sel, p)` as a loop that adds each selected outer key,
      fills it and deletes it again when it stays empty. */
  method PruneEach<K, U, V>(m: map<K, map<U, V>>, sel: K -> bool, p: V -> bool) returns (r: map<K, map<U, V>>)
    ensures r == Prune(m, sel, p)
  {
    r := map[];
    var todo := m.Keys;
    while todo != {}
      invariant todo <= m.Keys
      invariant forall k :: k in r <==> k in m && k !in todo && sel(k) && |KeepValues(m[k], p)| > 0
      invariant forall k | k in r :: r[k] == KeepValues(m[k], p)
      decreases |todo|
    {
      var k :| k in todo;
      todo := todo - {k};
      if sel(k) {
        r := r[k := map[]];
        var kept := FilterValues(m[k], p);
        r := r[k := kept];
        if |r[k]| == 0 {
          r := r - {k};
        }
      }
    }
  }

  /** No outer key is left empty; an inner entry survives exactly when its
      outer key is selected and its value passes; surviving values are the
      original ones. */
  lemma PruneMembers<K, U, V>(m: map<K, map<U, V>>, sel: K -> bool, p: V -> bool)
    ensures forall k | k in Prune(m, sel, p) :: |Prune(m, sel, p)[k]| > 0
    ensures forall k, u :: (k in Prune(m, sel, p) && u in Prune(m, sel, p)[k]) <==>
      (k in m && sel(k) && u in m[k] && p(m[k][u]))
    ensures forall k, u | k in Prune(m, sel, p) && u in Prune(m, sel, p)[k] ::
      k in m && u in m[k] && Prune(m, sel, p)[k][u] == m[k][u]
  {
    forall k, u | k in m && sel(k) && u in m[k] && p(m[k][u])
      ensures k in Prune(m, sel, p) && u in Prune(m, sel, p)[k]
    {
      assert u in KeepValues(m[k], p);
    }
  }

  /** Pruning twice prunes nothing more. */
  lemma PruneIdempotent<K, U, V>(m: map<K, map<U, V>>, sel: K -> bool, p: V -> bool)
    ensures Prune(Prune(m, sel, p), sel, p) == Prune(m, sel, p)
  {
    var once := Prune(m, sel, p);
    forall k | k in once ensures KeepValues(once[k], p) == once[k] {
    }
  }

  // ---------------------------------------------------------------------------
  // Sorting where the comparator is consistent only on some elements
  // ---------------------------------------------------------------------------

  /** `le` is total and transitive on the elements that satisfy `ok`. */
  ghost predicate TotalPreorderOn<T(!new)>(ok: T -> bool, le: (T, T) -> bool) {
    && (forall a, b | ok(a) && ok(b) :: le(a, b) || le(b, a))
    && (forall a, b, c | ok(a) && ok(b) && ok(c) && le(a, b) && le(b, c) :: le(a, c))
  }

  lemma {:induction false} InsertSortedOn<T(!new)>(s: seq<T>, x: T, ok: T -> bool, le: (T, T) -> bool)
    requires TotalPreorderOn(ok, le)
    requires ok(x) && forall i | 0 <= i < |s| :: ok(s[i])
    requires SortedBy(s, le)
    ensures SortedBy(Insert(s, x, le), le)
  {
    if s != [] && le(s[0], x) {
      InsertSortedOn(s[1..], x, ok, le);
      var r := Insert(s[1..], x, le);
      forall j | 0 <= j < |r| ensures le(s[0], r[j]) {
        assert r[j] in multiset(r);
        assert r[j] in multiset(s[1..]) + multiset{x};
        if r[j] != x {
          assert r[j] in s[1..];
        }
      }
    }
  }

  /** The sort orders every list whose elements the comparator orders
      consistently. */
  lemma {:induction false} SortBySortedOn<T(!new)>(s: seq<T>, ok: T -> bool, le: (T, T) -> bool)
    requires TotalPreorderOn(ok, le)
    requires forall i | 0 <= i < |s| :: ok(s[i])
    ensures SortedBy(SortBy(s, le), le)
  {
    if s != [] {
      var init := s[..|s| - 1];
      assert forall i | 0 <= i < |init| :: init[i] == s[i];
      SortBySortedOn(init, ok, le);
      var sorted := SortBy(init, le);
      forall i | 0 <= i < |sorted| ensures ok(sorted[i]) {
        assert sorted[i] in multiset(init);
      }
      InsertSortedOn(sorted, s[|s| - 1], ok, le);
    }
  }

  // ---------------------------------------------------------------------------
  // Concatenation of mapped lists, first occurrences
  // ---------------------------------------------------------------------------

  /** `f(x)` for every `x` of `s`, one list after another. */
  function ConcatMap<T, U>(s: seq<T>, f: T -> seq<U>): seq<U> {
    if s == [] then [] else ConcatMap(s[..|s| - 1], f) + f(s[|s| - 1])
  }

  lemma ConcatMapStep<T, U>(s: seq<T>, f: T -> seq<U>, i: nat, j: nat)
    requires i < |s| && j < |f(s[i])|
    ensures ConcatMap(s[..i], f) + f(s[i])[..j + 1] == (ConcatMap(s[..i], f) + f(s[i])[..j]) + [f(s[i])[j]]
  {
    assert f(s[i])[..j + 1] == f(s[i])[..j] + [f(s[i])[j]];
  }

  lemma ConcatMapNext<T, U>(s: seq<T>, f: T -> seq<U>, i: nat)
    requires i < |s|
    ensures ConcatMap(s[..i + 1], f) == ConcatMap(s[..i], f) + f(s[i])[..|f(s[i])|]
  {
    assert s[..i + 1][..i] == s[..i];
    assert f(s[i])[..|f(s[i])|] == f(s[i]);
  }

  /** An element of the concatenation comes from one of the lists. */
  lemma {:induction false} ConcatMapMembers<T, U>(s: seq<T>, f: T -> seq<U>)
    ensures forall x :: x in ConcatMap(s, f) <==> exists i | 0 <= i < |s| :: x in f(s[i])
  {
    if s != [] {
      var init := s[..|s| - 1];
      ConcatMapMembers(init, f);
      assert forall i | 0 <= i < |init| :: init[i] == s[i];
      forall x | exists i | 0 <= i < |s| :: x in f(s[i])
        ensures x in ConcatMap(s, f)
      {
        var i :| 0 <= i < |s| && x in f(s[i]);
        if i < |init| { assert x in f(init[i]); }
      }
    }
  }

  /** The elements of `s` in first-seen order, each once (a `Set` filled
      from `s` and read back). */
  function Distinct<T(==)>(s: seq<T>): seq<T> {
    if s == [] then []
    else
      var d := Distinct(s[..|s| - 1]);
      if s[|s| - 1] in d then d else d + [s[|s| - 1]]
  }

  lemma {:induction false} DistinctMembers<T>(s: seq<T>)
    ensures NoDuplicates(Distinct(s))
    ensures forall x :: x in Distinct(s) <==> x in s
  {
    if s != [] {
      DistinctMembers(s[..|s| - 1]);
      assert s == s[..|s| - 1] + [s[|s| - 1]];
    }
  }

  /** The images of the selected elements are the images of the elements
      that pass. */
  lemma {:induction false} MapSelectMembers<T, U>(s: seq<T>, p: T -> bool, f: T -> U)
    ensures forall y :: y in MapSeq(Select(s, p, true), f) <==> exists i | 0 <= i < |s| :: p(s[i]) && y == f(s[i])
  {
    if s != [] {
      var init, x := s[..|s| - 1], s[|s| - 1];
      MapSelectMembers(init, p, f);
      assert s == init + [x];
      assert forall i | 0 <= i < |init| :: init[i] == s[i];
      var sel := Select(init, p, true);
      if p(x) {
        assert MapSeq(Select(s, p, true), f) == MapSeq(sel, f) + [f(x)];
      } else {
        assert MapSeq(Select(s, p, true), f) == MapSeq(sel, f);
      }
      forall y | exists i | 0 <= i < |s| :: p(s[i]) && y == f(s[i])
        ensures y in MapSeq(Select(s, p, true), f)
      {
        var i :| 0 <= i < |s| && p(s[i]) && y == f(s[i]);
        if i < |init| {
          assert p(init[i]) && y == f(init[i]);
        }
      }
    }
  }

  /** Sorting the images of the selected elements keeps exactly the images
      of the elements that pass. */
  lemma SortMapSelectMembers<T, U>(s: seq<T>, p: T -> bool, f: T -> U, le: (U, U) -> bool)
    ensures forall y :: y in SortBy(MapSeq(Select(s, p, true), f), le) <==> exists i | 0 <= i < |s| :: p(s[i]) && y == f(s[i])
  {
    MapSelectMembers(s, p, f);
    var m := MapSeq(Select(s, p, true), f);
    forall y ensures y in SortBy(m, le) <==> y in m {
      assert y in SortBy(m, le) <==> y in multiset(SortBy(m, le));
      assert y in m <==> y in multiset(m);
    }
  }

  /** The images of a list are the images of its elements. */
  lemma MapMembers<T, U>(s: seq<T>, f: T -> U)
    ensures forall y :: y in MapSeq(s, f) <==> exists i | 0 <= i < |s| :: y == f(s[i])
  {
    forall y | y in MapSeq(s, f) ensures exists i | 0 <= i < |s| :: y == f(s[i]) {
      var i :| 0 <= i < |s| && MapSeq(s, f)[i] == y;
    }
  }

  /** The images of a sorted list are the images of the list. */
  lemma MapSortMembers<T, U>(s: seq<T>, le: (T, T) -> bool, f: T -> U)
    ensures forall y :: y in MapSeq(SortBy(s, le), f) <==> exists i | 0 <= i < |s| :: y == f(s[i])
  {
    var sorted := SortBy(s, le);
    forall y ensures y in MapSeq(sorted, f) <==> exists i | 0 <= i < |s| :: y == f(s[i]) {
      if y in MapSeq(sorted, f) {
        var j :| 0 <= j < |sorted| && f(sorted[j]) == y;
        assert sorted[j] in multiset(s);
        var i :| 0 <= i < |s| && s[i] == sorted[j];
      }
      if exists i | 0 <= i < |s| :: y == f(s[i]) {
        var i :| 0 <= i < |s| && y == f(s[i]);
        assert s[i] in multiset(sorted);
        var j :| 0 <= j < |sorted| && sorted[j] == s[i];
        assert MapSeq(sorted, f)[j] == y;
      }
    }
  }

  /** Sorting images that the comparator orders consistently puts them in
      order, and every one of them still passes. */
  lemma SortMappedOn<T, U(!new)>(s: seq<T>, f: T -> U, ok: U -> bool, le: (U, U) -> bool)
    requires TotalPreorderOn(ok, le)
    requires forall i | 0 <= i < |s| :: ok(f(s[i]))
    ensures SortedBy(SortBy(MapSeq(s, f), le), le)
    ensures forall i | 0 <= i < |SortBy(MapSeq(s, f), le)| :: ok(SortBy(MapSeq(s, f), le)[i])
  {
    var m := MapSeq(s, f);
    SortBySortedOn(m, ok, le);
    forall i | 0 <= i < |SortBy(m, le)| ensures ok(SortBy(m, le)[i]) {
      assert SortBy(m, le)[i] in multiset(m);
    }
  }

  /** The elements of a sorted list are the elements of the list. */
  lemma SortMembers<T>(s: seq<T>, le: (T, T) -> bool)
    ensures forall x :: x in SortBy(s, le) <==> x in s
  {
    forall x ensures x in SortBy(s, le) <==> x in s {
      assert x in SortBy(s, le) <==> x in multiset(SortBy(s, le));
      assert x in s <==> x in multiset(s);
    }
  }

  /** The tail of a list with one element in front. */
  lemma ConsTail<T>(x: T, s: seq<T>)
    ensures ([x] + s)[0] == x && ([x] + s)[1..] == s
  {
  }

  /** A key is found exactly when it is one of the keys. */
  lemma {:induction false} LookupKeys<K, V>(s: seq<(K, V)>, k: K)
    ensures Lookup(s, k).Some? <==> k in Keys(s)
  {
    if s != [] {
      LookupKeys(s[1..], k);
      assert Keys(s) == [s[0].0] + Keys(s[1..]);
    }
  }

  /** With distinct keys, each pair is what its key finds. */
  lemma {:induction false} LookupAt<K, V>(s: seq<(K, V)>, j: nat)
    requires j < |s| && NoDuplicates(Keys(s))
    ensures Lookup(s, s[j].0) == Some(s[j].1)
  {
    if j > 0 {
      assert Keys(s)[0] != Keys(s)[j];
      assert Keys(s[1..]) == Keys(s)[1..];
      LookupAt(s[1..], j - 1);
    }
  }
}
