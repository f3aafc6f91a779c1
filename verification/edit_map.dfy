/** Batched splice edits over an event list (src/util/edit_map.rs).

    An edit says "at index `at`, remove `remove` events and insert `add`".
    Edits are recorded one by one (`Add`, `AddBefore`), edits at the same
    index are merged, and `Consume` applies all of them in a single pass over
    the events, in ascending index order, while rewriting the `previous` and
    `next` links of the surviving events so that they keep pointing at the
    same events. */
module EditMap {
  import opened Results

  /** An event as the edit map sees it: an opaque payload plus the optional
      `previous` and `next` links, which are indices into the event list. */
  datatype Event<T> = Event(data: T, previous: Option<nat>, next: Option<nat>)

  /** At `at`, remove `remove` events and insert `add`. */
  datatype Edit<E> = Edit(at: nat, remove: nat, add: seq<E>)

  /** The recorded edits, and whether they were applied already. */
  datatype EditMap<E> = EditMap(consumed: bool, edits: seq<Edit<E>>)

  /** Why an operation panics. */
  datatype Panic =
    | AddAfterConsume
    | ConsumeTwice
    | SliceOutOfBounds
    | ShiftBeforeZero
    | LinkedAddition

  // ---------------------------------------------------------------------
  // Recording edits

  /** Everything recorded at `at`: removal counts summed, additions
      concatenated in list order. */
  function Pending<E>(edits: seq<Edit<E>>, at: nat): (p: Edit<E>)
    ensures p.at == at
    decreases |edits|
  {
    if |edits| == 0 then Edit(at, 0, [])
    else
      var rest := Pending(edits[1..], at);
      if edits[0].at == at then Edit(at, edits[0].remove + rest.remove, edits[0].add + rest.add)
      else rest
  }

  /** No two recorded edits share an index. */
  predicate DistinctAts<E>(edits: seq<Edit<E>>) {
    forall i, j :: 0 <= i < j < |edits| ==> edits[i].at != edits[j].at
  }

  /** Create an edit map. */
  function New<E>(): (m: EditMap<E>)
    ensures !m.consumed
    ensures DistinctAts(m.edits)
    ensures forall at: nat :: Pending(m.edits, at) == Edit(at, 0, [])
  {
    EditMap(false, [])
  }

  /** Index of the first edit at `at`, or `|edits|` when there is none. */
  function FirstAt<E>(edits: seq<Edit<E>>, at: nat): (i: nat)
    ensures i <= |edits|
    ensures forall j :: 0 <= j < i ==> edits[j].at != at
    ensures i < |edits| ==> edits[i].at == at
    decreases |edits|
  {
    if |edits| == 0 || edits[0].at == at then 0 else 1 + FirstAt(edits[1..], at)
  }

  /** The edit list after recording one more edit: the first edit already at
      `at` absorbs it (removal counts summed, additions put after or, with
      `before`, before the existing ones); otherwise it is appended. */
  function Merge<E>(edits: seq<Edit<E>>, at: nat, remove: nat, add: seq<E>, before: bool): (r: seq<Edit<E>>)
    ensures FirstAt(edits, at) == |edits| ==> r == edits + [Edit(at, remove, add)]
    ensures FirstAt(edits, at) < |edits| ==>
      var i := FirstAt(edits, at);
      r == edits[i := Edit(at, edits[i].remove + remove, if before then add + edits[i].add else edits[i].add + add)]
    decreases |edits|
  {
    if |edits| == 0 then [Edit(at, remove, add)]
    else if edits[0].at == at then
      [Edit(at, edits[0].remove + remove, if before then add + edits[0].add else edits[0].add + add)] + edits[1..]
    else
      [edits[0]] + Merge(edits[1..], at, remove, add, before)
  }

  /** Record an edit; fails once the map is consumed. */
  function AddImpl<E>(m: EditMap<E>, at: nat, remove: nat, add: seq<E>, before: bool): (r: Result<EditMap<E>, Panic>)
    ensures r.Err? <==> m.consumed
    ensures r.Err? ==> r.error == AddAfterConsume
    ensures r.Ok? ==> !r.value.consumed && r.value.edits == Merge(m.edits, at, remove, add, before)
  {
    if m.consumed then Err(AddAfterConsume) else Ok(EditMap(false, Merge(m.edits, at, remove, add, before)))
  }

  /** Record an edit whose additions go after earlier additions at `at`. */
  function Add<E>(m: EditMap<E>, at: nat, remove: nat, add: seq<E>): (r: Result<EditMap<E>, Panic>)
    ensures r.Err? <==> m.consumed
    ensures r.Ok? ==> !r.value.consumed
    ensures r.Ok? && DistinctAts(m.edits) ==>
      && DistinctAts(r.value.edits)
      && Pending(r.value.edits, at) == Edit(at, Pending(m.edits, at).remove + remove, Pending(m.edits, at).add + add)
      && forall x: nat :: x != at ==> Pending(r.value.edits, x) == Pending(m.edits, x)
  {
    MergeAccumulatesWhenDistinct(m.edits, at, remove, add, false);
    AddImpl(m, at, remove, add, false)
  }

  /** Record an edit whose additions go before earlier additions at `at`. */
  function AddBefore<E>(m: EditMap<E>, at: nat, remove: nat, add: seq<E>): (r: Result<EditMap<E>, Panic>)
    ensures r.Err? <==> m.consumed
    ensures r.Ok? ==> !r.value.consumed
    ensures r.Ok? && DistinctAts(m.edits) ==>
      && DistinctAts(r.value.edits)
      && Pending(r.value.edits, at) == Edit(at, Pending(m.edits, at).remove + remove, add + Pending(m.edits, at).add)
      && forall x: nat :: x != at ==> Pending(r.value.edits, x) == Pending(m.edits, x)
  {
    MergeAccumulatesWhenDistinct(m.edits, at, remove, add, true);
    AddImpl(m, at, remove, add, true)
  }

  lemma MergeAccumulatesWhenDistinct<E>(edits: seq<Edit<E>>, at: nat, remove: nat, add: seq<E>, before: bool)
    ensures DistinctAts(edits) ==>
      && DistinctAts(Merge(edits, at, remove, add, before))
      && Pending(Merge(edits, at, remove, add, before), at) ==
         Edit(at, Pending(edits, at).remove + remove,
              if before then add + Pending(edits, at).add else Pending(edits, at).add + add)
    ensures DistinctAts(edits) ==>
      forall x: nat :: x != at ==> Pending(Merge(edits, at, remove, add, before), x) == Pending(edits, x)
  {
    if DistinctAts(edits) {
      MergeAccumulates(edits, at, remove, add, before, at);
      forall x: nat | x != at ensures Pending(Merge(edits, at, remove, add, before), x) == Pending(edits, x) {
        MergeAccumulates(edits, at, remove, add, before, x);
      }
    }
  }

  lemma NothingPending<E>(edits: seq<Edit<E>>, at: nat)
    requires forall i :: 0 <= i < |edits| ==> edits[i].at != at
    ensures Pending(edits, at) == Edit(at, 0, [])
    decreases |edits|
  {
    if |edits| > 0 {
      NothingPending(edits[1..], at);
    }
  }

  /** Recording an edit never makes two edits share an index. */
  lemma MergeKeepsDistinct<E>(edits: seq<Edit<E>>, at: nat, remove: nat, add: seq<E>, before: bool)
    requires DistinctAts(edits)
    ensures DistinctAts(Merge(edits, at, remove, add, before))
  {
    var r := Merge(edits, at, remove, add, before);
    var k := FirstAt(edits, at);
    forall i, j | 0 <= i < j < |r| ensures r[i].at != r[j].at {
      if k == |edits| {
        assert r[i] == edits[i];
        if j < |edits| { assert r[j] == edits[j]; }
      } else {
        assert r[i].at == edits[i].at && r[j].at == edits[j].at;
      }
    }
  }

  /** Recording an edit at `at` adds its removal count to what is pending
      there and puts its additions after (or, with `before`, before) the
      pending ones; nothing else changes and indices stay distinct. */
  lemma {:induction false} MergeAccumulates<E>(edits: seq<Edit<E>>, at: nat, remove: nat, add: seq<E>, before: bool, x: nat)
    requires DistinctAts(edits)
    ensures DistinctAts(Merge(edits, at, remove, add, before))
    ensures x == at ==>
      Pending(Merge(edits, at, remove, add, before), x) ==
      Edit(at, Pending(edits, at).remove + remove,
           if before then add + Pending(edits, at).add else Pending(edits, at).add + add)
    ensures x != at ==> Pending(Merge(edits, at, remove, add, before), x) == Pending(edits, x)
    decreases |edits|
  {
    MergeKeepsDistinct(edits, at, remove, add, before);
    if |edits| == 0 {
      MergeIntoEmpty<E>(at, remove, add, before, x);
    } else if edits[0].at == at {
      MergeAtHead(edits, at, remove, add, before, x);
    } else {
      assert DistinctAts(edits[1..]) by {
        forall i, j | 0 <= i < j < |edits[1..]| ensures edits[1..][i].at != edits[1..][j].at {
          assert edits[1..][i] == edits[i + 1] && edits[1..][j] == edits[j + 1];
        }
      }
      MergeAccumulates(edits[1..], at, remove, add, before, x);
      MergePastHead(edits, at, remove, add, before, x);
    }
  }

  lemma MergeIntoEmpty<E>(at: nat, remove: nat, add: seq<E>, before: bool, x: nat)
    ensures x == at ==> Pending(Merge([], at, remove, add, before), x) == Edit(at, remove, add)
    ensures x != at ==> Pending(Merge([], at, remove, add, before), x) == Edit(x, 0, [])
  {
    var r := Merge([], at, remove, add, before);
    assert r == [Edit(at, remove, add)];
    assert r[1..] == [];
    assert add + [] == add;
  }

  lemma MergeAtHead<E>(edits: seq<Edit<E>>, at: nat, remove: nat, add: seq<E>, before: bool, x: nat)
    requires DistinctAts(edits) && |edits| > 0 && edits[0].at == at
    ensures x == at ==>
      Pending(Merge(edits, at, remove, add, before), x) ==
      Edit(at, Pending(edits, at).remove + remove,
           if before then add + Pending(edits, at).add else Pending(edits, at).add + add)
    ensures x != at ==> Pending(Merge(edits, at, remove, add, before), x) == Pending(edits, x)
  {
    var r := Merge(edits, at, remove, add, before);
    assert r[1..] == edits[1..];
    NothingPending(edits[1..], at);
    assert edits[0].add + [] == edits[0].add;
    assert add + edits[0].add + [] == add + edits[0].add;
    assert edits[0].add + add + [] == edits[0].add + add;
  }

  lemma MergePastHead<E>(edits: seq<Edit<E>>, at: nat, remove: nat, add: seq<E>, before: bool, x: nat)
    requires |edits| > 0 && edits[0].at != at
    requires x == at ==>
      Pending(Merge(edits[1..], at, remove, add, before), x) ==
      Edit(at, Pending(edits[1..], at).remove + remove,
           if before then add + Pending(edits[1..], at).add else Pending(edits[1..], at).add + add)
    requires x != at ==> Pending(Merge(edits[1..], at, remove, add, before), x) == Pending(edits[1..], x)
    ensures x == at ==>
      Pending(Merge(edits, at, remove, add, before), x) ==
      Edit(at, Pending(edits, at).remove + remove,
           if before then add + Pending(edits, at).add else Pending(edits, at).add + add)
    ensures x != at ==> Pending(Merge(edits, at, remove, add, before), x) == Pending(edits, x)
  {
    var r := Merge(edits, at, remove, add, before);
    assert r[1..] == Merge(edits[1..], at, remove, add, before);
    assert r[0] == edits[0];
  }

  // ---------------------------------------------------------------------
  // Ordering the edits

  predicate SortedByAt<E>(edits: seq<Edit<E>>) {
    forall i, j :: 0 <= i < j < |edits| ==> edits[i].at <= edits[j].at
  }

  /** Insert `e` into sorted `edits`, before the first edit not below it. */
  function Insert<E>(e: Edit<E>, edits: seq<Edit<E>>): (r: seq<Edit<E>>)
    requires SortedByAt(edits)
    ensures |r| == |edits| + 1
    ensures r[0] == e || (|edits| > 0 && r[0] == edits[0])
    ensures SortedByAt(r)
    ensures multiset(r) == multiset(edits) + multiset{e}
    decreases |edits|
  {
    if |edits| == 0 || e.at <= edits[0].at then [e] + edits
    else
      var rest := Insert(e, edits[1..]);
      assert edits == [edits[0]] + edits[1..];
      assert edits[0].at <= rest[0].at;
      [edits[0]] + rest
  }

  /** The edits in ascending index order (a stable insertion sort). */
  function Sort<E>(edits: seq<Edit<E>>): (r: seq<Edit<E>>)
    ensures SortedByAt(r)
    ensures multiset(r) == multiset(edits)
    ensures |r| == |edits|
    decreases |edits|
  {
    if |edits| == 0 then []
    else
      assert edits == [edits[0]] + edits[1..];
      Insert(edits[0], Sort(edits[1..]))
  }

  /** Edits at the same index are the same edit. */
  ghost predicate AtDetermines<E>(edits: seq<Edit<E>>) {
    forall i, j :: 0 <= i < |edits| && 0 <= j < |edits| && edits[i].at == edits[j].at ==> edits[i] == edits[j]
  }

  lemma AtDeterminesTransfers<E>(a: seq<Edit<E>>, b: seq<Edit<E>>)
    requires AtDetermines(a)
    requires multiset(a) == multiset(b)
    ensures AtDetermines(b)
  {
    forall i, j | 0 <= i < |b| && 0 <= j < |b| && b[i].at == b[j].at ensures b[i] == b[j] {
      assert b[i] in multiset(a) && b[j] in multiset(a);
      var i' :| 0 <= i' < |a| && a[i'] == b[i];
      var j' :| 0 <= j' < |a| && a[j'] == b[j];
    }
  }

  /** Two sorted lists holding the same edits, with one edit per index, are
      equal. */
  lemma MultisetTail<E>(a: seq<Edit<E>>, b: seq<Edit<E>>)
    requires |a| > 0 && |b| > 0 && a[0] == b[0]
    requires multiset(a) == multiset(b)
    ensures multiset(a[1..]) == multiset(b[1..])
  {
    assert a == [a[0]] + a[1..];
    assert b == [b[0]] + b[1..];
    assert multiset(a[1..]) == multiset(a) - multiset{a[0]};
    assert multiset(b[1..]) == multiset(b) - multiset{b[0]};
  }

  /** The heads of two sorted lists holding the same edits, one per index,
      agree. */
  lemma SortedHeadsAgree<E>(a: seq<Edit<E>>, b: seq<Edit<E>>)
    requires |a| > 0 && |b| > 0
    requires SortedByAt(a) && SortedByAt(b)
    requires multiset(a) == multiset(b)
    requires AtDetermines(a)
    ensures a[0] == b[0]
  {
    assert a[0] in multiset(b);
    var k :| 0 <= k < |b| && b[k] == a[0];
    assert b[0] in multiset(a);
    var l :| 0 <= l < |a| && a[l] == b[0];
    assert b[0].at <= b[k].at;
    assert a[0].at <= a[l].at;
    assert a[0].at == a[l].at;
    assert a[0] == a[l];
  }

  /** Two sorted lists holding the same edits, with one edit per index, are
      equal. */
  lemma {:induction false} SortedPermutationsEqual<E>(a: seq<Edit<E>>, b: seq<Edit<E>>)
    requires SortedByAt(a) && SortedByAt(b)
    requires multiset(a) == multiset(b)
    requires AtDetermines(a)
    ensures a == b
    decreases |a|
  {
    assert |a| == |multiset(a)| == |multiset(b)| == |b|;
    if |a| > 0 {
      SortedHeadsAgree(a, b);
      MultisetTail(a, b);
      assert AtDetermines(a[1..]) by {
        forall i, j | 0 <= i < |a[1..]| && 0 <= j < |a[1..]| && a[1..][i].at == a[1..][j].at
          ensures a[1..][i] == a[1..][j]
        {
          assert a[1..][i] == a[i + 1] && a[1..][j] == a[j + 1];
        }
      }
      SortedPermutationsEqual(a[1..], b[1..]);
      assert a == [a[0]] + a[1..];
      assert b == [b[0]] + b[1..];
    }
  }

  lemma DistinctDetermines<E>(edits: seq<Edit<E>>)
    requires DistinctAts(edits)
    ensures AtDetermines(edits)
  {
    forall i, j | 0 <= i < |edits| && 0 <= j < |edits| && edits[i].at == edits[j].at ensures edits[i] == edits[j] {
      assert i == j;
    }
  }

  /** The order in which edits were recorded does not matter: two edit lists
      with the same edits, one per index, sort to the same list. */
  lemma SortIgnoresRecordingOrder<E>(e1: seq<Edit<E>>, e2: seq<Edit<E>>)
    requires multiset(e1) == multiset(e2)
    requires DistinctAts(e1)
    ensures Sort(e1) == Sort(e2)
  {
    DistinctDetermines(e1);
    AtDeterminesTransfers(e1, Sort(e1));
    SortedPermutationsEqual(Sort(e1), Sort(e2));
  }

  /** Recording two edits at different indices gives the same edits in
      either order. */
  lemma {:induction false} AddAtDistinctIndicesCommutes<E>(
    edits: seq<Edit<E>>, a: Edit<E>, b: Edit<E>, beforeA: bool, beforeB: bool)
    requires a.at != b.at
    ensures multiset(Merge(Merge(edits, a.at, a.remove, a.add, beforeA), b.at, b.remove, b.add, beforeB))
         == multiset(Merge(Merge(edits, b.at, b.remove, b.add, beforeB), a.at, a.remove, a.add, beforeA))
    decreases |edits|
  {
    var ab := Merge(Merge(edits, a.at, a.remove, a.add, beforeA), b.at, b.remove, b.add, beforeB);
    var ba := Merge(Merge(edits, b.at, b.remove, b.add, beforeB), a.at, a.remove, a.add, beforeA);
    if |edits| == 0 {
      assert ab == [Edit(a.at, a.remove, a.add), Edit(b.at, b.remove, b.add)];
      assert ba == [Edit(b.at, b.remove, b.add), Edit(a.at, a.remove, a.add)];
    } else if edits[0].at == a.at {
      CommuteAtHead(edits, a, b, beforeA, beforeB);
    } else if edits[0].at == b.at {
      CommuteAtHead(edits, b, a, beforeB, beforeA);
    } else {
      var rest := edits[1..];
      var rab := Merge(Merge(rest, a.at, a.remove, a.add, beforeA), b.at, b.remove, b.add, beforeB);
      var rba := Merge(Merge(rest, b.at, b.remove, b.add, beforeB), a.at, a.remove, a.add, beforeA);
      assert Merge(edits, a.at, a.remove, a.add, beforeA) == [edits[0]] + Merge(rest, a.at, a.remove, a.add, beforeA);
      assert Merge(edits, b.at, b.remove, b.add, beforeB) == [edits[0]] + Merge(rest, b.at, b.remove, b.add, beforeB);
      assert ab == [edits[0]] + rab;
      assert ba == [edits[0]] + rba;
      AddAtDistinctIndicesCommutes(rest, a, b, beforeA, beforeB);
    }
  }

  /** The edit at the head, merged into at its own index. */
  function Absorbed<E>(e: Edit<E>, remove: nat, add: seq<E>, before: bool): Edit<E> {
    Edit(e.at, e.remove + remove, if before then add + e.add else e.add + add)
  }

  lemma MergeHereAtHead<E>(edits: seq<Edit<E>>, at: nat, remove: nat, add: seq<E>, before: bool)
    requires |edits| > 0 && edits[0].at == at
    ensures Merge(edits, at, remove, add, before) == [Absorbed(edits[0], remove, add, before)] + edits[1..]
  {
  }

  lemma MergeSkipsHead<E>(edits: seq<Edit<E>>, at: nat, remove: nat, add: seq<E>, before: bool)
    requires |edits| > 0 && edits[0].at != at
    ensures Merge(edits, at, remove, add, before) == [edits[0]] + Merge(edits[1..], at, remove, add, before)
  {
  }

  lemma CommuteAtHead<E>(edits: seq<Edit<E>>, a: Edit<E>, b: Edit<E>, beforeA: bool, beforeB: bool)
    requires a.at != b.at
    requires |edits| > 0 && edits[0].at == a.at
    ensures Merge(Merge(edits, a.at, a.remove, a.add, beforeA), b.at, b.remove, b.add, beforeB)
         == Merge(Merge(edits, b.at, b.remove, b.add, beforeB), a.at, a.remove, a.add, beforeA)
  {
    var head := Absorbed(edits[0], a.remove, a.add, beforeA);
    var ma := Merge(edits, a.at, a.remove, a.add, beforeA);
    var mb := Merge(edits, b.at, b.remove, b.add, beforeB);
    var rb := Merge(edits[1..], b.at, b.remove, b.add, beforeB);
    MergeHereAtHead(edits, a.at, a.remove, a.add, beforeA);
    assert ma[0] == head && ma[1..] == edits[1..];
    MergeSkipsHead(ma, b.at, b.remove, b.add, beforeB);
    MergeSkipsHead(edits, b.at, b.remove, b.add, beforeB);
    assert mb[0] == edits[0] && mb[1..] == rb;
    MergeHereAtHead(mb, a.at, a.remove, a.add, beforeA);
  }

  // ---------------------------------------------------------------------
  // Link shifting

  /** Net change in length made by the first `n` edits. */
  function NetShift<E>(edits: seq<Edit<E>>, n: nat): int
    requires n <= |edits|
  {
    if n == 0 then 0 else NetShift(edits, n - 1) + |edits[n - 1].add| - edits[n - 1].remove
  }

  /** For each edit, its index and the cumulative net shift up to and
      including it. */
  function Jumps<E>(edits: seq<Edit<E>>): (jumps: seq<(nat, int)>)
    ensures |jumps| == |edits|
    ensures forall i :: 0 <= i < |edits| ==> jumps[i] == (edits[i].at, NetShift(edits, i + 1))
  {
    seq(|edits|, i requires 0 <= i < |edits| => (edits[i].at, NetShift(edits, i + 1)))
  }

  /** The walk of `shift_links`: the shift of the last jump reached before
      one whose index lies past `before`. */
  function Walk(jumps: seq<(nat, int)>, before: nat, jump: int): int
    decreases |jumps|
  {
    if |jumps| == 0 || jumps[0].0 > before then jump else Walk(jumps[1..], before, jumps[0].1)
  }

  /** Where an event at index `before` goes; panics below zero. */
  function ShiftIndex(jumps: seq<(nat, int)>, before: nat): Result<nat, Panic> {
    var next := before + Walk(jumps, before, 0);
    if next >= 0 then Ok(next) else Err(ShiftBeforeZero)
  }

  /** `n` edits lie at or before index `j`, the rest after it. */
  predicate SplitAt<E>(edits: seq<Edit<E>>, j: nat, n: nat) {
    && n <= |edits|
    && (forall k :: 0 <= k < n ==> edits[k].at <= j)
    && (forall k :: n <= k < |edits| ==> edits[k].at > j)
  }

  lemma {:induction false} WalkFrom<E>(edits: seq<Edit<E>>, j: nat, n: nat, k: nat)
    requires SplitAt(edits, j, n)
    requires k <= n
    ensures Walk(Jumps(edits)[k..], j, NetShift(edits, k)) == NetShift(edits, n)
    decreases n - k
  {
    var jumps := Jumps(edits);
    if k < n {
      assert jumps[k..][0] == (edits[k].at, NetShift(edits, k + 1));
      assert jumps[k..][1..] == jumps[k + 1..];
      WalkFrom(edits, j, n, k + 1);
    }
  }

  /** `shift_links` moves index `j` by the cumulative net shift of the edits
      at or before `j`, and panics exactly when that lands below zero. */
  lemma ShiftIndexIsNetShift<E>(edits: seq<Edit<E>>, j: nat, n: nat)
    requires SplitAt(edits, j, n)
    ensures j + NetShift(edits, n) >= 0 ==> ShiftIndex(Jumps(edits), j) == Ok(j + NetShift(edits, n))
    ensures j + NetShift(edits, n) < 0 ==> ShiftIndex(Jumps(edits), j) == Err(ShiftBeforeZero)
  {
    var jumps := Jumps(edits);
    assert Walk(jumps, j, 0) == NetShift(edits, n) by {
      WalkFrom(edits, j, n, 0);
      assert jumps[0..] == jumps;
      assert NetShift(edits, 0) == 0;
    }
  }

  /** Shift one optional link. */
  function MapLink(jumps: seq<(nat, int)>, link: Option<nat>): Result<Option<nat>, Panic> {
    match link
    case None => Ok(None)
    case Some(i) =>
      var next :- ShiftIndex(jumps, i);
      Ok(Some(next))
  }

  predicate RelinkOk<T>(jumps: seq<(nat, int)>, e: Event<T>) {
    MapLink(jumps, e.previous).Ok? && MapLink(jumps, e.next).Ok?
  }

  function Relink<T>(jumps: seq<(nat, int)>, e: Event<T>): Event<T>
    requires RelinkOk(jumps, e)
  {
    Event(e.data, MapLink(jumps, e.previous).value, MapLink(jumps, e.next).value)
  }

  predicate AllRelinkOk<T>(jumps: seq<(nat, int)>, events: seq<Event<T>>) {
    forall i :: 0 <= i < |events| ==> RelinkOk(jumps, events[i])
  }

  function RelinkAll<T>(jumps: seq<(nat, int)>, events: seq<Event<T>>): (r: seq<Event<T>>)
    requires AllRelinkOk(jumps, events)
    ensures |r| == |events|
    ensures forall i :: 0 <= i < |events| ==> r[i] == Relink(jumps, events[i])
  {
    seq(|events|, i requires 0 <= i < |events| => Relink(jumps, events[i]))
  }

  lemma RelinkConcat<T>(jumps: seq<(nat, int)>, a: seq<Event<T>>, b: seq<Event<T>>)
    ensures AllRelinkOk(jumps, a + b) <==> AllRelinkOk(jumps, a) && AllRelinkOk(jumps, b)
    ensures AllRelinkOk(jumps, a + b) ==> RelinkAll(jumps, a + b) == RelinkAll(jumps, a) + RelinkAll(jumps, b)
  {
    if AllRelinkOk(jumps, a + b) {
      forall i | 0 <= i < |a| ensures RelinkOk(jumps, a[i]) { assert (a + b)[i] == a[i]; }
      forall i | 0 <= i < |b| ensures RelinkOk(jumps, b[i]) { assert (a + b)[|a| + i] == b[i]; }
    }
  }

  /** `shift_links` over a run of events: every link is shifted, and the run
      panics exactly when some link would land below zero. */
  function ShiftLinks<T>(events: seq<Event<T>>, jumps: seq<(nat, int)>): (r: Result<seq<Event<T>>, Panic>)
    ensures r.Ok? <==> AllRelinkOk(jumps, events)
    ensures r.Ok? ==> r.value == RelinkAll(jumps, events)
    ensures r.Err? ==> r.error == ShiftBeforeZero
    decreases |events|
  {
    if |events| == 0 then Ok([])
    else
      assert events == [events[0]] + events[1..];
      RelinkConcat(jumps, [events[0]], events[1..]);
      var previous :- MapLink(jumps, events[0].previous);
      var next :- MapLink(jumps, events[0].next);
      var rest :- ShiftLinks(events[1..], jumps);
      Ok([Event(events[0].data, previous, next)] + rest)
  }

  predicate Unlinked<T>(e: Event<T>) {
    e.previous.None? && e.next.None?
  }

  predicate AllUnlinked<T>(events: seq<Event<T>>) {
    forall k :: 0 <= k < |events| ==> Unlinked(events[k])
  }

  predicate AdditionsUnlinked<T>(edits: seq<Edit<Event<T>>>) {
    forall i :: 0 <= i < |edits| ==> AllUnlinked(edits[i].add)
  }

  lemma RelinkUnlinked<T>(jumps: seq<(nat, int)>, events: seq<Event<T>>)
    requires AllUnlinked(events)
    ensures AllRelinkOk(jumps, events) && RelinkAll(jumps, events) == events
  {
  }

  // ---------------------------------------------------------------------
  // Applying the edits

  /** The edits fit a list of `len` events: every removed range lies inside
      the list and ends no later than the next edit's index. */
  predicate Fits<E>(edits: seq<Edit<E>>, len: nat) {
    && (forall i :: 0 <= i < |edits| ==> edits[i].at + edits[i].remove <= len)
    && (forall i :: 0 < i < |edits| ==> edits[i - 1].at + edits[i - 1].remove <= edits[i].at)
  }

  lemma FitsSuffix<E>(edits: seq<Edit<E>>, len: nat, k: nat)
    requires Fits(edits, len) && k <= |edits|
    ensures Fits(edits[k..], len)
  {
    var s := edits[k..];
    forall i | 0 < i < |s| ensures s[i - 1].at + s[i - 1].remove <= s[i].at {
      assert s[i - 1] == edits[k + i - 1] && s[i] == edits[k + i];
    }
  }

  /** Reference meaning of a list of fitting edits: the events outside the
      removed ranges, in order, with each edit's additions at its index. */
  function Splice<E>(edits: seq<Edit<E>>, events: seq<E>, start: nat): seq<E>
    requires Fits(edits, |events|)
    requires start <= |events|
    requires |edits| > 0 ==> start <= edits[0].at
    decreases |edits|
  {
    if |edits| == 0 then events[start..]
    else
      FitsSuffix(edits, |events|, 1);
      events[start..edits[0].at] + edits[0].add + Splice(edits[1..], events, edits[0].at + edits[0].remove)
  }

  /** The edit that goes first accounts for the first term of the net shift. */
  lemma {:induction false} NetShiftFirst<E>(edits: seq<Edit<E>>, n: nat)
    requires 0 < n <= |edits|
    ensures NetShift(edits, n) == |edits[0].add| - edits[0].remove + NetShift(edits[1..], n - 1)
    decreases n
  {
    if n > 1 {
      NetShiftFirst(edits, n - 1);
    }
  }

  /** Output length is input length plus all additions minus all removals. */
  lemma {:induction false} SpliceLength<E>(edits: seq<Edit<E>>, events: seq<E>, start: nat)
    requires Fits(edits, |events|)
    requires start <= |events|
    requires |edits| > 0 ==> start <= edits[0].at
    ensures |Splice(edits, events, start)| == |events| - start + NetShift(edits, |edits|)
    decreases |edits|
  {
    if |edits| > 0 {
      FitsSuffix(edits, |events|, 1);
      SpliceLength(edits[1..], events, edits[0].at + edits[0].remove);
      NetShiftFirst(edits, |edits|);
    }
  }

  /** Index `j` falls inside some removed range. */
  predicate Removed<E>(edits: seq<Edit<E>>, j: nat) {
    exists k :: 0 <= k < |edits| && edits[k].at <= j < edits[k].at + edits[k].remove
  }

  /** A kept event at `j` is found `NetShift` further on in the output. */
  lemma {:induction false} SpliceKeeps<E>(edits: seq<Edit<E>>, events: seq<E>, start: nat, j: nat, n: nat)
    requires Fits(edits, |events|)
    requires start <= j < |events|
    requires |edits| > 0 ==> start <= edits[0].at
    requires !Removed(edits, j)
    requires SplitAt(edits, j, n)
    ensures 0 <= j - start + NetShift(edits, n) < |Splice(edits, events, start)|
    ensures Splice(edits, events, start)[j - start + NetShift(edits, n)] == events[j]
    decreases |edits|
  {
    if |edits| > 0 {
      if j < edits[0].at {
        KeptBeforeFirst(edits, events, start, j);
      } else {
        var next := edits[0].at + edits[0].remove;
        TailKeeps(edits, j, n);
        FitsSuffix(edits, |events|, 1);
        SpliceKeeps(edits[1..], events, next, j, n - 1);
        KeptAfterFirst(edits, events, start, j, n);
      }
    }
  }

  lemma KeptBeforeFirst<E>(edits: seq<Edit<E>>, events: seq<E>, start: nat, j: nat)
    requires Fits(edits, |events|) && |edits| > 0
    requires start <= j < edits[0].at
    ensures j - start + NetShift(edits, 0) < |Splice(edits, events, start)|
    ensures Splice(edits, events, start)[j - start + NetShift(edits, 0)] == events[j]
  {
    SpliceStep(edits, events, start);
    var rest := Splice(edits[1..], events, edits[0].at + edits[0].remove);
    IndexConcat(events[start..edits[0].at], edits[0].add + rest, j - start);
  }

  lemma KeptAfterFirst<E>(edits: seq<Edit<E>>, events: seq<E>, start: nat, j: nat, n: nat)
    requires Fits(edits, |events|) && |edits| > 0 && 0 < n <= |edits|
    requires start <= edits[0].at && edits[0].at + edits[0].remove <= j < |events|
    requires Fits(edits[1..], |events|)
    requires 0 <= j - (edits[0].at + edits[0].remove) + NetShift(edits[1..], n - 1)
             < |Splice(edits[1..], events, edits[0].at + edits[0].remove)|
    requires Splice(edits[1..], events, edits[0].at + edits[0].remove)[j - (edits[0].at + edits[0].remove) + NetShift(edits[1..], n - 1)]
             == events[j]
    ensures 0 <= j - start + NetShift(edits, n) < |Splice(edits, events, start)|
    ensures Splice(edits, events, start)[j - start + NetShift(edits, n)] == events[j]
  {
    var next := edits[0].at + edits[0].remove;
    SpliceStep(edits, events, start);
    var rest := Splice(edits[1..], events, next);
    var head := events[start..edits[0].at];
    var i := j - next + NetShift(edits[1..], n - 1);
    NetShiftFirst(edits, n);
    assert j - start + NetShift(edits, n) == |head| + |edits[0].add| + i;
    IndexConcat(edits[0].add, rest, |edits[0].add| + i);
    IndexConcat(head, edits[0].add + rest, |head| + |edits[0].add| + i);
  }

  lemma IndexConcat<T>(a: seq<T>, b: seq<T>, i: nat)
    ensures i < |a| ==> (a + b)[i] == a[i]
    ensures |a| <= i < |a| + |b| ==> (a + b)[i] == b[i - |a|]
  {
  }

  /** An index kept past the first edit is kept by the remaining edits. */
  lemma TailKeeps<E>(edits: seq<Edit<E>>, j: nat, n: nat)
    requires |edits| > 0 && edits[0].at <= j
    requires !Removed(edits, j)
    requires SplitAt(edits, j, n)
    ensures n > 0 && edits[0].at + edits[0].remove <= j
    ensures SplitAt(edits[1..], j, n - 1)
    ensures !Removed(edits[1..], j)
  {
    assert !(edits[0].at <= j < edits[0].at + edits[0].remove);
    forall k | 0 <= k < n - 1 ensures edits[1..][k].at <= j { assert edits[1..][k] == edits[k + 1]; }
    forall k | n - 1 <= k < |edits| - 1 ensures edits[1..][k].at > j { assert edits[1..][k] == edits[k + 1]; }
    forall k | 0 <= k < |edits| - 1
      ensures !(edits[1..][k].at <= j < edits[1..][k].at + edits[1..][k].remove)
    {
      assert edits[1..][k] == edits[k + 1];
    }
  }

  /** The additions of edit `i` sit at its index, moved by the net shift of
      the edits before it. */
  lemma {:induction false} SpliceInserts<E>(edits: seq<Edit<E>>, events: seq<E>, start: nat, i: nat, k: nat)
    requires Fits(edits, |events|)
    requires start <= |events|
    requires |edits| > 0 ==> start <= edits[0].at
    requires i < |edits| && k < |edits[i].add|
    ensures 0 <= edits[i].at - start + NetShift(edits, i) + k < |Splice(edits, events, start)|
    ensures Splice(edits, events, start)[edits[i].at - start + NetShift(edits, i) + k] == edits[i].add[k]
    decreases |edits|
  {
    if i == 0 {
      InsertedByFirst(edits, events, start, k);
    } else {
      var next := edits[0].at + edits[0].remove;
      FitsSuffix(edits, |events|, 1);
      assert edits[1..][i - 1] == edits[i];
      SpliceInserts(edits[1..], events, next, i - 1, k);
      InsertedAfterFirst(edits, events, start, i, k);
    }
  }

  lemma InsertedByFirst<E>(edits: seq<Edit<E>>, events: seq<E>, start: nat, k: nat)
    requires Fits(edits, |events|) && |edits| > 0
    requires start <= edits[0].at && k < |edits[0].add|
    ensures 0 <= edits[0].at - start + NetShift(edits, 0) + k < |Splice(edits, events, start)|
    ensures Splice(edits, events, start)[edits[0].at - start + NetShift(edits, 0) + k] == edits[0].add[k]
  {
    SpliceStep(edits, events, start);
    var rest := Splice(edits[1..], events, edits[0].at + edits[0].remove);
    var head := events[start..edits[0].at];
    IndexConcat(edits[0].add, rest, k);
    IndexConcat(head, edits[0].add + rest, |head| + k);
  }

  lemma InsertedAfterFirst<E>(edits: seq<Edit<E>>, events: seq<E>, start: nat, i: nat, k: nat)
    requires Fits(edits, |events|) && 0 < i < |edits| && k < |edits[i].add|
    requires start <= edits[0].at
    requires Fits(edits[1..], |events|)
    requires 0 <= edits[i].at - (edits[0].at + edits[0].remove) + NetShift(edits[1..], i - 1) + k
             < |Splice(edits[1..], events, edits[0].at + edits[0].remove)|
    requires Splice(edits[1..], events, edits[0].at + edits[0].remove)[edits[i].at - (edits[0].at + edits[0].remove) + NetShift(edits[1..], i - 1) + k]
             == edits[i].add[k]
    ensures 0 <= edits[i].at - start + NetShift(edits, i) + k < |Splice(edits, events, start)|
    ensures Splice(edits, events, start)[edits[i].at - start + NetShift(edits, i) + k] == edits[i].add[k]
  {
    var next := edits[0].at + edits[0].remove;
    SpliceStep(edits, events, start);
    var rest := Splice(edits[1..], events, next);
    var head := events[start..edits[0].at];
    var p := edits[i].at - next + NetShift(edits[1..], i - 1) + k;
    NetShiftFirst(edits, i);
    assert edits[i].at - start + NetShift(edits, i) + k == |head| + |edits[0].add| + p;
    IndexConcat(edits[0].add, rest, |edits[0].add| + p);
    IndexConcat(head, edits[0].add + rest, |head| + |edits[0].add| + p);
  }

  /** Fitting edits are in ascending index order. */
  lemma {:induction false} FitsSorted<E>(edits: seq<Edit<E>>, len: nat)
    requires Fits(edits, len)
    ensures SortedByAt(edits)
    decreases |edits|
  {
    if |edits| > 1 {
      FitsSuffix(edits, len, 1);
      FitsSorted(edits[1..], len);
      forall i, j | 0 <= i < j < |edits| ensures edits[i].at <= edits[j].at {
        if i > 0 {
          assert edits[1..][i - 1] == edits[i] && edits[1..][j - 1] == edits[j];
        } else {
          assert edits[0].at <= edits[1].at;
          if j > 1 { assert edits[1..][0] == edits[1] && edits[1..][j - 1] == edits[j]; }
        }
      }
    }
  }

  /** Number of leading edits at or before `j`. */
  function CountAtMost<E>(edits: seq<Edit<E>>, j: nat): (n: nat)
    requires SortedByAt(edits)
    ensures SplitAt(edits, j, n)
    decreases |edits|
  {
    if |edits| == 0 || edits[0].at > j then 0
    else
      var n := 1 + CountAtMost(edits[1..], j);
      assert forall k :: 1 <= k < |edits| ==> edits[k] == edits[1..][k - 1];
      n
  }

  /** What `shift_links` is for: after applying fitting edits, a link to a
      kept event, shifted, points at that same event in the output. */
  lemma ShiftedLinkFindsKeptEvent<E>(edits: seq<Edit<E>>, events: seq<E>, j: nat)
    requires Fits(edits, |events|)
    requires j < |events|
    requires !Removed(edits, j)
    ensures ShiftIndex(Jumps(edits), j).Ok?
    ensures ShiftIndex(Jumps(edits), j).value < |Splice(edits, events, 0)|
    ensures Splice(edits, events, 0)[ShiftIndex(Jumps(edits), j).value] == events[j]
  {
    FitsSorted(edits, |events|);
    var n := CountAtMost(edits, j);
    SpliceKeeps(edits, events, 0, j, n);
    ShiftIndexIsNetShift(edits, j, n);
  }

  /** The edits with their additions drained, as `consume` leaves them. */
  function Drained<E>(edits: seq<Edit<E>>): (r: seq<Edit<E>>)
    ensures |r| == |edits|
    ensures forall i :: 0 <= i < |edits| ==> r[i] == Edit(edits[i].at, edits[i].remove, [])
  {
    seq(|edits|, i requires 0 <= i < |edits| => Edit(edits[i].at, edits[i].remove, []))
  }

  /** The jump table of `consume`: each edit's index with the running net
      shift. */
  method ComputeJumps<E>(sorted: seq<Edit<E>>) returns (jumps: seq<(nat, int)>)
    ensures jumps == Jumps(sorted)
  {
    jumps := [];
    var shift := 0;
    var index := 0;
    while index < |sorted|
      invariant index <= |sorted|
      invariant shift == NetShift(sorted, index)
      invariant |jumps| == index
      invariant forall k :: 0 <= k < index ==> jumps[k] == (sorted[k].at, NetShift(sorted, k + 1))
    {
      shift := shift + |sorted[index].add| - sorted[index].remove;
      jumps := jumps + [(sorted[index].at, shift)];
      index := index + 1;
    }
  }

  /** One step of the splice: the kept run before the edit, its additions,
      then the rest. */
  lemma SpliceStep<E>(edits: seq<Edit<E>>, events: seq<E>, start: nat)
    requires Fits(edits, |events|) && |edits| > 0
    requires start <= edits[0].at
    ensures edits[0].at + edits[0].remove <= |events|
    ensures Fits(edits[1..], |events|)
    ensures |edits| > 1 ==> edits[0].at + edits[0].remove <= edits[1..][0].at
    ensures Splice(edits, events, start)
         == events[start..edits[0].at] + (edits[0].add + Splice(edits[1..], events, edits[0].at + edits[0].remove))
  {
    FitsSuffix(edits, |events|, 1);
  }

  /** The kept run of `consume` from `start` up to `at`, links shifted. */
  function KeptRun<T>(jumps: seq<(nat, int)>, events: seq<Event<T>>, start: nat, at: nat): Result<seq<Event<T>>, Panic> {
    if start < at then
      if at > |events| then Err(SliceOutOfBounds) else ShiftLinks(events[start..at], jumps)
    else Ok([])
  }

  /** The additions of one edit, which `consume` refuses when linked. */
  function Additions<T>(add: seq<Event<T>>): Result<seq<Event<T>>, Panic> {
    if |add| > 0 && !AllUnlinked(add) then Err(LinkedAddition) else Ok(add)
  }

  /** The second loop of `consume` from edit list `edits` and input position
      `start` on, followed by the final kept run. */
  function ApplyFrom<T>(edits: seq<Edit<Event<T>>>, jumps: seq<(nat, int)>, events: seq<Event<T>>, start: nat)
    : Result<seq<Event<T>>, Panic>
    decreases |edits|
  {
    if |edits| == 0 then
      if start < |events| then ShiftLinks(events[start..], jumps) else Ok([])
    else
      var kept :- KeptRun(jumps, events, start, edits[0].at);
      var add :- Additions(edits[0].add);
      var rest :- ApplyFrom(edits[1..], jumps, events, edits[0].at + edits[0].remove);
      Ok(kept + add + rest)
  }

  /** Put `done` in front of a successful result. */
  function Prefixed<T>(done: seq<T>, r: Result<seq<T>, Panic>): Result<seq<T>, Panic> {
    if r.Ok? then Ok(done + r.value) else r
  }

  lemma PrefixedTwice<T>(a: seq<T>, b: seq<T>, r: Result<seq<T>, Panic>)
    ensures Prefixed(a, Prefixed(b, r)) == Prefixed(a + b, r)
  {
    if r.Ok? {
      assert a + (b + r.value) == a + b + r.value;
    }
  }

  /** One step of `ApplyFrom`: the kept run before the first edit, its
      additions, then the rest. */
  lemma ApplyFromStep<T>(edits: seq<Edit<Event<T>>>, jumps: seq<(nat, int)>, events: seq<Event<T>>, start: nat)
    requires |edits| > 0
    ensures KeptRun(jumps, events, start, edits[0].at).Err? ==>
      ApplyFrom(edits, jumps, events, start) == Err(KeptRun(jumps, events, start, edits[0].at).error)
    ensures KeptRun(jumps, events, start, edits[0].at).Ok? && Additions(edits[0].add).Err? ==>
      ApplyFrom(edits, jumps, events, start) == Err(Additions(edits[0].add).error)
    ensures KeptRun(jumps, events, start, edits[0].at).Ok? && Additions(edits[0].add).Ok? ==>
      ApplyFrom(edits, jumps, events, start)
      == Prefixed(KeptRun(jumps, events, start, edits[0].at).value + Additions(edits[0].add).value,
                  ApplyFrom(edits[1..], jumps, events, edits[0].at + edits[0].remove))
  {
  }

  lemma AdditionsUnlinkedFirst<T>(edits: seq<Edit<Event<T>>>)
    requires |edits| > 0
    ensures AdditionsUnlinked(edits) <==> AllUnlinked(edits[0].add) && AdditionsUnlinked(edits[1..])
  {
    assert forall i :: 1 <= i < |edits| ==> edits[i] == edits[1..][i - 1];
  }

  lemma KeptRunMeaning<T>(jumps: seq<(nat, int)>, events: seq<Event<T>>, start: nat, at: nat)
    requires start <= at <= |events|
    ensures KeptRun(jumps, events, start, at).Ok? <==> AllRelinkOk(jumps, events[start..at])
    ensures KeptRun(jumps, events, start, at).Ok? ==>
      KeptRun(jumps, events, start, at).value == RelinkAll(jumps, events[start..at])
  {
    if start == at {
      assert events[start..at] == [];
    }
  }

  lemma AdditionsMeaning<T>(jumps: seq<(nat, int)>, add: seq<Event<T>>)
    ensures Additions(add).Ok? <==> AllUnlinked(add)
    ensures Additions(add).Ok? ==> AllRelinkOk(jumps, add) && Additions(add).value == RelinkAll(jumps, add)
  {
    if AllUnlinked(add) {
      RelinkUnlinked(jumps, add);
    }
  }

  /** Three successive runs relink together exactly when each does. */
  lemma RelinkThree<T>(jumps: seq<(nat, int)>, a: seq<Event<T>>, b: seq<Event<T>>, c: seq<Event<T>>)
    ensures AllRelinkOk(jumps, a + (b + c)) <==> AllRelinkOk(jumps, a) && AllRelinkOk(jumps, b) && AllRelinkOk(jumps, c)
    ensures AllRelinkOk(jumps, a + (b + c)) ==>
      RelinkAll(jumps, a + (b + c)) == RelinkAll(jumps, a) + RelinkAll(jumps, b) + RelinkAll(jumps, c)
  {
    RelinkConcat(jumps, b, c);
    RelinkConcat(jumps, a, b + c);
  }

  /** For fitting edits the loop yields the reference splice with its links
      shifted, and fails exactly on a linked addition or a link shifted below
      zero. */
  lemma {:induction false} ApplyFromIsSplice<T>(edits: seq<Edit<Event<T>>>, jumps: seq<(nat, int)>, events: seq<Event<T>>, start: nat)
    requires Fits(edits, |events|)
    requires start <= |events|
    requires |edits| > 0 ==> start <= edits[0].at
    ensures ApplyFrom(edits, jumps, events, start).Ok?
        <==> AdditionsUnlinked(edits) && AllRelinkOk(jumps, Splice(edits, events, start))
    ensures ApplyFrom(edits, jumps, events, start).Ok? ==>
      ApplyFrom(edits, jumps, events, start).value == RelinkAll(jumps, Splice(edits, events, start))
    decreases |edits|
  {
    if |edits| == 0 {
      if start == |events| {
        assert events[start..] == [];
      }
    } else {
      var at := edits[0].at;
      var add := edits[0].add;
      SpliceStep(edits, events, start);
      var rest := Splice(edits[1..], events, at + edits[0].remove);
      ApplyFromIsSplice(edits[1..], jumps, events, at + edits[0].remove);
      ApplyFromStep(edits, jumps, events, start);
      AdditionsUnlinkedFirst(edits);
      KeptRunMeaning(jumps, events, start, at);
      AdditionsMeaning(jumps, add);
      RelinkThree(jumps, events[start..at], add, rest);
    }
  }

  /** The second loop of `consume`, step for step as `ApplyFrom` states it. */
  method SpliceLoop<T>(sorted: seq<Edit<Event<T>>>, jumps: seq<(nat, int)>, events: seq<Event<T>>)
    returns (r: Result<seq<Event<T>>, Panic>)
    ensures r == ApplyFrom(sorted, jumps, events, 0)
  {
    var next: seq<Event<T>> := [];
    var start: nat := 0;
    var index := 0;
    assert sorted[0..] == sorted;
    assert Prefixed(next, ApplyFrom(sorted, jumps, events, 0)) == ApplyFrom(sorted, jumps, events, 0) by {
      var whole := ApplyFrom(sorted, jumps, events, 0);
      if whole.Ok? {
        assert next + whole.value == whole.value;
      }
    }
    while index < |sorted|
      invariant index <= |sorted|
      invariant ApplyFrom(sorted, jumps, events, 0) == Prefixed(next, ApplyFrom(sorted[index..], jumps, events, start))
    {
      var at := sorted[index].at;
      var remove := sorted[index].remove;
      var add := sorted[index].add;
      assert sorted[index..][0] == sorted[index];
      assert sorted[index..][1..] == sorted[index + 1..];
      ApplyFromStep(sorted[index..], jumps, events, start);
      var kept := KeptRun(jumps, events, start, at);
      if kept.Err? {
        return Err(kept.error);
      }
      var added := Additions(add);
      if added.Err? {
        return Err(added.error);
      }
      PrefixedTwice(next, kept.value + added.value, ApplyFrom(sorted[index + 1..], jumps, events, at + remove));
      next := next + (kept.value + added.value);
      start := at + remove;
      index := index + 1;
    }
    assert sorted[index..] == [];
    if start < |events| {
      var shifted := ShiftLinks(events[start..], jumps);
      if shifted.Err? {
        return Err(shifted.error);
      }
      next := next + shifted.value;
    } else {
      assert next + [] == next;
    }
    return Ok(next);
  }

  /** The second loop of `consume`: copy kept runs with shifted links and
      splice in the additions.  For fitting edits this is the reference
      splice with every link shifted by `jumps`, and it fails exactly when an
      addition is linked or a link would shift below zero. */
  method ApplyEdits<T>(sorted: seq<Edit<Event<T>>>, jumps: seq<(nat, int)>, events: seq<Event<T>>)
    returns (r: Result<seq<Event<T>>, Panic>)
    ensures r == ApplyFrom(sorted, jumps, events, 0)
    ensures Fits(sorted, |events|) ==>
      (r.Ok? <==> AdditionsUnlinked(sorted) && AllRelinkOk(jumps, Splice(sorted, events, 0)))
    ensures Fits(sorted, |events|) && r.Ok? ==> r.value == RelinkAll(jumps, Splice(sorted, events, 0))
  {
    r := SpliceLoop(sorted, jumps, events);
    if Fits(sorted, |events|) {
      ApplyFromIsSplice(sorted, jumps, events, 0);
    }
  }

  /** The events after applying `edits` as `consume` does: sorted by index,
      with the jumps of the sorted list. */
  function Applied<T>(edits: seq<Edit<Event<T>>>, events: seq<Event<T>>): Result<seq<Event<T>>, Panic> {
    ApplyFrom(Sort(edits), Jumps(Sort(edits)), events, 0)
  }

  /** Apply the recorded edits to `events`, in ascending index order.

      For edits that fit the events the result is exactly the reference
      splice with every link shifted; it panics when consumed already, when
      an addition carries a link, or when a kept link would shift below 0. */
  method Consume<T>(m: EditMap<Event<T>>, events: seq<Event<T>>)
    returns (r: Result<(EditMap<Event<T>>, seq<Event<T>>), Panic>)
    ensures m.consumed ==> r == Err(ConsumeTwice)
    ensures r.Ok? ==> r.value.0 == EditMap(true, Drained(Sort(m.edits)))
    ensures !m.consumed && Fits(Sort(m.edits), |events|) ==>
      (r.Ok? <==> AdditionsUnlinked(Sort(m.edits))
                  && AllRelinkOk(Jumps(Sort(m.edits)), Splice(Sort(m.edits), events, 0)))
    ensures r.Ok? && Fits(Sort(m.edits), |events|) ==>
      r.value.1 == RelinkAll(Jumps(Sort(m.edits)), Splice(Sort(m.edits), events, 0))
    ensures !m.consumed && |m.edits| == 0 ==> r == Ok((EditMap(true, []), events))
    ensures !m.consumed ==> (r.Ok? <==> Applied(m.edits, events).Ok?)
    ensures !m.consumed && r.Err? ==> r.error == Applied(m.edits, events).error
    ensures r.Ok? ==> r.value.1 == Applied(m.edits, events).value
  {
    var sorted := Sort(m.edits);
    if m.consumed {
      return Err(ConsumeTwice);
    }
    var jumps := ComputeJumps(sorted);
    if |m.edits| == 0 {
      RelinkEmpty(events);
    }
    var next := ApplyEdits(sorted, jumps, events);
    if Fits(sorted, |events|) {
      ApplyFromIsSplice(sorted, jumps, events, 0);
    }
    if next.Err? {
      return Err(next.error);
    }
    return Ok((EditMap(true, Drained(sorted)), next.value));
  }

  /** With no edits, every link shifts to itself. */
  lemma RelinkEmpty<T>(events: seq<Event<T>>)
    ensures AllRelinkOk(Jumps<Event<T>>([]), events)
    ensures RelinkAll(Jumps<Event<T>>([]), events) == events
  {
    var jumps := Jumps<Event<T>>([]);
    assert jumps == [];
    forall i | 0 <= i < |events| ensures RelinkOk(jumps, events[i]) && Relink(jumps, events[i]) == events[i] {
    }
  }
}
