/**
 * Superposition: a compound's level is `doses.filter(d => d.compound === c)
 * .reduce((sum, d) => sum + f(d), 0)`, where `f` is the per-dose
 * concentration at the evaluation instant. Both tracker variants use it.
 */
module Superposition {
  import opened Ledger

  /** `doses.filter(d => d.compound === key)`, keeping ledger order. */
  function Filter(doses: seq<Dose>, key: string): (r: seq<Dose>)
    ensures |r| <= |doses|
    ensures forall i :: 0 <= i < |r| ==> r[i].compound == key
  {
    if doses == [] then []
    else
      var last := doses[|doses| - 1];
      Filter(doses[..|doses| - 1], key) + (if last.compound == key then [last] else [])
  }

  /** `ds.reduce((sum, d) => sum + f(d), 0)`: a left fold from 0. */
  function Total(ds: seq<Dose>, f: Dose -> real): real
  {
    if ds == [] then 0.0 else Total(ds[..|ds| - 1], f) + f(ds[|ds| - 1])
  }

  /** The superposed level of compound `key`. */
  function Level(doses: seq<Dose>, key: string, f: Dose -> real): (r: real)
    ensures (forall i :: 0 <= i < |doses| ==> doses[i].compound != key) ==> r == 0.0
  {
    FilterExactly(doses, key);
    Total(Filter(doses, key), f)
  }

  lemma LevelOfEmptyLedger(key: string, f: Dose -> real)
    ensures Level([], key, f) == 0.0
  {
  }

  lemma FilterAppend(doses: seq<Dose>, d: Dose, key: string)
    ensures Filter(doses + [d], key) == Filter(doses, key) + (if d.compound == key then [d] else [])
  {
    assert (doses + [d])[..|doses|] == doses;
  }

  lemma TotalAppend(ds: seq<Dose>, d: Dose, f: Dose -> real)
    ensures Total(ds + [d], f) == Total(ds, f) + f(d)
  {
    assert (ds + [d])[..|ds|] == ds;
  }

  /** Logging one more dose adds exactly its contribution to its own compound and nothing elsewhere. */
  lemma LevelAppend(doses: seq<Dose>, d: Dose, key: string, f: Dose -> real)
    ensures Level(doses + [d], key, f) == Level(doses, key, f) + (if d.compound == key then f(d) else 0.0)
  {
    FilterAppend(doses, d, key);
    if d.compound == key {
      TotalAppend(Filter(doses, key), d, f);
    } else {
      assert Filter(doses, key) + [] == Filter(doses, key);
    }
  }

  lemma {:induction false} TotalConcat(a: seq<Dose>, b: seq<Dose>, f: Dose -> real)
    ensures Total(a + b, f) == Total(a, f) + Total(b, f)
    decreases |b|
  {
    if b == [] {
      assert a + b == a;
    } else {
      var b' := b[..|b| - 1];
      var x := b[|b| - 1];
      assert b == b' + [x];
      assert a + b == (a + b') + [x];
      TotalConcat(a, b', f);
      TotalAppend(a + b', x, f);
      TotalAppend(b', x, f);
    }
  }

  /** The filter keeps exactly the ledger's doses of compound `key`: nothing else, and none of them is lost. */
  lemma {:induction false} FilterExactly(doses: seq<Dose>, key: string)
    ensures forall d :: d in Filter(doses, key) <==> d in doses && d.compound == key
    decreases |doses|
  {
    if doses != [] {
      var rest := doses[..|doses| - 1];
      var last := doses[|doses| - 1];
      assert doses == rest + [last];
      FilterExactly(rest, key);
    }
  }

  lemma {:induction false} FilterConcat(a: seq<Dose>, b: seq<Dose>, key: string)
    ensures Filter(a + b, key) == Filter(a, key) + Filter(b, key)
    decreases |b|
  {
    if b == [] {
      assert a + b == a;
    } else {
      var b' := b[..|b| - 1];
      var x := b[|b| - 1];
      assert b == b' + [x];
      assert a + b == (a + b') + [x];
      FilterConcat(a, b', key);
      FilterAppend(a + b', x, key);
      FilterAppend(b', x, key);
    }
  }

  /** Superposition is additive over any split of the ledger. */
  lemma LevelConcat(a: seq<Dose>, b: seq<Dose>, key: string, f: Dose -> real)
    ensures Level(a + b, key, f) == Level(a, key, f) + Level(b, key, f)
  {
    FilterConcat(a, b, key);
    TotalConcat(Filter(a, key), Filter(b, key), f);
  }

  /** A dose of another compound, wherever it sits in the ledger, does not change the level. */
  lemma LevelIgnoresOtherCompound(a: seq<Dose>, d: Dose, b: seq<Dose>, key: string, f: Dose -> real)
    requires d.compound != key
    ensures Level(a + [d] + b, key, f) == Level(a + b, key, f)
  {
    LevelConcat(a + [d], b, key, f);
    LevelAppend(a, d, key, f);
    LevelConcat(a, b, key, f);
  }

  /** The level is the sum over the whole ledger with every other compound's dose contributing 0. */
  lemma {:induction false} LevelIsMaskedTotal(doses: seq<Dose>, key: string, f: Dose -> real)
    ensures Level(doses, key, f) == Total(doses, (d: Dose) => if d.compound == key then f(d) else 0.0)
    decreases |doses|
  {
    if doses != [] {
      var rest := doses[..|doses| - 1];
      var x := doses[|doses| - 1];
      assert doses == rest + [x];
      LevelIsMaskedTotal(rest, key, f);
      LevelAppend(rest, x, key, f);
    }
  }

  /** Taking out the dose at index `j` takes one copy of it out of the ledger's multiset. */
  lemma MultisetRemoveAt(b: seq<Dose>, j: int)
    requires 0 <= j < |b|
    ensures multiset(b[..j] + b[j + 1..]) == multiset(b) - multiset{b[j]}
  {
    assert b == b[..j] + [b[j]] + b[j + 1..];
    assert multiset(b) == multiset(b[..j]) + multiset{b[j]} + multiset(b[j + 1..]);
  }

  /** Taking out the dose at index `j` takes its contribution out of the total. */
  lemma {:induction false} TotalRemoveAt(b: seq<Dose>, j: int, f: Dose -> real)
    requires 0 <= j < |b|
    ensures Total(b, f) == Total(b[..j] + b[j + 1..], f) + f(b[j])
  {
    var p, x, q := b[..j], b[j], b[j + 1..];
    assert b == (p + [x]) + q;
    TotalConcat(p + [x], q, f);
    TotalAppend(p, x, f);
    TotalConcat(p, q, f);
  }

  /** The fold does not depend on ledger order: any permutation gives the same total. */
  lemma {:induction false} TotalPermutation(a: seq<Dose>, b: seq<Dose>, f: Dose -> real)
    requires multiset(a) == multiset(b)
    ensures Total(a, f) == Total(b, f)
    decreases |a|
  {
    if a == [] {
      assert |b| == |multiset(b)| == 0;
    } else {
      var a' := a[..|a| - 1];
      var x := a[|a| - 1];
      assert a == a' + [x];
      assert multiset(a) == multiset(a') + multiset{x};
      assert x in multiset(b);
      var j :| 0 <= j < |b| && b[j] == x;
      var b' := b[..j] + b[j + 1..];
      MultisetRemoveAt(b, j);
      assert multiset(a') == multiset(b');
      TotalPermutation(a', b', f);
      TotalAppend(a', x, f);
      TotalRemoveAt(b, j, f);
    }
  }

  /** Reordering the ledger (doses may be backdated) never changes a level. */
  lemma LevelPermutation(a: seq<Dose>, b: seq<Dose>, key: string, f: Dose -> real)
    requires multiset(a) == multiset(b)
    ensures Level(a, key, f) == Level(b, key, f)
  {
    var g := (d: Dose) => if d.compound == key then f(d) else 0.0;
    LevelIsMaskedTotal(a, key, f);
    LevelIsMaskedTotal(b, key, f);
    TotalPermutation(a, b, g);
  }

  /** Non-negative contributions give a non-negative level. */
  lemma {:induction false} TotalNonNegative(ds: seq<Dose>, f: Dose -> real)
    requires forall i :: 0 <= i < |ds| ==> f(ds[i]) >= 0.0
    ensures Total(ds, f) >= 0.0
    decreases |ds|
  {
    if ds != [] {
      TotalNonNegative(ds[..|ds| - 1], f);
    }
  }

  /** The levels of every key of `keys`: `currentLevels`, and the compound part of one chart row. */
  function Snapshot(doses: seq<Dose>, keys: seq<string>, f: Dose -> real): (s: map<string, real>)
    ensures forall k :: k in s <==> k in keys
  {
    map k | k in keys :: Level(doses, k, f)
  }

  /** A map over exactly the keys that holds each key's level is the snapshot. */
  lemma SnapshotPointwise(doses: seq<Dose>, keys: seq<string>, f: Dose -> real, s: map<string, real>)
    requires forall k :: k in s <==> k in keys
    requires forall k :: k in s ==> s[k] == Level(doses, k, f)
    ensures s == Snapshot(doses, keys, f)
  {
  }

  /** With no doses every key is at 0. */
  lemma SnapshotOfEmptyLedger(keys: seq<string>, f: Dose -> real)
    ensures Snapshot([], keys, f) == map k | k in keys :: 0.0
  {
  }

  /** Logging a dose raises the snapshot at its own key by its contribution and leaves every other key. */
  lemma SnapshotAppend(doses: seq<Dose>, d: Dose, keys: seq<string>, f: Dose -> real)
    requires d.compound in keys
    ensures Snapshot(doses + [d], keys, f)
         == Snapshot(doses, keys, f)[d.compound := Snapshot(doses, keys, f)[d.compound] + f(d)]
  {
    var before := Snapshot(doses, keys, f);
    var after := before[d.compound := before[d.compound] + f(d)];
    forall k | k in after ensures after[k] == Level(doses + [d], k, f) {
      LevelAppend(doses, d, k, f);
    }
    SnapshotPointwise(doses + [d], keys, f, after);
  }

  lemma PrefixStep<T>(s: seq<T>, j: int)
    requires 0 <= j < |s|
    ensures s[..j + 1] == s[..j] + [s[j]]
  {
  }

  lemma PrefixAll<T>(s: seq<T>)
    ensures s[..|s|] == s
  {
  }

  /**
   * The inner loop of the chart sampler: every key starts at 0 and each dose,
   * in ledger order, adds its contribution `f` to its own key.
   */
  method SampleLevels(doses: seq<Dose>, keys: seq<string>, f: Dose -> real) returns (point: map<string, real>)
    requires forall i :: 0 <= i < |doses| ==> doses[i].compound in keys
    ensures point == Snapshot(doses, keys, f)
  {
    point := map k | k in keys :: 0.0;
    var j := 0;
    ghost var done: seq<Dose> := [];
    while j < |doses|
      invariant 0 <= j <= |doses| && done == doses[..j]
      invariant forall k :: k in point <==> k in keys
      invariant forall k :: k in point ==> point[k] == Level(done, k, f)
    {
      point := AddToPoint(done, doses[j], keys, f, point);
      PrefixStep(doses, j);
      done := done + [doses[j]];
      j := j + 1;
    }
    PrefixAll(doses);
    SnapshotPointwise(doses, keys, f, point);
  }

  /** `point[dose.compound] += f(dose)`: one step of the sampler. */
  method AddToPoint(ghost before: seq<Dose>, dose: Dose, keys: seq<string>, f: Dose -> real, point: map<string, real>)
    returns (next: map<string, real>)
    requires dose.compound in keys
    requires forall k :: k in point <==> k in keys
    requires forall k :: k in point ==> point[k] == Level(before, k, f)
    ensures forall k :: k in next <==> k in keys
    ensures forall k :: k in next ==> next[k] == Level(before + [dose], k, f)
  {
    next := point[dose.compound := point[dose.compound] + f(dose)];
    forall k | k in next ensures next[k] == Level(before + [dose], k, f) {
      LevelAppend(before, dose, k, f);
    }
  }

  /** The snapshot computed key by key, each key's doses filtered and summed. */
  method LevelsOf(doses: seq<Dose>, keys: seq<string>, f: Dose -> real) returns (levels: map<string, real>)
    ensures levels == Snapshot(doses, keys, f)
  {
    levels := map[];
    var j := 0;
    while j < |keys|
      invariant 0 <= j <= |keys|
      invariant forall k :: k in levels <==> k in keys[..j]
      invariant forall k :: k in levels ==> levels[k] == Level(doses, k, f)
    {
      PrefixStep(keys, j);
      levels := levels[keys[j] := Level(doses, keys[j], f)];
      j := j + 1;
    }
    PrefixAll(keys);
    SnapshotPointwise(doses, keys, f, levels);
  }
}
