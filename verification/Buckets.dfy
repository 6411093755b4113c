/**
  Which bucket a container belongs to: its root ancestor, found by a memoised walk that gives up on
  orphans and cycles, stamped when a path is created and by a backfill that only ever adds.
 */
module Buckets {
  import opened Prelude

  type Id = nat

  /** The parent of every container there is; a root has none. A parent may be missing, or the chain may turn in on itself. */
  type Parents = map<Id, Option<Id>>

  // ---------------------------------------------------------------------------------------------
  // The plain definition.

  /** The container `n` steps up from `x`, if there are that many and all of them exist. */
  ghost function Up(p: Parents, x: Id, n: nat): Option<Id>
    decreases n
  {
    if x !in p then None
    else if n == 0 then Some(x)
    else if p[x].None? then None
    else Up(p, p[x].value, n - 1)
  }

  ghost predicate RootAt(p: Parents, x: Id, n: nat, b: Id) {
    Up(p, x, n) == Some(b) && b in p && p[b].None?
  }

  ghost predicate HasRoot(p: Parents, x: Id) {
    exists n: nat, b: Id :: RootAt(p, x, n, b)
  }

  /** The root ancestor; none for an orphan or a cycle. */
  ghost function Bucket(p: Parents, x: Id): (r: Option<Id>)
    ensures r.Some? <==> HasRoot(p, x)
    ensures r.Some? ==> exists n: nat :: RootAt(p, x, n, r.value)
  {
    if HasRoot(p, x) then
      var n: nat, b: Id :| RootAt(p, x, n, b);
      Some(b)
    else None
  }

  lemma {:induction false} RootIsUnique(p: Parents, x: Id, n: nat, b: Id, m: nat, c: Id)
    requires RootAt(p, x, n, b) && RootAt(p, x, m, c)
    ensures n == m && b == c
    decreases n
  {
    if n > 0 && m > 0 {
      RootIsUnique(p, p[x].value, n - 1, b, m - 1, c);
    }
  }

  lemma BucketIs(p: Parents, x: Id, n: nat, b: Id)
    requires RootAt(p, x, n, b)
    ensures Bucket(p, x) == Some(b)
  {
    assert HasRoot(p, x);
    var m: nat :| RootAt(p, x, m, Bucket(p, x).value);
    RootIsUnique(p, x, n, b, m, Bucket(p, x).value);
  }

  lemma BucketOfRoot(p: Parents, x: Id)
    requires x in p && p[x].None?
    ensures Bucket(p, x) == Some(x)
  {
    BucketIs(p, x, 0, x);
  }

  /** A container is in the bucket its parent is in. */
  lemma BucketOfChild(p: Parents, x: Id)
    requires x in p && p[x].Some?
    ensures Bucket(p, x) == Bucket(p, p[x].value)
  {
    var y := p[x].value;
    if HasRoot(p, x) {
      var n: nat, b: Id :| RootAt(p, x, n, b);
      assert n > 0;
      assert RootAt(p, y, n - 1, b);
      BucketIs(p, x, n, b);
      BucketIs(p, y, n - 1, b);
    } else {
      forall n: nat, b: Id
        ensures !RootAt(p, y, n, b)
      {
        assert RootAt(p, y, n, b) ==> RootAt(p, x, n + 1, b);
      }
    }
  }

  lemma BucketOfOrphan(p: Parents, x: Id)
    requires x !in p
    ensures Bucket(p, x) == None
  {
  }

  lemma {:induction false} UpAdds(p: Parents, x: Id, m: nat, y: Id, n: nat)
    requires Up(p, x, m) == Some(y)
    ensures Up(p, x, m + n) == Up(p, y, n)
    decreases m
  {
    if m > 0 {
      UpAdds(p, p[x].value, m - 1, y, n);
    }
  }

  /** A chain that comes back to where it was has no root. */
  lemma {:induction false} CycleHasNoRoot(p: Parents, x: Id, m: nat, n: nat, b: Id)
    requires m > 0 && Up(p, x, m) == Some(x) && RootAt(p, x, n, b)
    ensures false
    decreases n
  {
    if n < m {
      UpAdds(p, x, n, b, m - n);
    } else {
      UpAdds(p, x, m, x, n - m);
      CycleHasNoRoot(p, x, m, n - m, b);
    }
  }

  lemma BucketOfCycle(p: Parents, x: Id, m: nat)
    requires m > 0 && Up(p, x, m) == Some(x)
    ensures Bucket(p, x) == None
  {
    if HasRoot(p, x) {
      var n: nat, b: Id :| RootAt(p, x, n, b);
      CycleHasNoRoot(p, x, m, n, b);
    }
  }

  // ---------------------------------------------------------------------------------------------
  // The memoised walk.

  ghost predicate Truthful(p: Parents, cache: map<Id, Option<Id>>) {
    forall x :: x in cache ==> cache[x] == Bucket(p, x)
  }

  /** The nodes passed so far, each the parent of the one before, leading to `current`. */
  ghost predicate Chain(p: Parents, chain: seq<Id>, current: Id) {
    forall k :: 0 <= k < |chain| ==> chain[k] in p && p[chain[k]] == Some(Following(chain, current, k))
  }

  ghost function Following(chain: seq<Id>, current: Id, k: int): Id
    requires 0 <= k < |chain|
  {
    if k + 1 < |chain| then chain[k + 1] else current
  }

  lemma ChainGrows(p: Parents, chain: seq<Id>, current: Id)
    requires Chain(p, chain, current) && current in p && p[current].Some?
    ensures Chain(p, chain + [current], p[current].value)
  {
  }

  lemma {:induction false} ChainLeadsUp(p: Parents, chain: seq<Id>, current: Id, k: nat)
    requires Chain(p, chain, current) && k <= |chain|
    ensures k < |chain| ==> Bucket(p, chain[k]) == Bucket(p, current)
    ensures current in p && k < |chain| ==> Up(p, chain[k], |chain| - k) == Some(current)
    decreases |chain| - k
  {
    if k < |chain| {
      ChainLeadsUp(p, chain, current, k + 1);
      assert p[chain[k]] == Some(Following(chain, current, k));
      BucketOfChild(p, chain[k]);
    }
  }

  /** Note the answer for every node of the chain. */
  method Remember(ghost p: Parents, cache: map<Id, Option<Id>>, chain: seq<Id>, answer: Option<Id>) returns (cache': map<Id, Option<Id>>)
    requires Truthful(p, cache) && forall x :: x in chain ==> Bucket(p, x) == answer
    ensures Truthful(p, cache')
    ensures forall x :: x in cache' <==> x in cache || x in chain
  {
    cache' := cache;
    var i := 0;
    while i < |chain|
      invariant 0 <= i <= |chain| && Truthful(p, cache')
      invariant forall x :: x in cache' <==> x in cache || x in chain[..i]
    {
      cache' := cache'[chain[i] := answer];
      i := i + 1;
    }
  }

  /** Walk up until something is known, the chain repeats, a parent is missing, or a root is reached. */
  method ResolveBucket(p: Parents, cache: map<Id, Option<Id>>, start: Id) returns (bucket: Option<Id>, cache': map<Id, Option<Id>>)
    requires Truthful(p, cache)
    ensures bucket == Bucket(p, start)
    ensures Truthful(p, cache') && start in cache' && cache.Keys <= cache'.Keys
  {
    var chain: seq<Id> := [];
    var current := start;
    ghost var ahead := p.Keys;
    while true
      invariant Chain(p, chain, current)
      invariant Bucket(p, current) == Bucket(p, start) && (current == start || start in chain)
      invariant forall x :: x in chain ==> Bucket(p, x) == Bucket(p, start)
      invariant forall x :: x in ahead <==> x in p && x !in chain
      decreases ahead
    {
      if current in cache {
        bucket := cache[current];
        cache' := Remember(p, cache, chain, bucket);
        return;
      }
      if current in chain {
        var k :| 0 <= k < |chain| && chain[k] == current;
        ChainLeadsUp(p, chain, current, k);
        BucketOfCycle(p, current, |chain| - k);
        bucket := None;
        cache' := Remember(p, cache, chain, None);
        return;
      }
      if current !in p {
        BucketOfOrphan(p, current);
        bucket := None;
        cache' := Remember(p, cache, chain + [current], None);
        return;
      }
      if p[current].None? {
        BucketOfRoot(p, current);
        bucket := Some(current);
        cache' := Remember(p, cache, chain + [current], bucket);
        return;
      }
      BucketOfChild(p, current);
      ChainGrows(p, chain, current);
      assert current in ahead;
      ahead := ahead - {current};
      chain := chain + [current];
      current := p[current].value;
    }
  }
}
