/**
  The collection of containers and objects: creating the containers of a path, and backfilling the
  bucket onto documents that lack one.
 */
module ContentRepository {
  import opened Prelude
  import opened Buckets

  /** The bucketId field: not there at all, or there with a value. Only the first is ever filled in. */
  datatype Field = Absent | Null | Is(id: Id)

  datatype Doc = Doc(parent: Option<Id>, name: string, isContainer: bool, bucket: Field)

  type Docs = map<Id, Doc>

  ghost function ParentsOf(docs: Docs): Parents {
    map d | d in docs && docs[d].isContainer :: docs[d].parent
  }

  /** A container that says which bucket it is in says the truth. */
  ghost predicate TrulyStamped(docs: Docs) {
    forall d :: d in docs && docs[d].isContainer && docs[d].bucket.Is? ==> Bucket(ParentsOf(docs), d) == Some(docs[d].bucket.id)
  }

  // ---------------------------------------------------------------------------------------------
  // Backfill.

  ghost predicate StampableContainer(docs: Docs, d: Id) {
    d in docs && docs[d].isContainer && docs[d].bucket.Absent? && Bucket(ParentsOf(docs), d).Some?
  }

  /** An object without a bucket, in a container that has one. */
  ghost predicate StampableObject(docs: Docs, d: Id) {
    && d in docs && !docs[d].isContainer && docs[d].bucket.Absent? && docs[d].parent.Some?
    && Bucket(ParentsOf(docs), docs[d].parent.value).Some?
  }

  ghost function StampableContainers(docs: Docs): set<Id> {
    set d | d in docs && StampableContainer(docs, d)
  }

  ghost function StampableObjects(docs: Docs): set<Id> {
    set d | d in docs && StampableObject(docs, d)
  }

  ghost function Unresolvable(docs: Docs): set<Id> {
    set d | d in docs && docs[d].isContainer && Bucket(ParentsOf(docs), d).None?
  }

  /** The collection with every one of these documents given its bucket. */
  ghost function Stamped(docs: Docs, which: set<Id>): Docs
    requires forall d :: d in which ==> StampableContainer(docs, d) || StampableObject(docs, d)
  {
    map d | d in docs ::
      if d in which then docs[d].(bucket := Is(BucketFor(docs, d))) else docs[d]
  }

  ghost function BucketFor(docs: Docs, d: Id): Id
    requires StampableContainer(docs, d) || StampableObject(docs, d)
  {
    if docs[d].isContainer then Bucket(ParentsOf(docs), d).value else Bucket(ParentsOf(docs), docs[d].parent.value).value
  }

  /** Where a backfill ends. */
  ghost function Backfilled(docs: Docs): Docs {
    Stamped(docs, StampableContainers(docs) + StampableObjects(docs))
  }

  lemma StampingKeepsParents(docs: Docs, which: set<Id>)
    requires forall d :: d in which ==> StampableContainer(docs, d) || StampableObject(docs, d)
    ensures ParentsOf(Stamped(docs, which)) == ParentsOf(docs)
  {
  }

  /** After a backfill there is nothing left for another to do. */
  lemma SecondRunStampsNothing(docs: Docs)
    ensures StampableContainers(Backfilled(docs)) == {} && StampableObjects(Backfilled(docs)) == {}
    ensures Backfilled(Backfilled(docs)) == Backfilled(docs)
    ensures Unresolvable(Backfilled(docs)) == Unresolvable(docs)
  {
    var which := StampableContainers(docs) + StampableObjects(docs);
    StampingKeepsParents(docs, which);
    var after := Backfilled(docs);
    forall d | d in after
      ensures !StampableContainer(after, d) && !StampableObject(after, d)
    {
    }
  }

  /** An object that lacked a bucket has its container's now, if that has one; and if that is stamped they say the same. */
  ghost predicate ObjectIsFiled(docs: Docs, docs': Docs, d: Id)
    requires d in docs && d in docs'
  {
    match docs[d].parent
    case None => docs'[d] == docs[d]
    case Some(c) =>
      var bucket := Bucket(ParentsOf(docs), c);
      && docs'[d].bucket == (if bucket.Some? then Is(bucket.value) else Absent)
      && (c in docs' && docs'[c].isContainer && docs'[c].bucket.Is? ==> docs'[d].bucket == docs'[c].bucket)
  }

  /** A backfill only adds, and what it adds to a container is its root ancestor. */
  lemma BackfillIsTrue(docs: Docs)
    requires TrulyStamped(docs)
    ensures TrulyStamped(Backfilled(docs))
    ensures forall d :: d in docs && !docs[d].bucket.Absent? ==> Backfilled(docs)[d] == docs[d]
    ensures forall d :: d in docs ==> Backfilled(docs)[d].(bucket := docs[d].bucket) == docs[d]
    ensures forall d :: d in docs && !docs[d].isContainer && docs[d].bucket.Absent? ==> ObjectIsFiled(docs, Backfilled(docs), d)
  {
    StampingKeepsParents(docs, StampableContainers(docs) + StampableObjects(docs));
  }

  /** The parents of all containers, read into memory. */
  method LoadParents(docs: Docs) returns (p: Parents)
    ensures p == ParentsOf(docs)
  {
    p := map d | d in docs && docs[d].isContainer :: docs[d].parent;
  }

  /** The bucket of every container, by the plain definition. */
  ghost function Roots(p: Parents): map<Id, Option<Id>> {
    map c | c in p :: Bucket(p, c)
  }

  /** What the scan of the containers comes to: whose bucket is missing, who is in which bucket, how many are in none. */
  ghost predicate Sorted(roots: map<Id, Option<Id>>, absent: set<Id>, seen: set<Id>,
                         bulk: map<Id, Id>, byBucket: map<Id, set<Id>>, skipped: nat) {
    && seen <= roots.Keys
    && (forall d :: d in bulk <==> d in seen && d in absent && roots[d].Some?)
    && (forall d :: d in bulk ==> roots[d] == Some(bulk[d]))
    && (forall b: Id, d: Id :: InBucket(byBucket, b, d) <==> d in seen && roots[d] == Some(b))
    && skipped == |Rootless(roots, seen)|
  }

  ghost predicate InBucket(byBucket: map<Id, set<Id>>, b: Id, d: Id) {
    b in byBucket && d in byBucket[b]
  }

  ghost function Rootless(roots: map<Id, Option<Id>>, seen: set<Id>): set<Id>
    requires seen <= roots.Keys
  {
    set d | d in seen && roots[d].None?
  }

  function Join(byBucket: map<Id, set<Id>>, b: Id, c: Id): map<Id, set<Id>> {
    byBucket[b := (if b in byBucket then byBucket[b] else {}) + {c}]
  }

  lemma JoinAdds(byBucket: map<Id, set<Id>>, b: Id, c: Id, x: Id, d: Id)
    ensures InBucket(Join(byBucket, b, c), x, d) <==> InBucket(byBucket, x, d) || (x == b && d == c)
  {
  }

  lemma SortedOneMore(roots: map<Id, Option<Id>>, absent: set<Id>, seen: set<Id>,
                      bulk: map<Id, Id>, byBucket: map<Id, set<Id>>, skipped: nat, c: Id)
    requires Sorted(roots, absent, seen, bulk, byBucket, skipped) && c in roots && c !in seen
    ensures roots[c].Some? ==>
              Sorted(roots, absent, seen + {c}, if c in absent then bulk[c := roots[c].value] else bulk, Join(byBucket, roots[c].value, c), skipped)
    ensures roots[c].None? ==> Sorted(roots, absent, seen + {c}, bulk, byBucket, skipped + 1)
  {
    if roots[c].Some? {
      assert Rootless(roots, seen + {c}) == Rootless(roots, seen);
      forall x: Id, d: Id
        ensures InBucket(Join(byBucket, roots[c].value, c), x, d) <==> d in seen + {c} && roots[d] == Some(x)
      {
        JoinAdds(byBucket, roots[c].value, c, x, d);
      }
    } else {
      assert Rootless(roots, seen + {c}) == Rootless(roots, seen) + {c};
    }
  }

  /** The containers that have no bucketId field. */
  function Unstamped(docs: Docs): set<Id> {
    set d | d in docs && docs[d].isContainer && docs[d].bucket.Absent?
  }

  /** Put one container where it belongs. */
  method PlaceContainer(p: Parents, absent: set<Id>, ghost seen: set<Id>, c: Id, cache: map<Id, Option<Id>>,
                        bulk: map<Id, Id>, byBucket: map<Id, set<Id>>, skipped: nat)
    returns (cache': map<Id, Option<Id>>, bulk': map<Id, Id>, byBucket': map<Id, set<Id>>, skipped': nat)
    requires Truthful(p, cache) && c in p && c !in seen && Sorted(Roots(p), absent, seen, bulk, byBucket, skipped)
    ensures Truthful(p, cache') && Sorted(Roots(p), absent, seen + {c}, bulk', byBucket', skipped')
  {
    SortedOneMore(Roots(p), absent, seen, bulk, byBucket, skipped, c);
    var bucket;
    bucket, cache' := ResolveBucket(p, cache, c);
    bulk', byBucket', skipped' := bulk, byBucket, skipped;
    if bucket.Some? {
      if c in absent {
        bulk' := bulk[c := bucket.value];
      }
      byBucket' := Join(byBucket, bucket.value, c);
    } else {
      skipped' := skipped + 1;
    }
  }

  /** Resolve every container once, in any order, sharing one cache. */
  method SortContainers(p: Parents, absent: set<Id>) returns (bulk: map<Id, Id>, byBucket: map<Id, set<Id>>, skipped: nat)
    ensures Sorted(Roots(p), absent, p.Keys, bulk, byBucket, skipped)
  {
    var cache: map<Id, Option<Id>> := map[];
    bulk, byBucket, skipped := map[], map[], 0;
    var left: set<Id> := p.Keys;
    while left != {}
      invariant left <= p.Keys
      invariant Truthful(p, cache) && Sorted(Roots(p), absent, p.Keys - left, bulk, byBucket, skipped)
      decreases left
    {
      var c :| c in left;
      assert p.Keys - (left - {c}) == (p.Keys - left) + {c};
      cache, bulk, byBucket, skipped := PlaceContainer(p, absent, p.Keys - left, c, cache, bulk, byBucket, skipped);
      left := left - {c};
    }
    assert p.Keys - left == p.Keys;
  }

  // ---------------------------------------------------------------------------------------------
  // Writing.

  /** Some of what is left, no more than fits one batch. */
  method TakeBatch(left: set<Id>, size: nat) returns (batch: set<Id>)
    requires size >= 1 && left != {}
    ensures batch <= left && batch != {} && |batch| <= size
  {
    batch := {};
    var rest := left;
    while rest != {} && |batch| < size
      invariant batch + rest == left && batch !! rest && |batch| <= size
      invariant batch == {} ==> rest == left
      decreases rest
    {
      var x :| x in rest;
      batch, rest := batch + {x}, rest - {x};
    }
  }

  /** One bulk write: every document of the batch that still has no bucketId gets its own. */
  function BulkWrite(docs: Docs, batch: set<Id>, bulk: map<Id, Id>): Docs {
    map d | d in docs :: if d in batch && d in bulk && docs[d].bucket.Absent? then docs[d].(bucket := Is(bulk[d])) else docs[d]
  }

  function Modified(before: Docs, after: Docs): set<Id> {
    set d | d in before && d in after && before[d] != after[d]
  }

  /** One update of many: every document in one of these containers that has no bucketId. */
  function UpdateMany(docs: Docs, ids: set<Id>, bucket: Id): Docs {
    map d | d in docs :: if docs[d].parent.Some? && docs[d].parent.value in ids && docs[d].bucket.Absent? then docs[d].(bucket := Is(bucket)) else docs[d]
  }

  /** The objects of these containers that have no bucketId. */
  function CountChildren(docs: Docs, ids: set<Id>): set<Id> {
    set d | d in docs && docs[d].parent.Some? && docs[d].parent.value in ids && !docs[d].isContainer && docs[d].bucket.Absent?
  }

  ghost function ObjectsIn(docs: Docs, done: set<Id>): set<Id> {
    set d | d in docs && StampableObject(docs, d) && docs[d].parent.value in done
  }

  lemma ObjectsInMore(docs: Docs, done: set<Id>, batch: set<Id>)
    requires done !! batch
    ensures ObjectsIn(docs, done + batch) == ObjectsIn(docs, done) + ObjectsIn(docs, batch)
    ensures |ObjectsIn(docs, done + batch)| == |ObjectsIn(docs, done)| + |ObjectsIn(docs, batch)|
  {
  }

  /** What the bulk write asks for is what the definition says. */
  ghost predicate BulkIsRight(docs: Docs, bulk: map<Id, Id>) {
    && bulk.Keys == StampableContainers(docs)
    && forall d :: d in bulk ==> Bucket(ParentsOf(docs), d) == Some(bulk[d])
  }

  /** The collection with those of `done` that lacked their bucket stamped with it. */
  ghost function PartWay(docs: Docs, done: set<Id>): Docs {
    Stamped(docs, done * StampableContainers(docs))
  }

  lemma BulkWriteStamps(docs: Docs, bulk: map<Id, Id>, done: set<Id>, batch: set<Id>)
    requires BulkIsRight(docs, bulk) && batch <= bulk.Keys && done !! batch
    ensures BulkWrite(PartWay(docs, done), batch, bulk) == PartWay(docs, done + batch)
    ensures Modified(PartWay(docs, done), PartWay(docs, done + batch)) == batch
  {
  }

  lemma NothingDoneYet(docs: Docs)
    ensures PartWay(docs, {}) == docs
  {
  }

  lemma ContainersDone(docs: Docs)
    ensures PartWay(docs, StampableContainers(docs)) == Halfway(docs, {})
  {
  }

  /** The container pass. */
  method StampContainers(docs: Docs, bulk: map<Id, Id>, batchSize: nat) returns (after: Docs, stamped: nat)
    requires batchSize >= 1 && BulkIsRight(docs, bulk)
    ensures after == PartWay(docs, bulk.Keys) && stamped == |bulk.Keys|
  {
    after, stamped := docs, 0;
    var left: set<Id> := bulk.Keys;
    assert bulk.Keys - left == {};
    NothingDoneYet(docs);
    while left != {}
      invariant left <= bulk.Keys
      invariant after == PartWay(docs, bulk.Keys - left) && stamped == |bulk.Keys - left|
      decreases left
    {
      after, stamped, left := WriteBatch(docs, after, stamped, bulk, left, batchSize);
    }
    assert bulk.Keys - left == bulk.Keys;
  }

  lemma Split(all: set<Id>, left: set<Id>, batch: set<Id>)
    requires batch <= left <= all
    ensures all - (left - batch) == (all - left) + batch
    ensures |all - (left - batch)| == |all - left| + |batch|
  {
  }

  /** The next batch of the container pass. */
  method WriteBatch(ghost docs: Docs, before: Docs, count: nat, bulk: map<Id, Id>, left: set<Id>, batchSize: nat)
    returns (after: Docs, stamped: nat, rest: set<Id>)
    requires batchSize >= 1 && BulkIsRight(docs, bulk) && {} != left <= bulk.Keys
    requires before == PartWay(docs, bulk.Keys - left) && count == |bulk.Keys - left|
    ensures rest < left
    ensures after == PartWay(docs, bulk.Keys - rest) && stamped == |bulk.Keys - rest|
  {
    var batch := TakeBatch(left, batchSize);
    ghost var done := bulk.Keys - left;
    BulkWriteStamps(docs, bulk, done, batch);
    Split(bulk.Keys, left, batch);
    after := BulkWrite(before, batch, bulk);
    stamped, rest := count + |Modified(before, after)|, left - batch;
  }

  /** The collection after the container pass, and after the containers of `done` have had their children stamped. */
  ghost function Halfway(docs: Docs, done: set<Id>): Docs {
    Stamped(docs, StampableContainers(docs) + ObjectsIn(docs, done))
  }

  /** After the container pass, the only children left without a bucket are objects. */
  lemma OnlyObjectsAreLeft(docs: Docs, done: set<Id>, batch: set<Id>, bucket: Id, d: Id)
    requires forall c :: c in batch ==> Bucket(ParentsOf(docs), c) == Some(bucket)
    requires done !! batch && d in docs
    ensures UpdateMany(Halfway(docs, done), batch, bucket)[d] == Halfway(docs, done + batch)[d]
    ensures Halfway(docs, done)[d] != Halfway(docs, done + batch)[d] <==> d in ObjectsIn(docs, batch)
  {
    if docs[d].isContainer && docs[d].parent.Some? && docs[d].parent.value in batch {
      BucketOfChild(ParentsOf(docs), d);
    }
  }

  lemma UpdateManyStamps(docs: Docs, done: set<Id>, batch: set<Id>, bucket: Id)
    requires forall c :: c in batch ==> Bucket(ParentsOf(docs), c) == Some(bucket)
    requires done !! batch
    ensures UpdateMany(Halfway(docs, done), batch, bucket) == Halfway(docs, done + batch)
    ensures Modified(Halfway(docs, done), Halfway(docs, done + batch)) == ObjectsIn(docs, batch)
  {
    forall d | d in docs {
      OnlyObjectsAreLeft(docs, done, batch, bucket, d);
    }
  }

  lemma CountIsObjects(docs: Docs, batch: set<Id>, bucket: Id)
    requires forall c :: c in batch ==> Bucket(ParentsOf(docs), c) == Some(bucket)
    ensures CountChildren(docs, batch) == ObjectsIn(docs, batch)
  {
  }

  /** One bucket's children, a batch of its containers at a time. */
  method StampBucket(ghost docs: Docs, before: Docs, ghost done: set<Id>, ids: set<Id>, bucket: Id, batchSize: nat)
    returns (after: Docs, stamped: nat)
    requires batchSize >= 1 && before == Halfway(docs, done) && done !! ids
    requires forall c :: c in ids ==> Bucket(ParentsOf(docs), c) == Some(bucket)
    ensures after == Halfway(docs, done + ids) && stamped == |ObjectsIn(docs, ids)|
  {
    after, stamped := before, 0;
    var left: set<Id> := ids;
    assert ids - left == {} && done + {} == done && ObjectsIn(docs, {}) == {};
    while left != {}
      invariant left <= ids
      invariant after == Halfway(docs, done + (ids - left)) && stamped == |ObjectsIn(docs, ids - left)|
      decreases left
    {
      after, stamped, left := UpdateBatch(docs, after, stamped, done, ids, left, bucket, batchSize);
    }
    assert ids - left == ids;
  }

  lemma Regroup(a: set<Id>, b: set<Id>, c: set<Id>)
    ensures (a + b) + c == a + (b + c)
  {
  }

  /** The next batch of a bucket's containers. */
  method UpdateBatch(ghost docs: Docs, before: Docs, count: nat, ghost done: set<Id>, ghost ids: set<Id>, left: set<Id>, bucket: Id, batchSize: nat)
    returns (after: Docs, stamped: nat, rest: set<Id>)
    requires batchSize >= 1 && done !! ids && {} != left <= ids
    requires forall c :: c in ids ==> Bucket(ParentsOf(docs), c) == Some(bucket)
    requires before == Halfway(docs, done + (ids - left)) && count == |ObjectsIn(docs, ids - left)|
    ensures rest < left
    ensures after == Halfway(docs, done + (ids - rest)) && stamped == |ObjectsIn(docs, ids - rest)|
  {
    var batch := TakeBatch(left, batchSize);
    UpdateManyStamps(docs, done + (ids - left), batch, bucket);
    Split(ids, left, batch);
    ObjectsInMore(docs, ids - left, batch);
    Regroup(done, ids - left, batch);
    after := UpdateMany(before, batch, bucket);
    stamped, rest := count + |Modified(before, after)|, left - batch;
  }

  /** Every container that has a bucket, under its bucket. */
  ghost predicate BucketsAreRight(docs: Docs, byBucket: map<Id, set<Id>>) {
    forall b: Id, d: Id :: InBucket(byBucket, b, d) <==> d in ParentsOf(docs) && Bucket(ParentsOf(docs), d) == Some(b)
  }

  ghost function ContainersOf(byBucket: map<Id, set<Id>>, buckets: set<Id>): set<Id> {
    set b, d | b in buckets && b in byBucket && d in byBucket[b] :: d
  }

  lemma ContainersOfMore(docs: Docs, byBucket: map<Id, set<Id>>, buckets: set<Id>, b: Id)
    requires BucketsAreRight(docs, byBucket) && b in byBucket && b !in buckets
    ensures ContainersOf(byBucket, buckets + {b}) == ContainersOf(byBucket, buckets) + byBucket[b]
    ensures ContainersOf(byBucket, buckets) !! byBucket[b]
    ensures forall c :: c in byBucket[b] ==> Bucket(ParentsOf(docs), c) == Some(b)
  {
    forall c | c in byBucket[b]
      ensures Bucket(ParentsOf(docs), c) == Some(b) && c !in ContainersOf(byBucket, buckets)
    {
      assert InBucket(byBucket, b, c);
      forall x | x in buckets && x in byBucket && c in byBucket[x]
        ensures false
      {
        assert InBucket(byBucket, x, c);
      }
    }
  }

  /** The objects of all containers that have a bucket are all that can be stamped. */
  lemma ContainersOfAll(docs: Docs, byBucket: map<Id, set<Id>>)
    requires BucketsAreRight(docs, byBucket)
    ensures ObjectsIn(docs, ContainersOf(byBucket, byBucket.Keys)) == StampableObjects(docs)
    ensures Halfway(docs, ContainersOf(byBucket, byBucket.Keys)) == Backfilled(docs)
  {
  }

  /** The object pass, or, in a dry run, the count of what it would do. */
  method StampObjects(ghost docs: Docs, before: Docs, byBucket: map<Id, set<Id>>, batchSize: nat, apply: bool)
    returns (after: Docs, stamped: nat)
    requires batchSize >= 1 && BucketsAreRight(docs, byBucket)
    requires before == if apply then Halfway(docs, {}) else docs
    ensures after == if apply then Backfilled(docs) else docs
    ensures stamped == |StampableObjects(docs)|
  {
    after, stamped := before, 0;
    var left: set<Id> := byBucket.Keys;
    assert byBucket.Keys - left == {};
    assert ContainersOf(byBucket, {}) == {} && ObjectsIn(docs, {}) == {};
    while left != {}
      invariant left <= byBucket.Keys
      invariant after == if apply then Halfway(docs, ContainersOf(byBucket, byBucket.Keys - left)) else docs
      invariant stamped == |ObjectsIn(docs, ContainersOf(byBucket, byBucket.Keys - left))|
      decreases left
    {
      var b :| b in left;
      ghost var done := ContainersOf(byBucket, byBucket.Keys - left);
      ContainersOfMore(docs, byBucket, byBucket.Keys - left, b);
      ObjectsInMore(docs, done, byBucket[b]);
      Split(byBucket.Keys, left, {b});
      var more;
      after, more := VisitBucket(docs, after, done, byBucket[b], b, batchSize, apply);
      stamped, left := stamped + more, left - {b};
    }
    assert byBucket.Keys - left == byBucket.Keys;
    ContainersOfAll(docs, byBucket);
  }

  method VisitBucket(ghost docs: Docs, before: Docs, ghost done: set<Id>, ids: set<Id>, bucket: Id, batchSize: nat, apply: bool)
    returns (after: Docs, stamped: nat)
    requires batchSize >= 1 && done !! ids && before == (if apply then Halfway(docs, done) else docs)
    requires forall c :: c in ids ==> Bucket(ParentsOf(docs), c) == Some(bucket)
    ensures after == (if apply then Halfway(docs, done + ids) else docs) && stamped == |ObjectsIn(docs, ids)|
  {
    if apply {
      after, stamped := StampBucket(docs, before, done, ids, bucket, batchSize);
    } else {
      CountIsObjects(docs, ids, bucket);
      after, stamped := before, |CountChildren(before, ids)|;
    }
  }

  lemma SortedIsRight(docs: Docs, bulk: map<Id, Id>, byBucket: map<Id, set<Id>>, skipped: nat)
    requires Sorted(Roots(ParentsOf(docs)), Unstamped(docs), ParentsOf(docs).Keys, bulk, byBucket, skipped)
    ensures BulkIsRight(docs, bulk) && BucketsAreRight(docs, byBucket) && skipped == |Unresolvable(docs)|
  {
    assert Rootless(Roots(ParentsOf(docs)), ParentsOf(docs).Keys) == Unresolvable(docs);
  }

  datatype Counts = Counts(containersStamped: nat, objectsStamped: nat, skippedContainers: nat)

  /**
    Stamp every document that lacks its bucket and has one, or only count them. A dry run reports
    what a run from the same state would do.
   */
  method Backfill(docs: Docs, apply: bool, batchSize: nat) returns (after: Docs, counts: Counts)
    requires batchSize >= 1
    ensures after == if apply then Backfilled(docs) else docs
    ensures counts == Counts(|StampableContainers(docs)|, |StampableObjects(docs)|, |Unresolvable(docs)|)
  {
    var p := LoadParents(docs);
    var bulk, byBucket, skipped := SortContainers(p, Unstamped(docs));
    SortedIsRight(docs, bulk, byBucket, skipped);
    var containers := |bulk.Keys|;
    after := docs;
    if apply {
      after, containers := StampContainers(docs, bulk, batchSize);
      ContainersDone(docs);
    }
    var objects;
    after, objects := StampObjects(docs, after, byBucket, batchSize, apply);
    counts := Counts(containers, objects, skipped);
  }

  // ---------------------------------------------------------------------------------------------
  // Creating a path.

  /** An id nothing has and nothing refers to. */
  ghost predicate Unused(docs: Docs, id: Id) {
    id !in docs && forall d :: d in docs ==> docs[d].parent != Some(id)
  }

  lemma {:induction false} FreshKeepsUp(p: Parents, id: Id, parent: Option<Id>, x: Id, n: nat)
    requires id !in p && x != id && forall y :: y in p ==> p[y] != Some(id)
    ensures Up(p[id := parent], x, n) == Up(p, x, n)
    decreases n
  {
    if n > 0 && x in p && p[x].Some? {
      FreshKeepsUp(p, id, parent, p[x].value, n - 1);
    }
  }

  /** A new container changes no other container's bucket. */
  lemma FreshKeepsBucket(p: Parents, id: Id, parent: Option<Id>, x: Id)
    requires id !in p && x != id && forall y :: y in p ==> p[y] != Some(id)
    ensures Bucket(p[id := parent], x) == Bucket(p, x)
  {
    var p' := p[id := parent];
    forall n: nat, b: Id
      ensures RootAt(p', x, n, b) <==> RootAt(p, x, n, b)
    {
      FreshKeepsUp(p, id, parent, x, n);
      UpStays(p, x, n);
    }
    if HasRoot(p, x) {
      var n: nat, b: Id :| RootAt(p, x, n, b);
      BucketIs(p, x, n, b);
      assert RootAt(p', x, n, b);
      BucketIs(p', x, n, b);
    }
  }

  lemma {:induction false} UpStays(p: Parents, x: Id, n: nat)
    ensures Up(p, x, n).Some? ==> Up(p, x, n).value in p
    decreases n
  {
    if n > 0 && x in p && p[x].Some? {
      UpStays(p, p[x].value, n - 1);
    }
  }

  /** What the repository must hold for a path to resolve to the right bucket. */
  ghost predicate CacheIsTrue(docs: Docs, cache: map<(Option<Id>, string), Id>) {
    forall k :: k in cache ==> IsChild(docs, k.0, k.1, cache[k])
  }

  /** `d` is the container of this name in this parent. */
  predicate IsChild(docs: Docs, parent: Option<Id>, name: string, d: Id) {
    d in docs && docs[d].isContainer && docs[d].parent == parent && docs[d].name == name
  }

  lemma BackfillKeepsChildren(docs: Docs, cache: map<(Option<Id>, string), Id>)
    requires CacheIsTrue(docs, cache)
    ensures CacheIsTrue(Backfilled(docs), cache)
  {
    forall k | k in cache
      ensures IsChild(Backfilled(docs), k.0, k.1, cache[k])
    {
      assert IsChild(docs, k.0, k.1, cache[k]);
    }
  }

  /** Where a path leads: down one container per name, empty names skipped. */
  ghost predicate Leads(docs: Docs, from: Option<Id>, path: seq<string>, to: Option<Id>)
    decreases |path|
  {
    if path == [] then to == from
    else if path[0] == "" then Leads(docs, from, path[1..], to)
    else exists d :: IsChild(docs, from, path[0], d) && Leads(docs, Some(d), path[1..], to)
  }

  /** The top-level container and the bucket of where a walk has got to. */
  ghost predicate Standing(docs: Docs, container: Option<Id>, bucket: Option<Id>) {
    && (container.None? <==> bucket.None?)
    && (container.Some? ==> container.value in docs && docs[container.value].isContainer && Bucket(ParentsOf(docs), container.value) == bucket)
  }

  lemma StepDown(docs: Docs, container: Option<Id>, bucket: Option<Id>, name: string, d: Id)
    requires Standing(docs, container, bucket) && IsChild(docs, container, name, d)
    ensures Standing(docs, Some(d), if bucket.Some? then bucket else Some(d))
  {
    if container.None? {
      BucketOfRoot(ParentsOf(docs), d);
    } else {
      BucketOfChild(ParentsOf(docs), d);
    }
  }

  /** Adding a stamped container keeps every stamp true, its own included. */
  lemma InsertIsTrue(docs: Docs, container: Option<Id>, bucket: Option<Id>, name: string, id: Id)
    requires TrulyStamped(docs) && Standing(docs, container, bucket) && Unused(docs, id)
    ensures var docs' := docs[id := Doc(container, name, true, Is(if bucket.Some? then bucket.value else id))];
            TrulyStamped(docs') && Standing(docs', container, bucket)
  {
    var docs' := docs[id := Doc(container, name, true, Is(if bucket.Some? then bucket.value else id))];
    var p, p' := ParentsOf(docs), ParentsOf(docs');
    assert p' == p[id := container];
    forall x | x in p
      ensures Bucket(p', x) == Bucket(p, x)
    {
      FreshKeepsBucket(p, id, container, x);
    }
    StepDown(docs', container, bucket, name, id);
  }

  datatype Outcome = Found(container: Option<Id>, bucket: Option<Id>) | NotFound | NotADirectory | Failed

  lemma {:induction false} LeadsOn(docs: Docs, from: Option<Id>, path: seq<string>, mid: Option<Id>, name: string, d: Id)
    requires Leads(docs, from, path, mid) && name != "" && IsChild(docs, mid, name, d)
    ensures Leads(docs, from, path + [name], Some(d))
    decreases |path|
  {
    if path == [] {
      assert (path + [name])[1..] == [];
      assert Leads(docs, Some(d), [], Some(d));
    } else {
      assert (path + [name])[1..] == path[1..] + [name];
      if path[0] == "" {
        LeadsOn(docs, from, path[1..], mid, name, d);
      } else {
        var c :| IsChild(docs, from, path[0], c) && Leads(docs, Some(c), path[1..], mid);
        LeadsOn(docs, Some(c), path[1..], mid, name, d);
      }
    }
  }

  lemma {:induction false} LeadsSkips(docs: Docs, from: Option<Id>, path: seq<string>, to: Option<Id>)
    requires Leads(docs, from, path, to)
    ensures Leads(docs, from, path + [""], to)
    decreases |path|
  {
    if path == [] {
      assert (path + [""])[1..] == [];
    } else {
      assert (path + [""])[1..] == path[1..] + [""];
      if path[0] == "" {
        LeadsSkips(docs, from, path[1..], to);
      } else {
        var c :| IsChild(docs, from, path[0], c) && Leads(docs, Some(c), path[1..], to);
        LeadsSkips(docs, Some(c), path[1..], to);
      }
    }
  }

  /** Nothing that was there has changed. */
  ghost predicate Extends(docs: Docs, docs': Docs) {
    forall d :: d in docs ==> d in docs' && docs'[d] == docs[d]
  }

  lemma {:induction false} LeadsStays(docs: Docs, docs': Docs, from: Option<Id>, path: seq<string>, to: Option<Id>)
    requires Leads(docs, from, path, to) && Extends(docs, docs')
    ensures Leads(docs', from, path, to)
    decreases |path|
  {
    if path != [] {
      if path[0] == "" {
        LeadsStays(docs, docs', from, path[1..], to);
      } else {
        var c :| IsChild(docs, from, path[0], c) && Leads(docs, Some(c), path[1..], to);
        LeadsStays(docs, docs', Some(c), path[1..], to);
        assert IsChild(docs', from, path[0], c);
      }
    }
  }

  /** The only documents that are new are containers, created on this path, that carry their bucket. */
  ghost predicate OnlyStampedContainers(docs: Docs, docs': Docs, ids: seq<Id>) {
    forall d :: d in docs' && d !in docs ==> d in ids && docs'[d].isContainer && docs'[d].bucket.Is?
  }

  /** No two documents have the same name in the same container. */
  ghost predicate NoTwins(docs: Docs) {
    forall d, e :: d in docs && e in docs && docs[d].parent == docs[e].parent && docs[d].name == docs[e].name ==> d == e
  }

  /** Then a path leads to one place at most. */
  lemma {:induction false} LeadsToOne(docs: Docs, from: Option<Id>, path: seq<string>, to: Option<Id>, to': Option<Id>)
    requires NoTwins(docs) && Leads(docs, from, path, to) && Leads(docs, from, path, to')
    ensures to == to'
    decreases |path|
  {
    if path != [] {
      if path[0] == "" {
        LeadsToOne(docs, from, path[1..], to, to');
      } else {
        var c :| IsChild(docs, from, path[0], c) && Leads(docs, Some(c), path[1..], to);
        var c' :| IsChild(docs, from, path[0], c') && Leads(docs, Some(c'), path[1..], to');
        LeadsToOne(docs, Some(c), path[1..], to, to');
      }
    }
  }

  /** There is a document of this name in this container. */
  ghost predicate Taken(docs: Docs, parent: Option<Id>, name: string) {
    exists d :: d in docs && docs[d].parent == parent && docs[d].name == name
  }

  /** Nothing is in this container. */
  ghost predicate IsEmpty(docs: Docs, container: Option<Id>) {
    forall d :: d in docs ==> docs[d].parent != container
  }

  /** The rest of the path, if it leads on from here, leads on from the child that is next. */
  lemma NextOnThePath(docs: Docs, at: Option<Id>, path: seq<string>, i: nat, to: Option<Id>, d: Id)
    requires i < |path| && path[i] != "" && NoTwins(docs) && Leads(docs, at, path[i..], to) && IsChild(docs, at, path[i], d)
    ensures Leads(docs, Some(d), path[i + 1..], to)
  {
    assert path[i..][1..] == path[i + 1..];
    var c :| IsChild(docs, at, path[i], c) && Leads(docs, Some(c), path[i + 1..], to);
  }

  /** A container made where nothing had its name has no twin, and nothing in it. */
  lemma MadeOnce(docs: Docs, docs': Docs, container: Option<Id>, name: string, id: Id)
    requires docs' == docs || (NewContainer(docs, docs', id, container) && docs'[id].name == name && !Taken(docs, container, name) && Unused(docs, id))
    ensures NoTwins(docs) ==> NoTwins(docs')
    ensures docs' != docs && container != Some(id) ==> IsEmpty(docs', Some(id))
  {
  }

  /** Where the path leads somewhere, nothing has been made so far and the rest of it leads there from here. */
  ghost predicate OnlyFollows(was: Docs, docs: Docs, path: seq<string>, i: nat, at: Option<Id>)
    requires i <= |path|
  {
    forall to :: Leads(was, None, path, to) ==> docs == was && Leads(was, at, path[i..], to)
  }

  lemma SkipsOn(was: Docs, docs: Docs, path: seq<string>, i: nat, at: Option<Id>)
    requires i < |path| && path[i] == ""
    ensures OnlyFollows(was, docs, path, i, at) ==> OnlyFollows(was, docs, path, i + 1, at)
  {
    assert path[i..][1..] == path[i + 1..];
  }

  lemma FollowsOn(was: Docs, before: Docs, docs: Docs, path: seq<string>, i: nat, at: Option<Id>, out: Outcome)
    requires i < |path| && path[i] != "" && NoTwins(was) && OnlyFollows(was, before, path, i, at)
    requires before == was && (exists d :: IsChild(was, at, path[i], d)) ==> out.Found? && docs == was
    requires out.Found? ==> out.container.Some? && IsChild(docs, at, path[i], out.container.value)
    ensures if out.Found? then OnlyFollows(was, docs, path, i + 1, out.container) else forall to :: !Leads(was, None, path, to)
  {
    forall to | Leads(was, None, path, to)
      ensures out.Found? && docs == was && Leads(was, out.container, path[i + 1..], to)
    {
      assert path[i..][1..] == path[i + 1..];
      var c :| IsChild(was, at, path[i], c) && Leads(was, Some(c), path[i + 1..], to);
      NextOnThePath(was, at, path, i, to, out.container.value);
    }
  }

  /** One document with this parent and name, if there is one. */
  method FindOne(docs: Docs, parent: Option<Id>, name: string) returns (found: Option<Id>)
    ensures found.Some? ==> found.value in docs && docs[found.value].parent == parent && docs[found.value].name == name
    ensures found.None? ==> forall d :: d in docs ==> !(docs[d].parent == parent && docs[d].name == name)
  {
    if d :| d in docs && docs[d].parent == parent && docs[d].name == name {
      found := Some(d);
    } else {
      found := None;
    }
  }

  /** One stamped container more. */
  ghost predicate NewContainer(docs: Docs, docs': Docs, id: Id, parent: Option<Id>) {
    && id in docs' && docs' == docs[id := docs'[id]]
    && docs'[id].isContainer && docs'[id].bucket.Is? && docs'[id].parent == parent
  }

  /** The state of a walk that has taken the first `i` names of a path. */
  ghost predicate Walked(was: Docs, docs: Docs, ids: seq<Id>, path: seq<string>, i: nat, container: Option<Id>, bucket: Option<Id>)
    requires i <= |path|
  {
    && Extends(was, docs) && OnlyStampedContainers(was, docs, ids)
    && (forall j :: i <= j < |ids| ==> Unused(docs, ids[j]))
    && Standing(docs, container, bucket) && Leads(docs, None, path[..i], container)
  }

  lemma WalkOn(was: Docs, docs: Docs, docs': Docs, ids: seq<Id>, path: seq<string>, i: nat,
               at: Option<Id>, bucket: Option<Id>, d: Id, bucket': Option<Id>)
    requires i < |path| <= |ids| && path[i] != "" && forall i, j :: 0 <= i < j < |ids| ==> ids[i] != ids[j]
    requires Walked(was, docs, ids, path, i, at, bucket)
    requires docs' == docs || NewContainer(docs, docs', ids[i], at)
    requires IsChild(docs', at, path[i], d) && Standing(docs', Some(d), bucket')
    ensures Walked(was, docs', ids, path, i + 1, Some(d), bucket')
  {
    assert Unused(docs, ids[i]);
    assert path[..i + 1] == path[..i] + [path[i]];
    LeadsStays(docs, docs', None, path[..i], at);
    LeadsOn(docs', None, path[..i], at, path[i], d);
    forall j | i + 1 <= j < |ids|
      ensures Unused(docs', ids[j])
    {
      assert Unused(docs, ids[j]);
    }
  }

  lemma WalkSkips(was: Docs, docs: Docs, ids: seq<Id>, path: seq<string>, i: nat, at: Option<Id>, bucket: Option<Id>)
    requires i < |path| && path[i] == "" && Walked(was, docs, ids, path, i, at, bucket)
    ensures Walked(was, docs, ids, path, i + 1, at, bucket)
  {
    assert path[..i + 1] == path[..i] + [path[i]];
    LeadsSkips(docs, None, path[..i], at);
  }

  class ContentRepository {
    var docs: Docs
    var cache: map<(Option<Id>, string), Id>

    ghost predicate Valid()
      reads this
    {
      TrulyStamped(docs) && CacheIsTrue(docs, cache)
    }

    constructor (docs: Docs)
      requires TrulyStamped(docs)
      ensures Valid() && this.docs == docs
    {
      this.docs, cache := docs, map[];
    }

    /** One step down a path: from the cache, from the collection, or into a container made and stamped on the spot. */
    method Descend(container: Option<Id>, bucket: Option<Id>, name: string, create: bool, skipLookup: bool, id: Id, works: bool)
      returns (out: Outcome)
      requires Valid() && Standing(docs, container, bucket) && Unused(docs, id)
      modifies this
      ensures Valid()
      ensures docs == old(docs) || (create && out.Found? && NewContainer(old(docs), docs, id, container))
      ensures out.Found? ==> out.container.Some? && IsChild(docs, container, name, out.container.value) && Standing(docs, out.container, out.bucket)
      ensures out.Found? && bucket.Some? ==> out.bucket == bucket
      // A container is made only where the lookup, if there was one, found nothing of that name.
      ensures docs != old(docs) ==> skipLookup || !Taken(old(docs), container, name)
      ensures docs != old(docs) ==> out.container == Some(id) && docs[id].name == name
      // Without a lookup to skip, what is there is found.
      ensures NoTwins(docs) && !skipLookup && (exists d :: IsChild(old(docs), container, name, d)) ==> out.Found? && docs == old(docs)
      ensures out.NotFound? ==> !create
      ensures out.Failed? ==> !works
      ensures docs != old(docs) ==> works
      // What was found is remembered, and what is remembered is found.
      ensures out.Found? ==> (container, name) in cache && out.container == Some(cache[(container, name)])
      ensures (container, name) in old(cache) ==> out.Found? && docs == old(docs) && cache == old(cache)
      ensures out.NotADirectory? ==> exists d :: d in docs && docs[d].parent == container && docs[d].name == name && !docs[d].isContainer
    {
      if (container, name) in cache {
        var d := cache[(container, name)];
        StepDown(docs, container, bucket, name, d);
        return Found(Some(d), if bucket.Some? then bucket else Some(d));
      }
      var found := None;
      if !skipLookup {
        found := FindOne(docs, container, name);
      }
      if found.None? {
        if !create {
          return NotFound;
        }
        if !works {
          return Failed;
        }
        InsertIsTrue(docs, container, bucket, name, id);
        assert id !in docs;
        docs := docs[id := Doc(container, name, true, Is(if bucket.Some? then bucket.value else id))];
        found := Some(id);
      } else if !docs[found.value].isContainer {
        return NotADirectory;
      }
      cache := cache[(container, name) := found.value];
      StepDown(docs, container, bucket, name, found.value);
      out := Found(found, if bucket.Some? then bucket else found);
    }

    /** One name of a path. */
    method Step(ghost was: Docs, path: seq<string>, create: bool, ids: seq<Id>, works: nat -> bool, i: nat,
                container: Option<Id>, bucket: Option<Id>, skipLookup: bool)
      returns (out: Outcome, skip: bool)
      requires Valid() && i < |path| <= |ids| && (forall i, j :: 0 <= i < j < |ids| ==> ids[i] != ids[j])
      requires Walked(was, docs, ids, path, i, container, bucket)
      requires skipLookup ==> IsEmpty(docs, container)
      requires docs == was ==> !skipLookup
      modifies this
      ensures Valid() && Extends(was, docs) && OnlyStampedContainers(was, docs, ids)
      ensures out.Found? ==> Walked(was, docs, ids, path, i + 1, out.container, out.bucket)
      ensures !create ==> docs == old(docs)
      ensures NoTwins(old(docs)) ==> NoTwins(docs)
      ensures out.Found? && skip ==> IsEmpty(docs, out.container)
      ensures docs == was ==> !skip
      ensures out.NotFound? ==> !create
      ensures out.Failed? ==> !works(i)
      ensures NoTwins(was) && NoTwins(old(docs)) && OnlyFollows(was, old(docs), path, i, container) ==>
                (if out.Found? then OnlyFollows(was, docs, path, i + 1, out.container) else forall to :: !Leads(was, None, path, to))
    {
      if path[i] == "" {
        WalkSkips(was, docs, ids, path, i, container, bucket);
        SkipsOn(was, docs, path, i, container);
        return Found(container, bucket), skipLookup;
      }
      ghost var before := docs;
      assert Unused(docs, ids[i]);
      out := Descend(container, bucket, path[i], create, skipLookup, ids[i], works(i));
      skip := skipLookup;
      MadeOnce(before, docs, container, path[i], ids[i]);
      if out.Found? {
        WalkOn(was, before, docs, ids, path, i, container, bucket, out.container.value, out.bucket);
        skip := skipLookup || ids[i] == out.container.value;
      }
      if NoTwins(was) && NoTwins(before) && OnlyFollows(was, before, path, i, container) {
        FollowsOn(was, before, docs, path, i, container, out);
      }
    }

    /**
      Resolve a path, creating what is missing if asked to. However it ends, every stamp in the
      collection is the root ancestor of its container, and whatever was created carries one. The
      container found is where the path leads, and the bucket found is the bucket of it.
     */
    method ResolveContainerWithBucket(path: seq<string>, create: bool, ids: seq<Id>, works: nat -> bool) returns (out: Outcome)
      requires Valid() && |ids| >= |path|
      requires forall i :: 0 <= i < |ids| ==> Unused(docs, ids[i])
      requires forall i, j :: 0 <= i < j < |ids| ==> ids[i] != ids[j]
      modifies this
      ensures Valid() && Extends(old(docs), docs) && OnlyStampedContainers(old(docs), docs, ids)
      ensures out.Found? ==> Leads(docs, None, path, out.container) && Standing(docs, out.container, out.bucket)
      ensures !create ==> docs == old(docs)
      // No second container of a name is made, and a path that leads somewhere is followed without making any.
      ensures NoTwins(old(docs)) ==> NoTwins(docs)
      ensures NoTwins(old(docs)) ==> forall to :: Leads(old(docs), None, path, to) ==> out.Found? && out.container == to && docs == old(docs)
      ensures out.NotFound? ==> !create
      ensures out.Failed? ==> exists i: nat :: i < |path| && !works(i)
    {
      ghost var was := docs;
      out := Found(None, None);
      var skipLookup := false;
      var i := 0;
      assert path[0..] == path;
      while i < |path|
        invariant 0 <= i <= |path| && out.Found? && Valid()
        invariant Walked(was, docs, ids, path, i, out.container, out.bucket)
        invariant !create ==> docs == was
        invariant NoTwins(was) ==> NoTwins(docs)
        invariant skipLookup ==> IsEmpty(docs, out.container)
        invariant docs == was ==> !skipLookup
        invariant NoTwins(was) ==> OnlyFollows(was, docs, path, i, out.container)
      {
        out, skipLookup := Step(was, path, create, ids, works, i, out.container, out.bucket, skipLookup);
        if !out.Found? {
          return;
        }
        i := i + 1;
      }
      assert path[..i] == path;
    }

    /** Fill in what is missing, or count it. */
    method BackfillBucketIds(apply: bool, batchSize: nat) returns (counts: Counts)
      requires Valid() && batchSize >= 1
      modifies this`docs
      ensures Valid()
      ensures docs == if apply then Backfilled(old(docs)) else old(docs)
      ensures counts == Counts(|StampableContainers(old(docs))|, |StampableObjects(old(docs))|, |Unresolvable(old(docs))|)
    {
      ghost var before := docs;
      var after, c := Backfill(docs, apply, batchSize);
      BackfillIsTrue(before);
      BackfillKeepsChildren(before, cache);
      docs, counts := after, c;
    }
  }
}
