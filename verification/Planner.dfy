/**
  Choosing the volumes of a new object: the freest first, one bus group after the other, round and
  round. That order is optimal: no other choice of as many volumes puts fewer slices at risk in the
  group it leans on most.
 */
module Planner {
  import opened Prelude

  /** `free` is what is free less what is spoken for. Volumes without a group share one. */
  datatype Volume = Volume(id: nat, group: Option<nat>, free: int)

  datatype Group = Group(key: Option<nat>, members: seq<Volume>)

  ghost function Elements<T>(xs: seq<T>): set<T> {
    set x | x in xs
  }

  ghost function OfGroup(s: set<Volume>, key: Option<nat>): set<Volume> {
    set v | v in s && v.group == key
  }

  /** How many of the chosen volumes are in one group. */
  ghost function Load(s: set<Volume>, key: Option<nat>): nat {
    |OfGroup(s, key)|
  }

  // ---------------------------------------------------------------------------------------------
  // What a good choice is.

  /** No group is used more than one deeper than a group that has a volume to spare. */
  ghost predicate Balanced(all: set<Volume>, chosen: set<Volume>) {
    forall v, key :: v in all && v !in chosen ==> Load(chosen, key) <= Load(chosen, v.group) + 1
  }

  /** Within each group the freest are taken. */
  ghost predicate Freest(all: set<Volume>, chosen: set<Volume>) {
    forall c, v :: c in chosen && v in all && v !in chosen && v.group == c.group ==> c.free >= v.free
  }

  /** Some group of `other` is used at least as deeply as any group of `chosen`. */
  ghost predicate NoBetter(chosen: set<Volume>, other: set<Volume>) {
    exists key :: forall k :: Load(chosen, k) <= Load(other, key)
  }

  lemma SplitByGroup(s: set<Volume>, key: Option<nat>)
    ensures |s| == Load(s, key) + |s - OfGroup(s, key)|
    ensures forall k :: k != key ==> OfGroup(s - OfGroup(s, key), k) == OfGroup(s, k)
    ensures OfGroup(s - OfGroup(s, key), key) == {}
  {
  }

  /** A set that has no more of any group has no more altogether. */
  lemma {:induction false} CountByGroup(a: set<Volume>, b: set<Volume>)
    requires forall k :: Load(a, k) <= Load(b, k)
    ensures |a| <= |b|
    decreases |a|
  {
    if a != {} {
      var v :| v in a;
      var key := v.group;
      SplitByGroup(a, key);
      SplitByGroup(b, key);
      assert v in OfGroup(a, key);
      var a', b' := a - OfGroup(a, key), b - OfGroup(b, key);
      forall k
        ensures Load(a', k) <= Load(b', k)
      {
        assert Load(a, k) <= Load(b, k);
        assert k != key ==> OfGroup(a', k) == OfGroup(a, k) && OfGroup(b', k) == OfGroup(b, k);
      }
      CountByGroup(a', b');
    }
  }

  lemma CountByGroupStrictly(a: set<Volume>, b: set<Volume>, key: Option<nat>)
    requires forall k :: Load(a, k) <= Load(b, k)
    requires Load(a, key) < Load(b, key)
    ensures |a| < |b|
  {
    SplitByGroup(a, key);
    SplitByGroup(b, key);
    var a', b' := a - OfGroup(a, key), b - OfGroup(b, key);
    forall k
      ensures Load(a', k) <= Load(b', k)
    {
      assert Load(a, k) <= Load(b, k);
      assert k != key ==> OfGroup(a', k) == OfGroup(a, k) && OfGroup(b', k) == OfGroup(b, k);
    }
    CountByGroup(a', b');
  }

  /** A group used as deeply as any, if there is one at all. */
  lemma {:induction false} Deepest(s: set<Volume>) returns (key: Option<nat>)
    ensures forall k :: Load(s, k) <= Load(s, key)
    decreases |s|
  {
    if s == {} {
      key := None;
      assert forall k :: OfGroup(s, k) == {};
    } else {
      var v :| v in s;
      var rest := s - OfGroup(s, v.group);
      SplitByGroup(s, v.group);
      assert v in OfGroup(s, v.group);
      var other := Deepest(rest);
      key := if Load(rest, other) > Load(s, v.group) then other else v.group;
      forall k
        ensures Load(s, k) <= Load(s, key)
      {
        assert Load(rest, k) <= Load(rest, other);
        assert k != v.group ==> OfGroup(rest, k) == OfGroup(s, k);
        assert other != v.group ==> OfGroup(rest, other) == OfGroup(s, other);
      }
    }
  }

  /** A balanced choice is optimal: every choice of as many volumes leans on some group at least as hard. */
  lemma BalancedIsOptimal(all: set<Volume>, chosen: set<Volume>, other: set<Volume>)
    requires Balanced(all, chosen) && chosen <= all && other <= all && |other| == |chosen|
    ensures NoBetter(chosen, other)
  {
    var worst := Deepest(chosen);
    var key := Deepest(other);
    if Load(other, key) < Load(chosen, worst) {
      forall k
        ensures Load(other, k) <= Load(chosen, k)
      {
        assert Load(other, k) <= Load(other, key);
        if v :| v in all && v !in chosen && v.group == k {
          assert Load(chosen, worst) <= Load(chosen, v.group) + 1;
        } else {
          assert OfGroup(other, k) <= OfGroup(chosen, k);
          SubsetSize(OfGroup(other, k), OfGroup(chosen, k));
        }
      }
      assert Load(other, worst) <= Load(other, key);
      CountByGroupStrictly(other, chosen, worst);
    } else {
      forall k
        ensures Load(chosen, k) <= Load(other, key)
      {
        assert Load(chosen, k) <= Load(chosen, worst);
      }
    }
  }

  // ---------------------------------------------------------------------------------------------
  // Sorting a group, the freest first.

  ghost predicate SortedByFree(vs: seq<Volume>) {
    forall i, j :: 0 <= i < j < |vs| ==> vs[i].free >= vs[j].free
  }

  ghost predicate AtLeast(vs: seq<Volume>, free: int) {
    forall v :: v in vs ==> v.free >= free
  }

  ghost predicate AtMost(vs: seq<Volume>, free: int) {
    forall v :: v in vs ==> v.free <= free
  }

  /** Put one volume behind every volume at least as free. */
  function InsertByFree(vs: seq<Volume>, v: Volume): (more: seq<Volume>)
    ensures multiset(more) == multiset(vs) + multiset{v}
  {
    if vs == [] || vs[0].free < v.free then [v] + vs
    else
      assert vs == [vs[0]] + vs[1..];
      [vs[0]] + InsertByFree(vs[1..], v)
  }

  lemma {:induction false} InsertKeepsOrder(vs: seq<Volume>, v: Volume)
    requires SortedByFree(vs)
    ensures SortedByFree(InsertByFree(vs, v))
  {
    if vs == [] || vs[0].free < v.free {
      SortedJoin([v], vs, v.free);
    } else {
      InsertKeepsOrder(vs[1..], v);
      var rest := InsertByFree(vs[1..], v);
      forall x | x in rest
        ensures x.free <= vs[0].free
      {
        assert x in multiset(rest);
        assert x in vs[1..] || x == v;
      }
      SortedJoin([vs[0]], rest, vs[0].free);
    }
  }

  lemma SortedJoin(front: seq<Volume>, back: seq<Volume>, free: int)
    requires SortedByFree(front) && SortedByFree(back) && AtLeast(front, free) && AtMost(back, free)
    ensures SortedByFree(front + back)
  {
  }

  method SortByFree(vs: seq<Volume>) returns (sorted: seq<Volume>)
    ensures SortedByFree(sorted) && multiset(sorted) == multiset(vs)
  {
    sorted := [];
    var i := 0;
    while i < |vs|
      invariant 0 <= i <= |vs|
      invariant SortedByFree(sorted) && multiset(sorted) == multiset(vs[..i])
    {
      assert vs[..i + 1] == vs[..i] + [vs[i]];
      InsertKeepsOrder(sorted, vs[i]);
      sorted := InsertByFree(sorted, vs[i]);
      i := i + 1;
    }
    assert vs[..i] == vs;
  }

  // ---------------------------------------------------------------------------------------------
  // Grouping, and taking one of each group in turn.

  ghost predicate GroupIsRight(all: set<Volume>, g: Group) {
    Distinct(g.members) && forall v :: v in g.members <==> v in all && v.group == g.key
  }

  /** One group for every key there is, each with exactly its volumes. */
  ghost predicate WellGrouped(all: set<Volume>, groups: seq<Group>) {
    && (forall i, j :: 0 <= i < j < |groups| ==> groups[i].key != groups[j].key)
    && (forall i :: 0 <= i < |groups| ==> GroupIsRight(all, groups[i]))
    && (forall v :: v in all ==> exists i :: 0 <= i < |groups| && groups[i].key == v.group)
  }

  /** The index of a key's group, or the number of groups. */
  method FindGroup(groups: seq<Group>, key: Option<nat>) returns (i: nat)
    ensures i <= |groups| && (i < |groups| ==> groups[i].key == key)
    ensures i == |groups| ==> forall j :: 0 <= j < |groups| ==> groups[j].key != key
  {
    i := 0;
    while i < |groups| && groups[i].key != key
      invariant i <= |groups|
      invariant forall j :: 0 <= j < i ==> groups[j].key != key
    {
      i := i + 1;
    }
  }

  lemma JoinGroup(all: set<Volume>, groups: seq<Group>, v: Volume, i: nat)
    requires WellGrouped(all, groups) && v !in all && i < |groups| && groups[i].key == v.group
    ensures WellGrouped(all + {v}, groups[i := Group(v.group, groups[i].members + [v])])
  {
    var groups' := groups[i := Group(v.group, groups[i].members + [v])];
    forall j | 0 <= j < |groups'|
      ensures GroupIsRight(all + {v}, groups'[j]) && groups'[j].key == groups[j].key
    {
      assert GroupIsRight(all, groups[j]);
      assert j != i ==> groups[j].key != v.group;
    }
    forall u | u in all + {v}
      ensures exists j :: 0 <= j < |groups'| && groups'[j].key == u.group
    {
      var j :| 0 <= j < |groups| && groups[j].key == u.group;
      assert groups'[j].key == u.group;
    }
  }

  lemma NewGroup(all: set<Volume>, groups: seq<Group>, v: Volume)
    requires WellGrouped(all, groups) && v !in all && forall j :: 0 <= j < |groups| ==> groups[j].key != v.group
    ensures WellGrouped(all + {v}, groups + [Group(v.group, [v])])
  {
    var groups' := groups + [Group(v.group, [v])];
    assert forall u :: u in all ==> u.group != v.group;
    forall j | 0 <= j < |groups|
      ensures GroupIsRight(all + {v}, groups'[j])
    {
      assert GroupIsRight(all, groups[j]);
    }
    assert GroupIsRight(all + {v}, groups'[|groups|]);
    forall u | u in all + {v}
      ensures exists j :: 0 <= j < |groups'| && groups'[j].key == u.group
    {
      if u in all {
        var j :| 0 <= j < |groups| && groups[j].key == u.group;
        assert groups'[j].key == u.group;
      } else {
        assert groups'[|groups|].key == u.group;
      }
    }
  }

  method GroupVolumes(volumes: seq<Volume>) returns (groups: seq<Group>)
    requires Distinct(volumes)
    ensures WellGrouped(Elements(volumes), groups)
  {
    groups := [];
    var k := 0;
    while k < |volumes|
      invariant 0 <= k <= |volumes|
      invariant WellGrouped(Elements(volumes[..k]), groups)
    {
      var v := volumes[k];
      assert v !in volumes[..k];
      assert Elements(volumes[..k + 1]) == Elements(volumes[..k]) + {v};
      var i := FindGroup(groups, v.group);
      if i < |groups| {
        JoinGroup(Elements(volumes[..k]), groups, v, i);
        groups := groups[i := Group(v.group, groups[i].members + [v])];
      } else {
        NewGroup(Elements(volumes[..k]), groups, v);
        groups := groups + [Group(v.group, [v])];
      }
      k := k + 1;
    }
    assert volumes[..k] == volumes;
  }

  ghost predicate AllSorted(groups: seq<Group>, i: nat)
    requires i <= |groups|
  {
    forall j :: 0 <= j < i ==> SortedByFree(groups[j].members)
  }

  lemma SortedGroupIsRight(all: set<Volume>, g: Group, sorted: seq<Volume>)
    requires GroupIsRight(all, g) && multiset(sorted) == multiset(g.members)
    ensures GroupIsRight(all, Group(g.key, sorted))
  {
    assert forall v :: v in sorted <==> v in multiset(g.members);
    DistinctByMultiset(g.members, sorted);
  }

  lemma DistinctByMultiset<T>(xs: seq<T>, ys: seq<T>)
    requires Distinct(xs) && multiset(xs) == multiset(ys)
    ensures Distinct(ys)
  {
    forall i, j | 0 <= i < j < |ys|
      ensures ys[i] != ys[j]
    {
      if ys[i] == ys[j] {
        assert ys == ys[..i] + [ys[i]] + ys[i + 1..j] + [ys[j]] + ys[j + 1..];
        assert multiset(ys)[ys[i]] >= 2;
        AtMostOnce(xs, ys[i]);
      }
    }
  }

  lemma {:induction false} AtMostOnce<T>(xs: seq<T>, x: T)
    requires Distinct(xs)
    ensures multiset(xs)[x] <= 1
  {
    if xs != [] {
      var front, last := xs[..|xs| - 1], xs[|xs| - 1];
      assert xs == front + [last];
      AtMostOnce(front, x);
      assert last !in front;
      assert last !in multiset(front);
    }
  }

  method SortGroups(all_: seq<Volume>, groups: seq<Group>) returns (sorted: seq<Group>)
    requires WellGrouped(Elements(all_), groups)
    ensures WellGrouped(Elements(all_), sorted) && AllSorted(sorted, |sorted|)
  {
    ghost var all := Elements(all_);
    sorted := groups;
    var i := 0;
    while i < |sorted|
      invariant 0 <= i <= |sorted| == |groups|
      invariant WellGrouped(all, sorted) && AllSorted(sorted, i)
      invariant forall j :: 0 <= j < |groups| ==> sorted[j].key == groups[j].key
    {
      var members := SortByFree(sorted[i].members);
      SortedGroupIsRight(all, sorted[i], members);
      ghost var before := sorted;
      sorted := sorted[i := Group(sorted[i].key, members)];
      assert forall j :: 0 <= j < |sorted| ==> sorted[j].key == before[j].key;
      forall j | 0 <= j < |sorted|
        ensures GroupIsRight(all, sorted[j])
      {
        assert GroupIsRight(all, before[j]);
      }
      i := i + 1;
    }
  }

  // ---------------------------------------------------------------------------------------------

  /** From each group, the first `counts[i]` members have been taken, and nothing else. */
  ghost predicate TakenFrom(groups: seq<Group>, counts: seq<nat>, taken: seq<Volume>) {
    && |counts| == |groups|
    && (forall i :: 0 <= i < |groups| ==> counts[i] <= |groups[i].members|)
    && Distinct(taken)
    && (forall v :: v in taken ==> exists i :: 0 <= i < |groups| && groups[i].key == v.group)
    && (forall i, k :: 0 <= i < |groups| && 0 <= k < |groups[i].members| ==> (groups[i].members[k] in taken <==> k < counts[i]))
  }

  /** In the course of a round: the groups before `at` have had their turn, the others have not. */
  ghost predicate Level(groups: seq<Group>, counts: seq<nat>, round: nat, at: nat) {
    && |counts| == |groups|
    && forall i :: 0 <= i < |groups| ==>
         var turns := if i < at then round + 1 else round;
         counts[i] <= turns && (counts[i] < |groups[i].members| ==> counts[i] == turns)
  }

  lemma {:induction false} CardOfDistinct<T>(xs: seq<T>)
    requires Distinct(xs)
    ensures |Elements(xs)| == |xs|
  {
    if xs != [] {
      var front, last := xs[..|xs| - 1], xs[|xs| - 1];
      CardOfDistinct(front);
      assert last !in front;
      assert Elements(xs) == Elements(front) + {last};
    }
  }

  /** The load of a group is how many of its members have been taken. */
  lemma LoadIsCount(all: set<Volume>, groups: seq<Group>, counts: seq<nat>, taken: seq<Volume>, i: nat)
    requires WellGrouped(all, groups) && TakenFrom(groups, counts, taken) && i < |groups| && Elements(taken) <= all
    ensures Load(Elements(taken), groups[i].key) == counts[i]
  {
    var g := groups[i];
    assert GroupIsRight(all, g);
    var first := g.members[..counts[i]];
    forall v
      ensures v in OfGroup(Elements(taken), g.key) <==> v in first
    {
      if v in OfGroup(Elements(taken), g.key) {
        assert v in all && v in g.members;
        var k :| 0 <= k < |g.members| && g.members[k] == v;
        assert first[k] == v;
      }
    }
    assert OfGroup(Elements(taken), g.key) == Elements(first);
    CardOfDistinct(first);
  }

  lemma LoadIsAtMost(all: set<Volume>, groups: seq<Group>, counts: seq<nat>, taken: seq<Volume>, round: nat, at: nat, key: Option<nat>)
    requires WellGrouped(all, groups) && TakenFrom(groups, counts, taken) && Elements(taken) <= all && Level(groups, counts, round, at)
    ensures Load(Elements(taken), key) <= round + 1
  {
    if i :| 0 <= i < |groups| && groups[i].key == key {
      LoadIsCount(all, groups, counts, taken, i);
    } else {
      assert OfGroup(Elements(taken), key) == {};
    }
  }

  /** A volume not taken is behind those taken from its group. */
  lemma NotTakenYet(all: set<Volume>, groups: seq<Group>, counts: seq<nat>, taken: seq<Volume>, v: Volume) returns (i: nat, k: nat)
    requires WellGrouped(all, groups) && TakenFrom(groups, counts, taken) && v in all && v !in taken
    ensures i < |groups| && groups[i].key == v.group && counts[i] <= k < |groups[i].members| && groups[i].members[k] == v
  {
    i :| 0 <= i < |groups| && groups[i].key == v.group;
    assert GroupIsRight(all, groups[i]);
    assert v in groups[i].members;
    k :| 0 <= k < |groups[i].members| && groups[i].members[k] == v;
  }

  ghost predicate Fair(all: set<Volume>, chosen: set<Volume>) {
    chosen <= all && Balanced(all, chosen) && Freest(all, chosen)
  }

  /** At every moment of every round the choice so far is balanced, and the freest of each group. */
  lemma LevelIsFair(all: set<Volume>, groups: seq<Group>, counts: seq<nat>, taken: seq<Volume>, round: nat, at: nat)
    requires WellGrouped(all, groups) && AllSorted(groups, |groups|)
    requires TakenFrom(groups, counts, taken) && Elements(taken) <= all && Level(groups, counts, round, at)
    ensures Fair(all, Elements(taken))
  {
    var chosen := Elements(taken);
    forall v, key | v in all && v !in chosen
      ensures Load(chosen, key) <= Load(chosen, v.group) + 1
    {
      var i, k := NotTakenYet(all, groups, counts, taken, v);
      LoadIsCount(all, groups, counts, taken, i);
      LoadIsAtMost(all, groups, counts, taken, round, at, key);
    }
    forall c, v | c in chosen && v in all && v !in chosen && v.group == c.group
      ensures c.free >= v.free
    {
      var i, k := NotTakenYet(all, groups, counts, taken, v);
      assert GroupIsRight(all, groups[i]);
      assert c in groups[i].members;
      var m :| 0 <= m < |groups[i].members| && groups[i].members[m] == c;
      assert m < counts[i];
    }
  }

  /** Every prefix of the order is a fair choice. */
  ghost predicate AllFair(all: set<Volume>, order: seq<Volume>) {
    forall n :: 0 <= n <= |order| ==> Fair(all, Elements(order[..n]))
  }

  lemma OneMoreFair(all: set<Volume>, order: seq<Volume>, v: Volume)
    requires AllFair(all, order) && Fair(all, Elements(order + [v]))
    ensures AllFair(all, order + [v])
  {
    forall n | 0 <= n <= |order| + 1
      ensures Fair(all, Elements((order + [v])[..n]))
    {
      if n <= |order| {
        assert (order + [v])[..n] == order[..n];
      } else {
        assert (order + [v])[..n] == order + [v];
      }
    }
  }

  lemma TakeOne(all: set<Volume>, groups: seq<Group>, counts: seq<nat>, taken: seq<Volume>, round: nat, i: nat)
    requires WellGrouped(all, groups) && TakenFrom(groups, counts, taken) && Elements(taken) <= all
    requires i < |groups| && counts[i] < |groups[i].members| && Level(groups, counts, round, i)
    ensures var v, counts' := groups[i].members[counts[i]], counts[i := counts[i] + 1];
            && TakenFrom(groups, counts', taken + [v]) && Elements(taken + [v]) <= all
            && Level(groups, counts', round, i + 1)
  {
    var v, counts' := groups[i].members[counts[i]], counts[i := counts[i] + 1];
    assert GroupIsRight(all, groups[i]) && v in groups[i].members;
    var taken' := taken + [v];
    forall a, k | 0 <= a < |groups| && 0 <= k < |groups[a].members|
      ensures groups[a].members[k] in taken' <==> k < counts'[a]
    {
      assert GroupIsRight(all, groups[a]) && groups[a].members[k] in groups[a].members;
      if groups[a].members[k] == v {
        assert a == i;
      }
    }
  }

  /** What is left of each group. */
  ghost predicate Left(groups: seq<Group>, counts: seq<nat>, rest: seq<seq<Volume>>) {
    |rest| == |groups| == |counts| && forall i :: 0 <= i < |groups| ==>
      counts[i] <= |groups[i].members| && rest[i] == groups[i].members[counts[i]..]
  }

  /** One round: the next volume of every group that has one left. */
  method TakeRound(ghost all: set<Volume>, ghost groups: seq<Group>, ghost counts: seq<nat>, ghost round: nat,
                   rest: seq<seq<Volume>>, taken: seq<Volume>)
    returns (rest': seq<seq<Volume>>, taken': seq<Volume>, ghost counts': seq<nat>)
    requires WellGrouped(all, groups) && AllSorted(groups, |groups|) && TakenFrom(groups, counts, taken)
    requires Elements(taken) <= all && Level(groups, counts, round, 0) && Left(groups, counts, rest) && AllFair(all, taken)
    ensures TakenFrom(groups, counts', taken') && Elements(taken') <= all && Level(groups, counts', round + 1, 0)
    ensures Left(groups, counts', rest') && AllFair(all, taken')
    ensures |taken'| > |taken| || (forall i :: 0 <= i < |groups| ==> rest[i] == [])
    ensures taken <= taken'
  {
    rest', taken', counts' := rest, taken, counts;
    var i := 0;
    while i < |rest'|
      invariant 0 <= i <= |rest'|
      invariant TakenFrom(groups, counts', taken') && Elements(taken') <= all && Level(groups, counts', round, i)
      invariant Left(groups, counts', rest') && AllFair(all, taken') && taken <= taken'
      invariant forall j :: i <= j < |groups| ==> rest'[j] == rest[j]
      invariant |taken'| > |taken| || (forall j :: 0 <= j < i ==> rest[j] == [])
    {
      if rest'[i] != [] {
        var v := rest'[i][0];
        TakeOne(all, groups, counts', taken', round, i);
        counts' := counts'[i := counts'[i] + 1];
        LevelIsFair(all, groups, counts', taken' + [v], round, i + 1);
        OneMoreFair(all, taken', v);
        taken' := taken' + [v];
        rest' := rest'[i := rest'[i][1..]];
      }
      i := i + 1;
    }
  }

  /** When nothing is left, everything has been taken. */
  lemma NothingLeft(volumes: seq<Volume>, groups: seq<Group>, counts: seq<nat>, rest: seq<seq<Volume>>, taken: seq<Volume>)
    requires Distinct(volumes) && WellGrouped(Elements(volumes), groups)
    requires TakenFrom(groups, counts, taken) && Elements(taken) <= Elements(volumes) && Left(groups, counts, rest)
    requires forall i :: 0 <= i < |groups| ==> rest[i] == []
    ensures |taken| == |volumes|
  {
    forall v | v in Elements(volumes)
      ensures v in taken
    {
      if v !in taken {
        var i, k := NotTakenYet(Elements(volumes), groups, counts, taken, v);
      }
    }
    assert Elements(taken) == Elements(volumes);
    CardOfDistinct(taken);
    CardOfDistinct(volumes);
  }

  ghost predicate Permutes(order: seq<Volume>, volumes: seq<Volume>) {
    Distinct(order) && |order| == |volumes| && Elements(order) == Elements(volumes)
  }

  lemma TakenIsBounded(volumes: seq<Volume>, taken: seq<Volume>)
    requires Distinct(volumes) && Distinct(taken) && Elements(taken) <= Elements(volumes)
    ensures |taken| <= |volumes|
    ensures |taken| == |volumes| ==> Elements(taken) == Elements(volumes)
  {
    CardOfDistinct(volumes);
    CardOfDistinct(taken);
    SubsetSize(Elements(taken), Elements(volumes));
    if |taken| == |volumes| {
      SubsetSize(Elements(taken), Elements(volumes));
    }
  }

  /** Round and round the groups until every volume is placed. */
  method AlternatingOrder(volumes: seq<Volume>) returns (order: seq<Volume>)
    requires Distinct(volumes)
    ensures Permutes(order, volumes)
    ensures AllFair(Elements(volumes), order)
  {
    var unsorted := GroupVolumes(volumes);
    var groups := SortGroups(volumes, unsorted);
    ghost var all := Elements(volumes);
    ghost var counts := seq(|groups|, _ => 0);
    var rest := seq(|groups|, i requires 0 <= i < |groups| => groups[i].members);
    ghost var round := 0;
    order := [];
    LevelIsFair(all, groups, counts, [], 0, 0);
    while |order| < |volumes|
      invariant TakenFrom(groups, counts, order) && Elements(order) <= all && Level(groups, counts, round, 0)
      invariant Left(groups, counts, rest) && AllFair(all, order)
      decreases |volumes| - |order|
    {
      ghost var before := rest;
      ghost var placed := order;
      if forall i :: 0 <= i < |groups| ==> rest[i] == [] {
        NothingLeft(volumes, groups, counts, rest, order);
      }
      rest, order, counts := TakeRound(all, groups, counts, round, rest, order);
      TakenIsBounded(volumes, order);
      round := round + 1;
    }
    TakenIsBounded(volumes, order);
  }

  datatype Placement = Placement(data: seq<Volume>, parity: seq<Volume>)

  ghost function Chosen(p: Placement): set<Volume> {
    Elements(p.data + p.parity)
  }

  /** Dealing distinct volumes out in another order changes nothing about which they are. */
  lemma Shuffled(targets: seq<Volume>, shuffle: seq<nat>, dealt: seq<Volume>)
    requires Distinct(targets) && Distinct(shuffle) && |shuffle| == |targets| == |dealt|
    requires forall i :: 0 <= i < |shuffle| ==> shuffle[i] < |targets| && dealt[i] == targets[shuffle[i]]
    ensures Distinct(dealt) && Elements(dealt) == Elements(targets)
  {
    forall i, j | 0 <= i < j < |dealt|
      ensures dealt[i] != dealt[j]
    {
      assert shuffle[i] != shuffle[j];
      assert shuffle[i] < shuffle[j] || shuffle[j] < shuffle[i];
    }
    CardOfDistinct(targets);
    CardOfDistinct(dealt);
    SubsetSize(Elements(dealt), Elements(targets));
  }

  /** Take a slice's worth of space off every volume of the plan. */
  method Reserve(volumes: seq<Volume>, chosen: seq<Volume>, sliceSize: int) returns (after: seq<Volume>)
    ensures |after| == |volumes|
    ensures forall i :: 0 <= i < |volumes| ==>
              after[i] == if volumes[i] in chosen then volumes[i].(free := volumes[i].free - sliceSize) else volumes[i]
  {
    after := [];
    var i := 0;
    while i < |volumes|
      invariant 0 <= i <= |volumes| && |after| == i
      invariant forall j :: 0 <= j < i ==>
                  after[j] == if volumes[j] in chosen then volumes[j].(free := volumes[j].free - sliceSize) else volumes[j]
    {
      var v := volumes[i];
      after := after + [if v in chosen then v.(free := v.free - sliceSize) else v];
      i := i + 1;
    }
  }

  /**
    Place an object: as many distinct volumes as it has slices, refused only when there are not
    that many. No other choice of as many puts fewer of them into the group it uses most, and in
    every group the freest are used. `shuffle` is the order they are dealt out in.
   */
  method GeneratePlan(volumes: seq<Volume>, dataSlices: nat, paritySlices: nat, shuffle: seq<nat>, sliceSize: int)
    returns (plan: Option<Placement>, after: seq<Volume>)
    requires Distinct(volumes)
    requires Distinct(shuffle) && |shuffle| == dataSlices + paritySlices && forall i :: 0 <= i < |shuffle| ==> shuffle[i] < |shuffle|
    ensures plan.None? <==> |volumes| < dataSlices + paritySlices
    ensures plan.None? ==> after == volumes
    ensures plan.Some? ==>
              && |plan.value.data| == dataSlices && |plan.value.parity| == paritySlices
              && Distinct(plan.value.data + plan.value.parity)
              && Fair(Elements(volumes), Chosen(plan.value))
              && (forall other :: other <= Elements(volumes) && |other| == dataSlices + paritySlices ==> NoBetter(Chosen(plan.value), other))
              && |after| == |volumes|
              && forall i :: 0 <= i < |volumes| ==>
                   after[i] == if volumes[i] in Chosen(plan.value) then volumes[i].(free := volumes[i].free - sliceSize) else volumes[i]
  {
    var total := dataSlices + paritySlices;
    if |volumes| < total {
      return None, volumes;
    }
    var order := AlternatingOrder(volumes);
    var targets := order[..total];
    assert Fair(Elements(volumes), Elements(targets));
    var dealt := seq(total, i requires 0 <= i < total => targets[shuffle[i]]);
    Shuffled(targets, shuffle, dealt);
    var p := Placement(dealt[..dataSlices], dealt[dataSlices..]);
    assert p.data + p.parity == dealt;
    CardOfDistinct(dealt);
    forall other | other <= Elements(volumes) && |other| == total
      ensures NoBetter(Chosen(p), other)
    {
      BalancedIsOptimal(Elements(volumes), Chosen(p), other);
    }
    after := Reserve(volumes, dealt, sliceSize);
    plan := Some(p);
  }
}
