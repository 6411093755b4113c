/**
  Electing the journal's replica set: as many volumes as asked for, spread over as many bus
  groups as there are, keeping the incumbents that can be kept.
 */
module Election {
  import opened Prelude

  datatype Candidate = Candidate(id: nat, busGroup: Option<int>)

  /** An ungrouped disk counts as its own group. */
  function Group(c: Candidate): int {
    match c.busGroup
    case Some(g) => g
    case None => 0 - c.id
  }

  function Groups(cs: seq<Candidate>): set<int> {
    set c | c in cs :: Group(c)
  }

  function Ids(cs: seq<Candidate>): set<nat> {
    set c | c in cs :: c.id
  }

  ghost predicate DistinctIds(cs: seq<Candidate>) {
    forall i, j :: 0 <= i < j < |cs| ==> cs[i].id != cs[j].id
  }

  ghost predicate DistinctGroups(cs: seq<Candidate>) {
    forall i, j :: 0 <= i < j < |cs| ==> Group(cs[i]) != Group(cs[j])
  }

  ghost predicate AllFrom(cs: seq<Candidate>, candidates: seq<Candidate>) {
    forall c :: c in cs ==> c in candidates
  }

  /** The first candidate with this id, if there is one. */
  function Find(candidates: seq<Candidate>, id: nat): (r: Option<Candidate>)
    ensures r.Some? ==> r.value in candidates && r.value.id == id
    ensures r.None? ==> id !in Ids(candidates)
  {
    if candidates == [] then None
    else if candidates[0].id == id then Some(candidates[0])
    else
      assert candidates == [candidates[0]] + candidates[1..];
      Find(candidates[1..], id)
  }

  /** Incumbents still eligible, the first one of each group, in their old order. */
  function Keepable(candidates: seq<Candidate>, incumbents: seq<nat>): seq<Candidate> {
    if incumbents == [] then []
    else
      var earlier := Keepable(candidates, incumbents[..|incumbents| - 1]);
      var still := Find(candidates, incumbents[|incumbents| - 1]);
      if still.Some? && Group(still.value) !in Groups(earlier) then earlier + [still.value] else earlier
  }

  /** Incumbent `i` is candidate `c`, and no earlier incumbent that is still eligible has its group. */
  ghost predicate Leads(candidates: seq<Candidate>, incumbents: seq<nat>, i: int, c: Candidate) {
    && 0 <= i < |incumbents| && incumbents[i] == c.id
    && forall j :: 0 <= j < i ==> !(Eligible(candidates, incumbents[j]) && GroupOf(candidates, incumbents[j]) == Group(c))
  }

  predicate Eligible(candidates: seq<Candidate>, id: nat) {
    Find(candidates, id).Some?
  }

  function GroupOf(candidates: seq<Candidate>, id: nat): int
    requires Eligible(candidates, id)
  {
    Group(Find(candidates, id).value)
  }

  lemma AppendOne(cs: seq<Candidate>, c: Candidate)
    ensures Groups(cs + [c]) == Groups(cs) + {Group(c)}
    ensures Ids(cs + [c]) == Ids(cs) + {c.id}
  {
  }

  /** The groups the kept incumbents use are exactly those of the eligible incumbents. */
  lemma {:induction false} GroupsOfKeepable(candidates: seq<Candidate>, incumbents: seq<nat>)
    ensures forall i :: 0 <= i < |incumbents| && Eligible(candidates, incumbents[i]) ==>
              GroupOf(candidates, incumbents[i]) in Groups(Keepable(candidates, incumbents))
    ensures forall g :: g in Groups(Keepable(candidates, incumbents)) ==>
              exists i :: 0 <= i < |incumbents| && Eligible(candidates, incumbents[i]) && GroupOf(candidates, incumbents[i]) == g
  {
    if incumbents != [] {
      var n := |incumbents| - 1;
      var before := incumbents[..n];
      GroupsOfKeepable(candidates, before);
      var earlier := Keepable(candidates, before);
      var still := Find(candidates, incumbents[n]);
      if still.Some? {
        AppendOne(earlier, still.value);
        assert Groups(Keepable(candidates, incumbents)) == Groups(earlier) + {Group(still.value)};
      }
      assert forall i :: 0 <= i < n ==> before[i] == incumbents[i];
    }
  }

  /** An incumbent is kept exactly when it is eligible and no earlier eligible incumbent has its group. */
  lemma {:induction false} KeepableIff(candidates: seq<Candidate>, incumbents: seq<nat>, c: Candidate)
    requires DistinctIds(candidates) && c in candidates
    ensures c in Keepable(candidates, incumbents) <==> exists i :: Leads(candidates, incumbents, i, c)
  {
    if incumbents != [] {
      var n := |incumbents| - 1;
      var before := incumbents[..n];
      KeepableIff(candidates, before, c);
      GroupsOfKeepable(candidates, before);
      forall i | 0 <= i < n
        ensures Leads(candidates, before, i, c) <==> Leads(candidates, incumbents, i, c)
      {
        assert forall j :: 0 <= j <= i ==> before[j] == incumbents[j];
      }
      var earlier := Keepable(candidates, before);
      var still := Find(candidates, incumbents[n]);
      assert Leads(candidates, incumbents, n, c) <==> still == Some(c) && Group(c) !in Groups(earlier) by {
        assert forall j :: 0 <= j < n ==> before[j] == incumbents[j];
        if incumbents[n] == c.id {
          FindIsIt(candidates, c);
        }
      }
    }
  }

  lemma FindIsIt(candidates: seq<Candidate>, c: Candidate)
    requires DistinctIds(candidates) && c in candidates
    ensures Find(candidates, c.id) == Some(c)
  {
  }

  lemma {:induction false} SizeOfIds(cs: seq<Candidate>)
    requires DistinctIds(cs)
    ensures |Ids(cs)| == |cs|
  {
    if cs != [] {
      var n := |cs| - 1;
      var front, last := cs[..n], cs[n];
      SizeOfIds(front);
      AppendOne(front, last);
      assert front + [last] == cs;
      assert cs[n].id !in Ids(front) by {
        assert forall c :: c in front ==> exists i :: 0 <= i < n && cs[i] == c;
      }
    }
  }

  lemma {:induction false} SizeOfGroups(cs: seq<Candidate>)
    requires DistinctGroups(cs)
    ensures |Groups(cs)| == |cs|
  {
    if cs != [] {
      var n := |cs| - 1;
      var front, last := cs[..n], cs[n];
      SizeOfGroups(front);
      AppendOne(front, last);
      assert front + [last] == cs;
      assert Group(cs[n]) !in Groups(front) by {
        assert forall c :: c in front ==> exists i :: 0 <= i < n && cs[i] == c;
      }
    }
  }

  lemma {:induction false} KeepableIsSound(candidates: seq<Candidate>, incumbents: seq<nat>)
    ensures DistinctGroups(Keepable(candidates, incumbents))
    ensures AllFrom(Keepable(candidates, incumbents), candidates)
    ensures DistinctIds(candidates) ==> DistinctIds(Keepable(candidates, incumbents))
  {
    if incumbents != [] {
      KeepableIsSound(candidates, incumbents[..|incumbents| - 1]);
    }
    if DistinctIds(candidates) {
      DistinctGroupsAreDistinctVolumes(candidates, Keepable(candidates, incumbents));
    }
  }

  lemma {:induction false} KeepableGrows(candidates: seq<Candidate>, incumbents: seq<nat>, n: nat)
    requires n <= |incumbents|
    ensures Keepable(candidates, incumbents[..n]) <= Keepable(candidates, incumbents)
    decreases |incumbents| - n
  {
    if n < |incumbents| {
      KeepableGrows(candidates, incumbents, n + 1);
      assert incumbents[..n + 1][..n] == incumbents[..n];
    } else {
      assert incumbents[..n] == incumbents;
    }
  }

  /** First stage: keep what can be kept, one per group, until enough are chosen. */
  method KeepIncumbents(candidates: seq<Candidate>, incumbents: seq<nat>, wanted: nat)
    returns (chosen: seq<Candidate>)
    requires wanted >= 1
    ensures chosen == Keepable(candidates, incumbents)[..Min(|Keepable(candidates, incumbents)|, wanted)]
  {
    chosen := [];
    var i := 0;
    while i < |incumbents|
      invariant 0 <= i <= |incumbents|
      invariant chosen == Keepable(candidates, incumbents[..i])
      invariant |chosen| < wanted
    {
      assert incumbents[..i + 1][..i] == incumbents[..i];
      var still := Find(candidates, incumbents[i]);
      if still.Some? && Group(still.value) !in Groups(chosen) {
        chosen := chosen + [still.value];
        if |chosen| == wanted {
          KeepableGrows(candidates, incumbents, i + 1);
          return;
        }
      }
      i := i + 1;
    }
    assert incumbents[..i] == incumbents;
  }

  /** Second stage: add a volume from every group not yet used. */
  method SpreadOverGroups(candidates: seq<Candidate>, kept: seq<Candidate>, wanted: nat)
    returns (chosen: seq<Candidate>)
    requires DistinctIds(candidates)
    requires |kept| <= wanted && DistinctGroups(kept) && AllFrom(kept, candidates)
    ensures kept <= chosen && |chosen| <= wanted
    ensures DistinctGroups(chosen) && AllFrom(chosen, candidates)
    ensures |chosen| < wanted ==> Groups(chosen) == Groups(candidates)
  {
    chosen := kept;
    var i := 0;
    while i < |candidates| && |chosen| < wanted
      invariant 0 <= i <= |candidates|
      invariant kept <= chosen && |chosen| <= wanted
      invariant DistinctGroups(chosen) && AllFrom(chosen, candidates)
      invariant forall j :: 0 <= j < i ==> Group(candidates[j]) in Groups(chosen)
    {
      var c := candidates[i];
      assert c.id in Ids(chosen) ==> c in chosen;
      if c.id !in Ids(chosen) && Group(c) !in Groups(chosen) {
        AppendOne(chosen, c);
        chosen := chosen + [c];
      }
      i := i + 1;
    }
  }

  /** Third stage: too few groups, so take any remaining volume rather than run a copy short. */
  method FillUp(candidates: seq<Candidate>, spread: seq<Candidate>, wanted: nat)
    returns (chosen: seq<Candidate>)
    requires DistinctIds(candidates)
    requires |spread| <= wanted && DistinctIds(spread) && AllFrom(spread, candidates)
    ensures spread <= chosen && |chosen| <= wanted
    ensures DistinctIds(chosen) && AllFrom(chosen, candidates)
    ensures |chosen| < wanted ==> Ids(chosen) == Ids(candidates)
    ensures |spread| == wanted ==> chosen == spread
  {
    chosen := spread;
    var i := 0;
    while i < |candidates| && |chosen| < wanted
      invariant 0 <= i <= |candidates|
      invariant spread <= chosen && |chosen| <= wanted
      invariant DistinctIds(chosen) && AllFrom(chosen, candidates)
      invariant forall j :: 0 <= j < i ==> candidates[j].id in Ids(chosen)
      invariant |spread| == wanted ==> chosen == spread
    {
      var c := candidates[i];
      if c.id !in Ids(chosen) {
        AppendOne(chosen, c);
        chosen := chosen + [c];
      }
      i := i + 1;
    }
  }

  lemma DistinctGroupsAreDistinctVolumes(candidates: seq<Candidate>, cs: seq<Candidate>)
    requires DistinctIds(candidates) && AllFrom(cs, candidates) && DistinctGroups(cs)
    ensures DistinctIds(cs)
  {
    forall i, j | 0 <= i < j < |cs|
      ensures cs[i].id != cs[j].id
    {
      assert cs[i] in candidates && cs[j] in candidates && cs[i] != cs[j];
    }
  }

  lemma GroupsFrom(cs: seq<Candidate>, candidates: seq<Candidate>)
    requires AllFrom(cs, candidates)
    ensures Groups(cs) <= Groups(candidates) && Ids(cs) <= Ids(candidates)
  {
  }

  lemma ElectionIsFull(candidates: seq<Candidate>, spread: seq<Candidate>, chosen: seq<Candidate>, wanted: nat)
    requires DistinctIds(candidates) && DistinctIds(chosen)
    requires AllFrom(spread, candidates) && AllFrom(chosen, candidates)
    requires DistinctGroups(spread) && spread <= chosen && |chosen| <= wanted
    requires |spread| < wanted ==> Groups(spread) == Groups(candidates)
    requires |spread| == wanted ==> chosen == spread
    requires |chosen| < wanted ==> Ids(chosen) == Ids(candidates)
    ensures |chosen| == Min(wanted, |candidates|)
    ensures |Groups(chosen)| == Min(wanted, |Groups(candidates)|)
  {
    SizeOfIds(candidates);
    SizeOfIds(chosen);
    SizeOfGroups(spread);
    GroupsFrom(chosen, candidates);
    GroupsFrom(spread, chosen);
    SubsetSize(Ids(chosen), Ids(candidates));
    SubsetSize(Groups(chosen), Groups(candidates));
    if |spread| < wanted {
      assert Groups(chosen) == Groups(candidates);
    }
  }

  /** As large as it can be, over as many bus groups as it can, starting with the first still-eligible incumbent of each. */
  ghost predicate IsElection(candidates: seq<Candidate>, incumbents: seq<nat>, wanted: nat, chosen: seq<Candidate>) {
    var kept := Keepable(candidates, incumbents);
    && DistinctIds(chosen) && AllFrom(chosen, candidates)
    && |chosen| == Min(wanted, |candidates|)
    && |Groups(chosen)| == Min(wanted, |Groups(candidates)|)
    && kept[..Min(|kept|, wanted)] <= chosen
  }

  /**
    Disks on one bus are one group, and a disk on none is a group of its own, as long as no bus goes
    by the negative of its number.
   */
  lemma GroupIff(c: Candidate, d: Candidate)
    ensures Group(c) == Group(d) <==>
              || (c.busGroup == d.busGroup && (c.busGroup.Some? || c.id == d.id))
              || (c.busGroup == Some(0 - d.id) && d.busGroup.None?)
              || (d.busGroup == Some(0 - c.id) && c.busGroup.None?)
  {
  }

  lemma {:induction false} UngroupedStandAlone(cs: seq<Candidate>)
    requires DistinctIds(cs) && forall c :: c in cs ==> c.busGroup.None?
    ensures |Groups(cs)| == |cs|
  {
    forall i, j | 0 <= i < j < |cs|
      ensures Group(cs[i]) != Group(cs[j])
    {
      GroupIff(cs[i], cs[j]);
    }
    SizeOfGroups(cs);
  }

  /**
    Elect the replica set. It is exactly as large as it can be, spans exactly as many bus groups as
    it can, and starts with the first still-eligible incumbent of each group.
   */
  method ChooseReplicas(candidates: seq<Candidate>, incumbents: seq<nat>, wanted: nat)
    returns (chosen: seq<Candidate>)
    requires wanted >= 1 && DistinctIds(candidates)
    ensures IsElection(candidates, incumbents, wanted, chosen)
  {
    KeepableIsSound(candidates, incumbents);
    var kept := KeepIncumbents(candidates, incumbents, wanted);
    var spread := SpreadOverGroups(candidates, kept, wanted);
    DistinctGroupsAreDistinctVolumes(candidates, spread);
    chosen := FillUp(candidates, spread, wanted);
    ElectionIsFull(candidates, spread, chosen, wanted);
  }
}
