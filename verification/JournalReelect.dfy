/**
  Filling the seats of a new replica set: replicas still standing keep theirs, every other chosen
  volume has to be seeded from all sources first.
 */
module JournalReelect {
  import opened Prelude
  import opened Lines
  import opened Segments
  import opened JournalProtocol
  import Seeding

  ghost predicate CoveredNow(disks: map<Vol, Disk>, sources: seq<Vol>, s: nat, bytes: Bytes) {
    exists k :: 0 <= k < |sources| && bytes <= At(Platter(disks, sources[k]), s)
  }

  ghost predicate ListedNow(disks: map<Vol, Disk>, sources: seq<Vol>, s: nat) {
    exists k :: 0 <= k < |sources| && s in Platter(disks, sources[k])
  }

  /** One of the sources had this segment overwritten unseen, as a target of the same re-election. */
  ghost predicate SourceMissed(sources: seq<Vol>, unseen: set<(Vol, nat)>, s: nat) {
    exists j :: 0 <= j < |sources| && (sources[j], s) in unseen
  }

  /** This segment was there before or is part of a source's, and is all there unless a source has more or it was not seen. */
  ghost predicate Traceable(a: State, disks: map<Vol, Disk>, sources: seq<Vol>, unseen: set<(Vol, nat)>, v: Vol, s: nat) {
    var before, now := At(Platter(a.disks, v), s), At(Platter(disks, v), s);
    && (now <= before || WithinSource(a, sources, s, now))
    && (before <= now || OutgrownBySource(a, sources, s, before) || (v, s) in unseen)
  }

  /** What source `i` held of this segment some source still holds, unless one was overwritten unseen. */
  ghost predicate StillHeld(a: State, disks: map<Vol, Disk>, sources: seq<Vol>, unseen: set<(Vol, nat)>, i: int, s: nat) {
    0 <= i < |sources| ==>
      CoveredNow(disks, sources, s, At(Platter(a.disks, sources[i]), s)) || SourceMissed(sources, unseen, s)
  }

  /**
    What holds of the platters throughout the seeding, however many copies broke off: nothing is
    there that was not there before, nothing is gone that a source does not hold more of or that was
    not seen, and the sources between them still list all they did, and hold it where all was seen.
   */
  ghost predicate Seedable(a: State, disks: map<Vol, Disk>, sources: seq<Vol>, lineage: set<nat>, unseen: set<(Vol, nat)>) {
    && (forall v: Vol, s: nat :: Traceable(a, disks, sources, unseen, v, s))
    && (forall i: int, s: nat :: StillHeld(a, disks, sources, unseen, i, s))
    && (forall s: nat :: s in lineage <==> ListedNow(disks, sources, s))
    && (forall k :: k in unseen ==> k.1 in lineage)
  }

  ghost predicate SeededAt(a: State, d: Disk, sources: seq<Vol>, lineage: set<nat>, missed: Oversight, v: Vol, s: nat) {
    LongestOf(Pool(a, sources, missed, v, s), At(d, s)) && (At(d, s) != [] ==> s in lineage)
  }

  /** `bytes` extends every one of the copies, and no further than one of them. */
  ghost predicate LongestOf(copies: set<Bytes>, bytes: Bytes) {
    (forall x :: x in copies ==> x <= bytes) && exists x :: x in copies && bytes <= x
  }

  /** A seeded volume holds every copy it was put together from, and nothing outside the lineage. */
  ghost predicate SeededVolume(a: State, d: Disk, sources: seq<Vol>, lineage: set<nat>, missed: Oversight, v: Vol) {
    forall s: nat :: SeededAt(a, d, sources, lineage, missed, v, s)
  }

  /** The disks of every source other than the target itself. */
  function OtherDisks(disks: map<Vol, Disk>, sources: seq<Vol>, c: Vol): seq<Disk> {
    if sources == [] then []
    else
      var front := OtherDisks(disks, sources[..|sources| - 1], c);
      var v := sources[|sources| - 1];
      if v == c then front else front + [Platter(disks, v)]
  }

  lemma {:induction false} OtherDisksAre(disks: map<Vol, Disk>, sources: seq<Vol>, c: Vol)
    ensures forall i :: 0 <= i < |sources| && sources[i] != c ==> Platter(disks, sources[i]) in OtherDisks(disks, sources, c)
    ensures forall d :: d in OtherDisks(disks, sources, c) ==>
              exists i :: 0 <= i < |sources| && sources[i] != c && d == Platter(disks, sources[i])
  {
    if sources != [] {
      var n := |sources| - 1;
      OtherDisksAre(disks, sources[..n], c);
      var front := OtherDisks(disks, sources[..n], c);
      assert forall d :: d in front ==> d in OtherDisks(disks, sources, c);
      forall d | d in OtherDisks(disks, sources, c)
        ensures exists i :: 0 <= i < |sources| && sources[i] != c && d == Platter(disks, sources[i])
      {
        if d in front {
          var i :| 0 <= i < n && sources[..n][i] != c && d == Platter(disks, sources[..n][i]);
          assert sources[i] == sources[..n][i];
        } else {
          assert sources[n] != c && d == Platter(disks, sources[n]);
        }
      }
    }
  }

  lemma WithinOther(disks: map<Vol, Disk>, sources: seq<Vol>, c: Vol, s: nat, bytes: Bytes) returns (i: nat)
    requires Seeding.WithinSome(OtherDisks(disks, sources, c), s, bytes)
    ensures i < |sources| && sources[i] != c && bytes <= At(Platter(disks, sources[i]), s)
  {
    OtherDisksAre(disks, sources, c);
    var others := OtherDisks(disks, sources, c);
    var k :| 0 <= k < |others| && bytes <= At(others[k], s);
    assert others[k] in others;
    i :| 0 <= i < |sources| && sources[i] != c && others[k] == Platter(disks, sources[i]);
  }

  lemma OutgrownByOther(disks: map<Vol, Disk>, sources: seq<Vol>, c: Vol, s: nat, bytes: Bytes) returns (i: nat)
    requires Seeding.OutgrownBySome(OtherDisks(disks, sources, c), s, bytes)
    ensures i < |sources| && sources[i] != c && bytes < At(Platter(disks, sources[i]), s)
  {
    OtherDisksAre(disks, sources, c);
    var others := OtherDisks(disks, sources, c);
    var k :| 0 <= k < |others| && bytes < At(others[k], s);
    assert others[k] in others;
    i :| 0 <= i < |sources| && sources[i] != c && others[k] == Platter(disks, sources[i]);
  }

  lemma ListedByOther(disks: map<Vol, Disk>, sources: seq<Vol>, c: Vol, s: nat) returns (i: nat)
    requires Seeding.ListedBySome(OtherDisks(disks, sources, c), s)
    ensures i < |sources| && sources[i] != c && s in Platter(disks, sources[i])
  {
    OtherDisksAre(disks, sources, c);
    var others := OtherDisks(disks, sources, c);
    var k :| 0 <= k < |others| && s in others[k];
    assert others[k] in others;
    i :| 0 <= i < |sources| && sources[i] != c && others[k] == Platter(disks, sources[i]);
  }

  /** What a source holds now was there before, on it or on some source. */
  lemma SourceIsWithin(a: State, disks: map<Vol, Disk>, sources: seq<Vol>, unseen: set<(Vol, nat)>, i: nat, s: nat, bytes: Bytes)
    requires i < |sources| && Traceable(a, disks, sources, unseen, sources[i], s)
    requires bytes <= At(Platter(disks, sources[i]), s)
    ensures WithinSource(a, sources, s, bytes)
    ensures bytes < At(Platter(disks, sources[i]), s) ==> OutgrownBySource(a, sources, s, bytes)
  {
    var now := At(Platter(disks, sources[i]), s);
    if now <= At(Platter(a.disks, sources[i]), s) {
      assert bytes <= At(Platter(a.disks, sources[i]), s);
    } else {
      var j :| 0 <= j < |sources| && now <= At(Platter(a.disks, sources[j]), s);
      assert bytes <= At(Platter(a.disks, sources[j]), s);
    }
  }

  /** The segments of `c` that a look failed on while it was seeded from `others`. */
  ghost function UnseenOf(others: seq<Disk>, weather: nat -> Seeding.Weather, lineage: set<nat>, c: Vol): set<(Vol, nat)> {
    set s | s in lineage && Seeding.LastUnseen(others, weather, |others|, s) >= 0 :: (c, s)
  }

  lemma {:induction false} UnseenIsListed(others: seq<Disk>, weather: nat -> Seeding.Weather, k: nat, s: nat)
    requires k <= |others| && Seeding.LastUnseen(others, weather, k, s) >= 0
    ensures Seeding.ListedBySome(others, s)
  {
    if !(s in others[k - 1] && !weather(k - 1).seen(s)) {
      UnseenIsListed(others, weather, k - 1, s);
    }
  }

  lemma UnseenIsInLineage(disks: map<Vol, Disk>, sources: seq<Vol>, lineage: set<nat>, c: Vol, weather: nat -> Seeding.Weather, s: nat)
    requires forall t: nat :: t in lineage <==> ListedNow(disks, sources, t)
    ensures var others := OtherDisks(disks, sources, c);
            Seeding.LastUnseen(others, weather, |others|, s) >= 0 <==> (c, s) in UnseenOf(others, weather, lineage, c)
  {
    var others := OtherDisks(disks, sources, c);
    if Seeding.LastUnseen(others, weather, |others|, s) >= 0 {
      UnseenIsListed(others, weather, |others|, s);
      var i := ListedByOther(disks, sources, c, s);
      assert ListedNow(disks, sources, s);
    }
  }

  /** One target's segment after its seed, finished or broken off. */
  lemma SeededSegment(a: State, disks: map<Vol, Disk>, sources: seq<Vol>, lineage: set<nat>, unseen: set<(Vol, nat)>,
                      c: Vol, weather: nat -> Seeding.Weather, result: Disk, s: nat)
    requires Seedable(a, disks, sources, lineage, unseen)
    requires Platter(disks, c) == Platter(a.disks, c)
    requires Seeding.FromSources(OtherDisks(disks, sources, c), weather, Platter(disks, c), result)
    ensures Traceable(a, disks[c := result], sources, unseen + UnseenOf(OtherDisks(disks, sources, c), weather, lineage, c), c, s)
  {
    var target := Platter(a.disks, c);
    assert Seeding.FromSourcesAt(OtherDisks(disks, sources, c), weather, Platter(disks, c), result, s);
    UnseenIsInLineage(disks, sources, lineage, c, weather, s);
    if At(result, s) != At(target, s) {
      var i := WithinOther(disks, sources, c, s, At(result, s));
      SourceIsWithin(a, disks, sources, unseen, i, s, At(result, s));
    }
    if Seeding.OutgrownBySome(OtherDisks(disks, sources, c), s, At(target, s)) {
      var i := OutgrownByOther(disks, sources, c, s, At(target, s));
      SourceIsWithin(a, disks, sources, unseen, i, s, At(target, s));
    }
  }

  /** The sources between them lose nothing when one of them is itself a target whose seed broke off, unless it was not seen. */
  lemma StillCovered(disks: map<Vol, Disk>, sources: seq<Vol>, c: Vol, weather: nat -> Seeding.Weather, result: Disk, s: nat, bytes: Bytes)
    requires CoveredNow(disks, sources, s, bytes)
    requires Seeding.FromSourcesAt(OtherDisks(disks, sources, c), weather, Platter(disks, c), result, s)
    ensures var others := OtherDisks(disks, sources, c);
            || CoveredNow(disks[c := result], sources, s, bytes)
            || (c in sources && Seeding.LastUnseen(others, weather, |others|, s) >= 0)
  {
    var disks' := disks[c := result];
    var k :| 0 <= k < |sources| && bytes <= At(Platter(disks, sources[k]), s);
    if sources[k] != c || At(Platter(disks, c), s) <= At(result, s) {
      assert bytes <= At(Platter(disks', sources[k]), s);
    } else if Seeding.OutgrownBySome(OtherDisks(disks, sources, c), s, At(Platter(disks, c), s)) {
      var i := OutgrownByOther(disks, sources, c, s, At(Platter(disks, c), s));
      assert bytes <= At(Platter(disks', sources[i]), s);
    }
  }

  lemma StillListed(disks: map<Vol, Disk>, sources: seq<Vol>, c: Vol, weather: nat -> Seeding.Weather, result: Disk, s: nat)
    requires Seeding.FromSourcesAt(OtherDisks(disks, sources, c), weather, Platter(disks, c), result, s)
    ensures ListedNow(disks, sources, s) <==> ListedNow(disks[c := result], sources, s)
  {
    var disks' := disks[c := result];
    if (s in result) != (s in Platter(disks, c)) {
      var i := ListedByOther(disks, sources, c, s);
      assert s in Platter(disks, sources[i]) && s in Platter(disks', sources[i]);
    } else {
      forall k | 0 <= k < |sources|
        ensures s in Platter(disks, sources[k]) <==> s in Platter(disks', sources[k])
      {
      }
    }
  }

  lemma SeedKeepsHeld(a: State, disks: map<Vol, Disk>, sources: seq<Vol>, lineage: set<nat>, unseen: set<(Vol, nat)>,
                      c: Vol, weather: nat -> Seeding.Weather, result: Disk, i: int, s: nat)
    requires Seedable(a, disks, sources, lineage, unseen)
    requires Seeding.FromSourcesAt(OtherDisks(disks, sources, c), weather, Platter(disks, c), result, s)
    ensures StillHeld(a, disks[c := result], sources, unseen + UnseenOf(OtherDisks(disks, sources, c), weather, lineage, c), i, s)
  {
    var unseen' := unseen + UnseenOf(OtherDisks(disks, sources, c), weather, lineage, c);
    if 0 <= i < |sources| {
      assert StillHeld(a, disks, sources, unseen, i, s);
      if SourceMissed(sources, unseen, s) {
        var j :| 0 <= j < |sources| && (sources[j], s) in unseen;
        assert (sources[j], s) in unseen';
      } else {
        StillCovered(disks, sources, c, weather, result, s, At(Platter(a.disks, sources[i]), s));
        UnseenIsInLineage(disks, sources, lineage, c, weather, s);
        if !CoveredNow(disks[c := result], sources, s, At(Platter(a.disks, sources[i]), s)) {
          var j :| 0 <= j < |sources| && sources[j] == c;
          assert (sources[j], s) in unseen';
        }
      }
    }
  }

  lemma SeedKeepsSeedable(a: State, disks: map<Vol, Disk>, sources: seq<Vol>, lineage: set<nat>, unseen: set<(Vol, nat)>,
                          c: Vol, weather: nat -> Seeding.Weather, result: Disk)
    requires Seedable(a, disks, sources, lineage, unseen)
    requires Platter(disks, c) == Platter(a.disks, c)
    requires Seeding.FromSources(OtherDisks(disks, sources, c), weather, Platter(disks, c), result)
    ensures Seedable(a, disks[c := result], sources, lineage, unseen + UnseenOf(OtherDisks(disks, sources, c), weather, lineage, c))
  {
    var disks' := disks[c := result];
    var unseen' := unseen + UnseenOf(OtherDisks(disks, sources, c), weather, lineage, c);
    forall v: Vol, s: nat
      ensures Traceable(a, disks', sources, unseen', v, s)
    {
      if v == c {
        SeededSegment(a, disks, sources, lineage, unseen, c, weather, result, s);
      } else {
        assert Traceable(a, disks, sources, unseen, v, s);
      }
    }
    forall i: int, s: nat
      ensures StillHeld(a, disks', sources, unseen', i, s)
    {
      assert Seeding.FromSourcesAt(OtherDisks(disks, sources, c), weather, Platter(disks, c), result, s);
      SeedKeepsHeld(a, disks, sources, lineage, unseen, c, weather, result, i, s);
    }
    forall s: nat
      ensures s in lineage <==> ListedNow(disks', sources, s)
    {
      assert Seeding.FromSourcesAt(OtherDisks(disks, sources, c), weather, Platter(disks, c), result, s);
      StillListed(disks, sources, c, weather, result, s);
    }
  }

  // ---------------------------------------------------------------------------------------------

  /** The copies a segment was put together from, by a seed every copy of which succeeded. */
  ghost function Copies(others: seq<Disk>, weather: nat -> Seeding.Weather, target: Disk, s: nat): set<Bytes> {
    (if Seeding.LastUnseen(others, weather, |others|, s) < 0 then {At(target, s)} else {})
    + (set i | 0 <= i < |others| && Seeding.Counts(others, weather, |others|, s, i) :: At(others[i], s))
  }

  /** A look failed on the target, or on one of the sources when it was a target itself. */
  ghost predicate InDoubt(sources: seq<Vol>, unseen: set<(Vol, nat)>, c: Vol, s: nat) {
    (c, s) in unseen || SourceMissed(sources, unseen, s)
  }

  ghost function PoolsOf(others: seq<Disk>, weather: nat -> Seeding.Weather, target: Disk, sources: seq<Vol>,
                         lineage: set<nat>, unseen: set<(Vol, nat)>, c: Vol): map<(Vol, nat), set<Bytes>> {
    map s | s in lineage && InDoubt(sources, unseen, c, s) :: (c, s) := Copies(others, weather, target, s)
  }

  /** What some source holds now reaches a target that every copy succeeded onto, where all was seen. */
  lemma CoverReachesTarget(disks: map<Vol, Disk>, sources: seq<Vol>, c: Vol, weather: nat -> Seeding.Weather, result: Disk, s: nat, bytes: Bytes)
    requires CoveredNow(disks, sources, s, bytes)
    requires var others := OtherDisks(disks, sources, c);
             && Seeding.LongestAt(others, weather, |others|, Platter(disks, c), result, s)
             && Seeding.LastUnseen(others, weather, |others|, s) < 0
    ensures bytes <= At(result, s)
  {
    var others := OtherDisks(disks, sources, c);
    var k :| 0 <= k < |sources| && bytes <= At(Platter(disks, sources[k]), s);
    if sources[k] != c {
      OtherDisksAre(disks, sources, c);
      var m :| 0 <= m < |others| && others[m] == Platter(disks, sources[k]);
      assert Seeding.Counts(others, weather, |others|, s, m);
    }
  }

  /** The copies of a seed are traceable, and a segment seeded without doubt has its own and every source's. */
  lemma CopyIsTraceable(a: State, disks: map<Vol, Disk>, sources: seq<Vol>, lineage: set<nat>, unseen: set<(Vol, nat)>,
                        c: Vol, weather: nat -> Seeding.Weather, s: nat, x: Bytes)
    requires Seedable(a, disks, sources, lineage, unseen) && Platter(disks, c) == Platter(a.disks, c)
    requires x in Copies(OtherDisks(disks, sources, c), weather, Platter(disks, c), s)
    ensures x <= At(Platter(a.disks, c), s) || WithinSource(a, sources, s, x)
  {
    var others := OtherDisks(disks, sources, c);
    if x != At(Platter(a.disks, c), s) {
      var m :| 0 <= m < |others| && Seeding.Counts(others, weather, |others|, s, m) && x == At(others[m], s);
      OtherDisksAre(disks, sources, c);
      assert others[m] in others;
      var i :| 0 <= i < |sources| && sources[i] != c && others[m] == Platter(disks, sources[i]);
      assert Traceable(a, disks, sources, unseen, sources[i], s);
      SourceIsWithin(a, disks, sources, unseen, i, s, x);
    }
  }

  lemma LongestIsACopy(others: seq<Disk>, weather: nat -> Seeding.Weather, target: Disk, result: Disk, s: nat)
    requires Seeding.LongestAt(others, weather, |others|, target, result, s)
    ensures LongestOf(Copies(others, weather, target, s), At(result, s))
    ensures At(result, s) in Copies(others, weather, target, s)
  {
    if !(Seeding.LastUnseen(others, weather, |others|, s) < 0 && At(result, s) == At(target, s)) {
      var i :| Seeding.Counts(others, weather, |others|, s, i) && At(result, s) == At(others[i], s);
      assert 0 <= i < |others|;
    }
    assert At(result, s) in Copies(others, weather, target, s);
  }

  /** What a seed leaves in a segment is listed by the lineage. */
  lemma ResultIsListed(disks: map<Vol, Disk>, sources: seq<Vol>, lineage: set<nat>, c: Vol, weather: nat -> Seeding.Weather, result: Disk, s: nat)
    requires forall t: nat :: t in lineage <==> ListedNow(disks, sources, t)
    requires !Foreign(Platter(disks, c), lineage)
    requires At(result, s) in Copies(OtherDisks(disks, sources, c), weather, Platter(disks, c), s)
    ensures At(result, s) != [] ==> s in lineage
  {
    var others := OtherDisks(disks, sources, c);
    if At(result, s) != At(Platter(disks, c), s) && At(result, s) != [] {
      var m :| 0 <= m < |others| && At(result, s) == At(others[m], s);
      assert Seeding.ListedBySome(others, s);
      var i := ListedByOther(disks, sources, c, s);
      assert ListedNow(disks, sources, s);
    }
  }

  lemma SeedCompletesUndoubted(a: State, disks: map<Vol, Disk>, sources: seq<Vol>, lineage: set<nat>, unseen: set<(Vol, nat)>,
                               c: Vol, weather: nat -> Seeding.Weather, result: Disk, missed: Oversight, s: nat)
    requires Seedable(a, disks, sources, lineage, unseen) && Platter(disks, c) == Platter(a.disks, c)
    requires var others := OtherDisks(disks, sources, c);
             && Seeding.LongestAt(others, weather, |others|, Platter(disks, c), result, s)
             && missed.unseen == unseen + UnseenOf(others, weather, lineage, c)
    requires (c, s) !in missed.pools && !(s in lineage && InDoubt(sources, missed.unseen, c, s))
    ensures LongestOf(Pool(a, sources, missed, c, s), At(result, s))
  {
    var others := OtherDisks(disks, sources, c);
    NoDoubt(a, disks, sources, lineage, unseen, c, weather, missed.unseen, s);
    forall i | 0 <= i < |sources|
      ensures At(Platter(a.disks, sources[i]), s) <= At(result, s)
    {
      assert StillHeld(a, disks, sources, unseen, i, s);
      CoverReachesTarget(disks, sources, c, weather, result, s, At(Platter(a.disks, sources[i]), s));
    }
    LongestIsACopy(others, weather, Platter(disks, c), result, s);
    CopyIsTraceable(a, disks, sources, lineage, unseen, c, weather, s, At(result, s));
    WithinSourceIsPooled(a, sources, missed, c, s, At(result, s));
  }

  /** Outside the lineage nothing was looked at, so a segment not in a pool was seen, and so were the sources'. */
  lemma NoDoubt(a: State, disks: map<Vol, Disk>, sources: seq<Vol>, lineage: set<nat>, unseen: set<(Vol, nat)>,
                c: Vol, weather: nat -> Seeding.Weather, unseen': set<(Vol, nat)>, s: nat)
    requires Seedable(a, disks, sources, lineage, unseen)
    requires unseen' == unseen + UnseenOf(OtherDisks(disks, sources, c), weather, lineage, c)
    requires !(s in lineage && InDoubt(sources, unseen', c, s))
    ensures !SourceMissed(sources, unseen, s)
    ensures var others := OtherDisks(disks, sources, c); Seeding.LastUnseen(others, weather, |others|, s) < 0
  {
    UnseenIsInLineage(disks, sources, lineage, c, weather, s);
    assert SourceMissed(sources, unseen, s) ==> SourceMissed(sources, unseen', s) && s in lineage by {
      assert forall j :: 0 <= j < |sources| && (sources[j], s) in unseen ==> (sources[j], s) in unseen' && s in lineage;
    }
  }

  lemma WithinSourceIsPooled(a: State, sources: seq<Vol>, missed: Oversight, v: Vol, s: nat, bytes: Bytes)
    requires (v, s) !in missed.pools
    requires bytes <= At(Platter(a.disks, v), s) || WithinSource(a, sources, s, bytes)
    ensures exists x :: x in Pool(a, sources, missed, v, s) && bytes <= x
  {
    if bytes <= At(Platter(a.disks, v), s) {
      assert At(Platter(a.disks, v), s) in Pool(a, sources, missed, v, s);
    } else {
      var i :| 0 <= i < |sources| && bytes <= At(Platter(a.disks, sources[i]), s);
      assert At(Platter(a.disks, sources[i]), s) in Pool(a, sources, missed, v, s);
    }
  }

  /** A non-empty segment outside the lineage: some other journal's. */
  predicate Foreign(d: Disk, lineage: set<nat>) {
    exists s :: s in d && d[s] != [] && s !in lineage
  }

  /** An empty segment is nobody's. */
  lemma ForeignIff(d: Disk, lineage: set<nat>)
    ensures Foreign(d, lineage) <==> exists s: nat :: At(d, s) != [] && s !in lineage
  {
    if s: nat :| At(d, s) != [] && s !in lineage {
      assert s in d && d[s] != [];
    }
    if s :| s in d && d[s] != [] && s !in lineage {
      assert At(d, s) != [];
    }
  }

  /** What is known of the oversights so far: they are traceable, only of volumes dealt with, and with a standing source hold its copy. */
  ghost predicate Accounted(a: State, standing: set<Vol>, sources: seq<Vol>, missed: Oversight, adopted: set<Vol>) {
    && PoolsTraceable(a, sources, missed)
    && (forall k :: k in missed.pools ==> k.0 in adopted)
    && (forall u :: u in standing && sources == [u] ==> PoolsHold(a, u, missed))
    && (missed.unseen == {} ==> missed.pools == map[])
  }

  /** The pools of one volume are what they were. */
  ghost predicate SamePools(missed: Oversight, missed': Oversight, v: Vol) {
    forall s: nat ::
      && ((v, s) in missed'.pools <==> (v, s) in missed.pools)
      && ((v, s) in missed.pools ==> missed'.pools[(v, s)] == missed.pools[(v, s)])
  }

  lemma PoolsStayAccounted(a: State, disks: map<Vol, Disk>, standing: set<Vol>, sources: seq<Vol>, lineage: set<nat>,
                           c: Vol, weather: nat -> Seeding.Weather, missed: Oversight, adopted: set<Vol>, unseen': set<(Vol, nat)>)
    requires Seedable(a, disks, sources, lineage, missed.unseen) && Platter(disks, c) == Platter(a.disks, c)
    requires Accounted(a, standing, sources, missed, adopted) && c !in standing && c !in adopted
    requires forall u :: u in standing ==> Platter(disks, u) == Platter(a.disks, u)
    requires missed.unseen <= unseen'
    ensures Accounted(a, standing, sources,
                      Oversight(unseen', missed.pools + PoolsOf(OtherDisks(disks, sources, c), weather, Platter(disks, c), sources, lineage, unseen', c)),
                      adopted + {c})
  {
    var others := OtherDisks(disks, sources, c);
    var more := PoolsOf(others, weather, Platter(disks, c), sources, lineage, unseen', c);
    var missed' := Oversight(unseen', missed.pools + more);
    forall k, x | k in missed'.pools && x in missed'.pools[k]
      ensures x <= At(Platter(a.disks, k.0), k.1) || WithinSource(a, sources, k.1, x)
    {
      if k in more {
        CopyIsTraceable(a, disks, sources, lineage, missed.unseen, c, weather, k.1, x);
      }
    }
    forall u | u in standing && sources == [u]
      ensures PoolsHold(a, u, missed')
    {
      StandingIsTheOther(disks, u, c);
      forall k | k in more
        ensures At(Platter(a.disks, u), k.1) in more[k]
      {
        assert Seeding.Counts(others, weather, |others|, k.1, 0);
        assert At(others[0], k.1) in Copies(others, weather, Platter(disks, c), k.1);
      }
    }
  }

  lemma StandingIsTheOther(disks: map<Vol, Disk>, u: Vol, c: Vol)
    requires u != c
    ensures OtherDisks(disks, [u], c) == [Platter(disks, u)]
  {
    assert [u][..0] == [];
    assert OtherDisks(disks, [], c) == [];
  }

  // ---------------------------------------------------------------------------------------------
  // When a seed is sure to succeed.

  /** Any two disks agree on the bytes of a segment that both have. */
  ghost predicate Agreeing(a: State) {
    forall u: Vol, v: Vol, s: nat :: AgreeingAt(a, u, v, s)
  }

  ghost predicate AgreeingAt(a: State, u: Vol, v: Vol, s: nat) {
    Seeding.PrefixOrdered(At(Platter(a.disks, u), s), At(Platter(a.disks, v), s))
  }

  /** Every source has a segment to copy. */
  ghost predicate AllListSome(disks: map<Vol, Disk>, sources: seq<Vol>) {
    forall i :: 0 <= i < |sources| ==> Platter(disks, sources[i]) != map[]
  }

  /** Every source has a segment to copy, and none can lose its last one as a target of the same re-election. */
  ghost predicate SourcesLast(a: State, sources: seq<Vol>, weather: Vol -> (nat -> Seeding.Weather)) {
    AllListSome(a.disks, sources) && forall v, k: nat :: v in sources ==> Seeding.NoneRemoved(weather(v)(k))
  }

  /** Nothing can go wrong with the seed of this volume: its file operations work, sources last and histories agree. */
  ghost predicate SureToSeed(a: State, sources: seq<Vol>, weather: Vol -> (nat -> Seeding.Weather), c: Vol) {
    Agreeing(a) && SourcesLast(a, sources, weather) && forall k: nat :: Seeding.Calm(weather(c)(k))
  }

  /** Whatever a disk holds of a segment by now is part of what some disk held to begin with. */
  lemma HeldBefore(a: State, disks: map<Vol, Disk>, sources: seq<Vol>, unseen: set<(Vol, nat)>, v: Vol, s: nat) returns (u: Vol)
    requires Traceable(a, disks, sources, unseen, v, s)
    ensures At(Platter(disks, v), s) <= At(Platter(a.disks, u), s)
  {
    u := v;
    var now := At(Platter(disks, v), s);
    if !(now <= At(Platter(a.disks, v), s)) {
      var i :| 0 <= i < |sources| && now <= At(Platter(a.disks, sources[i]), s);
      u := sources[i];
    }
  }

  lemma StillAgreeing(a: State, disks: map<Vol, Disk>, sources: seq<Vol>, unseen: set<(Vol, nat)>, u: Vol, v: Vol, s: nat)
    requires Agreeing(a) && Traceable(a, disks, sources, unseen, u, s) && Traceable(a, disks, sources, unseen, v, s)
    ensures Seeding.PrefixOrdered(At(Platter(disks, u), s), At(Platter(disks, v), s))
  {
    var x := HeldBefore(a, disks, sources, unseen, u, s);
    var y := HeldBefore(a, disks, sources, unseen, v, s);
    assert AgreeingAt(a, x, y, s);
  }

  lemma StillCompatible(a: State, disks: map<Vol, Disk>, sources: seq<Vol>, lineage: set<nat>, unseen: set<(Vol, nat)>, u: Vol, v: Vol)
    requires Agreeing(a) && Seedable(a, disks, sources, lineage, unseen)
    ensures Seeding.Compatible(Platter(disks, u), Platter(disks, v))
  {
    forall s: nat
      ensures Seeding.PrefixOrdered(At(Platter(disks, u), s), At(Platter(disks, v), s))
    {
      assert Traceable(a, disks, sources, unseen, u, s) && Traceable(a, disks, sources, unseen, v, s);
      StillAgreeing(a, disks, sources, unseen, u, v, s);
    }
  }

  lemma StillOneHistory(a: State, disks: map<Vol, Disk>, sources: seq<Vol>, lineage: set<nat>, unseen: set<(Vol, nat)>, c: Vol)
    requires Agreeing(a) && Seedable(a, disks, sources, lineage, unseen) && AllListSome(disks, sources)
    ensures Seeding.OneHistory(OtherDisks(disks, sources, c), Platter(disks, c))
    ensures forall i: nat :: i < |OtherDisks(disks, sources, c)| ==> OtherDisks(disks, sources, c)[i] != map[]
  {
    var others := OtherDisks(disks, sources, c);
    OtherDisksAre(disks, sources, c);
    forall i | 0 <= i < |others|
      ensures Seeding.Compatible(others[i], Platter(disks, c)) && others[i] != map[]
    {
      assert others[i] in others;
      var k :| 0 <= k < |sources| && others[i] == Platter(disks, sources[k]);
      StillCompatible(a, disks, sources, lineage, unseen, sources[k], c);
    }
    forall i, j | 0 <= i < |others| && 0 <= j < |others|
      ensures Seeding.Compatible(others[i], others[j])
    {
      assert others[i] in others && others[j] in others;
      var k :| 0 <= k < |sources| && others[i] == Platter(disks, sources[k]);
      var m :| 0 <= m < |sources| && others[j] == Platter(disks, sources[m]);
      StillCompatible(a, disks, sources, lineage, unseen, sources[k], sources[m]);
    }
  }

  /** A source that was a target keeps a segment to copy. */
  lemma StillListsSome(disks: map<Vol, Disk>, sources: seq<Vol>, c: Vol, result: Disk)
    requires AllListSome(disks, sources)
    requires c in sources ==> Platter(disks, c).Keys <= result.Keys
    ensures AllListSome(disks[c := result], sources)
  {
    forall i | 0 <= i < |sources|
      ensures Platter(disks[c := result], sources[i]) != map[]
    {
      if sources[i] == c {
        var s :| s in Platter(disks, c);
        assert s in result;
      }
    }
  }

  /** Copy every other source onto volume `c`. */
  method Seed(ghost a: State, disks: map<Vol, Disk>, ghost standing: set<Vol>, sources: seq<Vol>, ghost lineage: set<nat>, c: Vol,
              weather: nat -> Seeding.Weather, ghost missed: Oversight, ghost adopted: set<Vol>)
    returns (result: Disk, seeded: bool, ghost missed': Oversight)
    requires Seedable(a, disks, sources, lineage, missed.unseen)
    requires Platter(disks, c) == Platter(a.disks, c) && !Foreign(Platter(disks, c), lineage)
    requires Accounted(a, standing, sources, missed, adopted) && c !in standing && c !in adopted
    requires forall u :: u in standing ==> Platter(disks, u) == Platter(a.disks, u)
    ensures Seedable(a, disks[c := result], sources, lineage, missed'.unseen)
    ensures seeded ==> SeededVolume(a, result, sources, lineage, missed', c)
    ensures Accounted(a, standing, sources, missed', if seeded then adopted + {c} else adopted)
    ensures forall v :: v != c ==> SamePools(missed, missed', v)
    ensures (forall i: nat :: Seeding.SeesAll(weather(i))) ==> missed'.unseen == missed.unseen
    ensures Agreeing(a) && AllListSome(disks, sources) && (forall i: nat :: Seeding.Calm(weather(i))) ==> seeded
    ensures (forall i: nat :: Seeding.NoneRemoved(weather(i))) ==> Platter(disks, c).Keys <= result.Keys
  {
    if Agreeing(a) && AllListSome(disks, sources) {
      StillOneHistory(a, disks, sources, lineage, missed.unseen, c);
    }
    result, seeded := Seeding.SeedFrom(OtherDisks(disks, sources, c), Platter(disks, c), weather);
    SeedKeepsSeedable(a, disks, sources, lineage, missed.unseen, c, weather, result);
    missed' := NoteSeed(a, disks, standing, sources, lineage, c, weather, result, seeded, missed, adopted);
  }

  /** What a seed, finished or not, adds to the oversights. */
  lemma NoteSeed(a: State, disks: map<Vol, Disk>, standing: set<Vol>, sources: seq<Vol>, lineage: set<nat>, c: Vol,
                 weather: nat -> Seeding.Weather, result: Disk, seeded: bool, missed: Oversight, adopted: set<Vol>)
    returns (missed': Oversight)
    requires Seedable(a, disks, sources, lineage, missed.unseen)
    requires Platter(disks, c) == Platter(a.disks, c) && !Foreign(Platter(disks, c), lineage)
    requires Accounted(a, standing, sources, missed, adopted) && c !in standing && c !in adopted
    requires forall u :: u in standing ==> Platter(disks, u) == Platter(a.disks, u)
    requires var others := OtherDisks(disks, sources, c);
             seeded ==> Seeding.Longest(others, weather, |others|, Platter(disks, c), result)
    ensures missed'.unseen == missed.unseen + UnseenOf(OtherDisks(disks, sources, c), weather, lineage, c)
    ensures seeded ==> SeededVolume(a, result, sources, lineage, missed', c)
    ensures Accounted(a, standing, sources, missed', if seeded then adopted + {c} else adopted)
    ensures forall v :: v != c ==> SamePools(missed, missed', v)
    ensures (forall i: nat :: Seeding.SeesAll(weather(i))) ==> missed'.unseen == missed.unseen
  {
    var others := OtherDisks(disks, sources, c);
    var unseen' := missed.unseen + UnseenOf(others, weather, lineage, c);
    missed' := missed.(unseen := unseen');
    if seeded {
      missed' := Oversight(unseen', missed.pools + PoolsOf(others, weather, Platter(disks, c), sources, lineage, unseen', c));
      PoolsStayAccounted(a, disks, standing, sources, lineage, c, weather, missed, adopted, unseen');
      SeedCompletes(a, disks, sources, lineage, c, weather, result, missed, missed');
      NotedPools(disks, sources, lineage, c, weather, missed, missed', 0);
    }
    if forall i: nat :: Seeding.SeesAll(weather(i)) {
      SeeingMissesNothing(others, weather, lineage, c);
    }
  }

  lemma SeeingMissesNothing(others: seq<Disk>, weather: nat -> Seeding.Weather, lineage: set<nat>, c: Vol)
    requires forall i: nat :: Seeding.SeesAll(weather(i))
    ensures UnseenOf(others, weather, lineage, c) == {}
  {
    forall s: nat {
      Seeding.NothingUnseen(others, weather, |others|, s);
    }
  }

  /** The oversights with this target's added. */
  ghost predicate Noted(disks: map<Vol, Disk>, sources: seq<Vol>, lineage: set<nat>, c: Vol, weather: nat -> Seeding.Weather,
                        missed: Oversight, missed': Oversight) {
    var others := OtherDisks(disks, sources, c);
    && missed'.unseen == missed.unseen + UnseenOf(others, weather, lineage, c)
    && missed'.pools == missed.pools + PoolsOf(others, weather, Platter(disks, c), sources, lineage, missed'.unseen, c)
  }

  lemma NotedPools(disks: map<Vol, Disk>, sources: seq<Vol>, lineage: set<nat>, c: Vol, weather: nat -> Seeding.Weather,
                   missed: Oversight, missed': Oversight, s: nat)
    requires Noted(disks, sources, lineage, c, weather, missed, missed') && (c, s) !in missed.pools
    ensures (c, s) in missed'.pools <==> s in lineage && InDoubt(sources, missed'.unseen, c, s)
    ensures (c, s) in missed'.pools ==> missed'.pools[(c, s)] == Copies(OtherDisks(disks, sources, c), weather, Platter(disks, c), s)
    ensures forall v :: v != c ==> SamePools(missed, missed', v)
  {
  }

  /** One segment of a target every copy onto which succeeded. */
  lemma SeedCompletesAt(a: State, disks: map<Vol, Disk>, sources: seq<Vol>, lineage: set<nat>,
                        c: Vol, weather: nat -> Seeding.Weather, result: Disk, missed: Oversight, missed': Oversight, s: nat)
    requires Seedable(a, disks, sources, lineage, missed.unseen) && Platter(disks, c) == Platter(a.disks, c)
    requires Noted(disks, sources, lineage, c, weather, missed, missed') && (c, s) !in missed.pools
    requires var others := OtherDisks(disks, sources, c);
             Seeding.LongestAt(others, weather, |others|, Platter(disks, c), result, s)
    ensures LongestOf(Pool(a, sources, missed', c, s), At(result, s))
  {
    NotedPools(disks, sources, lineage, c, weather, missed, missed', s);
    if (c, s) in missed'.pools {
      LongestIsACopy(OtherDisks(disks, sources, c), weather, Platter(disks, c), result, s);
    } else {
      SeedCompletesUndoubted(a, disks, sources, lineage, missed.unseen, c, weather, result, missed', s);
    }
  }

  /** A target every copy onto which succeeded holds every copy it was put together from. */
  lemma SeedCompletes(a: State, disks: map<Vol, Disk>, sources: seq<Vol>, lineage: set<nat>,
                      c: Vol, weather: nat -> Seeding.Weather, result: Disk, missed: Oversight, missed': Oversight)
    requires Seedable(a, disks, sources, lineage, missed.unseen) && Platter(disks, c) == Platter(a.disks, c)
    requires !Foreign(Platter(a.disks, c), lineage) && forall s: nat :: (c, s) !in missed.pools
    requires Noted(disks, sources, lineage, c, weather, missed, missed')
    requires var others := OtherDisks(disks, sources, c);
             Seeding.Longest(others, weather, |others|, Platter(disks, c), result)
    ensures SeededVolume(a, result, sources, lineage, missed', c)
  {
    forall s: nat
      ensures SeededAt(a, result, sources, lineage, missed', c, s)
    {
      SegmentCompletes(a, disks, sources, lineage, c, weather, result, missed, missed', s);
    }
  }

  lemma SegmentCompletes(a: State, disks: map<Vol, Disk>, sources: seq<Vol>, lineage: set<nat>,
                         c: Vol, weather: nat -> Seeding.Weather, result: Disk, missed: Oversight, missed': Oversight, s: nat)
    requires Seedable(a, disks, sources, lineage, missed.unseen) && Platter(disks, c) == Platter(a.disks, c)
    requires !Foreign(Platter(a.disks, c), lineage) && (c, s) !in missed.pools
    requires Noted(disks, sources, lineage, c, weather, missed, missed')
    requires var others := OtherDisks(disks, sources, c);
             Seeding.Longest(others, weather, |others|, Platter(disks, c), result)
    ensures SeededAt(a, result, sources, lineage, missed', c, s)
  {
    var others := OtherDisks(disks, sources, c);
    assert Seeding.LongestAt(others, weather, |others|, Platter(disks, c), result, s);
    SeedCompletesAt(a, disks, sources, lineage, c, weather, result, missed, missed', s);
    LongestIsACopy(others, weather, Platter(disks, c), result, s);
    ResultIsListed(disks, sources, lineage, c, weather, result, s);
  }

  datatype Verdict = Taken | Refused | Broke

  /**
    Seed one volume. A volume that cannot be listed, or that holds a non-empty segment the lineage
    does not have, is refused untouched; otherwise it is copied from every other source.
   */
  method Adopt(ghost a: State, disks: map<Vol, Disk>, ghost standing: set<Vol>, sources: seq<Vol>, lineage: set<nat>, c: Vol,
               listable: bool, weather: nat -> Seeding.Weather, ghost missed: Oversight, ghost adopted: set<Vol>)
    returns (disks': map<Vol, Disk>, verdict: Verdict, ghost missed': Oversight)
    requires Seedable(a, disks, sources, lineage, missed.unseen)
    requires Platter(disks, c) == Platter(a.disks, c)
    requires Accounted(a, standing, sources, missed, adopted) && c !in standing && c !in adopted
    requires forall u :: u in standing ==> Platter(disks, u) == Platter(a.disks, u)
    ensures Seedable(a, disks', sources, lineage, missed'.unseen)
    ensures forall v :: v != c ==> Platter(disks', v) == Platter(disks, v)
    ensures verdict.Taken? ==> SeededVolume(a, Platter(disks', c), sources, lineage, missed', c)
    ensures Accounted(a, standing, sources, missed', if verdict.Taken? then adopted + {c} else adopted)
    ensures forall v :: v != c ==> SamePools(missed, missed', v)
    ensures verdict.Refused? <==> !listable || Foreign(Platter(disks, c), lineage)
    ensures verdict.Refused? ==> disks' == disks && missed' == missed
    ensures (forall i: nat :: Seeding.SeesAll(weather(i))) ==> missed'.unseen == missed.unseen
    ensures verdict.Broke? ==> !(Agreeing(a) && AllListSome(disks, sources) && forall i: nat :: Seeding.Calm(weather(i)))
    ensures AllListSome(disks, sources) && (c in sources ==> forall i: nat :: Seeding.NoneRemoved(weather(i))) ==> AllListSome(disks', sources)
  {
    missed' := missed;
    if !listable || Foreign(Platter(disks, c), lineage) {
      disks', verdict := disks, Refused;
      return;
    }
    var result, seeded;
    result, seeded, missed' := Seed(a, disks, standing, sources, lineage, c, weather, missed, adopted);
    disks' := disks[c := result];
    if AllListSome(disks, sources) && (c in sources ==> forall i: nat :: Seeding.NoneRemoved(weather(i))) {
      StillListsSome(disks, sources, c, result);
    }
    verdict := if seeded then Taken else Broke;
  }

  /** The seats filled from the first `i` chosen volumes. */
  ghost predicate Seated(a: State, standing: set<Vol>, chosen: seq<Vol>, i: nat, sources: seq<Vol>, lineage: set<nat>,
                         disks: map<Vol, Disk>, kept: seq<Vol>, adopted: seq<Vol>, missed: Oversight)
    requires i <= |chosen|
  {
    && Seedable(a, disks, sources, lineage, missed.unseen)
    && Untouched(a, standing, chosen, i, disks)
    && AllSeeded(a, sources, lineage, disks, adopted, missed)
    && Accounted(a, standing, sources, missed, set v | v in adopted)
    && SeatsFilled(standing, chosen, i, kept, adopted)
  }

  ghost predicate Untouched(a: State, standing: set<Vol>, chosen: seq<Vol>, i: nat, disks: map<Vol, Disk>)
    requires i <= |chosen|
  {
    forall v :: v in standing || v !in chosen[..i] ==> Platter(disks, v) == Platter(a.disks, v)
  }

  ghost predicate AllSeeded(a: State, sources: seq<Vol>, lineage: set<nat>, disks: map<Vol, Disk>, adopted: seq<Vol>, missed: Oversight) {
    forall v :: v in adopted ==> SeededVolume(a, Platter(disks, v), sources, lineage, missed, v)
  }

  /** Who has a seat after the first `i` chosen volumes. */
  ghost predicate SeatsFilled(standing: set<Vol>, chosen: seq<Vol>, i: nat, kept: seq<Vol>, adopted: seq<Vol>)
    requires i <= |chosen|
  {
    && (forall v :: v in kept <==> v in chosen[..i] && v in standing)
    && (forall v :: v in adopted ==> v in chosen[..i] && v !in standing)
    && Distinct(kept) && Distinct(adopted)
  }

  lemma NextSeatFilled(standing: set<Vol>, chosen: seq<Vol>, i: nat, kept: seq<Vol>, adopted: seq<Vol>, takes: bool)
    requires i < |chosen| && Distinct(chosen) && SeatsFilled(standing, chosen, i, kept, adopted)
    ensures chosen[i] in standing ==> SeatsFilled(standing, chosen, i + 1, kept + [chosen[i]], adopted)
    ensures chosen[i] !in standing ==> SeatsFilled(standing, chosen, i + 1, kept, if takes then adopted + [chosen[i]] else adopted)
  {
    OneMoreChosen(chosen, i);
  }

  lemma SeatKept(a: State, standing: set<Vol>, chosen: seq<Vol>, i: nat, sources: seq<Vol>, lineage: set<nat>,
                 disks: map<Vol, Disk>, kept: seq<Vol>, adopted: seq<Vol>, missed: Oversight)
    requires i < |chosen| && Distinct(chosen) && chosen[i] in standing
    requires Seated(a, standing, chosen, i, sources, lineage, disks, kept, adopted, missed)
    ensures Seated(a, standing, chosen, i + 1, sources, lineage, disks, kept + [chosen[i]], adopted, missed)
  {
    OneMoreChosen(chosen, i);
    NextSeatFilled(standing, chosen, i, kept, adopted, false);
  }

  lemma OneMoreChosen(chosen: seq<Vol>, i: nat)
    requires i < |chosen| && Distinct(chosen)
    ensures forall v :: v in chosen[..i + 1] <==> v in chosen[..i] || v == chosen[i]
    ensures chosen[i] !in chosen[..i]
  {
    assert chosen[..i + 1] == chosen[..i] + [chosen[i]];
  }

  /** A volume seeded earlier is as it was: its pools are. */
  lemma StillSeeded(a: State, d: Disk, sources: seq<Vol>, lineage: set<nat>, missed: Oversight, missed': Oversight, v: Vol)
    requires SeededVolume(a, d, sources, lineage, missed, v)
    requires SamePools(missed, missed', v)
    ensures SeededVolume(a, d, sources, lineage, missed', v)
  {
    forall s: nat
      ensures SeededAt(a, d, sources, lineage, missed', v, s)
    {
      assert SeededAt(a, d, sources, lineage, missed, v, s);
      assert Pool(a, sources, missed', v, s) == Pool(a, sources, missed, v, s);
    }
  }

  lemma SeatAdopted(a: State, standing: set<Vol>, chosen: seq<Vol>, i: nat, sources: seq<Vol>, lineage: set<nat>,
                    disks: map<Vol, Disk>, kept: seq<Vol>, adopted: seq<Vol>, missed: Oversight,
                    disks': map<Vol, Disk>, takes: bool, missed': Oversight)
    requires i < |chosen| && Distinct(chosen) && chosen[i] !in standing
    requires Seated(a, standing, chosen, i, sources, lineage, disks, kept, adopted, missed)
    requires Seedable(a, disks', sources, lineage, missed'.unseen)
    requires forall v :: v != chosen[i] ==> Platter(disks', v) == Platter(disks, v)
    requires takes ==> SeededVolume(a, Platter(disks', chosen[i]), sources, lineage, missed', chosen[i])
    requires Accounted(a, standing, sources, missed', (set v | v in adopted) + (if takes then {chosen[i]} else {}))
    requires forall v :: v != chosen[i] ==> SamePools(missed, missed', v)
    ensures Seated(a, standing, chosen, i + 1, sources, lineage, disks', kept,
                   if takes then adopted + [chosen[i]] else adopted, missed')
  {
    NextSeatFilled(standing, chosen, i, kept, adopted, takes);
    NextUntouched(a, standing, chosen, i, disks, disks');
    AdoptedSet(adopted, chosen[i]);
    assert chosen[i] !in adopted by {
      OneMoreChosen(chosen, i);
    }
    NextSeeded(a, sources, lineage, disks, disks', adopted, missed, missed', chosen[i], takes);
  }

  lemma NextUntouched(a: State, standing: set<Vol>, chosen: seq<Vol>, i: nat, disks: map<Vol, Disk>, disks': map<Vol, Disk>)
    requires i < |chosen| && Distinct(chosen) && chosen[i] !in standing && Untouched(a, standing, chosen, i, disks)
    requires forall v :: v != chosen[i] ==> Platter(disks', v) == Platter(disks, v)
    ensures Untouched(a, standing, chosen, i + 1, disks')
  {
    OneMoreChosen(chosen, i);
  }

  lemma AdoptedSet(adopted: seq<Vol>, c: Vol)
    ensures (set v | v in adopted + [c]) == (set v | v in adopted) + {c}
  {
  }

  lemma NextSeeded(a: State, sources: seq<Vol>, lineage: set<nat>, disks: map<Vol, Disk>, disks': map<Vol, Disk>,
                   adopted: seq<Vol>, missed: Oversight, missed': Oversight, c: Vol, takes: bool)
    requires AllSeeded(a, sources, lineage, disks, adopted, missed) && c !in adopted
    requires forall v :: v != c ==> Platter(disks', v) == Platter(disks, v)
    requires forall v :: v != c ==> SamePools(missed, missed', v)
    requires takes ==> SeededVolume(a, Platter(disks', c), sources, lineage, missed', c)
    ensures AllSeeded(a, sources, lineage, disks', if takes then adopted + [c] else adopted, missed')
  {
    forall v | v in adopted
      ensures SeededVolume(a, Platter(disks', v), sources, lineage, missed', v)
    {
      StillSeeded(a, Platter(disks, v), sources, lineage, missed, missed', v);
    }
  }

  /** A chosen volume that does not keep its seat is given one exactly when it is not refused and no copy onto it broke off. */
  ghost predicate TurnedAway(a: State, standing: set<Vol>, lineage: set<nat>, c: Vol, adopted: seq<Vol>, broken: set<Vol>, listable: bool) {
    c !in standing ==> (c in adopted <==> c !in broken && listable && !Foreign(Platter(a.disks, c), lineage))
  }

  ghost predicate AllTurnedAway(a: State, standing: set<Vol>, chosen: seq<Vol>, i: nat, lineage: set<nat>, adopted: seq<Vol>, broken: set<Vol>,
                                listable: Vol -> bool)
    requires i <= |chosen|
  {
    forall j :: 0 <= j < i ==> TurnedAway(a, standing, lineage, chosen[j], adopted, broken, listable(chosen[j]))
  }

  lemma OneMoreTurnedAway(a: State, standing: set<Vol>, chosen: seq<Vol>, i: nat, lineage: set<nat>, adopted: seq<Vol>, broken: set<Vol>,
                          listable: Vol -> bool, adopted': seq<Vol>, broken': set<Vol>)
    requires i < |chosen| && Distinct(chosen) && AllTurnedAway(a, standing, chosen, i, lineage, adopted, broken, listable)
    requires (adopted' == adopted || adopted' == adopted + [chosen[i]]) && (broken' == broken || broken' == broken + {chosen[i]})
    requires TurnedAway(a, standing, lineage, chosen[i], adopted', broken', listable(chosen[i]))
    ensures AllTurnedAway(a, standing, chosen, i + 1, lineage, adopted', broken', listable)
  {
    forall j | 0 <= j <= i
      ensures TurnedAway(a, standing, lineage, chosen[j], adopted', broken', listable(chosen[j]))
    {
      assert j < i ==> TurnedAway(a, standing, lineage, chosen[j], adopted, broken, listable(chosen[j]));
    }
  }

  /** No volume broke that was sure not to, and the sources have lasted so far if they were to. */
  ghost predicate OnlyTheUnsureBreak(a: State, sources: seq<Vol>, weather: Vol -> (nat -> Seeding.Weather), disks: map<Vol, Disk>, broken: set<Vol>) {
    && (SourcesLast(a, sources, weather) ==> AllListSome(disks, sources))
    && (forall v :: v in broken ==> !SureToSeed(a, sources, weather, v))
  }

  /** Give the next chosen volume its seat, or turn it away. */
  method FillSeat(a: State, standing: set<Vol>, chosen: seq<Vol>, i: nat, sources: seq<Vol>, lineage: set<nat>,
                  disks: map<Vol, Disk>, kept: seq<Vol>, adopted: seq<Vol>, ghost missed: Oversight,
                  listable: bool, weather: Vol -> (nat -> Seeding.Weather), ghost broken: set<Vol>)
    returns (disks': map<Vol, Disk>, kept': seq<Vol>, adopted': seq<Vol>, ghost missed': Oversight, ghost broken': set<Vol>)
    requires i < |chosen| && Distinct(chosen) && OnlyTheUnsureBreak(a, sources, weather, disks, broken) && chosen[i] !in broken
    requires Seated(a, standing, chosen, i, sources, lineage, disks, kept, adopted, missed)
    ensures Seated(a, standing, chosen, i + 1, sources, lineage, disks', kept', adopted', missed')
    ensures adopted' == adopted || adopted' == adopted + [chosen[i]]
    ensures (broken' == broken || broken' == broken + {chosen[i]}) && OnlyTheUnsureBreak(a, sources, weather, disks', broken')
    ensures TurnedAway(a, standing, lineage, chosen[i], adopted', broken', listable)
    ensures (forall k: nat :: Seeding.SeesAll(weather(chosen[i])(k))) ==> missed'.unseen == missed.unseen
  {
    var c := chosen[i];
    disks', kept', adopted', missed', broken' := disks, kept, adopted, missed, broken;
    assert c !in chosen[..i];
    if c in standing {
      SeatKept(a, standing, chosen, i, sources, lineage, disks, kept, adopted, missed);
      kept' := kept + [c];
    } else {
      var verdict;
      disks', verdict, missed' := Adopt(a, disks, standing, sources, lineage, c, listable, weather(c), missed, set v | v in adopted);
      SeatAdopted(a, standing, chosen, i, sources, lineage, disks, kept, adopted, missed, disks', verdict.Taken?, missed');
      if verdict.Taken? {
        adopted' := adopted + [c];
      } else if verdict.Broke? {
        broken' := broken + {c};
      }
    }
  }

  /** Give every chosen volume its seat, or turn it away. */
  method FillSeats(a: State, standing: set<Vol>, chosen: seq<Vol>, sources: seq<Vol>, lineage: set<nat>,
                   listable: Vol -> bool, weather: Vol -> (nat -> Seeding.Weather))
    returns (disks: map<Vol, Disk>, kept: seq<Vol>, adopted: seq<Vol>, ghost missed: Oversight, ghost broken: set<Vol>)
    requires Distinct(chosen)
    requires forall s: nat :: s in lineage <==> ListedNow(a.disks, sources, s)
    ensures Seated(a, standing, chosen, |chosen|, sources, lineage, disks, kept, adopted, missed)
    ensures forall v :: v in chosen ==> TurnedAway(a, standing, lineage, v, adopted, broken, listable(v))
    ensures forall v :: v in broken ==> !SureToSeed(a, sources, weather, v)
    ensures (forall v, k: nat :: Seeding.SeesAll(weather(v)(k))) ==> missed.unseen == {}
  {
    disks, kept, adopted, missed, broken := a.disks, [], [], NOTHING_MISSED, {};
    NothingSeatedYet(a, standing, chosen, sources, lineage);
    var i := 0;
    while i < |chosen|
      invariant 0 <= i <= |chosen|
      invariant Seated(a, standing, chosen, i, sources, lineage, disks, kept, adopted, missed)
      invariant AllTurnedAway(a, standing, chosen, i, lineage, adopted, broken, listable)
      invariant OnlyTheUnsureBreak(a, sources, weather, disks, broken)
      invariant forall v :: v in broken ==> v in chosen[..i]
      invariant (forall v, k: nat :: Seeding.SeesAll(weather(v)(k))) ==> missed.unseen == {}
    {
      ghost var before, earlier := adopted, broken;
      OneMoreChosen(chosen, i);
      disks, kept, adopted, missed, broken :=
        FillSeat(a, standing, chosen, i, sources, lineage, disks, kept, adopted, missed, listable(chosen[i]), weather, broken);
      OneMoreTurnedAway(a, standing, chosen, i, lineage, before, earlier, listable, adopted, broken);
      i := i + 1;
    }
  }

  lemma NothingSeatedYet(a: State, standing: set<Vol>, chosen: seq<Vol>, sources: seq<Vol>, lineage: set<nat>)
    requires forall s: nat :: s in lineage <==> ListedNow(a.disks, sources, s)
    ensures Seated(a, standing, chosen, 0, sources, lineage, a.disks, [], [], NOTHING_MISSED)
  {
    forall i: int, s: nat
      ensures StillHeld(a, a.disks, sources, {}, i, s)
    {
      if 0 <= i < |sources| {
        assert At(Platter(a.disks, sources[i]), s) <= At(Platter(a.disks, sources[i]), s);
      }
    }
  }
}
