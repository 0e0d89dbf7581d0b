/** World Assembly engagement statistics (`discord/cogs/wastats.py`):
    `calculateStats` reads the cache and counts the region's members, the
    delegate's endorsements, the endorsements that could exist and those
    that do. */
module WaStats {
  import opened Wrappers
  import opened Strings
  import opened Classes
  import opened Cache

  /** A `WaStats` record. */
  datatype Stats = Stats(timestamp: real, waCount: nat, delEndos: nat, potentialEndos: int, endosGiven: nat)

  /** The tracked region is known, and a delegate it names is cached:
      otherwise `calculateStats` raises an `AttributeError` on `None`. */
  predicate StatsDefined(s: CacheState) {
    ValidState(s) && s.mainRegion.Some? &&
    (Truthy(s.mainRegion.value.delegate) ==> s.mainRegion.value.delegate.value in s.nations)
  }

  /** `delEndos`: the delegate's recorded endorsements, unverified, or 0
      without a delegate. */
  function DelegateEndos(s: CacheState): nat
    requires StatsDefined(s)
  {
    var d := s.mainRegion.value.delegate;
    if Truthy(d) then |s.nations[d.value].endorsements| else 0
  }

  /** The verified endorsements received by the nations of `S`, summed. */
  ghost function SumVerified(s: CacheState, S: set<string>): nat
    decreases S
  {
    if S == {} then 0
    else
      var x :| x in S;
      |VerifiedSet(s, x)| + SumVerified(s, S - {x})
  }

  /** The sum does not depend on which nation is taken first. */
  lemma {:induction false} SumVerifiedRemove(s: CacheState, S: set<string>, y: string)
    requires y in S
    ensures SumVerified(s, S) == |VerifiedSet(s, y)| + SumVerified(s, S - {y})
    decreases S
  {
    var x :| x in S && SumVerified(s, S) == |VerifiedSet(s, x)| + SumVerified(s, S - {x});
    if x != y {
      SumVerifiedRemove(s, S - {x}, y);
      SumVerifiedRemove(s, S - {y}, x);
      assert S - {x} - {y} == S - {y} - {x};
    }
  }

  /** The verified endorsements received by the nations of `S`, as
      (endorsee, endorser) pairs. */
  ghost function VerifiedPairs(s: CacheState, S: set<string>): set<(string, string)> {
    set n, e | n in S && e in VerifiedSet(s, n) :: (n, e)
  }

  /** The ordered pairs of distinct nations of `S`: every endorsement that
      could be given among them. */
  ghost function DistinctPairs(S: set<string>): set<(string, string)> {
    set a, b | a in S && b in S && a != b :: (a, b)
  }

  lemma {:induction false} TaggedLeft(x: string, S: set<string>)
    ensures |set e | e in S :: (x, e)| == |S|
    decreases S
  {
    if S != {} {
      var y :| y in S;
      TaggedLeft(x, S - {y});
      assert (set e | e in S :: (x, e)) == (set e | e in S - {y} :: (x, e)) + {(x, y)};
    }
  }

  lemma {:induction false} TaggedRight(x: string, S: set<string>)
    ensures |set e | e in S :: (e, x)| == |S|
    decreases S
  {
    if S != {} {
      var y :| y in S;
      TaggedRight(x, S - {y});
      assert (set e | e in S :: (e, x)) == (set e | e in S - {y} :: (e, x)) + {(y, x)};
    }
  }

  /** `endosGiven` counts the verified endorsements among the nations, one
      per (endorsee, endorser) pair. */
  lemma {:induction false} SumIsPairCount(s: CacheState, S: set<string>)
    ensures SumVerified(s, S) == |VerifiedPairs(s, S)|
    decreases S
  {
    if S == {} {
      assert VerifiedPairs(s, S) == {};
    } else {
      var x :| x in S;
      SumVerifiedRemove(s, S, x);
      SumIsPairCount(s, S - {x});
      TaggedLeft(x, VerifiedSet(s, x));
      PairsSplit(s, S, x);
    }
  }

  lemma PairsSplit(s: CacheState, S: set<string>, x: string)
    requires x in S
    ensures var own := set e | e in VerifiedSet(s, x) :: (x, e);
      VerifiedPairs(s, S) == VerifiedPairs(s, S - {x}) + own && VerifiedPairs(s, S - {x}) !! own
  {
    var own := set e | e in VerifiedSet(s, x) :: (x, e);
    var rest := VerifiedPairs(s, S - {x});
    forall p | p in VerifiedPairs(s, S)
      ensures p in rest + own
    {
      if p.0 != x {
        assert p.0 in S - {x};
      }
    }
    forall p | p in rest
      ensures p in VerifiedPairs(s, S) && p !in own
    {
    }
  }

  /** `potentialEndos` counts the endorsements that could exist: every
      member endorsing every other one. */
  lemma {:induction false} PotentialIsPairCount(S: set<string>)
    ensures |DistinctPairs(S)| == |S| * (|S| - 1)
    decreases S
  {
    if S != {} {
      var x :| x in S;
      var rest := S - {x};
      PotentialIsPairCount(rest);
      var given := set b | b in rest :: (x, b);
      var received := set a | a in rest :: (a, x);
      TaggedLeft(x, rest);
      TaggedRight(x, rest);
      DistinctSplit(S, x);
      assert |S| == |rest| + 1;
      assert |S| * (|S| - 1) == |rest| * (|rest| - 1) + 2 * |rest|;
    }
  }

  lemma DistinctSplit(S: set<string>, x: string)
    requires x in S
    ensures var rest := S - {x};
      var given := set b | b in rest :: (x, b);
      var received := set a | a in rest :: (a, x);
      |DistinctPairs(S)| == |DistinctPairs(rest)| + |given| + |received|
  {
    var rest := S - {x};
    var given := set b | b in rest :: (x, b);
    var received := set a | a in rest :: (a, x);
    var before := DistinctPairs(rest);
    forall p | p in DistinctPairs(S)
      ensures p in before + given + received
    {
      if p.0 != x && p.1 != x {
        assert p.0 in rest && p.1 in rest;
      }
    }
    assert before + given + received <= DistinctPairs(S);
    assert DistinctPairs(S) == before + given + received;
    assert before !! given && before !! received && given !! received;
  }

  /** `calculateStats`: reads the cache and changes nothing; `None` where it
      raises. */
  method CalculateStats(cache: CacheManager, now: real) returns (stats: Option<Stats>)
    requires cache.Valid()
    ensures stats.None? <==> !StatsDefined(cache.State())
    ensures stats.Some? ==>
      var s := cache.State();
      var wa := RegionWaNations(s);
      stats.value.timestamp == now && stats.value.waCount == |wa| && stats.value.potentialEndos == |wa| * (|wa| - 1) &&
      stats.value.delEndos == DelegateEndos(s) && stats.value.endosGiven == SumVerified(s, wa)
  {
    if cache.mainRegion.None? {
      return None;
    }
    var s := cache.State();
    var waNations := RegionWaNations(s);
    var waCount := |waNations|;
    var delEndos := 0;
    var delegateId := cache.mainRegion.value.delegate;
    if delegateId.Some? && delegateId.value != "" {
      if delegateId.value !in cache.nations {
        return None;
      }
      delEndos := |cache.nations[delegateId.value].endorsements|;
    }
    var potentialEndos := waCount * (waCount - 1);
    var endosGiven := 0;
    var todo := waNations;
    while todo != {}
      invariant todo <= waNations
      invariant endosGiven + SumVerified(s, todo) == SumVerified(s, waNations)
      decreases todo
    {
      var nationId :| nationId in todo;
      var verified := cache.VerifiedEndorsements(nationId);
      SumVerifiedRemove(s, todo, nationId);
      endosGiven := endosGiven + |verified|;
      todo := todo - {nationId};
    }
    stats := Some(Stats(now, waCount, delEndos, potentialEndos, endosGiven));
  }

  /** The statistics as counts: `endosGiven` is the number of verified
      endorsements received by the region's members and `potentialEndos`
      the number of ordered pairs of distinct members, so the first never
      exceeds the second when every verified endorser is another member. */
  lemma StatsCount(s: CacheState)
    requires StatsDefined(s)
    requires forall n, e :: n in RegionWaNations(s) && e in VerifiedSet(s, n) ==> e in RegionWaNations(s) && e != n
    ensures var wa := RegionWaNations(s);
      SumVerified(s, wa) == |VerifiedPairs(s, wa)| && |DistinctPairs(wa)| == |wa| * (|wa| - 1) &&
      SumVerified(s, wa) <= |wa| * (|wa| - 1)
  {
    var wa := RegionWaNations(s);
    SumIsPairCount(s, wa);
    PotentialIsPairCount(wa);
    assert VerifiedPairs(s, wa) <= DistinctPairs(wa);
    SubsetCard(VerifiedPairs(s, wa), DistinctPairs(wa));
  }

  lemma SubsetCard(a: set<(string, string)>, b: set<(string, string)>)
    requires a <= b
    ensures |a| <= |b|
  {
    assert b == a + (b - a);
  }
}
