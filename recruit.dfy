/** The recruitment cog (`discord/cogs/recruit.py`): the puppet heuristic,
    admission of new nations into the last matching bucket, LIFO pops, the
    bucket order, the per-nation cooldown, one bucket-selection round of a
    recruitment session and the minimum-timer check of `/recruit`. */
module Recruit {
  import opened Wrappers
  import opened Regex
  import opened Classes
  import opened RecruitFilters
  import opened Cache
  import opened Sorting
  import Strings

  /** `MAX_NATIONS_PER_TG`. */
  const MaxNationsPerTg: nat := 8
  /** `deque(maxlen=40)` of recently admitted ids. */
  const FilterWindow: nat := 40
  const SimilarityLimit: real := 0.7

  // ---------------------------------------------------------------------
  // Puppet regexes, both applied with `fullmatch`

  /** `[a-z0-9_-]+[0-9]+`: an id of at least two id characters ending in a
      digit. */
  predicate DigitSuffix(s: string) {
    |s| >= 2 && AllIn(s, IdChars) && InClass(s[|s| - 1], Digits)
  }

  /** The accepted spellings of one Roman digit position, as
      `(one ten|one five|five? one{0,3})`. */
  function RomanDigit(one: char, five: char, ten: char): set<string> {
    {[one, ten], [one, five], [], [one], [one, one], [one, one, one],
     [five], [five, one], [five, one, one], [five, one, one, one]}
  }

  /** `m{0,4}`. */
  const Thousands: set<string> := {"", "m", "mm", "mmm", "mmmm"}

  predicate RomanOnes(t: string) { t in RomanDigit('i', 'v', 'x') }

  predicate RomanTens(t: string) {
    exists k :: 0 <= k <= |t| && t[..k] in RomanDigit('x', 'l', 'c') && RomanOnes(t[k..])
  }

  predicate RomanHundreds(t: string) {
    exists k :: 0 <= k <= |t| && t[..k] in RomanDigit('c', 'd', 'm') && RomanTens(t[k..])
  }

  /** `m{0,4}(cm|cd|d?c{0,3})(xc|xl|l?x{0,3})(ix|iv|v?i{0,3})`, which also
      accepts the empty string. */
  predicate Roman(t: string) {
    exists k :: 0 <= k <= |t| && t[..k] in Thousands && RomanHundreds(t[k..])
  }

  /** `[a-z0-9_-]+_` followed by a Roman numeral. */
  predicate RomanSuffix(s: string) {
    exists k :: 1 <= k < |s| && s[k] == '_' && AllIn(s[..k], IdChars) && Roman(s[k + 1..])
  }

  predicate LooksLikePuppet(s: string) {
    DigitSuffix(s) || RomanSuffix(s)
  }

  /** A digit suffix is caught and a plain name is not. */
  lemma DigitSuffixExamples()
    ensures LooksLikePuppet("nation7")
    ensures !LooksLikePuppet("nation")
  {
    assert DigitSuffix("nation7");
    var n := "nation";
    assert n[5] == 'n' && !InClass('n', Digits);
    assert forall i :: 0 <= i < |n| ==> n[i] != '_';
    NoUnderscoreNoRoman(n);
  }

  /** An id without an underscore has no Roman numeral suffix. */
  lemma NoUnderscoreNoRoman(s: string)
    requires forall i :: 0 <= i < |s| ==> s[i] != '_'
    ensures !RomanSuffix(s)
  {
  }

  /** `iv` is a Roman numeral, as is the empty string. */
  lemma RomanExamples()
    ensures Roman("iv")
    ensures Roman("")
  {
    var t := "iv";
    assert t[..0] == "" && t[0..] == t;
    assert RomanOnes(t) && RomanTens(t) && RomanHundreds(t);
    assert RomanOnes("") && RomanTens("") && RomanHundreds("");
  }

  /** Any id followed by an underscore and a Roman numeral is caught,
      including a bare trailing underscore. */
  lemma RomanSuffixCaught(id: string, numeral: string)
    requires |id| >= 1 && AllIn(id, IdChars) && Roman(numeral)
    ensures LooksLikePuppet(id + "_" + numeral)
  {
    var s := id + "_" + numeral;
    Strings.Framed(id, "_", numeral);
    assert s[|id|] == '_';
    RomanSuffixAt(s, |id|);
  }

  lemma RomanSuffixAt(s: string, k: nat)
    requires 1 <= k < |s| && s[k] == '_' && AllIn(s[..k], IdChars) && Roman(s[k + 1..])
    ensures RomanSuffix(s)
  {
  }

  // ---------------------------------------------------------------------
  // Similarity window

  /** The highest similarity between `nation` and the window, starting from
      `best` (the loop starts from 0). `ratio` stands for Levenshtein's
      `ratio`. */
  function MaxSimilarity(nation: string, window: seq<string>, ratio: (string, string) -> real, best: real): real
    decreases |window|
  {
    if window == [] then best
    else
      var likeness := ratio(nation, window[0]);
      MaxSimilarity(nation, window[1..], ratio, if likeness > best then likeness else best)
  }

  /** The maximum stays below a limit iff the start and every similarity
      do. */
  lemma {:induction false} MaxSimilarityBelow(nation: string, window: seq<string>, ratio: (string, string) -> real,
                                              best: real, limit: real)
    ensures MaxSimilarity(nation, window, ratio, best) < limit <==>
      best < limit && forall o :: o in window ==> ratio(nation, o) < limit
    decreases |window|
  {
    if window != [] {
      var likeness := ratio(nation, window[0]);
      MaxSimilarityBelow(nation, window[1..], ratio, if likeness > best then likeness else best, limit);
      assert forall o :: o in window <==> o == window[0] || o in window[1..];
    }
  }

  /** `checkPuppetFilter`'s verdict: caught by a regex, or at least 0.7
      similar to an id in the window. */
  predicate PuppetSkip(nation: string, window: seq<string>, ratio: (string, string) -> real) {
    LooksLikePuppet(nation) || MaxSimilarity(nation, window, ratio, 0.0) >= SimilarityLimit
  }

  /** An id passes iff no regex catches it and it is less than 0.7 similar
      to every id in the window; an empty window lets every regex-clean id
      through. */
  lemma PuppetSkipSpec(nation: string, window: seq<string>, ratio: (string, string) -> real)
    ensures !PuppetSkip(nation, window, ratio) <==>
      !LooksLikePuppet(nation) && forall o :: o in window ==> ratio(nation, o) < SimilarityLimit
    ensures window == [] ==> (PuppetSkip(nation, window, ratio) <==> LooksLikePuppet(nation))
  {
    MaxSimilarityBelow(nation, window, ratio, 0.0, SimilarityLimit);
  }

  // ---------------------------------------------------------------------
  // Buckets

  /** `popNations`: up to `max` entries from the newest end, newest first,
      each with the bucket priority taken off its time. */
  function Popped(nations: seq<(string, real)>, max: int, priority: real): (r: seq<(string, real)>)
    ensures |r| == if max <= 0 then 0 else if max < |nations| then max else |nations|
    ensures forall i :: 0 <= i < |r| ==>
      r[i] == (nations[|nations| - 1 - i].0, nations[|nations| - 1 - i].1 - priority)
  {
    var k := if max <= 0 then 0 else if max < |nations| then max else |nations|;
    seq(k, i requires 0 <= i < k => (nations[|nations| - 1 - i].0, nations[|nations| - 1 - i].1 - priority))
  }

  /** Popped entries pushed back oldest first, with the priority added again. */
  function Restored(popped: seq<(string, real)>, priority: real): (r: seq<(string, real)>)
    ensures |r| == |popped|
  {
    seq(|popped|, i requires 0 <= i < |popped| => (popped[|popped| - 1 - i].0, popped[|popped| - 1 - i].1 + priority))
  }

  lemma RestoredSuffix(nations: seq<(string, real)>, max: int, priority: real)
    ensures var r := Popped(nations, max, priority);
      Restored(r, priority) == nations[|nations| - |r|..]
  {
    var r := Popped(nations, max, priority);
    var n, k := |nations|, |r|;
    var pushed := Restored(r, priority);
    forall i | 0 <= i < k
      ensures pushed[i] == nations[n - k..][i]
    {
      var e := nations[n - k + i];
      assert r[k - 1 - i] == (e.0, e.1 - priority);
      assert pushed[i] == (e.0, e.1 - priority + priority);
      assert nations[n - k..][i] == e;
    }
  }

  /** Pushing the popped entries back, oldest first and with the priority
      added again, restores the bucket. */
  lemma PopRestores(nations: seq<(string, real)>, max: int, priority: real)
    ensures var r := Popped(nations, max, priority);
      nations == nations[..|nations| - |r|] + Restored(r, priority)
  {
    var r := Popped(nations, max, priority);
    RestoredSuffix(nations, max, priority);
    assert nations == nations[..|nations| - |r|] + nations[|nations| - |r|..];
  }

  /** The filters of the buckets, in declaration order. */
  function FiltersOf(bs: seq<BucketQueue>): (fs: seq<seq<Component>>)
    reads set b | b in bs
    ensures |fs| == |bs| && forall i :: 0 <= i < |bs| ==> fs[i] == bs[i].filter
  {
    if bs == [] then [] else FiltersOf(bs[..|bs| - 1]) + [bs[|bs| - 1].filter]
  }

  /** The deques of the buckets, in declaration order. */
  function QueuesOf(bs: seq<BucketQueue>): (qs: seq<seq<(string, real)>>)
    reads set b | b in bs
    ensures |qs| == |bs| && forall i :: 0 <= i < |bs| ==> qs[i] == bs[i].nations
  {
    if bs == [] then [] else QueuesOf(bs[..|bs| - 1]) + [bs[|bs| - 1].nations]
  }

  /** The bucket `addNation` picks: the last declared whose filter matches. */
  function LastMatch(filters: seq<seq<Component>>, event: string, region: string): (r: Option<nat>)
    ensures r.Some? ==>
              (r.value < |filters| && FilterMatches(filters[r.value], event, region) &&
               forall j :: r.value < j < |filters| ==> !FilterMatches(filters[j], event, region))
    ensures r.None? ==> forall j :: 0 <= j < |filters| ==> !FilterMatches(filters[j], event, region)
  {
    if filters == [] then None
    else if FilterMatches(filters[|filters| - 1], event, region) then Some(|filters| - 1)
    else LastMatch(filters[..|filters| - 1], event, region)
  }

  /** The last match among the first `i` filters when filter `i-1` does not
      match is the last match among the first `i-1`. */
  lemma LastMatchSkip(filters: seq<seq<Component>>, i: nat, event: string, region: string)
    requires 0 < i <= |filters| && !FilterMatches(filters[i - 1], event, region)
    ensures LastMatch(filters[..i], event, region) == LastMatch(filters[..i - 1], event, region)
  {
    assert filters[..i][..i - 1] == filters[..i - 1];
  }

  /** When filter `i-1` matches it is the last match among the first `i`. */
  lemma LastMatchHit(filters: seq<seq<Component>>, i: nat, event: string, region: string)
    requires 0 < i <= |filters| && FilterMatches(filters[i - 1], event, region)
    ensures LastMatch(filters[..i], event, region) == Some(i - 1)
  {
  }

  /** The keys `sortBuckets` sorts by. */
  function LastUpdates(bs: seq<BucketQueue>): (ks: seq<real>)
    reads set b | b in bs
    ensures |ks| == |bs| && forall i :: 0 <= i < |bs| ==> ks[i] == bs[i].LastUpdate()
  {
    if bs == [] then [] else LastUpdates(bs[..|bs| - 1]) + [bs[|bs| - 1].LastUpdate()]
  }

  /** The position in `order` of the first bucket a round can use: one that
      supports manual recruitment and holds an entry. */
  function FirstReady(bs: seq<BucketQueue>, order: seq<nat>): (p: Option<nat>)
    requires forall k :: 0 <= k < |order| ==> order[k] < |bs|
    reads set b | b in bs
    ensures p.Some? ==> p.value < |order| && bs[order[p.value]].SupportsManual() && |bs[order[p.value]].nations| > 0
    ensures p.Some? ==> forall q :: 0 <= q < p.value ==> !bs[order[q]].SupportsManual() || |bs[order[q]].nations| == 0
    ensures p.None? ==> forall q :: 0 <= q < |order| ==> !bs[order[q]].SupportsManual() || |bs[order[q]].nations| == 0
    decreases |order|
  {
    if order == [] then None
    else if bs[order[0]].SupportsManual() && |bs[order[0]].nations| > 0 then Some(0)
    else
      var p := FirstReady(bs, order[1..]);
      if p.Some? then Some(p.value + 1) else None
  }

  // ---------------------------------------------------------------------
  // Cooldown and timers

  /** `cooldown`: seconds to wait per telegrammed nation, 14 for a new
      nation, one less per 60 days, and 5 from 540 days on. */
  function Cooldown(nation: Nation, now: real): real {
    var daysSinceFounding := (now - nation.foundedAt as real) / 86400.0;
    if daysSinceFounding >= 18.0 * 30.0 then 5.0 else 14.0 - daysSinceFounding / 60.0
  }

  /** The cooldown is 14 at founding, never below 5 and never above 14 for
      a nation founded in the past. */
  lemma CooldownShape(nation: Nation, now: real)
    ensures now == nation.foundedAt as real ==> Cooldown(nation, now) == 14.0
    ensures Cooldown(nation, now) >= 5.0
    ensures now >= nation.foundedAt as real ==> Cooldown(nation, now) <= 14.0
  {
  }

  /** An older nation never waits longer. */
  lemma CooldownNonIncreasing(nation: Nation, now1: real, now2: real)
    requires now1 <= now2
    ensures Cooldown(nation, now2) <= Cooldown(nation, now1)
  {
  }

  /** The wait after a round that telegrammed `count` nations with the
      dynamic timer, plus 5 seconds of slack without confirmation. */
  function RoundWait(nation: Nation, now: real, count: nat, confirm: bool): real {
    Cooldown(nation, now) * count as real + (if confirm then 0.0 else 5.0)
  }

  /** `if timer and timer < minimumTimer` as written: a timer of 0 is falsy
      in Python and is accepted whatever the minimum. */
  predicate TimerAcceptedAsWritten(timer: Option<int>, minimum: real) {
    !(timer.Some? && timer.value != 0 && (timer.value as real) < minimum)
  }

  /** A zero timer gets past the check although it is below the minimum. */
  lemma ZeroTimerBypass(nation: Nation, now: real)
    ensures TimerAcceptedAsWritten(Some(0), Cooldown(nation, now) * 8.0)
    ensures !TimerAcceptedCorrected(Some(0), Cooldown(nation, now) * 8.0)
  {
    CooldownShape(nation, now);
  }

  /** The check as intended: a fixed timer must be at least the minimum. */
  predicate TimerAcceptedCorrected(timer: Option<int>, minimum: real) {
    timer.None? || (timer.value as real) >= minimum
  }

  /** With the corrected check an accepted fixed timer is never shorter than
      the dynamic cooldown of any round, which sends at most 8 nations. */
  lemma CorrectedTimerRespectsCooldown(nation: Nation, now: real, timer: int, count: nat)
    requires TimerAcceptedCorrected(Some(timer), Cooldown(nation, now) * (MaxNationsPerTg as real))
    requires count <= MaxNationsPerTg
    ensures timer as real >= Cooldown(nation, now) * count as real
    ensures timer > 0
  {
    CooldownShape(nation, now);
  }

  /** The gate of `on_worldWaAdmit` after the puppet check: the nation can
      receive recruitment telegrams, has at most 500 (million) population,
      and is not in a jump point or puppet storage. */
  predicate WaRecruitable(s: CacheState, nation: Nation) {
    nation.canRecruit && nation.population <= 500 && !IsJPOrPuppetStorage(s, nation.region)
  }

  /** One round of `recruitmentTask`: the bucket used, the entries popped
      from it, and the wait before the next round. */
  datatype Round = Round(bucket: nat, targets: seq<(string, real)>, wait: real)

  class RecruitmentManager {
    var buckets: seq<BucketQueue>
    var filteringQueue: seq<string>
    const cache: CacheManager

    /** The buckets are distinct objects, each within its size, and the
        window holds at most 40 ids. */
    predicate Valid()
      reads this, set b | b in buckets
    {
      |filteringQueue| <= FilterWindow &&
      (forall i :: 0 <= i < |buckets| ==> buckets[i].Valid()) &&
      (forall i, j :: 0 <= i < j < |buckets| ==> buckets[i] != buckets[j])
    }

    constructor(cache: CacheManager, buckets: seq<BucketQueue>)
      requires forall i :: 0 <= i < |buckets| ==> buckets[i].Valid()
      requires forall i, j :: 0 <= i < j < |buckets| ==> buckets[i] != buckets[j]
      ensures Valid() && this.cache == cache && this.buckets == buckets && filteringQueue == []
    {
      this.cache := cache;
      this.buckets := buckets;
      filteringQueue := [];
    }

    /** `checkPuppetFilter`: true means skip. An admitted id joins the
        window, which keeps the 40 most recent. */
    method CheckPuppetFilter(nation: string, ratio: (string, string) -> real) returns (skip: bool)
      requires Valid()
      modifies this`filteringQueue
      ensures Valid()
      ensures skip == PuppetSkip(nation, old(filteringQueue), ratio)
      ensures filteringQueue == if skip then old(filteringQueue) else LastN(old(filteringQueue) + [nation], FilterWindow)
    {
      if LooksLikePuppet(nation) {
        return true;
      }
      var puppetLikeliness := 0.0;
      var i := 0;
      while i < |filteringQueue|
        invariant 0 <= i <= |filteringQueue|
        invariant MaxSimilarity(nation, filteringQueue, ratio, 0.0) ==
                  MaxSimilarity(nation, filteringQueue[i..], ratio, puppetLikeliness)
      {
        assert filteringQueue[i..][1..] == filteringQueue[i + 1..];
        var likeness := ratio(nation, filteringQueue[i]);
        if likeness > puppetLikeliness {
          puppetLikeliness := likeness;
        }
        i := i + 1;
      }
      if puppetLikeliness < SimilarityLimit {
        filteringQueue := LastN(filteringQueue + [nation], FilterWindow);
        return false;
      } else {
        return true;
      }
    }

    /** `popNations`. */
    method PopNations(bucket: BucketQueue, max: int) returns (result: seq<(string, real)>)
      requires bucket.Valid()
      modifies bucket`nations
      ensures bucket.Valid()
      ensures result == Popped(old(bucket.nations), max, bucket.priority)
      ensures bucket.nations == old(bucket.nations)[..|old(bucket.nations)| - |result|]
    {
      result := [];
      var i := 0;
      while i < max && |bucket.nations| > 0
        invariant 0 <= i == |result| <= |old(bucket.nations)|
        invariant i <= max || i == 0
        invariant bucket.Valid()
        invariant bucket.nations == old(bucket.nations)[..|old(bucket.nations)| - |result|]
        invariant result == Popped(old(bucket.nations), |result|, bucket.priority)
        decreases max - i
      {
        var entry := bucket.Pop();
        result := result + [(entry.0, entry.1 - bucket.priority)];
        i := i + 1;
      }
      assert Popped(old(bucket.nations), max, bucket.priority) == Popped(old(bucket.nations), |result|, bucket.priority);
    }

    /** The search of `addNation`: the buckets in reverse until a filter
        matches. */
    method FindBucket(region: string, event: string) returns (found: Option<nat>)
      ensures found == LastMatch(FiltersOf(buckets), event, region)
    {
      ghost var filters := FiltersOf(buckets);
      var i := |buckets|;
      assert filters[..i] == filters;
      while i > 0 && !FilterMatches(buckets[i - 1].filter, event, region)
        invariant 0 <= i <= |buckets|
        invariant LastMatch(filters, event, region) == LastMatch(filters[..i], event, region)
      {
        LastMatchSkip(filters, i, event, region);
        i := i - 1;
      }
      if i == 0 {
        assert filters[..i] == [];
        return None;
      }
      LastMatchHit(filters, i, event, region);
      return Some(i - 1);
    }

    /** Appends `entry` to bucket `k`; no other bucket changes. */
    method AppendTo(k: nat, entry: (string, real))
      requires Valid() && k < |buckets|
      modifies set b | b in buckets
      ensures Valid()
      ensures FiltersOf(buckets) == old(FiltersOf(buckets))
      ensures QueuesOf(buckets) == old(QueuesOf(buckets))[k := LastN(old(buckets[k].nations) + [entry], buckets[k].maxlen)]
    {
      ghost var filters := FiltersOf(buckets);
      var bucket := buckets[k];
      bucket.Append(entry);
      ghost var queues := old(QueuesOf(buckets));
      assert forall i :: 0 <= i < |buckets| && i != k ==> buckets[i] != bucket;
      assert FiltersOf(buckets) == filters;
      assert QueuesOf(buckets) == queues[k := bucket.nations];
    }

    /** `addNation`: the entry `(nation, now)` goes to the last declared
        bucket whose filter matches; the result is that bucket's index. */
    method AddNation(nation: string, region: string, event: string, now: real) returns (chosen: Option<nat>)
      requires Valid()
      modifies set b | b in buckets
      ensures Valid()
      ensures chosen == LastMatch(FiltersOf(buckets), event, region)
      ensures FiltersOf(buckets) == old(FiltersOf(buckets))
      ensures chosen.Some? ==> chosen.value < |buckets|
      ensures QueuesOf(buckets) ==
        if chosen.None? then old(QueuesOf(buckets))
        else old(QueuesOf(buckets))[chosen.value := LastN(old(buckets[chosen.value].nations) + [(nation, now)], buckets[chosen.value].maxlen)]
    {
      chosen := FindBucket(region, event);
      if chosen.Some? {
        AppendTo(chosen.value, (nation, now));
      }
    }

    /** `on_worldJoin`: moves skip the puppet filter. */
    method OnWorldJoin(nationId: string, sourceId: string, targetId: string, now: real) returns (chosen: Option<nat>)
      requires Valid()
      modifies set b | b in buckets
      ensures Valid()
      ensures chosen == old(LastMatch(FiltersOf(buckets), "move", targetId))
    {
      chosen := AddNation(nationId, targetId, "move", now);
    }

    /** `on_worldFounding`: a refounded nation is fetched first and skipped
        when it cannot receive recruitment telegrams. `raised` says that the
        handler stopped with an `AttributeError`: the refounded nation was
        neither cached nor returned by the API. */
    method OnWorldFounding(nationId: string, event: string, regionId: string, now: real,
                           ratio: (string, string) -> real, fetched: Option<Nation>)
      returns (chosen: Option<nat>, raised: bool)
      requires Valid()
      modifies this`filteringQueue, cache`nations, set b | b in buckets
      ensures Valid()
      ensures raised <==>
        !PuppetSkip(nationId, old(filteringQueue), ratio) && event == "refounded" &&
        fetched.None? && nationId !in old(cache.nations)
      ensures raised ==> chosen == None && QueuesOf(buckets) == old(QueuesOf(buckets))
      ensures PuppetSkip(nationId, old(filteringQueue), ratio) ==> chosen == None
      ensures chosen.Some? ==> chosen == LastMatch(FiltersOf(buckets), event, regionId)
      ensures chosen.Some? && event == "refounded" ==> nationId in cache.nations && cache.nations[nationId].canRecruit
    {
      var skip;
      skip, raised := Screen(nationId, event == "refounded", ratio, fetched);
      if skip || raised {
        return None, raised;
      }
      if event == "refounded" {
        var nation := cache.nations[nationId];
        if !nation.canRecruit {
          return None, false;
        }
      }
      chosen := AddNation(nationId, regionId, event, now);
      raised := false;
    }

    /** `on_worldWaAdmit`: an uncached nation is fetched first; `raised` says
        that it was not returned either, and the handler stopped with an
        `AttributeError`. */
    method OnWorldWaAdmit(nationId: string, now: real, ratio: (string, string) -> real, fetched: Option<Nation>)
      returns (chosen: Option<nat>, raised: bool)
      requires Valid()
      modifies this`filteringQueue, cache`nations, set b | b in buckets
      ensures Valid()
      ensures raised <==>
        !PuppetSkip(nationId, old(filteringQueue), ratio) && fetched.None? && nationId !in old(cache.nations)
      ensures raised ==> chosen == None && QueuesOf(buckets) == old(QueuesOf(buckets))
      ensures chosen.Some? ==>
        !PuppetSkip(nationId, old(filteringQueue), ratio) &&
        nationId in cache.nations && WaRecruitable(cache.State(), cache.nations[nationId]) &&
        chosen == LastMatch(FiltersOf(buckets), "wa", cache.nations[nationId].region)
    {
      var skip;
      skip, raised := Screen(nationId, nationId !in cache.nations, ratio, fetched);
      if skip || raised {
        return None, raised;
      }
      chosen := AdmitCached(nationId, now);
    }

    /** The start both handlers share: the puppet filter, then, when `fetch`
        holds, `fetchNation`. `raised` says that the nation was fetched and
        is still not cached, so reading it next raises. */
    method Screen(nationId: string, fetch: bool, ratio: (string, string) -> real, fetched: Option<Nation>)
      returns (skip: bool, raised: bool)
      requires Valid()
      modifies this`filteringQueue, cache`nations
      ensures Valid()
      ensures skip == PuppetSkip(nationId, old(filteringQueue), ratio)
      ensures cache.nations == if skip || !fetch then old(cache.nations) else Fetch(old(cache.nations), nationId, fetched)
      ensures raised <==> !skip && fetch && fetched.None? && nationId !in old(cache.nations)
      ensures !skip && !raised && fetch ==> nationId in cache.nations
    {
      skip := CheckPuppetFilter(nationId, ratio);
      raised := false;
      if skip {
        return;
      }
      if fetch {
        cache.FetchNation(nationId, fetched);
        raised := nationId !in cache.nations;
      }
    }

    /** The checks `on_worldWaAdmit` makes once the nation is cached: it is
        queued only when it can receive recruitment telegrams, has at most
        500 million inhabitants and lives outside jump points and puppet
        storages. */
    method AdmitCached(nationId: string, now: real) returns (chosen: Option<nat>)
      requires Valid() && nationId in cache.nations
      modifies set b | b in buckets
      ensures Valid()
      ensures chosen.Some? <==>
        WaRecruitable(cache.State(), cache.nations[nationId]) &&
        old(LastMatch(FiltersOf(buckets), "wa", cache.nations[nationId].region)).Some?
      ensures chosen.Some? ==> chosen == LastMatch(FiltersOf(buckets), "wa", cache.nations[nationId].region)
    {
      var nation := cache.nations[nationId];
      if !nation.canRecruit {
        return None;
      }
      if nation.population > 500 {
        return None;
      }
      if IsJPOrPuppetStorage(cache.State(), nation.region) {
        return None;
      }
      chosen := AddNation(nationId, nation.region, "wa", now);
    }

    /** `sortBuckets`: every bucket exactly once, most recently updated
        (plus priority) first, ties in configuration order. */
    function SortBuckets(): (order: seq<nat>)
      reads this, set b | b in buckets
      ensures |order| == |buckets| && forall i: nat :: i in order <==> i < |buckets|
      ensures forall k :: 0 <= k < |order| ==> order[k] < |LastUpdates(buckets)|
      ensures var keys := LastUpdates(buckets);
        (forall i, j :: 0 <= i < j < |order| ==> keys[order[i]] >= keys[order[j]]) &&
        (forall i, j :: 0 <= i < j < |order| && keys[order[i]] == keys[order[j]] ==> order[i] < order[j])
    {
      var keys := LastUpdates(buckets);
      SortDescSpec(keys);
      SortDesc(keys, |keys|)
    }

    /** The search of a round: the first position in `order` whose bucket
        supports manual recruitment and is not empty. */
    method SelectBucket(order: seq<nat>) returns (p: Option<nat>)
      requires forall k :: 0 <= k < |order| ==> order[k] < |buckets|
      ensures p == FirstReady(buckets, order)
    {
      var i := 0;
      while i < |order| && !(buckets[order[i]].SupportsManual() && |buckets[order[i]].nations| > 0)
        invariant 0 <= i <= |order|
        invariant forall q :: 0 <= q < i ==> !buckets[order[q]].SupportsManual() || |buckets[order[q]].nations| == 0
      {
        i := i + 1;
      }
      if i == |order| {
        return None;
      }
      return Some(i);
    }

    /** `popNations` on bucket `k`; no other bucket changes. */
    method PopFrom(k: nat, max: int) returns (targets: seq<(string, real)>)
      requires Valid() && k < |buckets|
      modifies set b | b in buckets
      ensures Valid()
      ensures buckets[k].priority == old(buckets[k].priority)
      ensures targets == Popped(old(buckets[k].nations), max, buckets[k].priority)
      ensures QueuesOf(buckets) ==
        old(QueuesOf(buckets))[k := old(buckets[k].nations)[..|old(buckets[k].nations)| - |targets|]]
    {
      var bucket := buckets[k];
      targets := PopNations(bucket, max);
      ghost var queues := old(QueuesOf(buckets));
      assert forall i :: 0 <= i < |buckets| && i != k ==> buckets[i] != bucket;
      assert QueuesOf(buckets) == queues[k := bucket.nations];
    }

    /** One bucket-selection round of `recruitmentTask`: in `sortBuckets`
        order, the first bucket that supports manual recruitment and yields
        targets gives up to 8 of them, and the dynamic wait is the cooldown
        per nation. `None` is a round that finds nothing and waits for a new
        recruit. Popping an empty bucket changes nothing, so the search looks
        at emptiness first and pops only the bucket it settles on. */
    method RecruitRound(nation: Nation, now: real, confirm: bool) returns (r: Option<Round>)
      requires Valid()
      modifies set b | b in buckets
      ensures Valid()
      ensures var order := old(SortBuckets());
        var p := old(FirstReady(buckets, order));
        (p.None? <==> r.None?) && (p.Some? ==> r.Some? && r.value.bucket == order[p.value])
      ensures r.None? ==> QueuesOf(buckets) == old(QueuesOf(buckets))
      ensures r.Some? ==>
                (r.value.bucket < |buckets| &&
                 var before := old(buckets[r.value.bucket].nations);
                 r.value.targets == Popped(before, MaxNationsPerTg, old(buckets[r.value.bucket].priority)) &&
                 QueuesOf(buckets) == old(QueuesOf(buckets))[r.value.bucket := before[..|before| - |r.value.targets|]] &&
                 r.value.wait == RoundWait(nation, now, |r.value.targets|, confirm))
    {
      var order := SortBuckets();
      var p := SelectBucket(order);
      if p.None? {
        return None;
      }
      var targets := PopFrom(order[p.value], MaxNationsPerTg);
      r := Some(Round(order[p.value], targets, RoundWait(nation, now, |targets|, confirm)));
    }
  }
}
