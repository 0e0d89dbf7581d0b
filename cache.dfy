/** The regional cache (`discord/cogs/cache.py`): a state machine driven by
    decoded happenings. Each handler is specified by a step function on a
    `CacheState` value returning the new state and the notification the bot
    would dispatch, and the `CacheManager` class implements the handlers on
    its fields and is proved against those functions.

    After a rebuild the tracked region's resident set `mainRegion.nations`
    and the index entry `regionalNations[mainRegionId]` are one and the same
    set object. The model keeps that single set as the index entry, so every
    update through either name is an update of `regionalNations`. */
module Cache {
  import opened Wrappers
  import opened Classes

  /** What a handler passes to `bot.dispatch`: the event name and its
      arguments. */
  datatype Dispatch =
    | LocalWaCte(nation: string, region: string)
    | LocalCte(nation: string, region: string)
    | LocalFounding(nation: string, event: string, region: string)
    | WorldFounding(nation: string, event: string, region: string)
    | LocalWaLeave(nation: string, source: string, target: string)
    | LocalLeave(nation: string, source: string, target: string)
    | LocalWaJoin(nation: string, source: string, target: string)
    | LocalJoin(nation: string, source: string, target: string)
    | WorldJoin(nation: string, source: string, target: string)
    | LocalWaAdmit(nation: string, region: string)
    | WorldWaAdmit(nation: string)
    | LocalWaApply(nation: string, region: string)
    | WorldWaApply(nation: string)
    | LocalWaResign(nation: string, region: string)
    | LocalDelEndo(source: string, target: string, region: string)
    | LocalWaEndo(source: string, target: string, region: string)
    | LocalDelUnendo(source: string, target: string, region: string)
    | LocalWaUnendo(source: string, target: string, region: string)
    | LocalUpdate(region: string)
    | LocalFlagChange(nation: string, region: string)
    | LocalNewDelegate(nation: string, region: string)
    | LocalReplaceDelegate(nation: string, region: string)
    | LocalLoseDelegate(nation: string, region: string)
    | CacheRebuildComplete

  datatype CacheState = CacheState(
    mainRegionId: string,
    waNations: set<string>,
    puppetRegions: set<string>,
    jumpPointRegions: set<string>,
    nations: map<string, Nation>,
    mainRegion: Option<Region>,
    regionalNations: map<string, set<string>>,
    needsRebuild: bool,
    lastRebuildStart: real,
    lastRebuildEnd: real)

  /** Once the tracked region is known its resident set is indexed. */
  predicate ValidState(s: CacheState) {
    s.mainRegion.Some? ==> s.mainRegionId in s.regionalNations
  }

  /** `mainRegion.nations`. */
  function Residents(s: CacheState): set<string>
    requires ValidState(s) && s.mainRegion.Some?
  {
    s.regionalNations[s.mainRegionId]
  }

  /** A handler never clears the rebuild mark and never touches the rebuild
      times; only `rebuildCache` does. */
  predicate KeepsRebuildMarks(s: CacheState, t: CacheState) {
    t.mainRegionId == s.mainRegionId &&
    (s.needsRebuild ==> t.needsRebuild) &&
    t.lastRebuildStart == s.lastRebuildStart &&
    t.lastRebuildEnd == s.lastRebuildEnd
  }

  /** What a handler keeps: the invariant and the rebuild bookkeeping. */
  predicate Step(s: CacheState, t: CacheState) {
    ValidState(t) && KeepsRebuildMarks(s, t)
  }

  // ---------------------------------------------------------------------
  // Queries

  function InWa(s: CacheState, nationId: string): bool {
    nationId in s.waNations
  }

  function IsNationCached(s: CacheState, nationId: string): bool {
    nationId in s.nations
  }

  /** `firstCacheComplete`: some rebuild has finished. */
  function FirstCacheComplete(s: CacheState): bool {
    s.lastRebuildEnd > 0.0
  }

  /** `isJPOrPuppetStorage`. */
  function IsJPOrPuppetStorage(s: CacheState, regionId: string): (b: bool)
    ensures b <==> regionId in s.puppetRegions + s.jumpPointRegions
  {
    regionId in s.puppetRegions || regionId in s.jumpPointRegions
  }

  /** `inRegion`: an unindexed region has no residents. */
  function InRegion(s: CacheState, nationId: string, regionId: string): (b: bool)
    ensures b ==> regionId in s.regionalNations
  {
    regionId in s.regionalNations && nationId in s.regionalNations[regionId]
  }

  /** `regionWaNations`: the World Assembly members resident in the tracked
      region. */
  function RegionWaNations(s: CacheState): (r: set<string>)
    requires ValidState(s) && s.mainRegion.Some?
    ensures r <= s.waNations && r <= Residents(s)
    ensures forall n :: n in s.waNations && n in Residents(s) ==> n in r
  {
    s.waNations * s.regionalNations[s.mainRegionId]
  }

  /** `verifyEndo`: an endorsement of `nationId` by `endorserId` is genuine
      when both are World Assembly members, the endorsee is cached, and the
      endorser resides in the endorsee's region. */
  predicate VerifyEndo(s: CacheState, nationId: string, endorserId: string) {
    InWa(s, nationId) && InWa(s, endorserId) && IsNationCached(s, nationId) &&
    InRegion(s, endorserId, s.nations[nationId].region)
  }

  /** What `verifiedEndorsements` returns. */
  function VerifiedSet(s: CacheState, nationId: string): set<string> {
    if nationId in s.nations then
      set e | e in s.nations[nationId].endorsements && VerifyEndo(s, nationId, e)
    else
      {}
  }

  /** An endorser is verified iff it is recorded, both nations are World
      Assembly members and the endorser resides in the endorsee's region;
      an uncached or non-member nation has no verified endorsements. */
  lemma VerifiedSetMembers(s: CacheState, nationId: string, e: string)
    ensures e in VerifiedSet(s, nationId) <==>
      (nationId in s.nations && e in s.nations[nationId].endorsements &&
       nationId in s.waNations && e in s.waNations &&
       s.nations[nationId].region in s.regionalNations &&
       e in s.regionalNations[s.nations[nationId].region])
    ensures nationId !in s.nations || nationId !in s.waNations ==> VerifiedSet(s, nationId) == {}
  {
  }

  /** The verified endorsers are some of the recorded ones. */
  lemma VerifiedSubset(s: CacheState, nationId: string)
    requires nationId in s.nations
    ensures VerifiedSet(s, nationId) <= s.nations[nationId].endorsements
  {
  }

  /** `endorsementsGiven` raises (an `AttributeError` on `None`) for a nation
      resident in the tracked region when that region was never fetched, or
      when one of the region's other World Assembly members is not cached. */
  predicate GivenRaises(s: CacheState, nationId: string)
    requires ValidState(s)
  {
    nationId in s.nations && s.nations[nationId].region == s.mainRegionId &&
    (s.mainRegion.None? || exists e :: e in RegionWaNations(s) && e != nationId && e !in s.nations)
  }

  /** What `endorsementsGiven` returns, `None` where it raises: the region's
      other World Assembly members that record `nationId` as a genuine
      endorser. */
  function Given(s: CacheState, nationId: string): (r: Option<set<string>>)
    requires ValidState(s)
    ensures r.None? <==> GivenRaises(s, nationId)
    ensures nationId !in s.nations || s.nations[nationId].region != s.mainRegionId ==> r == Some({})
  {
    if nationId !in s.nations || s.nations[nationId].region != s.mainRegionId then Some({})
    else if GivenRaises(s, nationId) then None
    else
      Some(set e | e in RegionWaNations(s) && e != nationId &&
        nationId in s.nations[e].endorsements && VerifyEndo(s, e, nationId))
  }

  /** Endorsements given and verified endorsements are two views of one
      relation: `e` is among those `n` endorsed iff `n` is a verified
      endorser of `e`, for `n` resident in the tracked region and `e` one of
      its other World Assembly members. */
  lemma GivenIsVerifiedConverse(s: CacheState, n: string, e: string)
    requires ValidState(s) && !GivenRaises(s, n)
    requires n in s.nations && s.nations[n].region == s.mainRegionId
    ensures Given(s, n).Some? && (e in Given(s, n).value <==> (e in RegionWaNations(s) && e != n && n in VerifiedSet(s, e)))
  {
  }

  /** `checkForRebuild`: no rebuild while one is in progress or within two
      hours of the last; after that, rebuild when marked stale, and always
      after a day. */
  function ShouldRebuild(s: CacheState, now: real): (b: bool)
    ensures b <==> s.lastRebuildStart <= s.lastRebuildEnd &&
                   now - s.lastRebuildEnd >= 7200.0 &&
                   (s.needsRebuild || now - s.lastRebuildEnd >= 86400.0)
  {
    if s.lastRebuildStart > s.lastRebuildEnd then false
    else if now - s.lastRebuildEnd < 3600.0 * 2.0 then false
    else if !s.needsRebuild && now - s.lastRebuildEnd < 3600.0 * 24.0 then false
    else true
  }

  // ---------------------------------------------------------------------
  // Handler steps

  /** `set.discard` on an index entry, when the region is indexed. */
  function Discard(rn: map<string, set<string>>, regionId: string, nationId: string): (r: map<string, set<string>>)
    ensures r.Keys == rn.Keys
    ensures forall k :: k in rn && k != regionId ==> r[k] == rn[k]
    ensures regionId in rn ==> r[regionId] == rn[regionId] - {nationId}
  {
    if regionId in rn then rn[regionId := rn[regionId] - {nationId}] else rn
  }

  /** Creating the index entry if absent, then `set.add`. */
  function AddTo(rn: map<string, set<string>>, regionId: string, nationId: string): (r: map<string, set<string>>)
    ensures r.Keys == rn.Keys + {regionId}
    ensures forall k :: k in rn && k != regionId ==> r[k] == rn[k]
    ensures r[regionId] == (if regionId in rn then rn[regionId] else {}) + {nationId}
  {
    rn[regionId := (if regionId in rn then rn[regionId] else {}) + {nationId}]
  }

  /** `fetchNation`: the API's answer, when there is one, is stored. */
  function Fetch(nations: map<string, Nation>, nationId: string, fetched: Option<Nation>): map<string, Nation> {
    if fetched.Some? then nations[nationId := fetched.value] else nations
  }

  /** `on_eventCte`. */
  function Cte(s: CacheState, nationId: string, regionId: string): (r: (CacheState, Option<Dispatch>))
    requires ValidState(s)
    ensures Step(s, r.0)
    ensures nationId !in r.0.nations && r.0.nations == s.nations - {nationId}
    ensures r.0.regionalNations.Keys == s.regionalNations.Keys
    ensures regionId in s.regionalNations ==> nationId !in r.0.regionalNations[regionId]
    // with no region, `mainRegion.nations` raises AttributeError after the
    // discard and the deletion
    ensures regionId == s.mainRegionId && s.mainRegion.None? ==>
      r == (s.(regionalNations := Discard(s.regionalNations, regionId, nationId), nations := s.nations - {nationId}), None)
  {
    var rn := Discard(s.regionalNations, regionId, nationId);
    var s1 := s.(regionalNations := rn, nations := s.nations - {nationId});
    if regionId == s.mainRegionId && s.mainRegion.None? then
      (s1, None)
    else if regionId == s.mainRegionId then
      // `mainRegion.nations.remove`: the shared set was just discarded from
      var residents := rn[s.mainRegionId];
      if nationId in residents then
        var s2 := s1.(regionalNations := rn[s.mainRegionId := residents - {nationId}]);
        if nationId in s2.waNations then
          (s2.(waNations := s2.waNations - {nationId}), Some(LocalWaCte(nationId, regionId)))
        else
          (s2, Some(LocalCte(nationId, regionId)))
      else
        (s1.(needsRebuild := true), None)
    else
      (s1.(waNations := s1.waNations - {nationId}), None)
  }

  /** Because of the shared resident set, a nation ceasing to exist in the
      tracked region marks the cache stale, dispatches nothing and stays in
      `waNations`. */
  lemma CteTrackedMarksStale(s: CacheState, nationId: string)
    requires ValidState(s) && s.mainRegion.Some?
    ensures var r := Cte(s, nationId, s.mainRegionId);
      r.0.needsRebuild && r.1 == None && r.0.waNations == s.waNations &&
      nationId !in Residents(r.0)
  {
  }

  /** Elsewhere a nation ceasing to exist leaves the World Assembly list
      and the stale mark as they were. */
  lemma CteElsewhere(s: CacheState, nationId: string, regionId: string)
    requires ValidState(s) && regionId != s.mainRegionId
    ensures var r := Cte(s, nationId, regionId);
      r.1 == None && r.0.waNations == s.waNations - {nationId} &&
      r.0.needsRebuild == s.needsRebuild
  {
  }

  /** `on_eventFounding`. */
  function Founding(s: CacheState, nationId: string, event: string, regionId: string): (r: (CacheState, Option<Dispatch>))
    requires ValidState(s)
    ensures Step(s, r.0) && r.0.needsRebuild == s.needsRebuild
    ensures regionId in r.0.regionalNations && nationId in r.0.regionalNations[regionId]
    ensures forall k :: k in s.regionalNations ==> k in r.0.regionalNations && s.regionalNations[k] <= r.0.regionalNations[k]
    ensures regionId != s.mainRegionId || s.mainRegion.Some? ==>
      r.1 == Some(if regionId == s.mainRegionId then LocalFounding(nationId, event, regionId)
                  else WorldFounding(nationId, event, regionId))
    // with no region, `mainRegion.nations` raises AttributeError once the
    // index holds the nation
    ensures regionId == s.mainRegionId && s.mainRegion.None? ==>
      r == (s.(regionalNations := AddTo(s.regionalNations, regionId, nationId)), None)
  {
    var rn := AddTo(s.regionalNations, regionId, nationId);
    if regionId == s.mainRegionId && s.mainRegion.None? then
      (s.(regionalNations := rn), None)
    else if regionId == s.mainRegionId then
      // `mainRegion.nations.add` on the shared set
      (s.(regionalNations := rn[s.mainRegionId := rn[s.mainRegionId] + {nationId}]),
       Some(LocalFounding(nationId, event, regionId)))
    else
      (s.(regionalNations := rn), Some(WorldFounding(nationId, event, regionId)))
  }

  /** A cached nation that moved: new region, residency and login reset. */
  function Moved(n: Nation, targetId: string, now: real): (r: Nation)
    ensures r.region == targetId && r.residencyNum == 0.0 && r.lastResidencyUpdateTime == now
    ensures r.lastLogin == Trunc(now)
    ensures r.(region := n.region, residencyNum := n.residencyNum,
               lastResidencyUpdateTime := n.lastResidencyUpdateTime, lastLogin := n.lastLogin) == n
  {
    ResetLogin(ResetResidency(n.(region := targetId), now), now)
  }

  /** The first part of `on_eventMove`: the nation leaves the source index,
      joins the target index, and a cached copy is updated. */
  function Relocated(s: CacheState, nationId: string, sourceId: string, targetId: string, now: real): (t: CacheState)
  {
    var rn1 := Discard(s.regionalNations, sourceId, nationId);
    var rn2 := AddTo(rn1, targetId, nationId);
    var nations1 := if nationId in s.nations then s.nations[nationId := Moved(s.nations[nationId], targetId, now)] else s.nations;
    s.(regionalNations := rn2, nations := nations1)
  }

  /** `on_eventMove`; `fetched` is what the API returns if the nation is
      fetched. */
  function Move(s: CacheState, nationId: string, sourceId: string, targetId: string, now: real, fetched: Option<Nation>)
    : (r: (CacheState, Option<Dispatch>))
    requires ValidState(s)
    ensures Step(s, r.0) && r.0.mainRegion == s.mainRegion
    ensures r.0.regionalNations.Keys == s.regionalNations.Keys + {targetId}
    ensures r.0.nations.Keys >= s.nations.Keys
    ensures sourceId != targetId && sourceId in s.regionalNations ==> nationId !in r.0.regionalNations[sourceId]
    ensures sourceId != s.mainRegionId || targetId != s.mainRegionId ==> nationId in r.0.regionalNations[targetId]
    ensures nationId in s.nations ==> r.0.nations[nationId] == Moved(s.nations[nationId], targetId, now)
    ensures sourceId != s.mainRegionId && targetId != s.mainRegionId ==> r.1 == Some(WorldJoin(nationId, sourceId, targetId))
    ensures s.mainRegion.Some? && sourceId == s.mainRegionId ==>
      r.1 == Some(if nationId in s.waNations then LocalWaLeave(nationId, sourceId, targetId)
                  else LocalLeave(nationId, sourceId, targetId))
    ensures s.mainRegion.Some? && sourceId != s.mainRegionId && targetId == s.mainRegionId ==>
      nationId in Residents(r.0) &&
      r.1 == (if nationId !in s.waNations then Some(LocalJoin(nationId, sourceId, targetId))
              else if nationId !in s.nations then Some(LocalWaJoin(nationId, sourceId, targetId))
              else None)
    // with no region, `mainRegion.nations` raises AttributeError after the
    // index and the cached copy are updated
    ensures s.mainRegion.None? && (sourceId == s.mainRegionId || targetId == s.mainRegionId) ==>
      r == (Relocated(s, nationId, sourceId, targetId, now), None)
  {
    var s1 := Relocated(s, nationId, sourceId, targetId, now);
    var rn2 := s1.regionalNations;
    if s.mainRegion.None? && (sourceId == s.mainRegionId || targetId == s.mainRegionId) then
      (s1, None)
    else if sourceId == s.mainRegionId then
      // `mainRegion.nations.remove` on the shared set
      var residents := rn2[s.mainRegionId];
      var s2 := if nationId in residents then s1.(regionalNations := rn2[s.mainRegionId := residents - {nationId}])
                else s1.(needsRebuild := true);
      (s2, Some(if nationId in s.waNations then LocalWaLeave(nationId, sourceId, targetId)
                else LocalLeave(nationId, sourceId, targetId)))
    else if targetId == s.mainRegionId then
      // `mainRegion.nations.add` on the shared set
      var s2 := s1.(regionalNations := rn2[s.mainRegionId := rn2[s.mainRegionId] + {nationId}]);
      if nationId in s.waNations then
        if nationId !in s2.nations then
          (s2.(nations := Fetch(s2.nations, nationId, fetched)), Some(LocalWaJoin(nationId, sourceId, targetId)))
        else
          (s2, None)
      else
        (s2, Some(LocalJoin(nationId, sourceId, targetId)))
    else
      (s1, Some(WorldJoin(nationId, sourceId, targetId)))
  }

  /** Because of the shared resident set, every departure from the tracked
      region marks the cache stale, and it is still reported. */
  lemma MoveFromTrackedMarksStale(s: CacheState, nationId: string, targetId: string, now: real, fetched: Option<Nation>)
    requires ValidState(s) && s.mainRegion.Some? && targetId != s.mainRegionId
    ensures var r := Move(s, nationId, s.mainRegionId, targetId, now, fetched);
      r.0.needsRebuild && nationId !in Residents(r.0) &&
      r.1 == Some(if nationId in s.waNations then LocalWaLeave(nationId, s.mainRegionId, targetId)
                  else LocalLeave(nationId, s.mainRegionId, targetId))
  {
  }

  /** A World Assembly member that is already cached joins the tracked region
      without any notification; an uncached one is fetched and announced. */
  lemma SilentJoin(s: CacheState, nationId: string, sourceId: string, now: real, fetched: Option<Nation>)
    requires ValidState(s) && s.mainRegion.Some? && sourceId != s.mainRegionId
    requires nationId in s.waNations
    ensures var r := Move(s, nationId, sourceId, s.mainRegionId, now, fetched);
      nationId in Residents(r.0) && r.0.needsRebuild == s.needsRebuild &&
      (r.1 == None <==> nationId in s.nations)
  {
  }

  /** `on_eventWaAdmit`. */
  function WaAdmit(s: CacheState, nationId: string, now: real, fetched: Option<Nation>): (r: (CacheState, Option<Dispatch>))
    requires ValidState(s)
    ensures Step(s, r.0) && r.0.needsRebuild == s.needsRebuild
    ensures r.0.waNations == s.waNations + {nationId}
    ensures r.0.nations.Keys >= s.nations.Keys
    ensures nationId in s.nations ==> r.0.nations[nationId] == ResetLogin(s.nations[nationId].(waStatus := WaMember), now)
    ensures s.mainRegion.Some? ==>
      r.1 == Some(if nationId in Residents(s) then LocalWaAdmit(nationId, s.mainRegionId) else WorldWaAdmit(nationId))
    // with no region, `mainRegion.nations` raises AttributeError: the
    // admission is recorded, nothing is fetched or dispatched
    ensures s.mainRegion.None? ==> r.1 == None && r.0.nations.Keys == s.nations.Keys
  {
    var s1 := s.(waNations := s.waNations + {nationId});
    var s2 := if nationId in s1.nations
              then s1.(nations := s1.nations[nationId := ResetLogin(s1.nations[nationId].(waStatus := WaMember), now)])
              else s1;
    if s.mainRegion.None? then
      (s2, None)
    else if nationId in Residents(s2) then
      var s3 := if nationId !in s2.nations then s2.(nations := Fetch(s2.nations, nationId, fetched)) else s2;
      (s3, Some(LocalWaAdmit(nationId, s.mainRegionId)))
    else
      (s2, Some(WorldWaAdmit(nationId)))
  }

  /** `on_eventWaApply`: changes nothing; with no region, reading its
      residents raises AttributeError and nothing is dispatched. */
  function WaApply(s: CacheState, nationId: string): (r: (CacheState, Option<Dispatch>))
    requires ValidState(s)
    ensures r.0 == s
    ensures r.1.Some? <==> s.mainRegion.Some?
    ensures s.mainRegion.Some? ==>
      r.1 == Some(if nationId in Residents(s) then LocalWaApply(nationId, s.mainRegionId) else WorldWaApply(nationId))
  {
    if s.mainRegion.None? then (s, None)
    else (s, Some(if nationId in Residents(s) then LocalWaApply(nationId, s.mainRegionId) else WorldWaApply(nationId)))
  }

  /** `on_eventWaResign`. */
  function WaResign(s: CacheState, nationId: string, now: real): (r: (CacheState, Option<Dispatch>))
    requires ValidState(s)
    ensures Step(s, r.0)
    ensures r.0.waNations == s.waNations - {nationId}
    ensures r.0.needsRebuild == (s.needsRebuild || nationId !in s.waNations)
    ensures r.0.nations.Keys == s.nations.Keys
    ensures nationId in s.nations ==>
      r.0.nations[nationId] == ResetLogin(s.nations[nationId].(waStatus := NonWa, endorsements := {}), now)
    // with no region, reading its residents for a cached nation raises
    // AttributeError after every update, so only the dispatch is lost
    ensures r.1.Some? <==> nationId in s.nations && s.mainRegion.Some? && nationId in Residents(s)
    ensures r.1.Some? ==> r.1 == Some(LocalWaResign(nationId, s.mainRegionId))
  {
    var s1 := if nationId in s.waNations then s.(waNations := s.waNations - {nationId}) else s.(needsRebuild := true);
    if nationId in s1.nations then
      var s2 := s1.(nations := s1.nations[nationId := ResetLogin(s1.nations[nationId].(waStatus := NonWa, endorsements := {}), now)]);
      (s2, if s.mainRegion.Some? && nationId in Residents(s2) then Some(LocalWaResign(nationId, s.mainRegionId)) else None)
    else
      (s1, None)
  }

  /** Admission then resignation leaves a nation outside the World Assembly,
      and a cached copy NON_WA with no endorsements. */
  lemma AdmitThenResign(s: CacheState, nationId: string, t1: real, t2: real, fetched: Option<Nation>)
    requires ValidState(s) && s.mainRegion.Some?
    ensures var a := WaAdmit(s, nationId, t1, fetched).0;
      var b := WaResign(a, nationId, t2).0;
      nationId !in b.waNations && b.needsRebuild == s.needsRebuild &&
      (nationId in b.nations ==> b.nations[nationId].waStatus == NonWa && b.nations[nationId].endorsements == {})
  {
  }

  /** The notification for an endorsement change of a resident. */
  function EndoNotice(s: CacheState, sourceId: string, targetId: string, added: bool): Dispatch
    requires s.mainRegion.Some?
  {
    var onDelegate := s.mainRegion.value.delegate == Some(targetId);
    if added then
      if onDelegate then LocalDelEndo(sourceId, targetId, s.mainRegionId) else LocalWaEndo(sourceId, targetId, s.mainRegionId)
    else
      if onDelegate then LocalDelUnendo(sourceId, targetId, s.mainRegionId) else LocalWaUnendo(sourceId, targetId, s.mainRegionId)
  }

  /** `resetLogin` on a cached nation. */
  function TouchLogin(s: CacheState, nationId: string, now: real): (t: CacheState)
    ensures t.nations.Keys == s.nations.Keys
    ensures t == s.(nations := t.nations)
  {
    if nationId in s.nations then s.(nations := s.nations[nationId := ResetLogin(s.nations[nationId], now)]) else s
  }

  /** `on_eventEndo`. */
  function Endo(s: CacheState, sourceId: string, targetId: string, now: real): (r: (CacheState, Option<Dispatch>))
    requires ValidState(s)
    ensures Step(s, r.0) && r.0.needsRebuild == s.needsRebuild
    ensures r.0.nations.Keys == s.nations.Keys
    ensures targetId in s.nations ==> r.0.nations[targetId].endorsements == s.nations[targetId].endorsements + {sourceId}
    ensures r.1.Some? <==> targetId in s.nations && s.mainRegion.Some? && targetId in Residents(s)
    ensures r.1.Some? ==>
      r.1.value == if s.mainRegion.value.delegate == Some(targetId) then LocalDelEndo(sourceId, targetId, s.mainRegionId)
                   else LocalWaEndo(sourceId, targetId, s.mainRegionId)
    // with no region, reading its residents raises AttributeError once the
    // endorsement is recorded, before the endorser's login is reset
    ensures targetId in s.nations && s.mainRegion.None? ==>
      r.0 == s.(nations := s.nations[targetId := s.nations[targetId].(endorsements := s.nations[targetId].endorsements + {sourceId})])
  {
    var s1 := if targetId in s.nations
              then s.(nations := s.nations[targetId := s.nations[targetId].(endorsements := s.nations[targetId].endorsements + {sourceId})])
              else s;
    if targetId in s.nations && s.mainRegion.None? then
      (s1, None)
    else
      var d := if targetId in s.nations && targetId in Residents(s) then Some(EndoNotice(s, sourceId, targetId, true)) else None;
      (TouchLogin(s1, sourceId, now), d)
  }

  /** The removal part of `on_eventUnendo`, inside its `try`; with no region
      the residents read after a removal raises AttributeError, which the
      `except KeyError` does not catch (see `Unendo`). */
  function UnendoRemove(s: CacheState, sourceId: string, targetId: string): (r: (CacheState, Option<Dispatch>))
    requires ValidState(s)
  {
    if targetId in s.nations then
      if sourceId in s.nations[targetId].endorsements then
        (s.(nations := s.nations[targetId := s.nations[targetId].(endorsements := s.nations[targetId].endorsements - {sourceId})]),
         if s.mainRegion.Some? && targetId in Residents(s) then Some(EndoNotice(s, sourceId, targetId, false)) else None)
      else
        (s.(needsRebuild := true), None)
    else
      (s, None)
  }

  /** `on_eventUnendo`. */
  function Unendo(s: CacheState, sourceId: string, targetId: string, now: real): (r: (CacheState, Option<Dispatch>))
    requires ValidState(s)
    ensures Step(s, r.0)
    ensures r.0.nations.Keys == s.nations.Keys
    ensures targetId in s.nations ==> r.0.nations[targetId].endorsements == s.nations[targetId].endorsements - {sourceId}
    ensures r.0.needsRebuild == (s.needsRebuild || (targetId in s.nations && sourceId !in s.nations[targetId].endorsements))
    ensures r.1.Some? <==>
      targetId in s.nations && sourceId in s.nations[targetId].endorsements && s.mainRegion.Some? && targetId in Residents(s)
    ensures r.1.Some? ==>
      r.1.value == if s.mainRegion.value.delegate == Some(targetId) then LocalDelUnendo(sourceId, targetId, s.mainRegionId)
                   else LocalWaUnendo(sourceId, targetId, s.mainRegionId)
    // with no region, a removal is followed by AttributeError, so the
    // withdrawer's login is not reset
    ensures s.mainRegion.None? && targetId in s.nations && sourceId in s.nations[targetId].endorsements ==>
      r.0 == s.(nations := s.nations[targetId := s.nations[targetId].(endorsements := s.nations[targetId].endorsements - {sourceId})])
  {
    var u := UnendoRemove(s, sourceId, targetId);
    if s.mainRegion.None? && targetId in s.nations && sourceId in s.nations[targetId].endorsements then
      (u.0, None)
    else
      (TouchLogin(u.0, sourceId, now), u.1)
  }

  /** Endorsing then withdrawing restores the endorsee's recorded set when
      the endorsement was new. */
  lemma EndoThenUnendo(s: CacheState, sourceId: string, targetId: string, t1: real, t2: real)
    requires ValidState(s) && s.mainRegion.Some?
    requires targetId in s.nations && sourceId !in s.nations[targetId].endorsements
    ensures var a := Endo(s, sourceId, targetId, t1).0;
      var b := Unendo(a, sourceId, targetId, t2).0;
      b.nations[targetId].endorsements == s.nations[targetId].endorsements &&
      b.needsRebuild == s.needsRebuild
  {
  }

  /** What `on_eventRegionUpdate` leaves in `nations`: each cached resident
      of the region keeps only its verified endorsements. */
  function Pruned(s: CacheState, regionId: string): (m: map<string, Nation>)
    ensures m.Keys == s.nations.Keys
  {
    map k | k in s.nations ::
      if regionId in s.regionalNations && k in s.regionalNations[regionId]
      then s.nations[k].(endorsements := VerifiedSet(s, k))
      else s.nations[k]
  }

  /** `on_eventRegionUpdate`. */
  function RegionUpdate(s: CacheState, regionId: string): (r: (CacheState, Option<Dispatch>))
    requires ValidState(s)
    ensures Step(s, r.0) && r.0.needsRebuild == s.needsRebuild
    ensures r.1 == if regionId == s.mainRegionId then Some(LocalUpdate(regionId)) else None
  {
    (s.(nations := Pruned(s, regionId)), if regionId == s.mainRegionId then Some(LocalUpdate(regionId)) else None)
  }

  /** `VerifiedSet` depends only on the World Assembly list, the regional
      index and the nation's own record. */
  lemma VerifiedSetFrame(s: CacheState, t: CacheState, k: string)
    requires t.waNations == s.waNations && t.regionalNations == s.regionalNations
    requires k in s.nations <==> k in t.nations
    requires k in s.nations ==> t.nations[k].region == s.nations[k].region &&
                                t.nations[k].endorsements == s.nations[k].endorsements
    ensures VerifiedSet(t, k) == VerifiedSet(s, k)
  {
    if k in s.nations {
      forall e ensures VerifyEndo(t, k, e) == VerifyEndo(s, k, e) {
      }
    }
  }

  /** A region update only shrinks endorsement sets, and a second update
      right after the first changes nothing. */
  lemma {:induction false} RegionUpdateShrinksAndSettles(s: CacheState, regionId: string)
    requires ValidState(s)
    ensures var t := RegionUpdate(s, regionId).0;
      (forall k :: k in s.nations ==> t.nations[k].endorsements <= s.nations[k].endorsements) &&
      RegionUpdate(t, regionId).0 == t
  {
    var t := RegionUpdate(s, regionId).0;
    forall k | k in s.nations
      ensures t.nations[k].endorsements <= s.nations[k].endorsements
    {
      VerifiedSubset(s, k);
    }
    forall k | k in t.nations
      ensures Pruned(t, regionId)[k] == t.nations[k]
    {
      if regionId in t.regionalNations && k in t.regionalNations[regionId] {
        assert t.nations[k].endorsements == VerifiedSet(s, k);
        forall e | e in t.nations[k].endorsements
          ensures VerifyEndo(t, k, e)
        {
          assert VerifyEndo(s, k, e);
        }
        assert VerifiedSet(t, k) == t.nations[k].endorsements;
      }
    }
    assert Pruned(t, regionId) == t.nations;
  }

  /** `on_eventFlag`. */
  function Flag(s: CacheState, nationId: string, now: real): (r: (CacheState, Option<Dispatch>))
    requires ValidState(s)
    ensures Step(s, r.0) && r.0.needsRebuild == s.needsRebuild
    ensures r.0.nations.Keys == s.nations.Keys
    ensures nationId in s.nations ==> r.0.nations[nationId] == ResetLogin(s.nations[nationId].(flagDirty := true), now)
    // with no region, reading its residents for a cached nation raises
    // AttributeError after the updates, so only the dispatch is lost
    ensures r.1.Some? <==> nationId in s.nations && s.mainRegion.Some? && nationId in Residents(s)
    ensures r.1.Some? ==> r.1 == Some(LocalFlagChange(nationId, s.mainRegionId))
  {
    if nationId in s.nations then
      (s.(nations := s.nations[nationId := ResetLogin(s.nations[nationId].(flagDirty := true), now)]),
       if s.mainRegion.Some? && nationId in Residents(s) then Some(LocalFlagChange(nationId, s.mainRegionId)) else None)
    else
      (s, None)
  }

  /** Setting the World Assembly status of a cached nation. */
  function SetStatus(s: CacheState, nationId: string, status: int): (t: CacheState)
    ensures t.nations.Keys == s.nations.Keys
    ensures t == s.(nations := t.nations)
  {
    if nationId in s.nations then s.(nations := s.nations[nationId := s.nations[nationId].(waStatus := status)]) else s
  }

  /** Setting the tracked region's delegate. */
  function SetDelegate(s: CacheState, delegate: Option<string>): (t: CacheState)
    requires s.mainRegion.Some?
    ensures t.mainRegion == Some(s.mainRegion.value.(delegate := delegate))
    ensures t == s.(mainRegion := t.mainRegion)
  {
    s.(mainRegion := Some(s.mainRegion.value.(delegate := delegate)))
  }

  /** `on_eventNewDelegate`. */
  function NewDelegate(s: CacheState, newDelegateId: string, regionId: string): (r: (CacheState, Option<Dispatch>))
    requires ValidState(s)
    ensures Step(s, r.0) && r.0.needsRebuild == s.needsRebuild
    ensures r.0.nations.Keys == s.nations.Keys
    ensures newDelegateId in s.nations ==> r.0.nations[newDelegateId].waStatus == WaDelegate
    ensures regionId == s.mainRegionId && s.mainRegion.Some? ==>
      r.0.mainRegion.Some? && r.0.mainRegion.value.delegate == Some(newDelegateId) && r.1 == Some(LocalNewDelegate(newDelegateId, regionId))
    // with no region, setting its delegate raises AttributeError after the
    // status updates
    ensures regionId != s.mainRegionId || s.mainRegion.None? ==> r.0.mainRegion == s.mainRegion && r.1 == None
  {
    var s1 := SetStatus(s, newDelegateId, WaDelegate);
    if regionId == s.mainRegionId && s.mainRegion.Some? then
      (SetDelegate(s1, Some(newDelegateId)), Some(LocalNewDelegate(newDelegateId, regionId)))
    else
      (s1, None)
  }

  /** `on_eventReplaceDelegate`: the old delegate is demoted after the new
      one is promoted. */
  function ReplaceDelegate(s: CacheState, newDelegateId: string, regionId: string, oldDelegateId: string)
    : (r: (CacheState, Option<Dispatch>))
    requires ValidState(s)
    ensures Step(s, r.0) && r.0.needsRebuild == s.needsRebuild
    ensures r.0.nations.Keys == s.nations.Keys
    ensures newDelegateId in s.nations && newDelegateId != oldDelegateId ==> r.0.nations[newDelegateId].waStatus == WaDelegate
    ensures oldDelegateId in s.nations ==> r.0.nations[oldDelegateId].waStatus == WaMember
    ensures regionId == s.mainRegionId && s.mainRegion.Some? ==>
      r.0.mainRegion.Some? && r.0.mainRegion.value.delegate == Some(newDelegateId) && r.1 == Some(LocalReplaceDelegate(newDelegateId, regionId))
    // with no region, setting its delegate raises AttributeError after the
    // status updates
    ensures regionId != s.mainRegionId || s.mainRegion.None? ==> r.0.mainRegion == s.mainRegion && r.1 == None
  {
    var s1 := SetStatus(SetStatus(s, newDelegateId, WaDelegate), oldDelegateId, WaMember);
    if regionId == s.mainRegionId && s.mainRegion.Some? then
      (SetDelegate(s1, Some(newDelegateId)), Some(LocalReplaceDelegate(newDelegateId, regionId)))
    else
      (s1, None)
  }

  /** `on_eventLoseDelegate`: only a nation still recorded as delegate is
      demoted (a resignation has already made it NON_WA). */
  function LoseDelegate(s: CacheState, oldDelegateId: string, regionId: string): (r: (CacheState, Option<Dispatch>))
    requires ValidState(s)
    ensures Step(s, r.0) && r.0.needsRebuild == s.needsRebuild
    ensures r.0.nations.Keys == s.nations.Keys
    ensures oldDelegateId in s.nations ==>
      r.0.nations[oldDelegateId].waStatus ==
        (if s.nations[oldDelegateId].waStatus == WaDelegate then WaMember else s.nations[oldDelegateId].waStatus)
    ensures regionId == s.mainRegionId && s.mainRegion.Some? ==>
      r.0.mainRegion.Some? && r.0.mainRegion.value.delegate == None && r.1 == Some(LocalLoseDelegate(oldDelegateId, regionId))
    // with no region, setting its delegate raises AttributeError after the
    // status updates
    ensures regionId != s.mainRegionId || s.mainRegion.None? ==> r.0.mainRegion == s.mainRegion && r.1 == None
  {
    var s1 := if oldDelegateId in s.nations && s.nations[oldDelegateId].waStatus == WaDelegate
              then SetStatus(s, oldDelegateId, WaMember) else s;
    if regionId == s.mainRegionId && s.mainRegion.Some? then
      (SetDelegate(s1, None), Some(LocalLoseDelegate(oldDelegateId, regionId)))
    else
      (s1, None)
  }

  // ---------------------------------------------------------------------
  // Rebuild

  /** The part of `rebuildCache` before the nation loop: new World Assembly,
      jump point and puppet storage lists, and a fresh index holding only the
      tracked region's residents. If the region cannot be fetched the old
      region object, and with it the old resident set, is kept; when there is
      none (a first rebuild) the index is left empty, and reading the
      region's residents next raises. */
  function RebuildStart(s: CacheState, start: real, wa: set<string>, jumpPoints: set<string>, puppets: set<string>,
                        regionFetch: Option<(Region, set<string>)>): (t: CacheState)
    requires ValidState(s)
    ensures ValidState(t)
    ensures t.mainRegion.Some? <==> regionFetch.Some? || s.mainRegion.Some?
    ensures t.mainRegion.Some? ==> t.regionalNations.Keys == {s.mainRegionId}
    ensures t.mainRegion.None? ==> t.regionalNations == map[]
    ensures t.lastRebuildStart == start && t.waNations == wa && t.jumpPointRegions == jumpPoints && t.puppetRegions == puppets
    ensures t.nations == s.nations && t.lastRebuildEnd == s.lastRebuildEnd && t.needsRebuild == s.needsRebuild
  {
    if regionFetch.None? && s.mainRegion.None? then
      s.(lastRebuildStart := start, waNations := wa, jumpPointRegions := jumpPoints, puppetRegions := puppets,
         regionalNations := map[])
    else
    var region := if regionFetch.Some? then regionFetch.value.0 else s.mainRegion.value;
    var residents := if regionFetch.Some? then regionFetch.value.1 else s.regionalNations[s.mainRegionId];
    s.(lastRebuildStart := start, waNations := wa, jumpPointRegions := jumpPoints, puppetRegions := puppets,
       mainRegion := Some(region), regionalNations := map[s.mainRegionId := residents])
  }

  /** The nations map after fetching every id in `ids`, where `fetched` holds
      the API's answers (an id it has no answer for keeps its old entry). */
  function Refreshed(nations: map<string, Nation>, ids: set<string>, fetched: map<string, Nation>): (m: map<string, Nation>)
    ensures m.Keys == nations.Keys + (ids * fetched.Keys)
    ensures forall k :: k in m ==> m[k] == if k in ids && k in fetched then fetched[k] else nations[k]
  {
    map k | k in nations.Keys + (ids * fetched.Keys) :: if k in ids && k in fetched then fetched[k] else nations[k]
  }

  /** The nation loop of `rebuildCache` as written, over the set's iteration
      order: after each fetch the nation is read back for logging, which
      raises when it is neither cached nor returned by the API. The flag
      says whether the loop finished. */
  function FetchInOrder(nations: map<string, Nation>, order: seq<string>, fetched: map<string, Nation>)
    : (r: (map<string, Nation>, bool))
    decreases |order|
  {
    if order == [] then (nations, true)
    else
      var id := order[0];
      var n1 := if id in fetched then nations[id := fetched[id]] else nations;
      if id in n1 then FetchInOrder(n1, order[1..], fetched) else (n1, false)
  }

  /** The loop finishes iff every nation it visits is cached or fetched. */
  lemma {:induction false} FetchInOrderFinishes(nations: map<string, Nation>, order: seq<string>, fetched: map<string, Nation>)
    ensures FetchInOrder(nations, order, fetched).1 <==> forall id :: id in order ==> id in nations || id in fetched
    decreases |order|
  {
    if order != [] {
      var id := order[0];
      var n1 := if id in fetched then nations[id := fetched[id]] else nations;
      if id in n1 {
        FetchInOrderFinishes(n1, order[1..], fetched);
        assert forall x :: x in order ==> x == id || x in order[1..];
      }
    }
  }

  /** When the loop finishes it has refreshed exactly the visited ids. */
  lemma {:induction false} FetchInOrderRefreshes(nations: map<string, Nation>, order: seq<string>, fetched: map<string, Nation>)
    requires FetchInOrder(nations, order, fetched).1
    ensures FetchInOrder(nations, order, fetched).0 == Refreshed(nations, (set id | id in order), fetched)
    decreases |order|
  {
    if order == [] {
      assert Refreshed(nations, {}, fetched) == nations;
    } else {
      var id := order[0];
      var n1 := if id in fetched then nations[id := fetched[id]] else nations;
      FetchInOrderRefreshes(n1, order[1..], fetched);
      ElementsOfTail(order);
      RefreshedStep(nations, id, (set x | x in order[1..]), fetched);
    }
  }

  /** Fetching one more id. */
  lemma RefreshedAdd(nations: map<string, Nation>, done: set<string>, id: string, fetched: map<string, Nation>)
    ensures Refreshed(nations, done + {id}, fetched) ==
            var m := Refreshed(nations, done, fetched); if id in fetched then m[id := fetched[id]] else m
  {
    var m := Refreshed(nations, done, fetched);
    var a := Refreshed(nations, done + {id}, fetched);
    var b := if id in fetched then m[id := fetched[id]] else m;
    assert a.Keys == b.Keys;
    forall k | k in a
      ensures a[k] == b[k]
    {
    }
  }

  lemma ElementsOfTail(order: seq<string>)
    requires order != []
    ensures (set x | x in order) == (set x | x in order[1..]) + {order[0]}
  {
    forall x | x in order && x != order[0]
      ensures x in order[1..]
    {
      var i :| 0 <= i < |order| && order[i] == x;
      assert order[1..][i - 1] == x;
    }
  }

  /** Fetching one id and then the rest is fetching all of them. */
  lemma RefreshedStep(nations: map<string, Nation>, id: string, rest: set<string>, fetched: map<string, Nation>)
    ensures Refreshed(if id in fetched then nations[id := fetched[id]] else nations, rest, fetched) ==
            Refreshed(nations, rest + {id}, fetched)
  {
    var n1 := if id in fetched then nations[id := fetched[id]] else nations;
    var a := Refreshed(n1, rest, fetched);
    var b := Refreshed(nations, rest + {id}, fetched);
    assert a.Keys == b.Keys;
    forall k | k in a
      ensures a[k] == b[k]
    {
    }
  }

  /** The ids the nation loop visits: the World Assembly members among the
      tracked region's residents. */
  function RebuildTargets(t: CacheState): set<string>
    requires ValidState(t) && t.mainRegion.Some?
  {
    RegionWaNations(t)
  }

  /** `rebuildCache` as written. `order` is the iteration order of the
      target set. A nation that is neither cached nor returned by the API
      aborts the rebuild: the start time has been recorded but the end time
      and the stale mark are not updated. A first rebuild whose region fetch
      fails aborts the same way, on reading the residents of a region that is
      still `None`. */
  function RebuildAsWritten(s: CacheState, start: real, wa: set<string>, jumpPoints: set<string>, puppets: set<string>,
                            regionFetch: Option<(Region, set<string>)>, fetched: map<string, Nation>,
                            order: seq<string>, end: real): (r: (CacheState, Option<Dispatch>))
    requires ValidState(s)
    requires var t := RebuildStart(s, start, wa, jumpPoints, puppets, regionFetch);
      t.mainRegion.Some? ==> forall id :: id in order <==> id in RebuildTargets(t)
    ensures ValidState(r.0)
    ensures r.0.lastRebuildStart == start
    ensures r.1.Some? ==> r.1 == Some(CacheRebuildComplete) && r.0.lastRebuildEnd == end && !r.0.needsRebuild
    ensures r.1.None? ==> r.0.lastRebuildEnd == s.lastRebuildEnd && r.0.needsRebuild == s.needsRebuild
  {
    var t := RebuildStart(s, start, wa, jumpPoints, puppets, regionFetch);
    if t.mainRegion.None? then (t, None)
    else
    var f := FetchInOrder(t.nations, order, fetched);
    if f.1 then
      (t.(nations := f.0, lastRebuildEnd := end, needsRebuild := false), Some(CacheRebuildComplete))
    else
      (t.(nations := f.0), None)
  }

  /** As written, one region World Assembly member that is neither cached nor
      returned by the API leaves the rebuild marked as in progress forever:
      no later time triggers a rebuild, and no handler changes the rebuild
      times. */
  lemma RebuildAsWrittenWedges(s: CacheState, start: real, wa: set<string>, jumpPoints: set<string>, puppets: set<string>,
                               regionFetch: Option<(Region, set<string>)>, fetched: map<string, Nation>,
                               order: seq<string>, end: real, missing: string)
    requires ValidState(s)
    requires regionFetch.Some? || s.mainRegion.Some?
    requires var t := RebuildStart(s, start, wa, jumpPoints, puppets, regionFetch);
      t.mainRegion.Some? ==> forall id :: id in order <==> id in RebuildTargets(t)
    requires start > s.lastRebuildEnd
    requires missing in RebuildTargets(RebuildStart(s, start, wa, jumpPoints, puppets, regionFetch))
    requires missing !in s.nations && missing !in fetched
    ensures var r := RebuildAsWritten(s, start, wa, jumpPoints, puppets, regionFetch, fetched, order, end);
      r.1 == None && r.0.lastRebuildStart > r.0.lastRebuildEnd &&
      forall now :: !ShouldRebuild(r.0, now)
  {
    var t := RebuildStart(s, start, wa, jumpPoints, puppets, regionFetch);
    FetchInOrderFinishes(t.nations, order, fetched);
  }

  /** A concrete instance: a tracked region with one World Assembly resident
      that the API does not return. */
  lemma RebuildAsWrittenExample(s: CacheState, region: Region)
    requires ValidState(s) && s.nations == map[] && s.lastRebuildEnd == 0.0
    ensures var r := RebuildAsWritten(s, 100.0, {"a"}, {}, {}, Some((region, {"a"})), map[], ["a"], 200.0);
      r.1 == None && !ShouldRebuild(r.0, 1000000.0)
  {
    var t := RebuildStart(s, 100.0, {"a"}, {}, {}, Some((region, {"a"})));
    assert RebuildTargets(t) == {"a"};
    RebuildAsWrittenWedges(s, 100.0, {"a"}, {}, {}, Some((region, {"a"})), map[], ["a"], 200.0, "a");
  }

  /** As written, a first rebuild whose region fetch fails leaves the
      rebuild marked as in progress forever, like an unfetchable nation. */
  lemma RebuildAsWrittenWedgesWithoutRegion(s: CacheState, start: real, wa: set<string>, jumpPoints: set<string>,
                                            puppets: set<string>, fetched: map<string, Nation>, order: seq<string>, end: real)
    requires ValidState(s) && s.mainRegion.None? && start > s.lastRebuildEnd
    ensures var r := RebuildAsWritten(s, start, wa, jumpPoints, puppets, None, fetched, order, end);
      r.1 == None && r.0.mainRegion.None? && r.0.lastRebuildStart > r.0.lastRebuildEnd &&
      forall now :: !ShouldRebuild(r.0, now)
  {
  }

  /** `rebuildCache` corrected: the read-back tolerates a nation the API did
      not return, and when the tracked region is neither known nor fetchable
      the rebuild gives up before recording its start. Otherwise it always
      completes, refreshing every target the API answers for. */
  function Rebuild(s: CacheState, start: real, wa: set<string>, jumpPoints: set<string>, puppets: set<string>,
                   regionFetch: Option<(Region, set<string>)>, fetched: map<string, Nation>, end: real)
    : (r: (CacheState, Option<Dispatch>))
    requires ValidState(s)
    ensures ValidState(r.0)
    ensures regionFetch.None? && s.mainRegion.None? ==> r == (s, None)
    ensures regionFetch.Some? || s.mainRegion.Some? ==>
      r.0.mainRegion.Some? && r.0.mainRegionId == s.mainRegionId && r.0.regionalNations.Keys == {s.mainRegionId} &&
      r.0.waNations == wa && r.0.jumpPointRegions == jumpPoints && r.0.puppetRegions == puppets &&
      r.0.nations == Refreshed(s.nations, wa * Residents(r.0), fetched) &&
      r.0.lastRebuildStart == start && r.0.lastRebuildEnd == end && !r.0.needsRebuild &&
      r.1 == Some(CacheRebuildComplete)
    ensures regionFetch.Some? ==> r.0.mainRegion == Some(regionFetch.value.0) && Residents(r.0) == regionFetch.value.1
    ensures regionFetch.None? && s.mainRegion.Some? ==> r.0.mainRegion == s.mainRegion && Residents(r.0) == Residents(s)
  {
    if regionFetch.None? && s.mainRegion.None? then (s, None)
    else
    var t := RebuildStart(s, start, wa, jumpPoints, puppets, regionFetch);
    (t.(nations := Refreshed(t.nations, RebuildTargets(t), fetched), lastRebuildEnd := end, needsRebuild := false),
     Some(CacheRebuildComplete))
  }

  /** The corrected rebuild agrees with the code as written whenever the
      latter completes, and afterwards the daily rebuild fires again. */
  lemma RebuildAgreesWhenComplete(s: CacheState, start: real, wa: set<string>, jumpPoints: set<string>, puppets: set<string>,
                                  regionFetch: Option<(Region, set<string>)>, fetched: map<string, Nation>,
                                  order: seq<string>, end: real)
    requires ValidState(s)
    requires var t := RebuildStart(s, start, wa, jumpPoints, puppets, regionFetch);
      t.mainRegion.Some? ==> forall id :: id in order <==> id in RebuildTargets(t)
    requires RebuildAsWritten(s, start, wa, jumpPoints, puppets, regionFetch, fetched, order, end).1.Some?
    ensures RebuildAsWritten(s, start, wa, jumpPoints, puppets, regionFetch, fetched, order, end) ==
            Rebuild(s, start, wa, jumpPoints, puppets, regionFetch, fetched, end)
  {
    var t := RebuildStart(s, start, wa, jumpPoints, puppets, regionFetch);
    FetchInOrderRefreshes(t.nations, order, fetched);
    assert (set id | id in order) == RebuildTargets(t);
  }

  /** Where the tracked region is neither known nor fetchable, the corrected
      rebuild changes nothing, so a rebuild that was due stays due. */
  lemma RebuildRetriesWithoutRegion(s: CacheState, start: real, wa: set<string>, jumpPoints: set<string>,
                                    puppets: set<string>, fetched: map<string, Nation>, end: real, now: real)
    requires ValidState(s) && s.mainRegion.None? && ShouldRebuild(s, now)
    ensures var r := Rebuild(s, start, wa, jumpPoints, puppets, None, fetched, end);
      r.1 == None && forall later :: later >= now ==> ShouldRebuild(r.0, later)
  {
  }

  /** After the corrected rebuild, the cache counts as built and a rebuild is
      due again a day later. */
  lemma RebuildResumesSchedule(s: CacheState, start: real, wa: set<string>, jumpPoints: set<string>, puppets: set<string>,
                               regionFetch: Option<(Region, set<string>)>, fetched: map<string, Nation>, end: real, now: real)
    requires ValidState(s)
    requires regionFetch.Some? || s.mainRegion.Some?
    requires 0.0 < start <= end && now >= end + 86400.0
    ensures var r := Rebuild(s, start, wa, jumpPoints, puppets, regionFetch, fetched, end).0;
      FirstCacheComplete(r) && ShouldRebuild(r, now)
  {
  }

  /** A rebuild is never started within two hours of the last one, and a
      stale cache is rebuilt once two hours have passed. */
  lemma RebuildSchedule(s: CacheState, now: real)
    ensures s.lastRebuildStart <= s.lastRebuildEnd && s.needsRebuild && now >= s.lastRebuildEnd + 7200.0 ==> ShouldRebuild(s, now)
    ensures now < s.lastRebuildEnd + 7200.0 ==> !ShouldRebuild(s, now)
  {
  }

  // ---------------------------------------------------------------------
  // The cog

  class CacheManager {
    const mainRegionId: string
    var waNations: set<string>
    var puppetRegions: set<string>
    var jumpPointRegions: set<string>
    var nations: map<string, Nation>
    var mainRegion: Option<Region>
    var regionalNations: map<string, set<string>>
    var needsRebuild: bool
    var lastRebuildStart: real
    var lastRebuildEnd: real

    function State(): CacheState
      reads this
    {
      CacheState(mainRegionId, waNations, puppetRegions, jumpPointRegions, nations, mainRegion,
                 regionalNations, needsRebuild, lastRebuildStart, lastRebuildEnd)
    }

    predicate Valid()
      reads this
    {
      ValidState(State())
    }

    constructor(mainRegionId: string)
      ensures Valid() && this.mainRegionId == mainRegionId
      ensures State() == CacheState(mainRegionId, {}, {}, {}, map[], None, map[], false, 0.0, 0.0)
    {
      this.mainRegionId := mainRegionId;
      waNations := {};
      puppetRegions := {};
      jumpPointRegions := {};
      nations := map[];
      mainRegion := None;
      regionalNations := map[];
      needsRebuild := false;
      lastRebuildStart := 0.0;
      lastRebuildEnd := 0.0;
    }

    /** `verifiedEndorsements`. */
    method VerifiedEndorsements(nationId: string) returns (endorsements: set<string>)
      ensures endorsements == VerifiedSet(State(), nationId)
    {
      if nationId !in nations {
        return {};
      }
      endorsements := {};
      var todo := nations[nationId].endorsements;
      while todo != {}
        invariant todo <= nations[nationId].endorsements
        invariant endorsements == set e | e in nations[nationId].endorsements - todo && VerifyEndo(State(), nationId, e)
        decreases todo
      {
        var endo :| endo in todo;
        if VerifyEndo(State(), nationId, endo) {
          endorsements := endorsements + {endo};
        }
        todo := todo - {endo};
      }
    }

    /** `endorsementsGiven`: `None` where the code raises. */
    method EndorsementsGiven(nationId: string) returns (endorsements: Option<set<string>>)
      requires Valid()
      ensures endorsements == Given(State(), nationId)
    {
      if nationId !in nations {
        return Some({});
      }
      var regionId := nations[nationId].region;
      if regionId != mainRegionId {
        return Some({});
      }
      if mainRegion.None? {
        return None;
      }
      var s := State();
      var given := {};
      var todo := RegionWaNations(s);
      while todo != {}
        invariant todo <= RegionWaNations(s)
        invariant forall e :: e in RegionWaNations(s) - todo && e != nationId ==> e in nations
        invariant given == set e | e in RegionWaNations(s) - todo && e != nationId &&
          nationId in nations[e].endorsements && VerifyEndo(s, e, nationId)
        decreases todo
      {
        var endorsee :| endorsee in todo;
        todo := todo - {endorsee};
        if endorsee == nationId {
          continue;
        }
        if endorsee !in nations {
          return None;
        }
        if nationId in nations[endorsee].endorsements && VerifyEndo(s, endorsee, nationId) {
          given := given + {endorsee};
        }
      }
      assert !GivenRaises(s, nationId) by {
        assert RegionWaNations(s) - todo == RegionWaNations(s);
      }
      return Some(given);
    }

    /** `fetchNation`: stores the API's answer, if any. */
    method FetchNation(nationId: string, fetched: Option<Nation>)
      modifies this`nations
      ensures nations == Fetch(old(nations), nationId, fetched)
    {
      if fetched.Some? {
        nations := nations[nationId := fetched.value];
      }
    }

    /** `markCacheOutdated`. */
    method MarkCacheOutdated()
      modifies this
      ensures State() == old(State()).(needsRebuild := true)
    {
      needsRebuild := true;
    }

    /** `checkForRebuild` followed by `rebuildCache`, with the fetches' answers
        and the clock readings as parameters. */
    method CheckForRebuild(now: real, wa: set<string>, jumpPoints: set<string>, puppets: set<string>,
                           regionFetch: Option<(Region, set<string>)>, fetched: map<string, Nation>, end: real)
      returns (d: Option<Dispatch>)
      requires Valid()
      modifies this
      ensures Valid()
      ensures !ShouldRebuild(old(State()), now) ==> State() == old(State()) && d == None
      ensures ShouldRebuild(old(State()), now) ==>
        (State(), d) == Rebuild(old(State()), now, wa, jumpPoints, puppets, regionFetch, fetched, end)
    {
      if lastRebuildStart > lastRebuildEnd {
        return None;
      }
      var timeSinceLastRebuild := now - lastRebuildEnd;
      if timeSinceLastRebuild < 3600.0 * 2.0 {
        return None;
      }
      if !needsRebuild && timeSinceLastRebuild < 3600.0 * 24.0 {
        return None;
      }
      d := RebuildCache(now, wa, jumpPoints, puppets, regionFetch, fetched, end);
    }

    /** `rebuildCache` corrected: it gives up first when the tracked region is
        neither known nor fetchable, and reads back each nation only when it
        is cached. */
    method RebuildCache(start: real, wa: set<string>, jumpPoints: set<string>, puppets: set<string>,
                        regionFetch: Option<(Region, set<string>)>, fetched: map<string, Nation>, end: real)
      returns (d: Option<Dispatch>)
      requires Valid()
      modifies this
      ensures Valid()
      ensures (State(), d) == Rebuild(old(State()), start, wa, jumpPoints, puppets, regionFetch, fetched, end)
    {
      if regionFetch.None? && mainRegion.None? {
        return None;
      }
      ghost var s0 := State();
      lastRebuildStart := start;
      waNations := wa;
      jumpPointRegions := jumpPoints;
      puppetRegions := puppets;
      // the resident set of the region object, fetched or kept
      var residents := if regionFetch.Some? then regionFetch.value.1 else regionalNations[mainRegionId];
      regionalNations := map[];
      if regionFetch.Some? {
        mainRegion := Some(regionFetch.value.0);
      }
      regionalNations := regionalNations[mainRegionId := residents];
      ghost var t := State();
      assert t == RebuildStart(s0, start, wa, jumpPoints, puppets, regionFetch);
      FetchNations(waNations * regionalNations[mainRegionId], fetched);
      lastRebuildEnd := end;
      needsRebuild := false;
      d := Some(CacheRebuildComplete);
    }

    /** The nation loop of `rebuildCache`: each target is fetched. */
    method FetchNations(targets: set<string>, fetched: map<string, Nation>)
      modifies this`nations
      ensures nations == Refreshed(old(nations), targets, fetched)
    {
      var todo := targets;
      while todo != {}
        invariant todo <= targets
        invariant nations == Refreshed(old(nations), targets - todo, fetched)
        decreases todo
      {
        var nationId :| nationId in todo;
        if nationId in fetched {
          nations := nations[nationId := fetched[nationId]];
        }
        RefreshedAdd(old(nations), targets - todo, nationId, fetched);
        assert targets - (todo - {nationId}) == (targets - todo) + {nationId};
        todo := todo - {nationId};
      }
    }

    /** `on_eventCte`. */
    method OnCte(nationId: string, regionId: string) returns (d: Option<Dispatch>)
      requires Valid()
      modifies this
      ensures Valid()
      ensures (State(), d) == Cte(old(State()), nationId, regionId)
    {
      if regionId in regionalNations {
        regionalNations := regionalNations[regionId := regionalNations[regionId] - {nationId}];
      }
      if nationId in nations {
        nations := nations - {nationId};
      }
      assert nations == old(nations) - {nationId};
      assert regionalNations == Discard(old(regionalNations), regionId, nationId);
      d := None;
      if regionId == mainRegionId {
        if mainRegion.None? {
          // AttributeError on `mainRegion.nations`
          return;
        }
        // `mainRegion.nations` is the set just discarded from, so `remove`
        // raises KeyError
        if nationId in regionalNations[mainRegionId] {
          assert false;
        }
        MarkCacheOutdated();
      } else {
        waNations := waNations - {nationId};
      }
    }

    /** `on_eventFounding`. */
    method OnFounding(nationId: string, event: string, regionId: string) returns (d: Option<Dispatch>)
      requires Valid()
      modifies this
      ensures Valid()
      ensures (State(), d) == Founding(old(State()), nationId, event, regionId)
    {
      if regionId !in regionalNations {
        regionalNations := regionalNations[regionId := {}];
      }
      regionalNations := regionalNations[regionId := regionalNations[regionId] + {nationId}];
      assert regionalNations == AddTo(old(regionalNations), regionId, nationId);
      if regionId == mainRegionId && mainRegion.None? {
        // AttributeError on `mainRegion.nations`
        d := None;
      } else if regionId == mainRegionId {
        regionalNations := regionalNations[mainRegionId := regionalNations[mainRegionId] + {nationId}];
        d := Some(LocalFounding(nationId, event, regionId));
      } else {
        d := Some(WorldFounding(nationId, event, regionId));
      }
    }

    /** The first part of `on_eventMove`. */
    method Relocate(nationId: string, sourceId: string, targetId: string, now: real)
      modifies this
      ensures State() == Relocated(old(State()), nationId, sourceId, targetId, now)
    {
      if sourceId in regionalNations {
        regionalNations := regionalNations[sourceId := regionalNations[sourceId] - {nationId}];
      }
      if targetId !in regionalNations {
        regionalNations := regionalNations[targetId := {}];
      }
      regionalNations := regionalNations[targetId := regionalNations[targetId] + {nationId}];
      assert regionalNations == AddTo(Discard(old(regionalNations), sourceId, nationId), targetId, nationId);
      if nationId in nations {
        var n := nations[nationId].(region := targetId);
        n := ResetResidency(n, now);
        n := ResetLogin(n, now);
        nations := nations[nationId := n];
      }
    }

    /** `on_eventMove`. */
    method OnMove(nationId: string, sourceId: string, targetId: string, now: real, fetched: Option<Nation>)
      returns (d: Option<Dispatch>)
      requires Valid()
      modifies this
      ensures Valid()
      ensures (State(), d) == Move(old(State()), nationId, sourceId, targetId, now, fetched)
    {
      Relocate(nationId, sourceId, targetId, now);
      d := None;
      if mainRegion.None? && (sourceId == mainRegionId || targetId == mainRegionId) {
        // AttributeError on `mainRegion.nations`
      } else if sourceId == mainRegionId {
        if nationId in regionalNations[mainRegionId] {
          regionalNations := regionalNations[mainRegionId := regionalNations[mainRegionId] - {nationId}];
        } else {
          MarkCacheOutdated();
        }
        if nationId in waNations {
          d := Some(LocalWaLeave(nationId, sourceId, targetId));
        } else {
          d := Some(LocalLeave(nationId, sourceId, targetId));
        }
      } else if targetId == mainRegionId {
        regionalNations := regionalNations[mainRegionId := regionalNations[mainRegionId] + {nationId}];
        if nationId in waNations {
          if nationId !in nations {
            if fetched.Some? {
              nations := nations[nationId := fetched.value];
            }
            d := Some(LocalWaJoin(nationId, sourceId, targetId));
          }
        } else {
          d := Some(LocalJoin(nationId, sourceId, targetId));
        }
      } else {
        d := Some(WorldJoin(nationId, sourceId, targetId));
      }
    }

    /** `on_eventWaAdmit`. */
    method OnWaAdmit(nationId: string, now: real, fetched: Option<Nation>) returns (d: Option<Dispatch>)
      requires Valid()
      modifies this
      ensures Valid()
      ensures (State(), d) == WaAdmit(old(State()), nationId, now, fetched)
    {
      waNations := waNations + {nationId};
      if nationId in nations {
        nations := nations[nationId := ResetLogin(nations[nationId].(waStatus := WaMember), now)];
      }
      if mainRegion.None? {
        // AttributeError on `mainRegion.nations`
        d := None;
      } else if nationId in regionalNations[mainRegionId] {
        if nationId !in nations && fetched.Some? {
          nations := nations[nationId := fetched.value];
        }
        d := Some(LocalWaAdmit(nationId, mainRegionId));
      } else {
        d := Some(WorldWaAdmit(nationId));
      }
    }

    /** `on_eventWaApply`. */
    method OnWaApply(nationId: string) returns (d: Option<Dispatch>)
      requires Valid()
      ensures d == WaApply(State(), nationId).1
    {
      if mainRegion.None? {
        // AttributeError on `mainRegion.nations`
        d := None;
      } else if nationId in regionalNations[mainRegionId] {
        d := Some(LocalWaApply(nationId, mainRegionId));
      } else {
        d := Some(WorldWaApply(nationId));
      }
    }

    /** `on_eventWaResign`. */
    method OnWaResign(nationId: string, now: real) returns (d: Option<Dispatch>)
      requires Valid()
      modifies this
      ensures Valid()
      ensures (State(), d) == WaResign(old(State()), nationId, now)
    {
      if nationId in waNations {
        waNations := waNations - {nationId};
      } else {
        MarkCacheOutdated();
      }
      d := None;
      if nationId in nations {
        nations := nations[nationId := ResetLogin(nations[nationId].(waStatus := NonWa, endorsements := {}), now)];
        // with no region, AttributeError here after every update
        if mainRegion.Some? && nationId in regionalNations[mainRegionId] {
          d := Some(LocalWaResign(nationId, mainRegionId));
        }
      }
    }

    /** `on_eventEndo`. */
    method OnEndo(sourceId: string, targetId: string, now: real) returns (d: Option<Dispatch>)
      requires Valid()
      modifies this
      ensures Valid()
      ensures (State(), d) == Endo(old(State()), sourceId, targetId, now)
    {
      d := None;
      if targetId in nations {
        nations := nations[targetId := nations[targetId].(endorsements := nations[targetId].endorsements + {sourceId})];
        if mainRegion.None? {
          // AttributeError on `mainRegion.nations`
          return;
        }
        if targetId in regionalNations[mainRegionId] {
          if mainRegion.value.delegate == Some(targetId) {
            d := Some(LocalDelEndo(sourceId, targetId, mainRegionId));
          } else {
            d := Some(LocalWaEndo(sourceId, targetId, mainRegionId));
          }
        }
      }
      if sourceId in nations {
        nations := nations[sourceId := ResetLogin(nations[sourceId], now)];
      }
    }

    /** `on_eventUnendo`. */
    method OnUnendo(sourceId: string, targetId: string, now: real) returns (d: Option<Dispatch>)
      requires Valid()
      modifies this
      ensures Valid()
      ensures (State(), d) == Unendo(old(State()), sourceId, targetId, now)
    {
      d := None;
      if targetId in nations {
        if sourceId in nations[targetId].endorsements {
          nations := nations[targetId := nations[targetId].(endorsements := nations[targetId].endorsements - {sourceId})];
          if mainRegion.None? {
            // AttributeError on `mainRegion.nations`, not caught by `except KeyError`
            return;
          }
          if targetId in regionalNations[mainRegionId] {
            if mainRegion.value.delegate == Some(targetId) {
              d := Some(LocalDelUnendo(sourceId, targetId, mainRegionId));
            } else {
              d := Some(LocalWaUnendo(sourceId, targetId, mainRegionId));
            }
          }
        } else {
          MarkCacheOutdated();
        }
      }
      if sourceId in nations {
        nations := nations[sourceId := ResetLogin(nations[sourceId], now)];
      }
    }

    /** `on_eventRegionUpdate`: each cached resident's endorsements are
        replaced, one at a time, by its verified endorsements. */
    method OnRegionUpdate(regionId: string) returns (d: Option<Dispatch>)
      requires Valid()
      modifies this
      ensures Valid()
      ensures (State(), d) == RegionUpdate(old(State()), regionId)
    {
      ghost var s0 := State();
      if regionId in regionalNations {
        var todo := regionalNations[regionId];
        while todo != {}
          invariant regionId in regionalNations && todo <= regionalNations[regionId]
          invariant State() == s0.(nations := nations)
          invariant nations.Keys == s0.nations.Keys
          invariant forall k :: k in nations ==>
            nations[k] == if k in regionalNations[regionId] - todo then Pruned(s0, regionId)[k] else s0.nations[k]
          decreases todo
        {
          var nation :| nation in todo;
          if nation in nations {
            VerifiedSetFrame(s0, State(), nation);
            var verified := VerifiedEndorsements(nation);
            nations := nations[nation := nations[nation].(endorsements := verified)];
          }
          todo := todo - {nation};
        }
      }
      assert nations == Pruned(s0, regionId);
      if regionId == mainRegionId {
        d := Some(LocalUpdate(regionId));
      } else {
        d := None;
      }
    }

    /** `on_eventFlag`. */
    method OnFlag(nationId: string, now: real) returns (d: Option<Dispatch>)
      requires Valid()
      modifies this
      ensures Valid()
      ensures (State(), d) == Flag(old(State()), nationId, now)
    {
      d := None;
      if nationId in nations {
        nations := nations[nationId := ResetLogin(nations[nationId].(flagDirty := true), now)];
        // with no region, AttributeError here after every update
        if mainRegion.Some? && nationId in regionalNations[mainRegionId] {
          d := Some(LocalFlagChange(nationId, mainRegionId));
        }
      }
    }

    /** `on_eventNewDelegate`. */
    method OnNewDelegate(newDelegateId: string, regionId: string) returns (d: Option<Dispatch>)
      requires Valid()
      modifies this
      ensures Valid()
      ensures (State(), d) == NewDelegate(old(State()), newDelegateId, regionId)
    {
      if newDelegateId in nations {
        nations := nations[newDelegateId := nations[newDelegateId].(waStatus := WaDelegate)];
      }
      d := None;
      // with no region, AttributeError here after the status updates
      if regionId == mainRegionId && mainRegion.Some? {
        mainRegion := Some(mainRegion.value.(delegate := Some(newDelegateId)));
        d := Some(LocalNewDelegate(newDelegateId, regionId));
      }
    }

    /** `on_eventReplaceDelegate`. */
    method OnReplaceDelegate(newDelegateId: string, regionId: string, oldDelegateId: string) returns (d: Option<Dispatch>)
      requires Valid()
      modifies this
      ensures Valid()
      ensures (State(), d) == ReplaceDelegate(old(State()), newDelegateId, regionId, oldDelegateId)
    {
      if newDelegateId in nations {
        nations := nations[newDelegateId := nations[newDelegateId].(waStatus := WaDelegate)];
      }
      if oldDelegateId in nations {
        nations := nations[oldDelegateId := nations[oldDelegateId].(waStatus := WaMember)];
      }
      d := None;
      // with no region, AttributeError here after the status updates
      if regionId == mainRegionId && mainRegion.Some? {
        mainRegion := Some(mainRegion.value.(delegate := Some(newDelegateId)));
        d := Some(LocalReplaceDelegate(newDelegateId, regionId));
      }
    }

    /** `on_eventLoseDelegate`. */
    method OnLoseDelegate(oldDelegateId: string, regionId: string) returns (d: Option<Dispatch>)
      requires Valid()
      modifies this
      ensures Valid()
      ensures (State(), d) == LoseDelegate(old(State()), oldDelegateId, regionId)
    {
      if oldDelegateId in nations && nations[oldDelegateId].waStatus == WaDelegate {
        nations := nations[oldDelegateId := nations[oldDelegateId].(waStatus := WaMember)];
      }
      d := None;
      // with no region, AttributeError here after the status updates
      if regionId == mainRegionId && mainRegion.Some? {
        mainRegion := Some(mainRegion.value.(delegate := None));
        d := Some(LocalLoseDelegate(oldDelegateId, regionId));
      }
    }
  }
}
