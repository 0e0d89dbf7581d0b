/** The inactivity listing (`discord/cogs/inactive.py`): the tracked
    region's World Assembly members who have not logged in for at least a
    given number of days, longest-absent first, ten to a page. */
module Inactive {
  import opened Wrappers
  import opened Classes
  import opened Cache
  import opened Sorting

  const SecondsInADay: real := 86400.0
  const ElementsPerPage: int := 10

  /** A listed nation: its id, whole days since its last login, the login
      time and the time of its last API refresh. */
  datatype Listed = Listed(nationId: string, days: int, lastLogin: int, lastApiUpdateTime: real)

  /** `(now - lastLogin) // 86400`: floor division. */
  function DaysSince(now: real, lastLogin: int): int {
    ((now - lastLogin as real) / SecondsInADay).Floor
  }

  /** The whole days elapsed: at least `d` days and less than `d + 1`. */
  lemma DaysSinceSpec(now: real, lastLogin: int)
    ensures var d := DaysSince(now, lastLogin);
      d as real * SecondsInADay <= now - lastLogin as real < (d + 1) as real * SecondsInADay
  {
  }

  /** The cache after the loop: every visited id that was not cached is
      stored if the API returned it (`fetched` holds the API's answers). */
  function Filled(nations: map<string, Nation>, ids: seq<string>, fetched: map<string, Nation>): (r: map<string, Nation>)
    ensures forall id :: id in nations ==> id in r && r[id] == nations[id]
    ensures forall id :: id in r <==> id in nations || (id in ids && id in fetched)
  {
    if ids == [] then nations
    else
      var m := Filled(nations, ids[..|ids| - 1], fetched);
      var id := ids[|ids| - 1];
      if id !in m && id in fetched then m[id := fetched[id]] else m
  }

  /** The nations of `ids` whose absence is long enough, in `ids` order. */
  function Selected(nations: map<string, Nation>, ids: seq<string>, days: int, now: real): (r: seq<Listed>)
    requires forall id :: id in ids ==> id in nations
    ensures |r| <= |ids|
  {
    if ids == [] then []
    else
      var id := ids[|ids| - 1];
      var n := nations[id];
      Selected(nations, ids[..|ids| - 1], days, now) + Pick(nations[id], days, now)
  }

  /** One loop turn: the nation's entry if it has been away long enough. */
  function Pick(n: Nation, days: int, now: real): seq<Listed> {
    var d := DaysSince(now, n.lastLogin);
    if d >= days then [Listed(n.id, d, n.lastLogin, n.lastApiUpdateTime)] else []
  }

  lemma SelectedSnoc(nations: map<string, Nation>, ids: seq<string>, id: string, days: int, now: real)
    requires forall x :: x in ids ==> x in nations
    requires id in nations
    ensures Selected(nations, ids + [id], days, now) == Selected(nations, ids, days, now) + Pick(nations[id], days, now)
  {
    assert (ids + [id])[..|ids|] == ids;
  }

  function DayKeys(list: seq<Listed>): (keys: seq<real>)
    ensures |keys| == |list| && forall k :: 0 <= k < |list| ==> keys[k] == list[k].days as real
  {
    seq(|list|, k requires 0 <= k < |list| => list[k].days as real)
  }

  /** `inactiveNations.sort(key=days, reverse=True)`: a stable sort, most
      days first. */
  function SortedByDays(list: seq<Listed>): seq<Listed> {
    var keys := DayKeys(list);
    var r := SortDesc(keys, |keys|);
    AtPositions(list, r)
  }

  /** The entries of `list` at the positions `r`, in that order. */
  function AtPositions<T>(list: seq<T>, r: seq<nat>): (out: seq<T>)
    requires forall k :: 0 <= k < |r| ==> r[k] < |list|
    ensures |out| == |r| && forall k :: 0 <= k < |r| ==> out[k] == list[r[k]]
  {
    seq(|r|, k requires 0 <= k < |r| => list[r[k]])
  }

  /** Inserting a position adds its entry to the picked ones. */
  lemma {:induction false} AtPositionsInsert<T>(list: seq<T>, keys: seq<real>, s: seq<nat>, i: nat, r: seq<nat>)
    requires |keys| == |list| && i < |keys| && InRange(keys, s)
    requires r == Insert(keys, s, i) && InRange(keys, r)
    ensures multiset(AtPositions(list, r)) == multiset(AtPositions(list, s)) + multiset{list[i]}
    decreases |s|
  {
    if s != [] && keys[s[0]] >= keys[i] {
      var tail := s[1..];
      var rest := r[1..];
      assert r == [s[0]] + Insert(keys, tail, i);
      assert rest == Insert(keys, tail, i);
      AtPositionsInsert(list, keys, tail, i, rest);
      AtPositionsCons(list, s[0], rest);
      assert r == [s[0]] + rest;
      assert s == [s[0]] + tail;
      AtPositionsCons(list, s[0], tail);
    } else {
      assert r == [i] + s;
      AtPositionsCons(list, i, s);
    }
  }

  lemma AtPositionsCons<T>(list: seq<T>, x: nat, t: seq<nat>)
    requires x < |list| && forall k :: 0 <= k < |t| ==> t[k] < |list|
    ensures multiset(AtPositions(list, [x] + t)) == multiset{list[x]} + multiset(AtPositions(list, t))
  {
    assert AtPositions(list, [x] + t) == [list[x]] + AtPositions(list, t);
  }

  /** The first `n` positions in key order pick a rearrangement of the first
      `n` entries. */
  lemma {:induction false} AtSortedPositions<T>(list: seq<T>, keys: seq<real>, n: nat)
    requires |keys| == |list| && n <= |keys|
    ensures multiset(AtPositions(list, SortDesc(keys, n))) == multiset(list[..n])
  {
    if n > 0 {
      AtSortedPositions(list, keys, n - 1);
      AtPositionsInsert(list, keys, SortDesc(keys, n - 1), n - 1, SortDesc(keys, n));
      assert list[..n] == list[..n - 1] + [list[n - 1]];
    }
  }

  /** Python's slice `s[a:b]`: negative bounds count from the end, and
      bounds are clamped to the sequence. */
  function Slice<T>(s: seq<T>, a: int, b: int): seq<T> {
    var lo := if a < 0 then (if |s| + a < 0 then 0 else |s| + a) else (if a > |s| then |s| else a);
    var hi := if b < 0 then (if |s| + b < 0 then 0 else |s| + b) else (if b > |s| then |s| else b);
    if lo < hi then s[lo..hi] else []
  }

  /** `get_page(page)`. */
  function Page<T>(list: seq<T>, page: int): seq<T> {
    var offset := (page - 1) * ElementsPerPage;
    Slice(list, offset, offset + ElementsPerPage)
  }

  /** An entry of the selection is a visited nation that has been away at
      least `days` whole days, with its login and refresh times. */
  predicate Qualifies(nations: map<string, Nation>, ids: seq<string>, e: Listed, days: int, now: real) {
    e.nationId in ids && e.nationId in nations && e.days >= days &&
    e == Listed(e.nationId, DaysSince(now, nations[e.nationId].lastLogin), nations[e.nationId].lastLogin,
                nations[e.nationId].lastApiUpdateTime)
  }

  /** Every entry of the selection qualifies. */
  lemma {:induction false} SelectedSound(nations: map<string, Nation>, ids: seq<string>, days: int, now: real)
    requires forall id :: id in ids ==> id in nations
    requires forall id :: id in nations ==> nations[id].id == id
    ensures forall k :: 0 <= k < |Selected(nations, ids, days, now)| ==>
      Qualifies(nations, ids, Selected(nations, ids, days, now)[k], days, now)
    decreases |ids|
  {
    if ids != [] {
      var pre := ids[..|ids| - 1];
      SelectedSound(nations, pre, days, now);
      var sel := Selected(nations, ids, days, now);
      var head := Selected(nations, pre, days, now);
      forall k | 0 <= k < |sel|
        ensures Qualifies(nations, ids, sel[k], days, now)
      {
        if k < |head| {
          assert sel[k] == head[k];
          assert Qualifies(nations, pre, head[k], days, now);
          var i :| 0 <= i < |pre| && pre[i] == head[k].nationId;
          assert ids[i] == pre[i];
        } else {
          assert sel[k].nationId == ids[|ids| - 1];
        }
      }
    }
  }

  /** The nation ids of a listing, in order. */
  function ListedIds(list: seq<Listed>): (r: seq<string>)
    ensures |r| == |list| && forall k :: 0 <= k < |list| ==> r[k] == list[k].nationId
  {
    seq(|list|, k requires 0 <= k < |list| => list[k].nationId)
  }

  /** Every visited nation away at least `days` whole days is selected. */
  lemma {:induction false} SelectedComplete(nations: map<string, Nation>, ids: seq<string>, days: int, now: real)
    requires forall id :: id in ids ==> id in nations
    requires forall id :: id in nations ==> nations[id].id == id
    ensures forall id :: id in ids && DaysSince(now, nations[id].lastLogin) >= days ==>
      id in ListedIds(Selected(nations, ids, days, now))
    decreases |ids|
  {
    if ids != [] {
      var pre := ids[..|ids| - 1];
      SelectedComplete(nations, pre, days, now);
      var sel := Selected(nations, ids, days, now);
      var head := Selected(nations, pre, days, now);
      var last := ids[|ids| - 1];
      assert sel == head + Pick(nations[last], days, now);
      forall id | id in ids && DaysSince(now, nations[id].lastLogin) >= days
        ensures id in ListedIds(sel)
      {
        if id != last {
          var i :| 0 <= i < |ids| && ids[i] == id;
          assert pre[i] == id;
          var k :| 0 <= k < |head| && ListedIds(head)[k] == id;
          assert sel[k] == head[k];
          assert ListedIds(sel)[k] == id;
        } else {
          assert sel[|head|] == Pick(nations[last], days, now)[0];
          assert ListedIds(sel)[|head|] == id;
        }
      }
    }
  }

  /** A visited nation is listed exactly when it has been away at least
      `days` whole days. */
  lemma SelectedIff(nations: map<string, Nation>, ids: seq<string>, days: int, now: real, id: string)
    requires forall x :: x in ids ==> x in nations
    requires forall x :: x in nations ==> nations[x].id == x
    requires id in ids
    ensures id in ListedIds(Selected(nations, ids, days, now)) <==> DaysSince(now, nations[id].lastLogin) >= days
  {
    SelectedComplete(nations, ids, days, now);
    SelectedSound(nations, ids, days, now);
    var sel := Selected(nations, ids, days, now);
    if id in ListedIds(sel) {
      var k :| 0 <= k < |sel| && ListedIds(sel)[k] == id;
      assert Qualifies(nations, ids, sel[k], days, now);
    }
  }

  /** The sorted list is a rearrangement of the selection, most days first,
      and two entries with equal days keep their selection order. */
  lemma SortedByDaysSpec(list: seq<Listed>)
    ensures var out := SortedByDays(list);
      |out| == |list| && multiset(out) == multiset(list) &&
      (forall x :: x in out <==> x in list) &&
      (forall i, j :: 0 <= i < j < |out| ==> out[i].days >= out[j].days) &&
      (forall i, j :: 0 <= i < j < |out| && out[i].days == out[j].days ==>
         exists a, b :: 0 <= a < b < |list| && list[a] == out[i] && list[b] == out[j])
  {
    SortedByDaysMembers(list);
    SortedByDaysOrder(list);
  }

  lemma SortedByDaysMembers(list: seq<Listed>)
    ensures var out := SortedByDays(list);
      |out| == |list| && multiset(out) == multiset(list) && (forall x :: x in out <==> x in list)
  {
    AtSortedPositions(list, DayKeys(list), |list|);
    assert list[..|list|] == list;
    var keys := DayKeys(list);
    var r := SortDesc(keys, |keys|);
    SortDescSpec(keys);
    var out := SortedByDays(list);
    forall x | x in list
      ensures x in out
    {
      var a :| 0 <= a < |list| && list[a] == x;
      assert a in r;
      var k :| 0 <= k < |r| && r[k] == a;
      assert out[k] == x;
    }
  }

  lemma SortedByDaysOrder(list: seq<Listed>)
    ensures var out := SortedByDays(list);
      (forall i, j :: 0 <= i < j < |out| ==> out[i].days >= out[j].days) &&
      (forall i, j :: 0 <= i < j < |out| && out[i].days == out[j].days ==>
         exists a, b :: 0 <= a < b < |list| && list[a] == out[i] && list[b] == out[j])
  {
    var keys := DayKeys(list);
    var r := SortDesc(keys, |keys|);
    SortDescSpec(keys);
    var out := SortedByDays(list);
    forall i, j | 0 <= i < j < |out|
      ensures out[i].days >= out[j].days
    {
      assert keys[r[i]] >= keys[r[j]];
    }
    forall i, j | 0 <= i < j < |out| && out[i].days == out[j].days
      ensures exists a, b :: 0 <= a < b < |list| && list[a] == out[i] && list[b] == out[j]
    {
      assert keys[r[i]] == keys[r[j]];
      assert list[r[i]] == out[i] && list[r[j]] == out[j];
    }
  }

  /** Page `p` (from 1) shows the entries at indices `(p-1)*10` up to, not
      including, `(p-1)*10 + 10`; page 0 is empty. */
  lemma PageSpec<T>(list: seq<T>, page: int)
    ensures page >= 1 ==>
      var offset := (page - 1) * ElementsPerPage;
      |Page(list, page)| == (if offset >= |list| then 0 else if |list| - offset < ElementsPerPage then |list| - offset else ElementsPerPage) &&
      forall k :: 0 <= k < |Page(list, page)| ==> Page(list, page)[k] == list[offset + k]
    ensures page == 0 ==> Page(list, page) == []
  {
  }

  /** Consecutive pages continue one another. */
  lemma PagesAdjacent<T>(list: seq<T>, page: int)
    requires page >= 1 && |list| >= page * ElementsPerPage
    ensures Page(list, page) + Page(list, page + 1) == list[(page - 1) * ElementsPerPage..if (page + 1) * ElementsPerPage <= |list| then (page + 1) * ElementsPerPage else |list|]
  {
  }

  /** `ids` lists the members of `S`, once each. */
  ghost predicate Enumerates(ids: seq<string>, S: set<string>) {
    (forall i, j :: 0 <= i < j < |ids| ==> ids[i] != ids[j]) && (forall x :: x in ids <==> x in S)
  }

  lemma SelectedAgree(m1: map<string, Nation>, m2: map<string, Nation>, ids: seq<string>, days: int, now: real)
    requires forall id :: id in ids ==> id in m1 && id in m2 && m1[id] == m2[id]
    ensures Selected(m1, ids, days, now) == Selected(m2, ids, days, now)
    decreases |ids|
  {
    if ids != [] {
      SelectedAgree(m1, m2, ids[..|ids| - 1], days, now);
    }
  }

  /** Visiting one more id fetches it if it is not cached yet. */
  lemma FilledStep(nations: map<string, Nation>, ids: seq<string>, id: string, fetched: map<string, Nation>)
    ensures var m := Filled(nations, ids, fetched);
      Filled(nations, ids + [id], fetched) ==
        (if id !in m && id in fetched then m[id := fetched[id]] else m)
  {
    assert (ids + [id])[..|ids|] == ids;
  }

  /** Visiting one more id: the selection over the refreshed cache is the
      previous selection followed by that nation's entry, if any. */
  lemma VisitStep(nations0: map<string, Nation>, ids: seq<string>, id: string, fetched: map<string, Nation>, days: int, now: real)
    requires forall x :: x in ids ==> x in Filled(nations0, ids, fetched)
    requires forall x :: x in ids + [id] ==> x in Filled(nations0, ids + [id], fetched)
    ensures var m := Filled(nations0, ids + [id], fetched);
      Selected(m, ids + [id], days, now) == Selected(Filled(nations0, ids, fetched), ids, days, now) + Pick(m[id], days, now)
  {
    var m := Filled(nations0, ids + [id], fetched);
    FilledStep(nations0, ids, id, fetched);
    SelectedAgree(Filled(nations0, ids, fetched), m, ids, days, now);
    SelectedSnoc(m, ids, id, days, now);
  }

  /** One turn of the loop over the members: fetch the nation if it is not
      cached, then take its entry if it has been away long enough. `found`
      is false where `self.cache.nation(nationId)` raises. */
  method Visit(cache: CacheManager, ghost nations0: map<string, Nation>, ghost ids: seq<string>, nationId: string,
               fetched: map<string, Nation>, days: int, now: real)
    returns (found: bool, entry: seq<Listed>)
    requires cache.nations == Filled(nations0, ids, fetched)
    requires forall x :: x in ids ==> x in cache.nations
    modifies cache`nations
    ensures found <==> nationId in old(cache.nations) || nationId in fetched
    ensures !found ==> cache.nations == old(cache.nations)
    ensures found ==> (cache.nations == Filled(nations0, ids + [nationId], fetched) &&
      (forall x :: x in ids + [nationId] ==> x in cache.nations) &&
      Selected(cache.nations, ids + [nationId], days, now) == Selected(old(cache.nations), ids, days, now) + entry)
  {
    if nationId !in cache.nations {
      cache.FetchNation(nationId, if nationId in fetched then Some(fetched[nationId]) else None);
      if nationId !in cache.nations {
        return false, [];
      }
    }
    FilledStep(nations0, ids, nationId, fetched);
    VisitStep(nations0, ids, nationId, fetched, days, now);
    var nation := cache.nations[nationId];
    var daysSinceLastLogin := DaysSince(now, nation.lastLogin);
    found, entry := true, [];
    if daysSinceLastLogin >= days {
      entry := [Listed(nation.id, daysSinceLastLogin, nation.lastLogin, nation.lastApiUpdateTime)];
    }
  }

  /** The replies of `/inactive`: the cache-incomplete embed, the
      `AttributeError` raised when a member is neither cached nor returned by
      the API (`nation` answers `None` and its fields are read), or the
      sorted list the pages are cut from. */
  datatype Reply = CacheIncomplete | Missing(nationId: string) | Listing(entries: seq<Listed>)

  /** The `/inactive` command. `order` is the order in which Python visits
      the set of the region's members; `fetched` holds the API's answer for
      each nation it can fetch. */
  method InactiveNations(cache: CacheManager, days: int, now: real, order: seq<string>, fetched: map<string, Nation>)
    returns (reply: Reply)
    requires cache.Valid()
    requires FirstCacheComplete(cache.State()) ==>
      cache.mainRegion.Some? && Enumerates(order, RegionWaNations(cache.State()))
    modifies cache`nations
    ensures reply.CacheIncomplete? <==> !FirstCacheComplete(old(cache.State()))
    ensures reply.CacheIncomplete? ==> cache.nations == old(cache.nations)
    ensures reply.Missing? ==> exists i :: (0 <= i < |order| && order[i] == reply.nationId &&
      order[i] !in old(cache.nations) && order[i] !in fetched &&
      (forall j :: 0 <= j < i ==> order[j] in old(cache.nations) || order[j] in fetched) &&
      cache.nations == Filled(old(cache.nations), order[..i], fetched))
    ensures reply.Listing? ==>
      var filled := Filled(old(cache.nations), order, fetched);
      (forall id :: id in order ==> id in old(cache.nations) || id in fetched) &&
      cache.nations == filled && reply.entries == SortedByDays(Selected(filled, order, days, now))
  {
    if !FirstCacheComplete(cache.State()) {
      return CacheIncomplete;
    }
    var missing, inactiveNations := VisitAll(cache, order, fetched, days, now);
    if missing.Some? {
      return Missing(missing.value);
    }
    reply := Listing(SortedByDays(inactiveNations));
  }

  /** The loop of `/inactive` over the members, in `order`: it stops at the
      first nation neither cached nor fetched, and otherwise collects the
      entries of the nations away long enough. */
  method VisitAll(cache: CacheManager, order: seq<string>, fetched: map<string, Nation>, days: int, now: real)
    returns (missing: Option<string>, inactiveNations: seq<Listed>)
    modifies cache`nations
    ensures missing.Some? ==> exists i :: (0 <= i < |order| && order[i] == missing.value &&
      order[i] !in old(cache.nations) && order[i] !in fetched &&
      (forall j :: 0 <= j < i ==> order[j] in old(cache.nations) || order[j] in fetched) &&
      cache.nations == Filled(old(cache.nations), order[..i], fetched))
    ensures missing.None? ==>
      var filled := Filled(old(cache.nations), order, fetched);
      (forall id :: id in order ==> id in old(cache.nations) || id in fetched) &&
      cache.nations == filled && inactiveNations == Selected(filled, order, days, now)
  {
    ghost var nations0 := cache.nations;
    inactiveNations := [];
    var i := 0;
    while i < |order|
      invariant 0 <= i <= |order|
      invariant cache.nations == Filled(nations0, order[..i], fetched)
      invariant forall j :: 0 <= j < i ==> order[j] in nations0 || order[j] in fetched
      invariant forall id :: id in order[..i] ==> id in cache.nations
      invariant inactiveNations == Selected(cache.nations, order[..i], days, now)
    {
      var nationId := order[i];
      assert order[..i + 1] == order[..i] + [nationId];
      var found, entry := Visit(cache, nations0, order[..i], nationId, fetched, days, now);
      if !found {
        return Some(nationId), [];
      }
      inactiveNations := inactiveNations + entry;
      i := i + 1;
    }
    assert order[..i] == order;
    AllVisited(order, nations0, fetched);
    missing := None;
  }

  lemma AllVisited(order: seq<string>, nations: map<string, Nation>, fetched: map<string, Nation>)
    requires forall j :: 0 <= j < |order| ==> order[j] in nations || order[j] in fetched
    ensures forall id :: id in order ==> id in nations || id in fetched
  {
  }
}
