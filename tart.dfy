/** The endorsement helper (`discord/cogs/tart.py`, `discord/views/tart.py`):
    each `/tart` call gives an endorser a view holding a deque of nations
    still to endorse; the cog keeps the views of each endorser and edits
    their deques as World Assembly members arrive, leave and are endorsed.

    A deque is a `seq` whose index 0 is the left end: `appendleft` puts an
    entry in front and `pop` takes the last one. A view is a value carrying
    an `id` that stands for the identity of the Python object; the cog's map
    is the only place views are kept. */
module Tart {
  import opened Wrappers
  import opened Strings
  import opened Lib
  import opened Classes
  import opened Cache

  /** A deque entry: an optional title ("Delegate") and a nation id. */
  datatype Entry = Entry(title: Option<string>, nationId: string)

  /** A `TartView`: its deque, the nation it currently offers and the label
      and link of its button. */
  datatype View = View(id: nat, endorserId: string, nations: seq<Entry>, currentNation: Option<string>,
                       buttonLabel: string, buttonUrl: string)

  const UrlPrefix: string := "https://www.nationstates.net/nation="
  const GeneratedBy: string := "generated_by=Polaris__by_Merethin__ran_by_"
  const ComposeAnchor: string := "#composebutton?"

  /** `generateUrl`. */
  function GenerateUrl(userAgent: string, nation: string): string {
    UrlPrefix + Normalize(nation) + ComposeAnchor + GeneratedBy + userAgent
  }

  /** The link is the nation page of the normalised id, and the id can be
      read back from it: two links for the same user agent are equal iff
      the ids normalise alike. */
  lemma GenerateUrlParts(userAgent: string, nation: string, other: string)
    ensures var u := GenerateUrl(userAgent, nation);
      var tail := ComposeAnchor + GeneratedBy + userAgent;
      u[..|UrlPrefix|] == UrlPrefix && u[|u| - |tail|..] == tail &&
      u[|UrlPrefix|..|u| - |tail|] == Normalize(nation)
    ensures GenerateUrl(userAgent, nation) == GenerateUrl(userAgent, other) <==> Normalize(nation) == Normalize(other)
  {
    var tail := ComposeAnchor + GeneratedBy + userAgent;
    UrlFramed(userAgent, nation);
    UrlFramed(userAgent, other);
    Framed(UrlPrefix, Normalize(nation), tail);
    Framed(UrlPrefix, Normalize(other), tail);
  }

  lemma UrlFramed(userAgent: string, nation: string)
    ensures GenerateUrl(userAgent, nation) == UrlPrefix + Normalize(nation) + (ComposeAnchor + GeneratedBy + userAgent)
  {
    ConcatAssoc(UrlPrefix + Normalize(nation), ComposeAnchor, GeneratedBy);
    ConcatAssoc(UrlPrefix + Normalize(nation), ComposeAnchor + GeneratedBy, userAgent);
  }

  /** The button label of `queryNewNation`. */
  function Label(title: Option<string>, name: string): (r: string)
    ensures Truthy(title) ==> r == "Endorse " + title.value + " " + name
    ensures !Truthy(title) ==> r == "Endorse " + name
  {
    if Truthy(title) then "Endorse " + title.value + " " + name else "Endorse " + name
  }

  /** `queryNewNation`: the rightmost entry becomes the current nation and
      sets the button; an empty deque leaves no current nation. */
  function QueryNewNation(v: View, userAgent: string, lookupName: string -> string): View {
    if v.nations == [] then v.(currentNation := None)
    else
      var last := v.nations[|v.nations| - 1];
      v.(nations := v.nations[..|v.nations| - 1], currentNation := Some(last.nationId),
         buttonLabel := Label(last.title, lookupName(last.nationId)), buttonUrl := GenerateUrl(userAgent, last.nationId))
  }

  /** An empty deque gives no current nation and stays empty; otherwise the
      served entry put back on the right restores the deque, and the view
      keeps its identity and endorser. */
  lemma QueryNewNationSpec(v: View, userAgent: string, lookupName: string -> string)
    ensures var w := QueryNewNation(v, userAgent, lookupName);
      w.id == v.id && w.endorserId == v.endorserId &&
      (v.nations == [] ==> w.currentNation.None? && w.nations == []) &&
      (v.nations != [] ==>
        w.currentNation.Some? &&
        w.nations + [Entry(v.nations[|v.nations| - 1].title, w.currentNation.value)] == v.nations &&
        w.buttonUrl == GenerateUrl(userAgent, w.currentNation.value))
  {
  }

  /** `list.remove(x)`: drops the leftmost occurrence; a missing element is
      an error the callers either rule out or catch. */
  function RemoveFirst<T(==)>(s: seq<T>, x: T): (r: seq<T>)
    ensures x !in s ==> r == s
  {
    if s == [] then []
    else if s[0] == x then s[1..] else [s[0]] + RemoveFirst(s[1..], x)
  }

  /** When `x` is present exactly one occurrence of it goes. */
  lemma {:induction false} RemoveFirstMultiset<T>(s: seq<T>, x: T)
    requires x in s
    ensures |RemoveFirst(s, x)| == |s| - 1
    ensures multiset(RemoveFirst(s, x)) == multiset(s) - multiset{x}
  {
    assert s == [s[0]] + s[1..];
    if s[0] != x {
      RemoveFirstMultiset(s[1..], x);
    }
  }

  /** `RemoveFirst` removes the leftmost occurrence and nothing else. */
  lemma {:induction false} RemoveFirstAt<T>(s: seq<T>, k: nat)
    requires k < |s| && s[k] !in s[..k]
    ensures RemoveFirst(s, s[k]) == s[..k] + s[k + 1..]
  {
    if k > 0 {
      var t := s[1..];
      assert s[0] == s[..k][0];
      assert t[..k - 1] == s[1..k] && t[k - 1] == s[k] && t[k..] == s[k + 1..];
      RemoveFirstAt(t, k - 1);
      RemoveFirstSkip(s, s[k]);
      assert s[..k] == [s[0]] + t[..k - 1];
      ConcatAssoc([s[0]], t[..k - 1], t[k..]);
    } else {
      assert s[..k] + s[k + 1..] == s[1..];
    }
  }

  lemma RemoveFirstSkip<T>(s: seq<T>, x: T)
    requires s != [] && s[0] != x
    ensures RemoveFirst(s, x) == [s[0]] + RemoveFirst(s[1..], x)
  {
  }

  /** `removeView`'s `list.remove(view)`: the leftmost view with that
      identity is dropped; a view not in the list is ignored. */
  function RemoveId(views: seq<View>, id: nat): (r: seq<View>)
    ensures |r| <= |views|
    ensures forall w :: w in r ==> w in views
  {
    if views == [] then []
    else if views[0].id == id then views[1..]
    else [views[0]] + RemoveId(views[1..], id)
  }

  /** Removing a view appended after views of smaller identity leaves the
      earlier ones as they were. */
  lemma {:induction false} RemoveIdLast(views: seq<View>, v: View)
    requires forall w :: w in views ==> w.id < v.id
    ensures RemoveId(views + [v], v.id) == views
  {
    if views != [] {
      assert (views + [v])[1..] == views[1..] + [v];
      RemoveIdLast(views[1..], v);
    }
  }

  /** `appendleft((None, nationId))` on every view of a list. */
  function Prepended(views: seq<View>, nationId: string): (r: seq<View>)
    ensures |r| == |views|
    ensures forall i :: 0 <= i < |views| ==>
      r[i] == views[i].(nations := [Entry(None, nationId)] + views[i].nations)
  {
    seq(|views|, i requires 0 <= i < |views| => views[i].(nations := [Entry(None, nationId)] + views[i].nations))
  }

  /** `remove((None, nationId))` on every view of a list. */
  function Struck(views: seq<View>, nationId: string): (r: seq<View>)
    ensures |r| == |views|
    ensures forall i :: 0 <= i < |views| ==>
      r[i] == views[i].(nations := RemoveFirst(views[i].nations, Entry(None, nationId)))
  {
    seq(|views|, i requires 0 <= i < |views| => views[i].(nations := RemoveFirst(views[i].nations, Entry(None, nationId))))
  }

  /** Striking out an entry just put in front restores every deque:
      `removeNation` right after `addNewNation` of the same nation leaves
      the views as they were. */
  lemma PrependedThenStruck(views: seq<View>, nationId: string)
    ensures Struck(Prepended(views, nationId), nationId) == views
  {
    var r := Struck(Prepended(views, nationId), nationId);
    forall i | 0 <= i < |views|
      ensures r[i] == views[i]
    {
      var q := [Entry(None, nationId)] + views[i].nations;
      assert q[0] == Entry(None, nationId);
      assert RemoveFirst(q, Entry(None, nationId)) == q[1..] == views[i].nations;
    }
  }

  /** What `handleEndo` does to one view: one showing the endorsed nation
      moves on, any other loses that nation's plain entry. */
  function EndoStep(v: View, nationId: string, userAgent: string, lookupName: string -> string): View {
    if Some(nationId) == v.currentNation then QueryNewNation(v, userAgent, lookupName)
    else v.(nations := RemoveFirst(v.nations, Entry(None, nationId)))
  }

  /** The views kept after each is processed once: a view left without a
      current nation unregisters itself in `editMessage`. */
  function EndoAll(views: seq<View>, nationId: string, userAgent: string, lookupName: string -> string): (r: seq<View>)
    ensures |r| <= |views|
    ensures forall w :: w in r ==> Truthy(w.currentNation)
  {
    if views == [] then []
    else
      var w := EndoStep(views[|views| - 1], nationId, userAgent, lookupName);
      EndoAll(views[..|views| - 1], nationId, userAgent, lookupName) + (if Truthy(w.currentNation) then [w] else [])
  }

  /** Processing keeps each view's identity and endorser. */
  lemma {:induction false} EndoAllKeeps(views: seq<View>, nationId: string, userAgent: string, lookupName: string -> string,
                                        endorserId: string, bound: nat)
    requires forall v :: v in views ==> v.endorserId == endorserId && v.id < bound
    ensures forall w :: w in EndoAll(views, nationId, userAgent, lookupName) ==> w.endorserId == endorserId && w.id < bound
  {
    if views != [] {
      EndoAllKeeps(views[..|views| - 1], nationId, userAgent, lookupName, endorserId, bound);
      assert views[|views| - 1] in views;
    }
  }

  /** `handleEndo` as written iterates the live list while `editMessage`
      removes exhausted views from it, so the view after a removed one is
      never looked at. */
  function EndoLive(views: seq<View>, i: nat, nationId: string, userAgent: string, lookupName: string -> string): seq<View>
    decreases |views| - i
  {
    if i >= |views| then views
    else
      var w := EndoStep(views[i], nationId, userAgent, lookupName);
      if Truthy(w.currentNation) then EndoLive(views[i := w], i + 1, nationId, userAgent, lookupName)
      else EndoLive(views[..i] + views[i + 1..], i + 1, nationId, userAgent, lookupName)
  }

  /** Two views of one endorser that both offer the delegate with nothing
      left behind it: as written, endorsing the delegate retires the first
      and skips the second, which keeps offering a nation already
      endorsed; processing every view retires both. */
  lemma EndoLiveSkipsAView()
    ensures var v1 := View(0, "e", [], Some("d"), "", "");
      var v2 := View(1, "e", [], Some("d"), "", "");
      var lookupName := (n: string) => n;
      EndoLive([v1, v2], 0, "d", "ua", lookupName) == [v2] &&
      EndoAll([v1, v2], "d", "ua", lookupName) == []
  {
    var v1 := View(0, "e", [], Some("d"), "", "");
    var v2 := View(1, "e", [], Some("d"), "", "");
    var lookupName := (n: string) => n;
    assert [v1, v2][..0] + [v1, v2][1..] == [v2];
    assert [v1, v2][..1] == [v1];
  }

  /** With every view processed, no view still offers the endorsed nation
      unless its deque offered it again. */
  lemma {:induction false} EndoAllMovesOn(views: seq<View>, nationId: string, userAgent: string, lookupName: string -> string)
    requires forall v :: v in views && v.currentNation == Some(nationId) && v.nations != [] ==>
      v.nations[|v.nations| - 1].nationId != nationId
    ensures forall w :: w in EndoAll(views, nationId, userAgent, lookupName) ==> w.currentNation != Some(nationId)
  {
    if views != [] {
      EndoAllMovesOn(views[..|views| - 1], nationId, userAgent, lookupName);
      assert views[|views| - 1] in views;
    }
  }

  /** The queue order of `/tart`: the delegate first when still to be
      endorsed, then the others in list order. */
  function ServeOrder(toEndorse: seq<string>, delegate: Option<string>): seq<Entry> {
    if delegate.Some? && delegate.value in toEndorse then
      [Entry(Some("Delegate"), delegate.value)] + Plain(RemoveFirst(toEndorse, delegate.value))
    else
      Plain(toEndorse)
  }

  function Plain(ids: seq<string>): (r: seq<Entry>)
    ensures |r| == |ids| && forall i :: 0 <= i < |ids| ==> r[i] == Entry(None, ids[i])
  {
    seq(|ids|, i requires 0 <= i < |ids| => Entry(None, ids[i]))
  }

  function Reverse<T>(s: seq<T>): (r: seq<T>)
    ensures |r| == |s| && forall i :: 0 <= i < |s| ==> r[i] == s[|s| - 1 - i]
  {
    seq(|s|, i requires 0 <= i < |s| => s[|s| - 1 - i])
  }

  lemma ReversePlainStep(ids: seq<string>, i: nat)
    requires i < |ids|
    ensures Reverse(Plain(ids[..i + 1])) == [Entry(None, ids[i])] + Reverse(Plain(ids[..i]))
  {
    var a := Reverse(Plain(ids[..i + 1]));
    var b := [Entry(None, ids[i])] + Reverse(Plain(ids[..i]));
    assert |a| == |b|;
    forall k | 0 <= k < |a|
      ensures a[k] == b[k]
    {
      if k > 0 {
        assert a[k] == Entry(None, ids[..i + 1][i - k]);
      }
    }
  }

  lemma ReverseCons<T>(x: T, s: seq<T>)
    ensures Reverse([x] + s) == Reverse(s) + [x]
  {
    var a := Reverse([x] + s);
    var b := Reverse(s) + [x];
    assert |a| == |b|;
    forall k | 0 <= k < |a|
      ensures a[k] == b[k]
    {
      if k < |s| {
        assert a[k] == ([x] + s)[|s| - k];
      }
    }
  }

  /** The nation ids of a deque, in order. */
  function EntryIds(q: seq<Entry>): (r: seq<string>)
    ensures |r| == |q| && forall i :: 0 <= i < |q| ==> r[i] == q[i].nationId
  {
    seq(|q|, i requires 0 <= i < |q| => q[i].nationId)
  }

  lemma EntryIdsPlain(ids: seq<string>)
    ensures EntryIds(Plain(ids)) == ids
  {
  }

  lemma EntryIdsCons(e: Entry, q: seq<Entry>)
    ensures EntryIds([e] + q) == [e.nationId] + EntryIds(q)
  {
    assert EntryIds([e] + q)[0] == e.nationId;
  }

  /** The nations served are exactly those of the list, each once. */
  lemma ServeOrderIds(toEndorse: seq<string>, delegate: Option<string>)
    ensures multiset(EntryIds(ServeOrder(toEndorse, delegate))) == multiset(toEndorse)
  {
    if delegate.Some? && delegate.value in toEndorse {
      var rest := RemoveFirst(toEndorse, delegate.value);
      RemoveFirstMultiset(toEndorse, delegate.value);
      EntryIdsCons(Entry(Some("Delegate"), delegate.value), Plain(rest));
      EntryIdsPlain(rest);
      assert multiset([delegate.value] + rest) == multiset{delegate.value} + multiset(rest);
    } else {
      EntryIdsPlain(toEndorse);
    }
  }

  /** The nations served are exactly those of the list, each once: the
      delegate first and titled when it is among them, every other one
      untitled. */
  lemma ServeOrderSpec(toEndorse: seq<string>, delegate: Option<string>)
    ensures var q := ServeOrder(toEndorse, delegate);
      |q| == |toEndorse| &&
      multiset(EntryIds(q)) == multiset(toEndorse) &&
      (delegate.Some? && delegate.value in toEndorse ==> q[0] == Entry(Some("Delegate"), delegate.value)) &&
      (forall i :: 0 <= i < |q| && q[i].title.Some? ==> i == 0 && delegate.Some? && q[i].nationId == delegate.value)
  {
    ServeOrderIds(toEndorse, delegate);
    if delegate.Some? && delegate.value in toEndorse {
      RemoveFirstMultiset(toEndorse, delegate.value);
    }
  }

  /** Every view of a list belongs to endorser `e`, has an identity below
      `bound`, and offers a nation. */
  predicate ViewsOk(views: seq<View>, e: string, bound: nat) {
    forall v :: v in views ==> v.endorserId == e && v.id < bound && Truthy(v.currentNation)
  }

  lemma PrependedOk(views: seq<View>, e: string, bound: nat, nationId: string)
    requires ViewsOk(views, e, bound)
    ensures ViewsOk(Prepended(views, nationId), e, bound)
  {
    var r := Prepended(views, nationId);
    forall w | w in r
      ensures w.endorserId == e && w.id < bound && Truthy(w.currentNation)
    {
      var i :| 0 <= i < |r| && r[i] == w;
      assert views[i] in views;
    }
  }

  lemma StruckOk(views: seq<View>, e: string, bound: nat, nationId: string)
    requires ViewsOk(views, e, bound)
    ensures ViewsOk(Struck(views, nationId), e, bound)
  {
    var r := Struck(views, nationId);
    forall w | w in r
      ensures w.endorserId == e && w.id < bound && Truthy(w.currentNation)
    {
      var i :| 0 <= i < |r| && r[i] == w;
      assert views[i] in views;
    }
  }

  /** The endorsers whose views skip `nationId` in `addNewNation` and
      `removeNation`: those a cached copy of it records as endorsers. */
  function Skipped(s: CacheState, nationId: string): set<string> {
    if IsNationCached(s, nationId) then s.nations[nationId].endorsements else {}
  }

  /** The result of a `/tart` call. */
  /** How `/tart` ends: one of its three refusals, the `AttributeError`
      raised by `endorsementsGiven`, or a started view. */
  datatype TartOutcome = CacheIncomplete | NonResident | NonWa | Raised | Started(view: View)

  class TartCog {
    var tartViews: map<string, seq<View>>
    /** The identity the next view receives. */
    var nextId: nat
    const userAgent: string
    const cache: CacheManager

    /** Every registered view belongs to its key, has an identity already
        handed out, and offers a nation: a view without one unregisters
        itself. */
    predicate Valid()
      reads this
    {
      forall e :: e in tartViews ==> ViewsOk(tartViews[e], e, nextId)
    }

    constructor(userAgent: string, cache: CacheManager)
      ensures Valid() && tartViews == map[] && nextId == 0
      ensures this.userAgent == userAgent && this.cache == cache
    {
      this.userAgent := userAgent;
      this.cache := cache;
      tartViews := map[];
      nextId := 0;
    }

    /** `removeView`. */
    method RemoveView(view: View, nationId: string)
      modifies this`tartViews
      ensures tartViews == if nationId in old(tartViews)
                           then old(tartViews)[nationId := RemoveId(old(tartViews)[nationId], view.id)]
                           else old(tartViews)
    {
      if nationId in tartViews {
        tartViews := tartViews[nationId := RemoveId(tartViews[nationId], view.id)];
      }
    }

    /** Removing a view keeps every registered view valid. */
    lemma RemoveViewKeepsValid(nationId: string, id: nat)
      requires Valid()
      ensures nationId in tartViews ==> forall v :: v in RemoveId(tartViews[nationId], id) ==>
        v.endorserId == nationId && v.id < nextId && Truthy(v.currentNation)
    {
    }

    /** `on_timeout`. */
    method OnTimeout(view: View)
      requires Valid()
      modifies this`tartViews
      ensures Valid()
      ensures tartViews == if view.endorserId in old(tartViews)
                           then old(tartViews)[view.endorserId := RemoveId(old(tartViews)[view.endorserId], view.id)]
                           else old(tartViews)
    {
      RemoveView(view, view.endorserId);
    }

    /** The deque `/tart` builds: the delegate, when still to be endorsed,
        is put in first with `appendleft`, then each other nation in list
        order, so that `pop` serves them in `ServeOrder`. */
    static method BuildQueue(toEndorse: seq<string>, delegate: Option<string>) returns (nationQueue: seq<Entry>)
      ensures nationQueue == Reverse(ServeOrder(toEndorse, delegate))
    {
      var nationsToEndorse := toEndorse;
      nationQueue := [];
      if delegate.Some? && delegate.value in nationsToEndorse {
        nationsToEndorse := RemoveFirst(nationsToEndorse, delegate.value);
        nationQueue := [Entry(Some("Delegate"), delegate.value)] + nationQueue;
      }
      ghost var head := nationQueue;
      var i := 0;
      while i < |nationsToEndorse|
        invariant 0 <= i <= |nationsToEndorse|
        invariant nationQueue == Reverse(Plain(nationsToEndorse[..i])) + head
      {
        ReversePlainStep(nationsToEndorse, i);
        nationQueue := [Entry(None, nationsToEndorse[i])] + nationQueue;
        i := i + 1;
      }
      assert nationsToEndorse[..i] == nationsToEndorse;
      if head != [] {
        ReverseCons(head[0], Plain(nationsToEndorse));
      }
    }

    /** The registration step of `/tart` and the check in `send`: the view
        joins its endorser's list, creating the list if needed, and leaves
        it again at once when it offers no nation. */
    method Register(nationId: string, view: View)
      requires Valid() && view.id == nextId && view.endorserId == nationId
      modifies this`tartViews, this`nextId
      ensures Valid()
      ensures nextId == old(nextId) + 1
      ensures tartViews == old(tartViews)[nationId := (if nationId in old(tartViews) then old(tartViews)[nationId] else []) +
                                                     (if Truthy(view.currentNation) then [view] else [])]
    {
      var listed := if nationId in tartViews then tartViews[nationId] else [];
      RemoveIdLast(listed, view);
      tartViews := tartViews[nationId := listed + [view]];
      nextId := nextId + 1;
      if !Truthy(view.currentNation) {
        RemoveView(view, nationId);
        assert tartViews[nationId] == listed + [];
      }
    }

    /** The `/tart` command. `order` is the order in which Python lists the
        set of nations still to endorse; `lookupName` stands for the cache's
        name lookup. The new view is registered, and unregisters itself at
        once when it has nothing to offer. */
    method StartTart(nation: string, order: seq<string>, lookupName: string -> string) returns (outcome: TartOutcome)
      requires Valid() && cache.Valid()
      requires FirstCacheComplete(cache.State()) ==> cache.mainRegion.Some?
      requires FirstCacheComplete(cache.State()) && cache.mainRegion.Some? &&
               Normalize(nation) in Residents(cache.State()) && Normalize(nation) in cache.waNations &&
               Given(cache.State(), Normalize(nation)).Some? ==>
        (forall i, j :: 0 <= i < j < |order| ==> order[i] != order[j]) &&
        (forall n :: n in order <==> n in RegionWaNations(cache.State()) - Given(cache.State(), Normalize(nation)).value)
      modifies this`tartViews, this`nextId
      ensures Valid()
      ensures outcome == CacheIncomplete <==> !FirstCacheComplete(cache.State())
      ensures outcome == NonResident <==>
        FirstCacheComplete(cache.State()) && Normalize(nation) !in Residents(cache.State())
      ensures outcome == NonWa <==>
        FirstCacheComplete(cache.State()) && Normalize(nation) in Residents(cache.State()) &&
        Normalize(nation) !in cache.waNations
      ensures outcome == Raised <==>
        FirstCacheComplete(cache.State()) && Normalize(nation) in Residents(cache.State()) &&
        Normalize(nation) in cache.waNations && GivenRaises(cache.State(), Normalize(nation))
      ensures outcome.Started? <==>
        FirstCacheComplete(cache.State()) && Normalize(nation) in Residents(cache.State()) &&
        Normalize(nation) in cache.waNations && !GivenRaises(cache.State(), Normalize(nation))
      ensures !outcome.Started? ==> tartViews == old(tartViews) && nextId == old(nextId)
      ensures outcome.Started? ==>
        var nationId := Normalize(nation);
        var served := ServeOrder(RemoveFirst(order, nationId), cache.mainRegion.value.delegate);
        var initial := View(old(nextId), nationId, Reverse(served), None, "", "");
        outcome.view == QueryNewNation(initial, userAgent, lookupName) &&
        nextId == old(nextId) + 1 &&
        tartViews == old(tartViews)[nationId := (if nationId in old(tartViews) then old(tartViews)[nationId] else []) +
                                                (if Truthy(outcome.view.currentNation) then [outcome.view] else [])]
    {
      var s := cache.State();
      if !FirstCacheComplete(s) {
        return CacheIncomplete;
      }
      var nationId := Normalize(nation);
      if nationId !in Residents(s) {
        return NonResident;
      }
      if !InWa(s, nationId) {
        return NonWa;
      }
      var endorsed := cache.EndorsementsGiven(nationId);
      if endorsed.None? {
        return Raised;
      }
      assert nationId in order;
      var delegate := cache.mainRegion.value.delegate;
      var nationQueue := BuildQueue(RemoveFirst(order, nationId), delegate);
      var view := QueryNewNation(View(nextId, nationId, nationQueue, None, "", ""), userAgent, lookupName);
      Register(nationId, view);
      return Started(view);
    }

    /** `addNewNation` (for `on_localWaJoin` and `on_localWaAdmit`): every
        view of every endorser that has not endorsed the nation gets it at
        the left end. `editMessage` leaves these views registered, as each
        offers a nation. */
    method AddNewNation(nationId: string)
      requires Valid()
      modifies this`tartViews
      ensures Valid()
      ensures tartViews.Keys == old(tartViews).Keys
      ensures forall e :: e in tartViews ==>
        tartViews[e] == if e in Skipped(cache.State(), nationId) then old(tartViews)[e] else Prepended(old(tartViews)[e], nationId)
    {
      var skipped := Skipped(cache.State(), nationId);
      var todo := tartViews.Keys;
      while todo != {}
        invariant todo <= tartViews.Keys == old(tartViews).Keys
        invariant Valid()
        invariant forall e :: e in tartViews ==>
          tartViews[e] == if e in todo || e in skipped then old(tartViews)[e] else Prepended(old(tartViews)[e], nationId)
        decreases todo
      {
        var endorserId :| endorserId in todo;
        todo := todo - {endorserId};
        if endorserId !in skipped {
          PrependedOk(tartViews[endorserId], endorserId, nextId, nationId);
          tartViews := tartViews[endorserId := Prepended(tartViews[endorserId], nationId)];
        }
      }
    }

    /** `removeNation` (for `on_localWaLeave` and `on_localWaCte`): every
        such view loses the nation's plain entry, which must be there. */
    method RemoveNation(nationId: string)
      requires Valid()
      requires forall e, v :: e in tartViews && e !in Skipped(cache.State(), nationId) && v in tartViews[e] ==>
        Entry(None, nationId) in v.nations
      modifies this`tartViews
      ensures Valid()
      ensures tartViews.Keys == old(tartViews).Keys
      ensures forall e :: e in tartViews ==>
        tartViews[e] == if e in Skipped(cache.State(), nationId) then old(tartViews)[e] else Struck(old(tartViews)[e], nationId)
    {
      var skipped := Skipped(cache.State(), nationId);
      var todo := tartViews.Keys;
      while todo != {}
        invariant todo <= tartViews.Keys == old(tartViews).Keys
        invariant Valid()
        invariant forall e :: e in tartViews ==>
          tartViews[e] == if e in todo || e in skipped then old(tartViews)[e] else Struck(old(tartViews)[e], nationId)
        decreases todo
      {
        var endorserId :| endorserId in todo;
        todo := todo - {endorserId};
        if endorserId !in skipped {
          StruckOk(tartViews[endorserId], endorserId, nextId, nationId);
          tartViews := tartViews[endorserId := Struck(tartViews[endorserId], nationId)];
        }
      }
    }

    /** `handleEndo` (for `on_localWaEndo` and `on_localDelEndo`), with each
        view of the endorser processed once: the loop runs over the list as
        it was, and a view left without a nation is unregistered. */
    method HandleEndo(endorserId: string, nationId: string, lookupName: string -> string)
      requires Valid()
      requires endorserId in tartViews ==> forall v :: v in tartViews[endorserId] && v.currentNation != Some(nationId) ==>
        Entry(None, nationId) in v.nations
      modifies this`tartViews
      ensures Valid()
      ensures tartViews == if endorserId in old(tartViews)
                           then old(tartViews)[endorserId := EndoAll(old(tartViews)[endorserId], nationId, userAgent, lookupName)]
                           else old(tartViews)
    {
      if endorserId !in tartViews {
        return;
      }
      var views := tartViews[endorserId];
      var kept: seq<View> := [];
      var i := 0;
      while i < |views|
        invariant 0 <= i <= |views|
        invariant kept == EndoAll(views[..i], nationId, userAgent, lookupName)
      {
        var view := EndoStep(views[i], nationId, userAgent, lookupName);
        assert views[..i + 1][..i] == views[..i];
        if Truthy(view.currentNation) {
          kept := kept + [view];
        }
        i := i + 1;
      }
      assert views[..i] == views;
      EndoAllKeeps(views, nationId, userAgent, lookupName, endorserId, nextId);
      tartViews := tartViews[endorserId := kept];
    }

    /** `handleUnendo` (for `on_localWaUnendo` and `on_localDelUnendo`):
        every view of the endorser gets the nation back at the left end. */
    method HandleUnendo(endorserId: string, nationId: string)
      requires Valid()
      modifies this`tartViews
      ensures Valid()
      ensures tartViews == if endorserId in old(tartViews)
                           then old(tartViews)[endorserId := Prepended(old(tartViews)[endorserId], nationId)]
                           else old(tartViews)
    {
      if endorserId !in tartViews {
        return;
      }
      var views := tartViews[endorserId];
      var i := 0;
      var edited := views;
      while i < |views|
        invariant 0 <= i <= |views| && |edited| == |views|
        invariant forall k :: 0 <= k < |views| ==>
          edited[k] == if k < i then views[k].(nations := [Entry(None, nationId)] + views[k].nations) else views[k]
      {
        edited := edited[i := edited[i].(nations := [Entry(None, nationId)] + edited[i].nations)];
        i := i + 1;
      }
      assert edited == Prepended(views, nationId);
      tartViews := tartViews[endorserId := edited];
    }
  }
}
