/** The recruitment filter language (`discord/filters/recruit.py`): a
    statement is `kind[:[-]region,region,...]` with kind one of `wa`,
    `founded`, `refounded`, `move`. Without regions it becomes a global
    component, with regions an include component, and with `-` before the
    regions an exclude component. */
module RecruitFilters {
  import opened Wrappers
  import opened Strings
  import opened Regex
  import opened Filters
  import Lib

  /** The four groups of a `FILTER_REGEX` match, in order: the kind, the
      `-` of an exclusion, the first region and the text of the other
      regions (",r2,r3" or "", present whenever a first region is). */
  datatype Groups = Groups(event: string, exclude: Option<string>, firstRegion: Option<string>, otherRegions: Option<string>)

  const Kinds: seq<string> := ["wa", "founded", "refounded", "move"]

  /** Length of the longest prefix of `s` made of `,region` items. */
  function ExtrasLength(s: string): (k: nat)
    ensures k <= |s|
    decreases |s|
  {
    if |s| > 0 && s[0] == ',' && Run(s[1..], IdChars) > 0 then
      var n := 1 + Run(s[1..], IdChars);
      n + ExtrasLength(s[n..])
    else 0
  }

  /** The groups of the regions part of a statement, `u` being the text
      after the colon: the optional `-` is taken only when a region follows
      it; otherwise a leading `-` is itself the first region. */
  function RegionGroups(kind: string, u: string): Groups {
    if |u| > 0 && u[0] == '-' && Run(u[1..], IdChars) > 0 then
      var n := Run(u[1..], IdChars);
      var v := u[1 + n..];
      Groups(kind, Some("-"), Some(u[1..1 + n]), Some(v[..ExtrasLength(v)]))
    else if Run(u, IdChars) > 0 then
      var n := Run(u, IdChars);
      var v := u[n..];
      Groups(kind, None, Some(u[..n]), Some(v[..ExtrasLength(v)]))
    else Groups(kind, None, None, None)
  }

  /** `FILTER_REGEX.match(statement)`: anchored at the start only; a regions
      part that does not fit the pattern is ignored, as is any trailing text. */
  function MatchStatement(s: string): Option<Groups> {
    var i := FirstAlt(Kinds, s);
    if i == |Kinds| then None
    else
      var kind := Kinds[i];
      var t := s[|kind|..];
      if |t| > 0 && t[0] == ':' then Some(RegionGroups(kind, t[1..]))
      else Some(Groups(kind, None, None, None))
  }

  /** A string of `,region` items. */
  function Extras(regions: seq<string>): string {
    if |regions| == 0 then "" else "," + regions[0] + Extras(regions[1..])
  }

  predicate IsRegion(r: string) {
    |r| > 0 && AllIn(r, IdChars)
  }

  /** Groups that some statement produces: a kind, and either no regions at
      all or a first region (not itself starting a `-` exclusion) and a list
      of further regions. */
  predicate GroupsOk(g: Groups) {
    g.event in Kinds &&
    (g.firstRegion.None? ==> g.exclude.None? && g.otherRegions.None?) &&
    (g.firstRegion.Some? ==>
      IsRegion(g.firstRegion.value) &&
      (g.exclude.Some? ==> g.exclude.value == "-") &&
      (g.exclude.None? && |g.firstRegion.value| > 1 ==> g.firstRegion.value[0] != '-') &&
      g.otherRegions.Some? && ExtrasLength(g.otherRegions.value) == |g.otherRegions.value|)
  }

  /** The shortest statement with the given groups. */
  function Render(g: Groups): string {
    g.event + if g.firstRegion.None? then "" else ":" + RegionsText(g)
  }

  /** The regions part of the shortest statement with the given groups. */
  function RegionsText(g: Groups): string
    requires g.firstRegion.Some?
  {
    (if g.exclude.Some? then "-" else "") + g.firstRegion.value + g.otherRegions.GetOr("")
  }

  /** Every character before the end of the run is an id character. */
  lemma RunCovers(s: string, j: nat)
    ensures j < Run(s, IdChars) ==> InClass(s[j], IdChars)
  {
    if j < Run(s, IdChars) {
      assert s[..Run(s, IdChars)][j] == s[j];
    }
  }

  lemma RunOfRegion(r: string, t: string)
    requires AllIn(r, IdChars)
    requires |t| == 0 || !InClass(t[0], IdChars)
    ensures Run(r + t, IdChars) == |r|
  {
    var s := r + t;
    var k := Run(s, IdChars);
    if k > |r| {
      RunCovers(s, |r|);
      assert false;
    }
  }

  lemma {:induction false} ExtrasShape(regions: seq<string>)
    requires forall k :: 0 <= k < |regions| ==> IsRegion(regions[k])
    ensures ExtrasLength(Extras(regions)) == |Extras(regions)|
    ensures |Extras(regions)| == 0 || Extras(regions)[0] == ','
  {
    if |regions| > 0 {
      var r := regions[0];
      var rest := Extras(regions[1..]);
      ExtrasShape(regions[1..]);
      var s := "," + r + rest;
      assert s[1..] == r + rest;
      RunOfRegion(r, rest);
      assert s[1 + |r|..] == rest;
    }
  }

  lemma {:induction false} KindsFirst(kind: string, t: string)
    requires kind in Kinds
    ensures FirstAlt(Kinds, kind + t) < |Kinds| && Kinds[FirstAlt(Kinds, kind + t)] == kind
  {
    var s := kind + t;
    assert s[..|kind|] == kind;
    var i := FirstAlt(Kinds, s);
    var j :| 0 <= j < |Kinds| && Kinds[j] == kind;
    assert StartsWith(s, Kinds[j]);
    assert i <= j;
    assert Kinds[0][0] == 'w' && Kinds[1][0] == 'f' && Kinds[2][0] == 'r' && Kinds[3][0] == 'm';
  }

  /** Every statement's rendering matches back to the same groups. */
  lemma MatchRender(g: Groups)
    requires GroupsOk(g)
    ensures MatchStatement(Render(g)) == Some(g)
  {
    var s := Render(g);
    var tail := s[|g.event|..];
    assert s == g.event + tail;
    KindsFirst(g.event, tail);
    if g.firstRegion.Some? {
      var first := g.firstRegion.value;
      var others := g.otherRegions.value;
      var u := (if g.exclude.Some? then "-" else "") + first + others;
      assert tail == ":" + u && tail[1..] == u;
      MatchRegions(g.event, g.exclude, first, others);
    }
  }

  lemma MatchRegions(kind: string, exclude: Option<string>, first: string, others: string)
    requires IsRegion(first) && ExtrasLength(others) == |others|
    requires exclude.Some? ==> exclude.value == "-"
    requires exclude.None? && |first| > 1 ==> first[0] != '-'
    ensures RegionGroups(kind, (if exclude.Some? then "-" else "") + first + others) ==
      Groups(kind, exclude, Some(first), Some(others))
  {
    if exclude.Some? {
      MatchExcluded(kind, first, others);
    } else {
      assert "" + first + others == first + others;
      MatchIncluded(kind, first, others);
    }
  }

  lemma ExtrasStart(others: string)
    requires ExtrasLength(others) == |others|
    ensures |others| == 0 || others[0] == ','
  {
  }

  lemma MatchExcluded(kind: string, first: string, others: string)
    requires IsRegion(first) && ExtrasLength(others) == |others|
    ensures RegionGroups(kind, "-" + first + others) == Groups(kind, Some("-"), Some(first), Some(others))
  {
    var u := "-" + first + others;
    SignedParts(first, others);
    ExtrasStart(others);
    RunOfRegion(first, others);
    assert others[..|others|] == others;
  }

  lemma SignedParts(first: string, others: string)
    ensures var u := "-" + first + others;
      |u| > 0 && u[0] == '-' && u[1..] == first + others &&
      u[1 + |first|..] == others && u[1..1 + |first|] == first
  {
    var u := "-" + first + others;
    ConcatAssoc("-", first, others);
    assert u[1..] == first + others;
  }

  lemma MatchIncluded(kind: string, first: string, others: string)
    requires IsRegion(first) && ExtrasLength(others) == |others|
    requires |first| > 1 ==> first[0] != '-'
    ensures RegionGroups(kind, first + others) == Groups(kind, None, Some(first), Some(others))
  {
    var u := first + others;
    ExtrasStart(others);
    RunOfRegion(first, others);
    assert u[..|first|] == first && u[|first|..] == others;
    if first[0] == '-' {
      assert u[1..] == others;
    }
    assert others[..|others|] == others;
  }

  /** `compileRegionList`: the first region, then every non-empty piece of
      the comma-separated rest. */
  function CompileRegionList(first: string, others: Option<string>): (regions: seq<string>)
    ensures |regions| > 0 && regions[0] == first
  {
    [first] + if others.None? then [] else NonEmpty(SplitOn(others.value, ','))
  }

  function NonEmpty(pieces: seq<string>): (r: seq<string>)
    ensures forall k :: 0 <= k < |r| ==> r[k] != ""
    ensures forall x :: x in r <==> x in pieces && x != ""
  {
    if |pieces| == 0 then []
    else if pieces[0] == "" then NonEmpty(pieces[1..])
    else [pieces[0]] + NonEmpty(pieces[1..])
  }

  lemma {:induction false} NonEmptyKeeps(pieces: seq<string>)
    requires forall k :: 0 <= k < |pieces| ==> pieces[k] != ""
    ensures NonEmpty(pieces) == pieces
  {
    if |pieces| > 0 {
      NonEmptyKeeps(pieces[1..]);
    }
  }

  /** Region names contain no comma, newline or other character outside
      `[a-z0-9_-]`. */
  lemma RegionNoChar(r: string, c: char)
    requires AllIn(r, IdChars) && !InClass(c, IdChars)
    ensures NoChar(r, c)
  {
    forall k | 0 <= k < |r|
      ensures r[k] != c
    {
      assert InClass(r[k], IdChars);
    }
  }

  lemma {:induction false} ExtrasJoin(regions: seq<string>)
    requires |regions| > 0
    ensures Extras(regions) == "," + Join([','], regions)
  {
    if |regions| > 1 {
      ExtrasJoin(regions[1..]);
    } else {
      assert regions[1..] == [];
    }
  }

  lemma SplitExtras(regions: seq<string>)
    requires forall k :: 0 <= k < |regions| ==> IsRegion(regions[k])
    ensures SplitOn(Extras(regions), ',') == [""] + regions
  {
    if |regions| > 0 {
      ExtrasJoin(regions);
      var ps := [""] + regions;
      JoinAfterEmpty(regions);
      PiecesNoComma(regions);
      SplitOnJoin(ps, ',');
    }
  }

  lemma JoinAfterEmpty(regions: seq<string>)
    requires |regions| > 0
    ensures Join([','], [""] + regions) == "," + Join([','], regions)
  {
    assert ([""] + regions)[1..] == regions;
  }

  lemma PiecesNoComma(regions: seq<string>)
    requires forall k :: 0 <= k < |regions| ==> IsRegion(regions[k])
    ensures forall k :: 0 <= k < |[""] + regions| ==> NoChar(([""] + regions)[k], ',')
  {
    forall k | 0 <= k < |[""] + regions|
      ensures NoChar(([""] + regions)[k], ',')
    {
      if k > 0 {
        assert ([""] + regions)[k] == regions[k - 1];
        RegionNoChar(regions[k - 1], ',');
      }
    }
  }

  /** The region list of a statement written with `Extras` is exactly its
      regions, in order. */
  lemma CompileExtras(first: string, regions: seq<string>)
    requires forall k :: 0 <= k < |regions| ==> IsRegion(regions[k])
    ensures CompileRegionList(first, Some(Extras(regions))) == [first] + regions
  {
    SplitExtras(regions);
    assert ([""] + regions)[1..] == regions;
    NonEmptyKeeps(regions);
  }

  /** A filter component. The region set is kept as a list without
      duplicates. */
  datatype Component =
    | Global(event: string)
    | Include(event: string, regions: seq<string>)
    | Exclude(event: string, regions: seq<string>)

  /** The list without later repetitions. */
  function Dedup(xs: seq<string>): (r: seq<string>)
    ensures forall x :: x in r <==> x in xs
    ensures forall i, j :: 0 <= i < j < |r| ==> r[i] != r[j]
  {
    if |xs| == 0 then []
    else
      var rest := Dedup(xs[..|xs| - 1]);
      assert forall x :: x in xs <==> x in xs[..|xs| - 1] || x == xs[|xs| - 1];
      if xs[|xs| - 1] in rest then rest else rest + [xs[|xs| - 1]]
  }

  /** `GlobalRecruitFilter.create`. */
  function CreateGlobal(g: Groups): (r: Result<Option<Component>, string>)
    ensures r.Success? && r.value.Some? ==> r.value.value == Global(g.event) && g.event != "move"
  {
    if g.firstRegion.Some? && g.firstRegion.value != "" then Success(None)
    else if g.event == "move" then Failure("'move' filter needs a list of regions!")
    else Success(Some(Global(g.event)))
  }

  /** `IncludeRecruitFilter.create`. */
  function CreateInclude(g: Groups): Result<Option<Component>, string> {
    if g.exclude == Some("-") || g.firstRegion.None? || g.firstRegion.value == "" then Success(None)
    else Success(Some(Include(g.event, Dedup(CompileRegionList(g.firstRegion.value, g.otherRegions)))))
  }

  /** `ExcludeRecruitFilter.create`. */
  function CreateExclude(g: Groups): Result<Option<Component>, string> {
    if g.exclude != Some("-") || g.firstRegion.None? || g.firstRegion.value == "" then Success(None)
    else if g.event == "move" then Failure("'move' filter is not compatible with exclusion filters!")
    else Success(Some(Exclude(g.event, Dedup(CompileRegionList(g.firstRegion.value, g.otherRegions)))))
  }

  /** The component types of `RecruitFilter`, in the order they are tried. */
  const Types: seq<Groups -> Result<Option<Component>, string>> := [CreateGlobal, CreateInclude, CreateExclude]

  /** `RecruitFilter()`: a filter with no components yet. */
  method NewRecruitFilter() returns (f: Filter<Groups, Component>)
    ensures fresh(f) && f.filters == [] && f.types == Types && f.regex == MatchStatement
  {
    f := new Filter(Types, MatchStatement);
  }

  /** `matches(event, region)` of each component type. A component never
      matches an event kind other than its own. */
  function ComponentMatches(c: Component, event: string, region: string): (b: bool)
    ensures b ==> event == c.event
  {
    match c
    case Global(e) => event == e
    case Include(e, regions) => event == e && region in regions
    case Exclude(e, regions) => event == e && region !in regions
  }

  /** `RecruitFilter.matches`. */
  function FilterMatches(components: seq<Component>, event: string, region: string): (b: bool)
    ensures b <==> exists k :: 0 <= k < |components| && ComponentMatches(components[k], event, region)
  {
    AnyMatch(components, c => ComponentMatches(c, event, region))
  }

  /** What a statement with groups `g` contributes: no regions gives a
      global component (an error for `move`), regions give an include
      component, and `-` with regions an exclude component (an error for
      `move`). */
  function Outcome(g: Groups): Result<Component, string> {
    if g.firstRegion.None? then
      (if g.event == "move" then Failure("'move' filter needs a list of regions!") else Success(Global(g.event)))
    else if g.exclude.None? then
      Success(Include(g.event, Dedup(CompileRegionList(g.firstRegion.value, g.otherRegions))))
    else if g.event == "move" then Failure("'move' filter is not compatible with exclusion filters!")
    else Success(Exclude(g.event, Dedup(CompileRegionList(g.firstRegion.value, g.otherRegions))))
  }

  /** Trying the types in the order Global, Include, Exclude yields the
      outcome above for every match. */
  lemma StatementOutcome(s: string)
    requires MatchStatement(s).Some?
    ensures Statement(MatchStatement, Types, s) == Outcome(MatchStatement(s).value)
  {
    var g := MatchStatement(s).value;
    MatchGroupsOk(s);
    TypesOutcome(g);
  }

  /** The first type that claims the groups gives the outcome above. */
  lemma TypesOutcome(g: Groups)
    requires g.firstRegion.Some? ==> g.firstRegion.value != "" && (g.exclude.Some? ==> g.exclude.value == "-")
    ensures CreateFrom(Types, g, 0) ==
      (if Outcome(g).Success? then Success(Some(Outcome(g).value)) else Failure(Outcome(g).error))
  {
    assert Types[0](g) == CreateGlobal(g) && Types[1](g) == CreateInclude(g) && Types[2](g) == CreateExclude(g);
    assert CreateFrom(Types, g, 3) == Success(None);
    if g.firstRegion.None? {
      assert CreateFrom(Types, g, 0) == CreateGlobal(g);
    } else if g.exclude.None? {
      assert CreateFrom(Types, g, 1) == CreateInclude(g);
    } else {
      assert CreateFrom(Types, g, 2) == CreateExclude(g);
    }
  }

  /** Whatever statement matches, its groups have the shape `GroupsOk`
      describes, and the statement starts with their rendering. */
  lemma MatchGroupsOk(s: string)
    requires MatchStatement(s).Some?
    ensures GroupsOk(MatchStatement(s).value)
    ensures StartsWith(s, Render(MatchStatement(s).value))
  {
    var i := FirstAlt(Kinds, s);
    var kind := Kinds[i];
    var t := s[|kind|..];
    if |t| > 0 && t[0] == ':' {
      var u := t[1..];
      ColonSplit(s, kind);
      RegionGroupsOk(kind, u);
      RenderPrefix(s, kind, u, RegionGroups(kind, u));
    } else {
      assert Render(Groups(kind, None, None, None)) == kind + "";
    }
  }

  /** A statement whose kind is followed by a colon is the kind, the colon
      and the regions part. */
  lemma ColonSplit(s: string, kind: string)
    requires StartsWith(s, kind) && |s| > |kind| && s[|kind|] == ':'
    ensures s == kind + ":" + s[|kind|..][1..]
  {
    assert s == s[..|kind|] + s[|kind|..];
    assert s[|kind|..] == ":" + s[|kind|..][1..];
  }

  lemma RenderPrefix(s: string, kind: string, u: string, g: Groups)
    requires s == kind + ":" + u && g.event == kind
    requires g.firstRegion.Some? ==> StartsWith(u, RegionsText(g))
    ensures StartsWith(s, Render(g))
  {
    if g.firstRegion.Some? {
      var w := u[|RegionsText(g)|..];
      assert u == RegionsText(g) + w;
      assert s == Render(g) + w;
    } else {
      assert Render(g) == kind + "";
    }
  }

  lemma RegionGroupsOk(kind: string, u: string)
    requires kind in Kinds
    ensures RegionGroups(kind, u).event == kind
    ensures GroupsOk(RegionGroups(kind, u))
    ensures RegionGroups(kind, u).firstRegion.Some? ==> StartsWith(u, RegionsText(RegionGroups(kind, u)))
  {
    if |u| > 0 && u[0] == '-' && Run(u[1..], IdChars) > 0 {
      ExcludeGroupsOk(kind, u);
    } else if Run(u, IdChars) > 0 {
      RunTail(u);
      IncludeGroupsOk(kind, u);
    }
  }

  lemma ExcludeGroupsOk(kind: string, u: string)
    requires kind in Kinds
    requires |u| > 0 && u[0] == '-' && Run(u[1..], IdChars) > 0
    ensures GroupsOk(RegionGroups(kind, u))
    ensures StartsWith(u, RegionsText(RegionGroups(kind, u)))
  {
    var n := Run(u[1..], IdChars);
    var v := u[1 + n..];
    ExcludeGroups(kind, u);
    RunIsRegion(u[1..]);
    assert u[1..1 + n] == u[1..][..n];
    ExtrasFull(v);
    TextPrefix(u, "-", u[1..1 + n], v);
  }

  lemma ExcludeGroups(kind: string, u: string)
    requires |u| > 0 && u[0] == '-' && Run(u[1..], IdChars) > 0
    ensures var n := Run(u[1..], IdChars); var v := u[1 + n..];
      RegionGroups(kind, u) == Groups(kind, Some("-"), Some(u[1..1 + n]), Some(v[..ExtrasLength(v)]))
  {
  }

  lemma RunIsRegion(s: string)
    requires Run(s, IdChars) > 0
    ensures IsRegion(s[..Run(s, IdChars)])
  {
  }

  /** A string that begins with `sign`, a region and the maximal `,region`
      items after it starts with their concatenation. */
  lemma TextPrefix(u: string, sign: string, first: string, v: string)
    requires u == sign + first + v
    ensures StartsWith(u, sign + first + v[..ExtrasLength(v)])
  {
    assert u == sign + first + v[..ExtrasLength(v)] + v[ExtrasLength(v)..];
  }

  lemma IncludeGroupsOk(kind: string, u: string)
    requires kind in Kinds
    requires Run(u, IdChars) > 0 && (u[0] == '-' ==> Run(u, IdChars) == 1)
    ensures GroupsOk(RegionGroups(kind, u))
    ensures StartsWith(u, RegionsText(RegionGroups(kind, u)))
  {
    IncludeGroupsValid(kind, u);
    IncludeGroupsText(kind, u);
  }

  lemma IncludeGroupsValid(kind: string, u: string)
    requires kind in Kinds
    requires Run(u, IdChars) > 0 && (u[0] == '-' ==> Run(u, IdChars) == 1)
    ensures GroupsOk(RegionGroups(kind, u))
  {
    var n := Run(u, IdChars);
    var v := u[n..];
    var first := u[..n];
    var others := v[..ExtrasLength(v)];
    IncludeGroups(kind, u);
    RunIsRegion(u);
    ExtrasFull(v);
    IncludedOk(kind, first, others);
  }

  lemma IncludeGroupsText(kind: string, u: string)
    requires Run(u, IdChars) > 0 && (u[0] == '-' ==> Run(u, IdChars) == 1)
    ensures StartsWith(u, RegionsText(RegionGroups(kind, u)))
  {
    var n := Run(u, IdChars);
    IncludeGroups(kind, u);
    TextPrefixAt(u, n);
    assert RegionsText(RegionGroups(kind, u)) == "" + u[..n] + u[n..][..ExtrasLength(u[n..])];
    EmptyConcat(u[..n], u[n..][..ExtrasLength(u[n..])]);
  }

  lemma EmptyConcat(a: string, b: string)
    ensures "" + a + b == a + b
  {
  }

  /** A string starts with its first `n` characters followed by the
      maximal `,region` items after them. */
  lemma TextPrefixAt(u: string, n: nat)
    requires n <= |u|
    ensures StartsWith(u, u[..n] + u[n..][..ExtrasLength(u[n..])])
  {
    var v := u[n..];
    var k := ExtrasLength(v);
    assert u[..n + k] == u[..n] + v[..k];
  }

  lemma IncludedOk(kind: string, first: string, others: string)
    requires kind in Kinds && IsRegion(first) && ExtrasLength(others) == |others|
    requires |first| > 1 ==> first[0] != '-'
    ensures GroupsOk(Groups(kind, None, Some(first), Some(others)))
  {
  }

  lemma RunTail(s: string)
    requires Run(s, IdChars) > 0
    ensures Run(s[1..], IdChars) == Run(s, IdChars) - 1
  {
  }

  lemma IncludeGroups(kind: string, u: string)
    requires Run(u, IdChars) > 0 && (u[0] == '-' ==> Run(u, IdChars) == 1)
    ensures var n := Run(u, IdChars); var v := u[n..];
      RegionGroups(kind, u) == Groups(kind, None, Some(u[..n]), Some(v[..ExtrasLength(v)]))
  {
  }

  /** The prefix `ExtrasLength` measures is itself all `,region` items. */
  lemma {:induction false} ExtrasFull(v: string)
    ensures ExtrasLength(v[..ExtrasLength(v)]) == ExtrasLength(v)
    decreases |v|
  {
    var k := ExtrasLength(v);
    if k > 0 {
      var n := 1 + Run(v[1..], IdChars);
      var w := v[..k];
      ExtrasFull(v[n..]);
      ExtrasHeadRun(v);
      ExtrasUnfold(w);
      assert w[n..] == v[n..][..ExtrasLength(v[n..])];
    } else {
      assert v[..0] == [];
    }
  }

  /** Cutting a string after its items leaves the first item's run intact. */
  lemma ExtrasHeadRun(v: string)
    requires ExtrasLength(v) > 0
    ensures var k := ExtrasLength(v);
      v[..k][0] == ',' && Run(v[..k][1..], IdChars) == Run(v[1..], IdChars)
  {
    var k := ExtrasLength(v);
    PrefixTail(v, k - 1);
    RunOfPrefix(v[1..], k - 1);
  }

  /** One step of `ExtrasLength` on a string that starts with an item. */
  lemma ExtrasUnfold(s: string)
    requires |s| > 0 && s[0] == ',' && Run(s[1..], IdChars) > 0
    ensures ExtrasLength(s) == 1 + Run(s[1..], IdChars) + ExtrasLength(s[1 + Run(s[1..], IdChars)..])
  {
  }

  /** Cutting a string after its run changes nothing about the run. */
  lemma RunOfPrefix(s: string, m: nat)
    requires Run(s, IdChars) <= m <= |s|
    ensures Run(s[..m], IdChars) == Run(s, IdChars)
  {
    var n := Run(s, IdChars);
    var k := Run(s[..m], IdChars);
    RunCovers(s, k);
    RunCovers(s[..m], n);
    if k != n {
      assert false;
    }
  }

  /** `kind` with no regions. */
  lemma GlobalStatement(kind: string, t: string)
    requires kind in Kinds && kind != "move"
    requires |t| == 0 || t[0] != ':'
    ensures Statement(MatchStatement, Types, kind + t) == Success(Global(kind))
  {
    KindsFirst(kind, t);
    var s := kind + t;
    assert s[|kind|..] == t;
    StatementOutcome(s);
  }

  /** Any text after the kind that does not start with a colon is ignored:
      `wafoo` is a global `wa` statement. */
  lemma WaFoo()
    ensures Statement(MatchStatement, Types, "wafoo") == Success(Global("wa"))
  {
    assert "wafoo" == "wa" + "foo";
    GlobalStatement("wa", "foo");
  }

  /** `move` on its own is refused. */
  lemma MoveNeedsRegions()
    ensures Statement(MatchStatement, Types, "move") == Failure("'move' filter needs a list of regions!")
  {
    assert "move" == "move" + "";
    KindsFirst("move", "");
    assert "move"[4..] == "";
    StatementOutcome("move");
  }

  /** A statement written out in full contributes the component its
      groups call for, with the regions as listed. */
  lemma RenderedStatement(g: Groups, regions: seq<string>)
    requires GroupsOk(g) && g.firstRegion.Some?
    requires forall k :: 0 <= k < |regions| ==> IsRegion(regions[k])
    requires g.otherRegions == Some(Extras(regions))
    ensures g.exclude.None? ==>
      Statement(MatchStatement, Types, Render(g)) == Success(Include(g.event, Dedup([g.firstRegion.value] + regions)))
    ensures g.exclude.Some? && g.event != "move" ==>
      Statement(MatchStatement, Types, Render(g)) == Success(Exclude(g.event, Dedup([g.firstRegion.value] + regions)))
    ensures g.exclude.Some? && g.event == "move" ==>
      Statement(MatchStatement, Types, Render(g)) == Failure("'move' filter is not compatible with exclusion filters!")
  {
    MatchRender(g);
    StatementOutcome(Render(g));
    CompileExtras(g.firstRegion.value, regions);
  }

  /** "founded:-north,south" is an exclusion of north and south. */
  lemma FoundedExcludingExample()
    ensures Statement(MatchStatement, Types, "founded:-north,south") == Success(Exclude("founded", ["north", "south"]))
  {
    var g := Groups("founded", Some("-"), Some("north"), Some(Extras(["south"])));
    ExampleRegions();
    ExampleRender();
    ExtrasShape(["south"]);
    RenderedStatement(g, ["south"]);
    DedupPair("north", "south");
  }

  lemma ExampleRegions()
    ensures IsRegion("north") && IsRegion("south") && "founded" in Kinds
  {
  }

  lemma ExampleRender()
    ensures Render(Groups("founded", Some("-"), Some("north"), Some(Extras(["south"])))) == "founded:-north,south"
  {
    assert Extras(["south"]) == ",south" by {
      assert ["south"][1..] == [];
    }
  }

  /** Two different regions are kept as they are. */
  lemma DedupPair(a: string, b: string)
    requires a != b
    ensures Dedup([a, b]) == [a, b]
  {
    assert [a, b][..1] == [a];
    assert [a][..0] == [];
    assert Dedup([a]) == [a];
    assert [a] + [b] == [a, b];
  }

  /** "wa founded:-north,south" parses to a global `wa` component and an
      exclusion of north and south for `founded`. */
  lemma WaFoundedParse(filter: string)
    requires filter == "wa founded:-north,south"
    ensures Parsed(MatchStatement, Types, Words(filter)) ==
      ([Global("wa"), Exclude("founded", ["north", "south"])], None)
  {
    WaFoundedWords();
    assert Statement(MatchStatement, Types, "wa") == Success(Global("wa")) by {
      GlobalStatement("wa", "");
      assert "wa" + "" == "wa";
    }
    FoundedExcludingExample();
    ParsedPair(MatchStatement, Types, "wa", "founded:-north,south");
  }

  lemma WaFoundedWords()
    ensures Words("wa founded:-north,south") == ["wa", "founded:-north,south"]
  {
    var ss := ["wa", "founded:-north,south"];
    WaFoundedJoin();
    WaFoundedNoSpace();
    Lib.WordsJoin(ss);
  }

  lemma WaFoundedJoin()
    ensures Join(" ", ["wa", "founded:-north,south"]) == "wa founded:-north,south"
  {
    var ss := ["wa", "founded:-north,south"];
    assert ss[1..] == ["founded:-north,south"];
  }

  lemma WaFoundedNoSpace()
    ensures NoSpace("founded:-north,south") && NoSpace("wa")
  {
  }

  /** It matches `wa` in every region and `founded` in every region except
      north and south, and nothing else. */
  lemma WaFoundedMatches(event: string, region: string)
    ensures FilterMatches([Global("wa"), Exclude("founded", ["north", "south"])], event, region) <==>
      event == "wa" || (event == "founded" && region != "north" && region != "south")
  {
    var cs := [Global("wa"), Exclude("founded", ["north", "south"])];
    assert ComponentMatches(cs[0], event, region) <==> event == "wa";
    assert ComponentMatches(cs[1], event, region) <==> event == "founded" && region != "north" && region != "south";
  }

  /** A component some statement creates: a known kind, no global or
      exclude component for `move`, and region names from `[a-z0-9_-]`. */
  predicate ComponentOk(c: Component) {
    c.event in Kinds &&
    (c.Global? || c.Exclude? ==> c.event != "move") &&
    (!c.Global? ==> |c.regions| > 0 && forall k :: 0 <= k < |c.regions| ==> IsRegion(c.regions[k]))
  }

  /** Every component a statement creates can be explained. */
  lemma StatementComponentOk(s: string)
    requires Statement(MatchStatement, Types, s).Success?
    ensures ComponentOk(Statement(MatchStatement, Types, s).value)
  {
    StatementOutcome(s);
    MatchGroupsOk(s);
    var g := MatchStatement(s).value;
    if g.firstRegion.Some? {
      RegionsOk(g.firstRegion.value, g.otherRegions.value);
    }
  }

  /** The regions of a component are region names, at least one. */
  lemma RegionsOk(first: string, others: string)
    requires IsRegion(first) && ExtrasLength(others) == |others|
    ensures var rs := Dedup(CompileRegionList(first, Some(others)));
      |rs| > 0 && forall k :: 0 <= k < |rs| ==> IsRegion(rs[k])
  {
    var regions := CompileRegionList(first, Some(others));
    CompiledRegions(first, others);
    assert forall k :: 0 <= k < |regions| ==> IsRegion(regions[k]) by {
      assert forall k :: 1 <= k < |regions| ==> regions[k] == ExtrasItems(others)[k - 1];
    }
    var rs := Dedup(regions);
    assert regions[0] in rs;
    forall k | 0 <= k < |rs|
      ensures IsRegion(rs[k])
    {
      assert rs[k] in regions;
    }
  }

  /** The region names a string of `,region` items lists. */
  function ExtrasItems(others: string): (regions: seq<string>)
    requires ExtrasLength(others) == |others|
    ensures forall k :: 0 <= k < |regions| ==> IsRegion(regions[k])
    ensures Extras(regions) == others
    decreases |others|
  {
    if |others| == 0 then []
    else
      var n := 1 + Run(others[1..], IdChars);
      assert others[1..n] == others[1..][..n - 1];
      assert others == "," + others[1..n] + others[n..];
      [others[1..n]] + ExtrasItems(others[n..])
  }

  /** The extra regions of a match are region names. */
  lemma CompiledRegions(first: string, others: string)
    requires ExtrasLength(others) == |others|
    ensures CompileRegionList(first, Some(others)) == [first] + ExtrasItems(others)
  {
    CompileExtras(first, ExtrasItems(others));
  }

  /** `GLOBAL_LABELS`; there is none for `move`. */
  function GlobalLabel(event: string): string
    requires event in Kinds && event != "move"
  {
    if event == "wa" then "new WA joins"
    else if event == "founded" then "new nations founded"
    else "nations refounded"
  }

  /** `INCLUDE_LABELS`. */
  function IncludeLabel(event: string): string
    requires event in Kinds
  {
    if event == "wa" then "new WA joins in"
    else if event == "founded" then "new nations founded in"
    else if event == "refounded" then "nations refounded in"
    else "nations moving to"
  }

  /** `EXCLUDE_LABELS`; there is none for `move`. */
  function ExcludeLabel(event: string): string
    requires event in Kinds && event != "move"
  {
    if event == "wa" then "new WA joins anywhere but"
    else if event == "founded" then "new nations founded anywhere but"
    else "nations refounded anywhere but"
  }

  /** `explain` of each component type. */
  function ExplainComponent(c: Component): string
    requires ComponentOk(c)
  {
    match c
    case Global(e) => "Matches all " + GlobalLabel(e)
    case Include(e, regions) => "Matches " + IncludeLabel(e) + ": " + QuotedList(regions)
    case Exclude(e, regions) => "Matches " + ExcludeLabel(e) + ": " + QuotedList(regions)
  }

  /** The regions, each in backticks, separated by ", ". */
  function QuotedList(regions: seq<string>): string {
    if |regions| == 0 then ""
    else
      var head := "`" + regions[0] + "`";
      if |regions| == 1 then head else head + ", " + QuotedList(regions[1..])
  }
}
