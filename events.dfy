/** Decoding of happening lines (`discord/cogs/events.py`): fourteen patterns
    tried in table order, the first that matches at the start of the line
    yields the event, with the capture groups as its arguments. */
module Events {
  import opened Wrappers
  import opened Regex

  /** A decoded happening; the fields are the capture groups in order. */
  datatype Event =
    | RegionUpdate(region: string)
    | Endo(sender: string, receiver: string)
    | Unendo(sender: string, receiver: string)
    | WaApply(nation: string)
    | WaAdmit(nation: string)
    | WaResign(nation: string)
    | NewDelegate(nation: string, region: string)
    | ReplaceDelegate(nation: string, region: string, previous: string)
    | LoseDelegate(nation: string, region: string)
    | Founding(nation: string, kind: string, region: string)
    | Cte(nation: string, region: string)
    | Move(nation: string, origin: string, destination: string)
    | Rmb(nation: string, postId: string, region: string)
    | Flag(nation: string)

  const Id: Elem := Group(IdChars)

  /** A pattern that starts `@@<nation>` followed by the literal `b`. */
  function NationRule(b: string, q: Pattern): Pattern {
    Then(Lit("@@"), Then(Id, Then(Lit(b), q)))
  }

  /** `Then(Id, Then(Lit(l), q))`: an id followed by literal text. */
  function IdThen(l: string, q: Pattern): Pattern {
    Then(Id, Then(Lit(l), q))
  }

  const RegionUpdateRule := Then(Lit("%%"), IdThen("%% updated.", End))
  const EndoRule := NationRule("@@ endorsed @@", IdThen("@@", End))
  const UnendoRule := NationRule("@@ withdrew its endorsement from @@", IdThen("@@", End))
  const WaApplyRule := NationRule("@@ applied to join the World Assembly", End)
  const WaAdmitRule := NationRule("@@ was admitted to the World Assembly", End)
  const WaResignRule := NationRule("@@ resigned from the World Assembly", End)
  const NewDelegateRule := NationRule("@@ became WA Delegate of %%", IdThen("%%", End))
  const ReplaceDelegateRule :=
    NationRule("@@ seized the position of %%", IdThen("%% WA Delegate from @@", IdThen("@@", End)))
  const LoseDelegateRule := NationRule("@@ lost WA Delegate status in %%", IdThen("%%", End))
  const FoundingTail := Then(Choice(["founded", "refounded"]), Then(Lit(" in %%"), IdThen("%%", End)))
  const FoundingRule := NationRule("@@ was ", FoundingTail)
  const CteRule := NationRule("@@ ceased to exist in %%", IdThen("%%", End))
  const MoveRule := NationRule("@@ relocated from %%", IdThen("%% to %%", IdThen("%%", End)))
  const RmbRegion := IdThen("%% Regional Message Board", End)
  const RmbAnchor := Then(Skip(Digits), Then(Lit("\">a message</a> on the %%"), RmbRegion))
  const RmbPost := Then(Group(Digits), Then(Lit("#p"), RmbAnchor))
  const RmbTail := Then(Skip(IdChars), Then(Lit("/page=display_region_rmb?postid="), RmbPost))
  const RmbRule := NationRule("@@ lodged <a href=\"/region=", RmbTail)
  const FlagRule := NationRule("@@ altered its national flag", End)

  /** The `EVENTS` table, in order. */
  const Rules: seq<Pattern> := [
    RegionUpdateRule, EndoRule, UnendoRule, WaApplyRule, WaAdmitRule, WaResignRule,
    NewDelegateRule, ReplaceDelegateRule, LoseDelegateRule, FoundingRule, CteRule,
    MoveRule, RmbRule, FlagRule
  ]

  /** Number of capture groups of each pattern. */
  function Arity(i: nat): nat
    requires i < |Rules|
  {
    [1, 2, 2, 1, 1, 1, 2, 3, 2, 3, 2, 3, 3, 1][i]
  }

  /** A captured run followed by literal text. */
  lemma GroupFacts(c: CharClass, l: string, q: Pattern, caps: seq<string>, skips: seq<string>)
    requires |l| > 0 && !InClass(l[0], c)
    ensures WellFormed(Then(Group(c), Then(Lit(l), q))) == WellFormed(q)
    ensures GroupCount(Then(Group(c), Then(Lit(l), q))) == 1 + GroupCount(q)
    ensures CapturesFit(Then(Group(c), Then(Lit(l), q)), caps) <==>
      |caps| > 0 && |caps[0]| > 0 && AllIn(caps[0], c) && CapturesFit(q, caps[1..])
    ensures SkipsFit(Then(Group(c), Then(Lit(l), q)), skips) == SkipsFit(q, skips)
  {
    assert WellFormed(Then(Lit(l), q)) == WellFormed(q);
    assert GroupCount(Then(Lit(l), q)) == GroupCount(q);
    assert |caps| > 0 ==> CapturesFit(Then(Lit(l), q), caps[1..]) == CapturesFit(q, caps[1..]);
    assert SkipsFit(Then(Lit(l), q), skips) == SkipsFit(q, skips);
  }

  /** An uncaptured run followed by literal text. */
  lemma SkipFacts(c: CharClass, l: string, q: Pattern, caps: seq<string>, skips: seq<string>)
    requires |l| > 0 && !InClass(l[0], c)
    ensures WellFormed(Then(Skip(c), Then(Lit(l), q))) == WellFormed(q)
    ensures GroupCount(Then(Skip(c), Then(Lit(l), q))) == GroupCount(q)
    ensures CapturesFit(Then(Skip(c), Then(Lit(l), q)), caps) == CapturesFit(q, caps)
    ensures SkipsFit(Then(Skip(c), Then(Lit(l), q)), skips) <==>
      |skips| > 0 && |skips[0]| > 0 && AllIn(skips[0], c) && SkipsFit(q, skips[1..])
  {
    assert WellFormed(Then(Lit(l), q)) == WellFormed(q);
    assert GroupCount(Then(Lit(l), q)) == GroupCount(q);
    assert CapturesFit(Then(Lit(l), q), caps) == CapturesFit(q, caps);
    assert |skips| > 0 ==> SkipsFit(Then(Lit(l), q), skips[1..]) == SkipsFit(q, skips[1..]);
  }

  lemma NationRuleFacts(b: string, q: Pattern, caps: seq<string>, skips: seq<string>)
    requires |b| > 0 && !InClass(b[0], IdChars)
    ensures WellFormed(NationRule(b, q)) == WellFormed(q)
    ensures GroupCount(NationRule(b, q)) == 1 + GroupCount(q)
    ensures CapturesFit(NationRule(b, q), caps) <==>
      |caps| > 0 && IsId(caps[0]) && CapturesFit(q, caps[1..])
    ensures SkipsFit(NationRule(b, q), skips) == SkipsFit(q, skips)
  {
    GroupFacts(IdChars, b, q, caps, skips);
  }

  /** The form of the captures of table entry `i`: ids, except the founding
      kind and the RMB post number. */
  predicate CapturesOk(i: nat, caps: seq<string>)
    requires i < |Rules|
  {
    |caps| == Arity(i) &&
    (|caps| > 0 ==> IsId(caps[0])) &&
    (|caps| > 1 ==>
      if i == 9 then caps[1] == "founded" || caps[1] == "refounded"
      else if i == 12 then |caps[1]| > 0 && AllIn(caps[1], Digits)
      else IsId(caps[1])) &&
    (|caps| > 2 ==> IsId(caps[2]))
  }

  predicate SkipsOk(i: nat, skips: seq<string>) {
    if i == 12 then |skips| == 2 && IsId(skips[0]) && |skips[1]| > 0 && AllIn(skips[1], Digits)
    else skips == []
  }

  lemma OneIdFacts(b: string, caps: seq<string>, skips: seq<string>)
    requires |b| > 0 && !InClass(b[0], IdChars)
    ensures WellFormed(NationRule(b, End)) && GroupCount(NationRule(b, End)) == 1
    ensures CapturesFit(NationRule(b, End), caps) <==> |caps| == 1 && IsId(caps[0])
    ensures SkipsFit(NationRule(b, End), skips) <==> skips == []
  {
    NationRuleFacts(b, End, caps, skips);
    if |caps| > 0 { assert CapturesFit(End, caps[1..]) <==> |caps| == 1; }
  }

  lemma TwoIdFacts(b: string, l: string, caps: seq<string>, skips: seq<string>)
    requires |b| > 0 && !InClass(b[0], IdChars) && |l| > 0 && !InClass(l[0], IdChars)
    ensures WellFormed(NationRule(b, IdThen(l, End))) && GroupCount(NationRule(b, IdThen(l, End))) == 2
    ensures CapturesFit(NationRule(b, IdThen(l, End)), caps) <==>
      |caps| == 2 && IsId(caps[0]) && IsId(caps[1])
    ensures SkipsFit(NationRule(b, IdThen(l, End)), skips) <==> skips == []
  {
    NationRuleFacts(b, IdThen(l, End), caps, skips);
    var c1 := if |caps| > 0 then caps[1..] else [];
    GroupFacts(IdChars, l, End, c1, skips);
    if |caps| > 1 { assert CapturesFit(End, caps[1..][1..]) <==> |caps| == 2; }
  }

  lemma ThreeIdFacts(b: string, l1: string, l2: string, caps: seq<string>, skips: seq<string>)
    requires |b| > 0 && !InClass(b[0], IdChars)
    requires |l1| > 0 && !InClass(l1[0], IdChars) && |l2| > 0 && !InClass(l2[0], IdChars)
    ensures var p := NationRule(b, IdThen(l1, IdThen(l2, End)));
      WellFormed(p) && GroupCount(p) == 3 &&
      (CapturesFit(p, caps) <==> |caps| == 3 && IsId(caps[0]) && IsId(caps[1]) && IsId(caps[2])) &&
      (SkipsFit(p, skips) <==> skips == [])
  {
    NationRuleFacts(b, IdThen(l1, IdThen(l2, End)), caps, skips);
    GroupFacts(IdChars, l2, End, [], skips);
    if |caps| > 0 {
      GroupFacts(IdChars, l1, IdThen(l2, End), caps[1..], skips);
      if |caps| > 1 {
        GroupFacts(IdChars, l2, End, caps[1..][1..], skips);
        if |caps| > 2 { assert CapturesFit(End, caps[1..][1..][1..]) <==> |caps| == 3; }
      }
    } else {
      GroupFacts(IdChars, l1, IdThen(l2, End), [], skips);
    }
  }

  lemma RegionUpdateFacts(caps: seq<string>, skips: seq<string>)
    ensures WellFormed(RegionUpdateRule) && GroupCount(RegionUpdateRule) == 1
    ensures CapturesFit(RegionUpdateRule, caps) <==> |caps| == 1 && IsId(caps[0])
    ensures SkipsFit(RegionUpdateRule, skips) <==> skips == []
  {
    GroupFacts(IdChars, "%% updated.", End, caps, skips);
    if |caps| > 0 { assert CapturesFit(End, caps[1..]) <==> |caps| == 1; }
  }

  lemma FoundingFacts(caps: seq<string>, skips: seq<string>)
    ensures WellFormed(FoundingRule) && GroupCount(FoundingRule) == 3
    ensures CapturesFit(FoundingRule, caps) <==>
      |caps| == 3 && IsId(caps[0]) && (caps[1] == "founded" || caps[1] == "refounded") && IsId(caps[2])
    ensures SkipsFit(FoundingRule, skips) <==> skips == []
  {
    var alts := ["founded", "refounded"];
    assert "refounded"[..7][0] != "founded"[0];
    forall i, j | 0 <= i < |alts| && 0 <= j < |alts| && alts[i] != alts[j]
      ensures !StartsWith(alts[j], alts[i])
    {
      assert i != j && (i == 0 || i == 1) && (j == 0 || j == 1);
    }
    NationRuleFacts("@@ was ", FoundingTail, caps, skips);
    GroupFacts(IdChars, "%%", End, [], skips);
    if |caps| > 1 {
      assert caps[1..][0] in alts <==> caps[1] == "founded" || caps[1] == "refounded";
      GroupFacts(IdChars, "%%", End, caps[1..][1..], skips);
      if |caps| > 2 { assert CapturesFit(End, caps[1..][1..][1..]) <==> |caps| == 3; }
    }
  }

  lemma RmbAnchorFacts(caps: seq<string>, skips: seq<string>)
    ensures WellFormed(RmbAnchor) && GroupCount(RmbAnchor) == 1
    ensures CapturesFit(RmbAnchor, caps) <==> |caps| == 1 && IsId(caps[0])
    ensures SkipsFit(RmbAnchor, skips) <==> |skips| == 1 && |skips[0]| > 0 && AllIn(skips[0], Digits)
  {
    var s1 := if |skips| > 0 then skips[1..] else [];
    SkipFacts(Digits, "\">a message</a> on the %%", RmbRegion, caps, skips);
    GroupFacts(IdChars, "%% Regional Message Board", End, caps, s1);
    if |caps| > 0 { assert CapturesFit(End, caps[1..]) <==> |caps| == 1; }
  }

  lemma RmbPostFacts(caps: seq<string>, skips: seq<string>)
    ensures WellFormed(RmbPost) && GroupCount(RmbPost) == 2
    ensures CapturesFit(RmbPost, caps) <==>
      |caps| == 2 && |caps[0]| > 0 && AllIn(caps[0], Digits) && IsId(caps[1])
    ensures SkipsFit(RmbPost, skips) <==> |skips| == 1 && |skips[0]| > 0 && AllIn(skips[0], Digits)
  {
    RmbPostCaps(caps);
    RmbPostSkips(skips);
  }

  lemma RmbPostCaps(caps: seq<string>)
    ensures CapturesFit(RmbPost, caps) <==>
      |caps| == 2 && |caps[0]| > 0 && AllIn(caps[0], Digits) && IsId(caps[1])
  {
    var c1 := if |caps| > 0 then caps[1..] else [];
    GroupFacts(Digits, "#p", RmbAnchor, caps, []);
    RmbAnchorFacts(c1, []);
    if |caps| > 1 {
      assert c1[0] == caps[1];
    }
  }

  lemma RmbPostSkips(skips: seq<string>)
    ensures WellFormed(RmbPost) && GroupCount(RmbPost) == 2
    ensures SkipsFit(RmbPost, skips) <==> |skips| == 1 && |skips[0]| > 0 && AllIn(skips[0], Digits)
  {
    GroupFacts(Digits, "#p", RmbAnchor, [], skips);
    RmbAnchorFacts([], skips);
  }

  lemma RmbFacts(caps: seq<string>, skips: seq<string>)
    ensures WellFormed(RmbRule) && GroupCount(RmbRule) == 3
    ensures CapturesFit(RmbRule, caps) <==>
      |caps| == 3 && IsId(caps[0]) && |caps[1]| > 0 && AllIn(caps[1], Digits) && IsId(caps[2])
    ensures SkipsFit(RmbRule, skips) <==>
      |skips| == 2 && IsId(skips[0]) && |skips[1]| > 0 && AllIn(skips[1], Digits)
  {
    RmbCaps(caps);
    RmbSkips(skips);
  }

  lemma RmbCaps(caps: seq<string>)
    ensures CapturesFit(RmbRule, caps) <==>
      |caps| == 3 && IsId(caps[0]) && |caps[1]| > 0 && AllIn(caps[1], Digits) && IsId(caps[2])
  {
    var c1 := if |caps| > 0 then caps[1..] else [];
    NationRuleFacts("@@ lodged <a href=\"/region=", RmbTail, caps, []);
    SkipFacts(IdChars, "/page=display_region_rmb?postid=", RmbPost, c1, []);
    RmbPostCaps(c1);
  }

  lemma RmbSkips(skips: seq<string>)
    ensures WellFormed(RmbRule) && GroupCount(RmbRule) == 3
    ensures SkipsFit(RmbRule, skips) <==>
      |skips| == 2 && IsId(skips[0]) && |skips[1]| > 0 && AllIn(skips[1], Digits)
  {
    var s1 := if |skips| > 0 then skips[1..] else [];
    NationRuleFacts("@@ lodged <a href=\"/region=", RmbTail, [], skips);
    SkipFacts(IdChars, "/page=display_region_rmb?postid=", RmbPost, [], skips);
    RmbPostSkips(s1);
  }

  /** Table entries 0 and 1: region update and endorsement. */
  lemma RuleFactsUpdates(i: nat, caps: seq<string>, skips: seq<string>)
    requires 0 <= i <= 1
    ensures WellFormed(Rules[i]) && GroupCount(Rules[i]) == Arity(i)
    ensures CapturesFit(Rules[i], caps) <==> CapturesOk(i, caps)
    ensures SkipsFit(Rules[i], skips) <==> SkipsOk(i, skips)
  {
    if i == 0 {
      RegionUpdateFacts(caps, skips);
    } else {
      TwoIdFacts("@@ endorsed @@", "@@", caps, skips);
    }
  }

  /** Table entries 2 and 3: withdrawn endorsement and WA application. */
  lemma RuleFactsUnendo(i: nat, caps: seq<string>, skips: seq<string>)
    requires 2 <= i <= 3
    ensures WellFormed(Rules[i]) && GroupCount(Rules[i]) == Arity(i)
    ensures CapturesFit(Rules[i], caps) <==> CapturesOk(i, caps)
    ensures SkipsFit(Rules[i], skips) <==> SkipsOk(i, skips)
  {
    if i == 2 {
      TwoIdFacts("@@ withdrew its endorsement from @@", "@@", caps, skips);
    } else {
      OneIdFacts("@@ applied to join the World Assembly", caps, skips);
    }
  }

  /** Table entries 4 and 5: WA admission and resignation. */
  lemma RuleFactsWa(i: nat, caps: seq<string>, skips: seq<string>)
    requires 4 <= i <= 5
    ensures WellFormed(Rules[i]) && GroupCount(Rules[i]) == Arity(i)
    ensures CapturesFit(Rules[i], caps) <==> CapturesOk(i, caps)
    ensures SkipsFit(Rules[i], skips) <==> SkipsOk(i, skips)
  {
    if i == 4 {
      OneIdFacts("@@ was admitted to the World Assembly", caps, skips);
    } else {
      OneIdFacts("@@ resigned from the World Assembly", caps, skips);
    }
  }

  /** Table entries 6 and 7: new and seized delegacy. */
  lemma RuleFactsDelegates(i: nat, caps: seq<string>, skips: seq<string>)
    requires 6 <= i <= 7
    ensures WellFormed(Rules[i]) && GroupCount(Rules[i]) == Arity(i)
    ensures CapturesFit(Rules[i], caps) <==> CapturesOk(i, caps)
    ensures SkipsFit(Rules[i], skips) <==> SkipsOk(i, skips)
  {
    if i == 6 {
      TwoIdFacts("@@ became WA Delegate of %%", "%%", caps, skips);
    } else {
      ThreeIdFacts("@@ seized the position of %%", "%% WA Delegate from @@", "@@", caps, skips);
    }
  }

  /** Table entries 8 and 9: lost delegacy and founding. */
  lemma RuleFactsFounding(i: nat, caps: seq<string>, skips: seq<string>)
    requires 8 <= i <= 9
    ensures WellFormed(Rules[i]) && GroupCount(Rules[i]) == Arity(i)
    ensures CapturesFit(Rules[i], caps) <==> CapturesOk(i, caps)
    ensures SkipsFit(Rules[i], skips) <==> SkipsOk(i, skips)
  {
    if i == 8 {
      TwoIdFacts("@@ lost WA Delegate status in %%", "%%", caps, skips);
    } else {
      FoundingFacts(caps, skips);
    }
  }

  /** Table entries 10 and 11: ceasing to exist and relocation. */
  lemma RuleFactsMoves(i: nat, caps: seq<string>, skips: seq<string>)
    requires 10 <= i <= 11
    ensures WellFormed(Rules[i]) && GroupCount(Rules[i]) == Arity(i)
    ensures CapturesFit(Rules[i], caps) <==> CapturesOk(i, caps)
    ensures SkipsFit(Rules[i], skips) <==> SkipsOk(i, skips)
  {
    if i == 10 {
      TwoIdFacts("@@ ceased to exist in %%", "%%", caps, skips);
    } else {
      ThreeIdFacts("@@ relocated from %%", "%% to %%", "%%", caps, skips);
    }
  }

  /** Table entries 12 and 13: RMB post and flag. */
  lemma RuleFactsPosts(i: nat, caps: seq<string>, skips: seq<string>)
    requires 12 <= i <= 13
    ensures WellFormed(Rules[i]) && GroupCount(Rules[i]) == Arity(i)
    ensures CapturesFit(Rules[i], caps) <==> CapturesOk(i, caps)
    ensures SkipsFit(Rules[i], skips) <==> SkipsOk(i, skips)
  {
    if i == 12 {
      RmbFacts(caps, skips);
    } else {
      OneIdFacts("@@ altered its national flag", caps, skips);
    }
  }

  /** Every entry is well formed, and its captures are ids except the
      founding kind and the RMB post number. */
  lemma RuleFacts(i: nat, caps: seq<string>, skips: seq<string>)
    requires i < |Rules|
    ensures WellFormed(Rules[i]) && GroupCount(Rules[i]) == Arity(i)
    ensures CapturesFit(Rules[i], caps) <==> CapturesOk(i, caps)
    ensures SkipsFit(Rules[i], skips) <==> SkipsOk(i, skips)
  {
    if i <= 1 { RuleFactsUpdates(i, caps, skips); }
    else if i <= 3 { RuleFactsUnendo(i, caps, skips); }
    else if i <= 5 { RuleFactsWa(i, caps, skips); }
    else if i <= 7 { RuleFactsDelegates(i, caps, skips); }
    else if i <= 9 { RuleFactsFounding(i, caps, skips); }
    else if i <= 11 { RuleFactsMoves(i, caps, skips); }
    else { RuleFactsPosts(i, caps, skips); }
  }

  lemma RulesWellFormed(i: nat)
    requires i < |Rules|
    ensures WellFormed(Rules[i])
    ensures GroupCount(Rules[i]) == Arity(i)
  {
    RuleFacts(i, [], []);
  }

  /** The event of table entry `i` with capture groups `caps`. */
  function Build(i: nat, caps: seq<string>): Event
    requires i < |Rules| && |caps| == Arity(i)
  {
    match i
    case 0 => RegionUpdate(caps[0])
    case 1 => Endo(caps[0], caps[1])
    case 2 => Unendo(caps[0], caps[1])
    case 3 => WaApply(caps[0])
    case 4 => WaAdmit(caps[0])
    case 5 => WaResign(caps[0])
    case 6 => NewDelegate(caps[0], caps[1])
    case 7 => ReplaceDelegate(caps[0], caps[1], caps[2])
    case 8 => LoseDelegate(caps[0], caps[1])
    case 9 => Founding(caps[0], caps[1], caps[2])
    case 10 => Cte(caps[0], caps[1])
    case 11 => Move(caps[0], caps[1], caps[2])
    case 12 => Rmb(caps[0], caps[1], caps[2])
    case _ => Flag(caps[0])
  }

  lemma MatchArity(i: nat, s: string)
    requires i < |Rules| && Match(Rules[i], s).Some?
    ensures |Match(Rules[i], s).value.0| == Arity(i)
    ensures CapturesFit(Rules[i], Match(Rules[i], s).value.0)
  {
    MatchSound(Rules[i], s);
    RelFits(Rules[i], s, Match(Rules[i], s).value.0, Match(Rules[i], s).value.1);
    FitCount(Rules[i], Match(Rules[i], s).value.0);
    RulesWellFormed(i);
  }

  function DecodeFrom(s: string, i: nat): Option<Event>
    requires i <= |Rules|
    decreases |Rules| - i
  {
    if i == |Rules| then None
    else if Match(Rules[i], s).Some? then Some(RuleEvent(i, s))
    else DecodeFrom(s, i + 1)
  }

  /** The event that table entry `i` produces from a line it matches. */
  function RuleEvent(i: nat, s: string): Event
    requires i < |Rules| && Match(Rules[i], s).Some?
  {
    MatchArity(i, s);
    Build(i, Match(Rules[i], s).value.0)
  }

  /** The event of a happening line, or `None` when no pattern matches. */
  function Decode(s: string): Option<Event> {
    DecodeFrom(s, 0)
  }

  /** Index of the first entry of `rules` that matches `s`, or `|rules|`. */
  function FirstRule(rules: seq<Pattern>, s: string, i: nat): (j: nat)
    requires i <= |rules|
    ensures i <= j <= |rules|
    ensures j < |rules| ==> Match(rules[j], s).Some?
    ensures forall k :: i <= k < j ==> Match(rules[k], s).None?
    decreases |rules| - i
  {
    if i == |rules| || Match(rules[i], s).Some? then i else FirstRule(rules, s, i + 1)
  }

  /** Entries are tried in table order and the first that matches wins; a
      line no entry matches yields nothing. */
  lemma {:induction false} DecodeFirstMatch(s: string, i: nat)
    requires i <= |Rules|
    ensures var j := FirstRule(Rules, s, i);
      if j == |Rules| then DecodeFrom(s, i) == None
      else DecodeFrom(s, i) == Some(RuleEvent(j, s))
    decreases |Rules| - i
  {
    if i < |Rules| && Match(Rules[i], s).None? {
      DecodeFirstMatch(s, i + 1);
    }
  }

  /** The text following `@@<nation>` in a line that starts with `@@`. */
  function AfterNation(s: string): string
    requires StartsWith(s, "@@")
  {
    s[2..][Run(s[2..], IdChars)..]
  }

  lemma NationRuleMatch(b: string, q: Pattern, s: string)
    requires |b| > 0 && !InClass(b[0], IdChars)
    requires Match(NationRule(b, q), s).Some?
    ensures StartsWith(s, "@@") && StartsWith(AfterNation(s), b)
    ensures Match(q, AfterNation(s)[|b|..]).Some?
  {
    var s1 := s[2..];
    assert Match(Then(Id, Then(Lit(b), q)), s1).Some?;
    var k := Run(s1, IdChars);
    assert Match(Then(Lit(b), q), s1[k..]).Some?;
  }

  lemma EightOf(s: string, b: string)
    requires StartsWith(s, b) && |b| >= 8
    ensures |s| >= 8 && s[..8] == b[..8]
  {
  }

  /** The first eight characters after the nation id identify the pattern
      among those that start with `@@`. */
  function Signatures(i: nat): set<string>
    requires 1 <= i < |Rules|
  {
    match i
    case 1 => {"@@ endor"}
    case 2 => {"@@ withd"}
    case 3 => {"@@ appli"}
    case 4 => {"@@ was a"}
    case 5 => {"@@ resig"}
    case 6 => {"@@ becam"}
    case 7 => {"@@ seize"}
    case 8 => {"@@ lost "}
    case 9 => {"@@ was f", "@@ was r"}
    case 10 => {"@@ cease"}
    case 11 => {"@@ reloc"}
    case 12 => {"@@ lodge"}
    case 13 => {"@@ alter"}
  }

  lemma SignatureOfMatch(i: nat, s: string)
    requires 1 <= i < |Rules| && Match(Rules[i], s).Some?
    ensures StartsWith(s, "@@") && |AfterNation(s)| >= 8 && AfterNation(s)[..8] in Signatures(i)
  {
    if i <= 3 { SignatureEndorsements(i, s); }
    else if i <= 5 { SignatureMembership(i, s); }
    else if i <= 8 { SignatureDelegates(i, s); }
    else if i == 9 { SignatureFounding(s); }
    else if i <= 11 { SignatureResidence(i, s); }
    else { SignatureOthers(i, s); }
  }

  lemma SignatureEndorsements(i: nat, s: string)
    requires 1 <= i <= 3 && Match(Rules[i], s).Some?
    ensures StartsWith(s, "@@") && |AfterNation(s)| >= 8 && AfterNation(s)[..8] in Signatures(i)
  {
    if i == 1 { KeyEndorse(s); }
    else if i == 2 { KeyUnendorse(s); }
    else { KeyWaApply(s); }
  }

  lemma SignatureMembership(i: nat, s: string)
    requires 4 <= i <= 5 && Match(Rules[i], s).Some?
    ensures StartsWith(s, "@@") && |AfterNation(s)| >= 8 && AfterNation(s)[..8] in Signatures(i)
  {
    if i == 4 { KeyWaAdmit(s); }
    else { KeyWaResign(s); }
  }

  lemma SignatureDelegates(i: nat, s: string)
    requires 6 <= i <= 8 && Match(Rules[i], s).Some?
    ensures StartsWith(s, "@@") && |AfterNation(s)| >= 8 && AfterNation(s)[..8] in Signatures(i)
  {
    if i == 6 { KeyNewDelegate(s); }
    else if i == 7 { KeyReplaceDelegate(s); }
    else { KeyLoseDelegate(s); }
  }

  lemma SignatureFounding(s: string)
    requires Match(Rules[9], s).Some?
    ensures StartsWith(s, "@@") && |AfterNation(s)| >= 8 && AfterNation(s)[..8] in Signatures(9)
  {
    NationRuleMatch("@@ was ", FoundingTail, s);
    var a := AfterNation(s);
    var t := a[7..];
    var k := FirstAlt(["founded", "refounded"], t);
    assert k < 2;
    assert t[0] == 'f' || t[0] == 'r';
    assert a[..8] == a[..7] + [t[0]];
    if t[0] == 'f' { assert a[..8] == "@@ was f"; } else { assert a[..8] == "@@ was r"; }
  }

  lemma SignatureResidence(i: nat, s: string)
    requires 10 <= i <= 11 && Match(Rules[i], s).Some?
    ensures StartsWith(s, "@@") && |AfterNation(s)| >= 8 && AfterNation(s)[..8] in Signatures(i)
  {
    if i == 10 { KeyCte(s); }
    else { KeyMove(s); }
  }

  lemma SignatureOthers(i: nat, s: string)
    requires 12 <= i <= 13 && Match(Rules[i], s).Some?
    ensures StartsWith(s, "@@") && |AfterNation(s)| >= 8 && AfterNation(s)[..8] in Signatures(i)
  {
    if i == 12 { KeyRmb(s); }
    else { KeyFlag(s); }
  }

  lemma KeyEndorse(s: string)
    requires Match(EndoRule, s).Some?
    ensures StartsWith(s, "@@") && |AfterNation(s)| >= 8 && AfterNation(s)[..8] == "@@ endor"
  {
    var b := "@@ endorsed @@";
    assert b[..8] == "@@ endor" && !InClass(b[0], IdChars);
    NationKey(b, IdThen("@@", End), s, "@@ endor");
  }

  lemma KeyUnendorse(s: string)
    requires Match(UnendoRule, s).Some?
    ensures StartsWith(s, "@@") && |AfterNation(s)| >= 8 && AfterNation(s)[..8] == "@@ withd"
  {
    var b := "@@ withdrew its endorsement from @@";
    assert b[..8] == "@@ withd" && !InClass(b[0], IdChars);
    NationKey(b, IdThen("@@", End), s, "@@ withd");
  }

  lemma KeyWaApply(s: string)
    requires Match(WaApplyRule, s).Some?
    ensures StartsWith(s, "@@") && |AfterNation(s)| >= 8 && AfterNation(s)[..8] == "@@ appli"
  {
    var b := "@@ applied to join the World Assembly";
    assert b[..8] == "@@ appli" && !InClass(b[0], IdChars);
    NationKey(b, End, s, "@@ appli");
  }

  lemma KeyWaAdmit(s: string)
    requires Match(WaAdmitRule, s).Some?
    ensures StartsWith(s, "@@") && |AfterNation(s)| >= 8 && AfterNation(s)[..8] == "@@ was a"
  {
    var b := "@@ was admitted to the World Assembly";
    assert b[..8] == "@@ was a" && !InClass(b[0], IdChars);
    NationKey(b, End, s, "@@ was a");
  }

  lemma KeyWaResign(s: string)
    requires Match(WaResignRule, s).Some?
    ensures StartsWith(s, "@@") && |AfterNation(s)| >= 8 && AfterNation(s)[..8] == "@@ resig"
  {
    var b := "@@ resigned from the World Assembly";
    assert b[..8] == "@@ resig" && !InClass(b[0], IdChars);
    NationKey(b, End, s, "@@ resig");
  }

  lemma KeyNewDelegate(s: string)
    requires Match(NewDelegateRule, s).Some?
    ensures StartsWith(s, "@@") && |AfterNation(s)| >= 8 && AfterNation(s)[..8] == "@@ becam"
  {
    var b := "@@ became WA Delegate of %%";
    assert b[..8] == "@@ becam" && !InClass(b[0], IdChars);
    NationKey(b, IdThen("%%", End), s, "@@ becam");
  }

  lemma KeyReplaceDelegate(s: string)
    requires Match(ReplaceDelegateRule, s).Some?
    ensures StartsWith(s, "@@") && |AfterNation(s)| >= 8 && AfterNation(s)[..8] == "@@ seize"
  {
    var b := "@@ seized the position of %%";
    assert b[..8] == "@@ seize" && !InClass(b[0], IdChars);
    NationKey(b, IdThen("%% WA Delegate from @@", IdThen("@@", End)), s, "@@ seize");
  }

  lemma KeyLoseDelegate(s: string)
    requires Match(LoseDelegateRule, s).Some?
    ensures StartsWith(s, "@@") && |AfterNation(s)| >= 8 && AfterNation(s)[..8] == "@@ lost "
  {
    var b := "@@ lost WA Delegate status in %%";
    assert b[..8] == "@@ lost " && !InClass(b[0], IdChars);
    NationKey(b, IdThen("%%", End), s, "@@ lost ");
  }

  lemma KeyCte(s: string)
    requires Match(CteRule, s).Some?
    ensures StartsWith(s, "@@") && |AfterNation(s)| >= 8 && AfterNation(s)[..8] == "@@ cease"
  {
    var b := "@@ ceased to exist in %%";
    assert b[..8] == "@@ cease" && !InClass(b[0], IdChars);
    NationKey(b, IdThen("%%", End), s, "@@ cease");
  }

  lemma KeyMove(s: string)
    requires Match(MoveRule, s).Some?
    ensures StartsWith(s, "@@") && |AfterNation(s)| >= 8 && AfterNation(s)[..8] == "@@ reloc"
  {
    var b := "@@ relocated from %%";
    assert b[..8] == "@@ reloc" && !InClass(b[0], IdChars);
    NationKey(b, IdThen("%% to %%", IdThen("%%", End)), s, "@@ reloc");
  }

  lemma KeyRmb(s: string)
    requires Match(RmbRule, s).Some?
    ensures StartsWith(s, "@@") && |AfterNation(s)| >= 8 && AfterNation(s)[..8] == "@@ lodge"
  {
    var b := "@@ lodged <a href=\"/region=";
    assert b[..8] == "@@ lodge" && !InClass(b[0], IdChars);
    NationKey(b, RmbTail, s, "@@ lodge");
  }

  lemma KeyFlag(s: string)
    requires Match(FlagRule, s).Some?
    ensures StartsWith(s, "@@") && |AfterNation(s)| >= 8 && AfterNation(s)[..8] == "@@ alter"
  {
    var b := "@@ altered its national flag";
    assert b[..8] == "@@ alter" && !InClass(b[0], IdChars);
    NationKey(b, End, s, "@@ alter");
  }

  lemma NationKey(b: string, q: Pattern, s: string, key: string)
    requires |b| >= 8 && !InClass(b[0], IdChars) && b[..8] == key
    requires Match(NationRule(b, q), s).Some?
    ensures StartsWith(s, "@@") && |AfterNation(s)| >= 8 && AfterNation(s)[..8] == key
  {
    NationRuleMatch(b, q, s);
  }

  /** No line matches two patterns, so "first match" is "the only match". */
  lemma RulesExclusive(s: string, i: nat, j: nat)
    requires i < |Rules| && j < |Rules|
    requires Match(Rules[i], s).Some? && Match(Rules[j], s).Some?
    ensures i == j
  {
    if i == 0 || j == 0 {
      if i != j {
        var k := if i == 0 then j else i;
        SignatureOfMatch(k, s);
        assert false;
      }
    } else {
      SignatureOfMatch(i, s);
      SignatureOfMatch(j, s);
      assert Signatures(i) * Signatures(j) != {};
    }
  }

  /** An id in the happening feed: a non-empty run of `[a-z0-9_-]`. */
  predicate IsId(s: string) {
    |s| > 0 && AllIn(s, IdChars)
  }

  /** Every field of the event has the form its pattern demands. */
  predicate EventWellFormed(e: Event) {
    match e
    case RegionUpdate(r) => IsId(r)
    case Endo(a, b) => IsId(a) && IsId(b)
    case Unendo(a, b) => IsId(a) && IsId(b)
    case WaApply(n) => IsId(n)
    case WaAdmit(n) => IsId(n)
    case WaResign(n) => IsId(n)
    case NewDelegate(n, r) => IsId(n) && IsId(r)
    case ReplaceDelegate(n, r, p) => IsId(n) && IsId(r) && IsId(p)
    case LoseDelegate(n, r) => IsId(n) && IsId(r)
    case Founding(n, k, r) => IsId(n) && (k == "founded" || k == "refounded") && IsId(r)
    case Cte(n, r) => IsId(n) && IsId(r)
    case Move(n, a, b) => IsId(n) && IsId(a) && IsId(b)
    case Rmb(n, p, r) => IsId(n) && |p| > 0 && AllIn(p, Digits) && IsId(r)
    case Flag(n) => IsId(n)
  }

  /** Table entry of an event. */
  function RuleOf(e: Event): (i: nat)
    ensures i < |Rules|
  {
    match e
    case RegionUpdate(_) => 0
    case Endo(_, _) => 1
    case Unendo(_, _) => 2
    case WaApply(_) => 3
    case WaAdmit(_) => 4
    case WaResign(_) => 5
    case NewDelegate(_, _) => 6
    case ReplaceDelegate(_, _, _) => 7
    case LoseDelegate(_, _) => 8
    case Founding(_, _, _) => 9
    case Cte(_, _) => 10
    case Move(_, _, _) => 11
    case Rmb(_, _, _) => 12
    case Flag(_) => 13
  }

  /** The capture groups that produce an event. */
  function Captures(e: Event): seq<string> {
    match e
    case RegionUpdate(r) => [r]
    case Endo(a, b) => [a, b]
    case Unendo(a, b) => [a, b]
    case WaApply(n) => [n]
    case WaAdmit(n) => [n]
    case WaResign(n) => [n]
    case NewDelegate(n, r) => [n, r]
    case ReplaceDelegate(n, r, p) => [n, r, p]
    case LoseDelegate(n, r) => [n, r]
    case Founding(n, k, r) => [n, k, r]
    case Cte(n, r) => [n, r]
    case Move(n, a, b) => [n, a, b]
    case Rmb(n, p, r) => [n, p, r]
    case Flag(n) => [n]
  }

  /** The uncaptured parts of a line: an RMB line links to the post's own
      region and repeats the post id as the anchor. */
  function Skips(e: Event): seq<string> {
    if e.Rmb? then [e.region, e.postId] else []
  }

  lemma WellFormedIffOk(e: Event)
    ensures EventWellFormed(e) <==>
      CapturesOk(RuleOf(e), Captures(e)) && SkipsOk(RuleOf(e), Skips(e))
  {
  }

  lemma BuildInverse(i: nat, caps: seq<string>)
    requires i < |Rules| && |caps| == Arity(i)
    ensures RuleOf(Build(i, caps)) == i && Captures(Build(i, caps)) == caps
  {
  }

  lemma BuildCaptures(e: Event)
    ensures |Captures(e)| == Arity(RuleOf(e)) && Build(RuleOf(e), Captures(e)) == e
  {
  }

  lemma EventFits(e: Event)
    requires EventWellFormed(e)
    ensures CapturesFit(Rules[RuleOf(e)], Captures(e)) && SkipsFit(Rules[RuleOf(e)], Skips(e))
    ensures |Captures(e)| == Arity(RuleOf(e)) && Build(RuleOf(e), Captures(e)) == e
  {
    RuleFacts(RuleOf(e), Captures(e), Skips(e));
    WellFormedIffOk(e);
    BuildCaptures(e);
  }

  lemma BuildOk(i: nat, caps: seq<string>)
    requires i < |Rules| && CapturesOk(i, caps)
    ensures EventWellFormed(Build(i, caps))
  {
  }

  /** An event built from well-formed captures is well formed and comes
      from its own table entry. */
  lemma BuildFacts(i: nat, caps: seq<string>)
    requires i < |Rules| && CapturesFit(Rules[i], caps)
    ensures |caps| == Arity(i)
    ensures EventWellFormed(Build(i, caps)) && RuleOf(Build(i, caps)) == i
  {
    RuleFacts(i, caps, []);
    BuildInverse(i, caps);
    BuildOk(i, caps);
  }

  /** The happening line of an event, as the feed writes it. */
  function Render(e: Event): string
    requires EventWellFormed(e)
  {
    EventFits(e);
    Fill(Rules[RuleOf(e)], Captures(e), Skips(e))
  }

  /** Decoding a rendered event gives the event back, whatever text follows it. */
  lemma DecodeRender(e: Event, t: string)
    requires EventWellFormed(e)
    ensures Decode(Render(e) + t) == Some(e)
  {
    var i := RuleOf(e);
    var s := Render(e) + t;
    EventFits(e);
    RulesWellFormed(i);
    MatchFill(Rules[i], Captures(e), Skips(e), t);
    var j := FirstRule(Rules, s, 0);
    RulesExclusive(s, i, j);
    DecodeFirstMatch(s, 0);
  }

  /** A decoded event has well-formed fields, and comes from the only
      pattern that matches the line. */
  lemma DecodeWellFormed(s: string)
    requires Decode(s).Some?
    ensures EventWellFormed(Decode(s).value)
    ensures Match(Rules[RuleOf(Decode(s).value)], s).Some?
    ensures forall j :: 0 <= j < |Rules| && j != RuleOf(Decode(s).value) ==> Match(Rules[j], s).None?
  {
    var i := FirstRule(Rules, s, 0);
    DecodeFirstMatch(s, 0);
    MatchArity(i, s);
    BuildFacts(i, Match(Rules[i], s).value.0);
    forall j | 0 <= j < |Rules| && j != i
      ensures Match(Rules[j], s).None?
    {
      if Match(Rules[j], s).Some? {
        RulesExclusive(s, i, j);
      }
    }
  }

  /** Trailing text after a complete line is accepted (only the start is anchored). */
  lemma DecodeAppend(s: string, t: string)
    requires Decode(s).Some?
    ensures Decode(s + t) == Decode(s)
  {
    var i := FirstRule(Rules, s, 0);
    DecodeFirstMatch(s, 0);
    RulesWellFormed(i);
    MatchAppend(Rules[i], s, t);
    var j := FirstRule(Rules, s + t, 0);
    RulesExclusive(s + t, i, j);
    DecodeFirstMatch(s + t, 0);
  }
}
