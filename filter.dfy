/** The generic filter language (`discord/filters/__init__.py`): a filter is
    a whitespace-separated list of statements; each statement is matched
    against the language's pattern and handed to the component types in
    order, and the first type that accepts it contributes one component.
    A statement nobody accepts stops the parse with a `FilterError`.

    The pattern is `regex: string -> Option<G>` (the groups of a match, if
    any) and each component type is a creator `G -> Result<Option<C>, string>`
    that declines with `None`, accepts with `Some`, or raises a `FilterError`
    with its own message. */
module Filters {
  import opened Wrappers
  import opened Strings

  /** Message of the `FilterError` for a statement no type accepts. */
  function InvalidStatement(statement: string): string {
    "`" + statement + "` is not a valid filter statement!"
  }

  /** The outcome of handing `groups` to the types from index `j` on: the
      first creator that raises or accepts decides. */
  function CreateFrom<G, C>(types: seq<G -> Result<Option<C>, string>>, groups: G, j: nat): (r: Result<Option<C>, string>)
    requires j <= |types|
    ensures r == Success(None) <==> forall k :: j <= k < |types| ==> types[k](groups) == Success(None)
    ensures r != Success(None) ==> exists k :: (j <= k < |types| && types[k](groups) == r &&
      (forall m :: j <= m < k ==> types[m](groups) == Success(None)))
    decreases |types| - j
  {
    if j == |types| then Success(None)
    else if types[j](groups) != Success(None) then types[j](groups)
    else CreateFrom(types, groups, j + 1)
  }

  /** The component one statement contributes, or the message it fails with. */
  function Statement<G, C>(regex: string -> Option<G>, types: seq<G -> Result<Option<C>, string>>, st: string): Result<C, string> {
    match regex(st)
    case None => Failure(InvalidStatement(st))
    case Some(g) =>
      match CreateFrom(types, g, 0)
      case Failure(e) => Failure(e)
      case Success(None) => Failure(InvalidStatement(st))
      case Success(Some(c)) => Success(c)
  }

  /** The components of the statements before the first failing one, and
      that statement's error message, if any. */
  function Parsed<G, C>(regex: string -> Option<G>, types: seq<G -> Result<Option<C>, string>>, statements: seq<string>): (seq<C>, Option<string>)
  {
    if |statements| == 0 then ([], None)
    else match Statement(regex, types, statements[0])
      case Failure(e) => ([], Some(e))
      case Success(c) =>
        var rest := Parsed(regex, types, statements[1..]);
        ([c] + rest.0, rest.1)
  }

  lemma {:induction false} ParsedSnoc<G, C>(regex: string -> Option<G>, types: seq<G -> Result<Option<C>, string>>, statements: seq<string>, st: string)
    requires Parsed(regex, types, statements).1 == None
    ensures Statement(regex, types, st).Failure? ==>
      Parsed(regex, types, statements + [st]) == (Parsed(regex, types, statements).0, Some(Statement(regex, types, st).error))
    ensures Statement(regex, types, st).Success? ==>
      Parsed(regex, types, statements + [st]) == (Parsed(regex, types, statements).0 + [Statement(regex, types, st).value], None)
  {
    if |statements| > 0 {
      assert (statements + [st])[1..] == statements[1..] + [st];
      assert (statements + [st])[0] == statements[0];
      ParsedSnoc(regex, types, statements[1..], st);
      var c0 := Statement(regex, types, statements[0]).value;
      var rest := Parsed(regex, types, statements[1..]).0;
      if Statement(regex, types, st).Success? {
        var c := Statement(regex, types, st).value;
        assert [c0] + (rest + [c]) == ([c0] + rest) + [c];
      }
    } else {
      assert statements + [st] == [st];
      assert [st][1..] == [];
      assert Parsed(regex, types, statements).0 == [];
      if Statement(regex, types, st).Success? {
        var c := Statement(regex, types, st).value;
        var none: seq<string> := [];
        assert Parsed(regex, types, none) == ([], None);
        assert Parsed(regex, types, [st]) == ([c] + Parsed(regex, types, none).0, Parsed(regex, types, none).1);
        assert [c] + [] == [] + [c];
      }
    }
  }

  /** Statements after a failing one are never looked at. */
  lemma {:induction false} ParsedStops<G, C>(regex: string -> Option<G>, types: seq<G -> Result<Option<C>, string>>, statements: seq<string>, later: seq<string>)
    ensures Parsed(regex, types, statements).1.Some? ==>
      Parsed(regex, types, statements + later) == Parsed(regex, types, statements)
  {
    if |statements| > 0 {
      assert (statements + later)[1..] == statements[1..] + later;
      ParsedStops(regex, types, statements[1..], later);
    }
  }

  /** A parse succeeds iff every statement does; it then has exactly one
      component per statement, in statement order. */
  lemma {:induction false} ParsedSuccess<G, C>(regex: string -> Option<G>, types: seq<G -> Result<Option<C>, string>>, statements: seq<string>)
    ensures Parsed(regex, types, statements).1 == None <==>
      forall k :: 0 <= k < |statements| ==> Statement(regex, types, statements[k]).Success?
    ensures Parsed(regex, types, statements).1 == None ==>
      |Parsed(regex, types, statements).0| == |statements| &&
      forall k :: 0 <= k < |statements| ==>
        Parsed(regex, types, statements).0[k] == Statement(regex, types, statements[k]).value
  {
    if |statements| > 0 {
      ParsedSuccess(regex, types, statements[1..]);
      var p := Parsed(regex, types, statements);
      var rest := Parsed(regex, types, statements[1..]);
      if Statement(regex, types, statements[0]).Success? {
        forall k | 0 <= k < |statements| && rest.1 == None
          ensures p.0[k] == Statement(regex, types, statements[k]).value
        {
          if k > 0 { assert statements[1..][k - 1] == statements[k]; }
        }
        if (forall k :: 0 <= k < |statements| ==> Statement(regex, types, statements[k]).Success?) {
          assert forall k :: 0 <= k < |statements| - 1 ==> statements[1..][k] == statements[k + 1];
        }
        if rest.1 != None {
          var k :| 0 <= k < |statements[1..]| && !Statement(regex, types, statements[1..][k]).Success?;
          assert statements[1..][k] == statements[k + 1];
        }
      }
    }
  }

  /** Two accepted statements give their two components. */
  lemma ParsedPair<G, C>(regex: string -> Option<G>, types: seq<G -> Result<Option<C>, string>>, a: string, b: string)
    requires Statement(regex, types, a).Success? && Statement(regex, types, b).Success?
    ensures Parsed(regex, types, [a, b]) ==
      ([Statement(regex, types, a).value, Statement(regex, types, b).value], None)
  {
    var ca := Statement(regex, types, a).value;
    var cb := Statement(regex, types, b).value;
    var none: seq<string> := [];
    assert [a, b][1..] == [b] && [b][1..] == none;
    assert Parsed(regex, types, none) == ([], None);
    assert Parsed(regex, types, [b]) == ([cb], None) by {
      assert [cb] + [] == [cb];
    }
    assert [ca] + [cb] == [ca, cb];
  }

  /** A failed parse reports the error of its first failing statement, and
      holds the components of the statements before it. */
  lemma ParsedFailure<G, C>(regex: string -> Option<G>, types: seq<G -> Result<Option<C>, string>>, statements: seq<string>)
    requires Parsed(regex, types, statements).1.Some?
    ensures exists k :: (0 <= k < |statements| &&
      Statement(regex, types, statements[k]) == Failure(Parsed(regex, types, statements).1.value) &&
      (forall m :: 0 <= m < k ==> Statement(regex, types, statements[m]).Success?) &&
      Parsed(regex, types, statements).0 == Parsed(regex, types, statements[..k]).0)
  {
    var k := FirstFailure(regex, types, statements);
  }

  /** The index of the first failing statement of a failed parse. */
  lemma {:induction false} FirstFailure<G, C>(regex: string -> Option<G>, types: seq<G -> Result<Option<C>, string>>, statements: seq<string>)
    returns (k: nat)
    requires Parsed(regex, types, statements).1.Some?
    ensures k < |statements|
    ensures Statement(regex, types, statements[k]) == Failure(Parsed(regex, types, statements).1.value)
    ensures forall m :: 0 <= m < k ==> Statement(regex, types, statements[m]).Success?
    ensures Parsed(regex, types, statements).0 == Parsed(regex, types, statements[..k]).0
  {
    if Statement(regex, types, statements[0]).Success? {
      var tail := statements[1..];
      ParsedCons(regex, types, statements);
      var j := FirstFailure(regex, types, tail);
      k := j + 1;
      PrefixTail(statements, j);
      ParsedCons(regex, types, statements[..k]);
      forall m | 0 <= m < k
        ensures Statement(regex, types, statements[m]).Success?
      {
        if m > 0 { assert statements[m] == tail[m - 1]; }
      }
      assert statements[k] == tail[j];
    } else {
      k := 0;
      assert statements[..0] == [];
    }
  }

  /** One accepted statement followed by the rest. */
  lemma ParsedCons<G, C>(regex: string -> Option<G>, types: seq<G -> Result<Option<C>, string>>, statements: seq<string>)
    requires |statements| > 0 && Statement(regex, types, statements[0]).Success?
    ensures Parsed(regex, types, statements) ==
      ([Statement(regex, types, statements[0]).value] + Parsed(regex, types, statements[1..]).0,
       Parsed(regex, types, statements[1..]).1)
  {
  }

  /** The parse of a suffix, one statement at a time. */
  lemma ParsedUnfold<G, C>(regex: string -> Option<G>, types: seq<G -> Result<Option<C>, string>>, statements: seq<string>, i: nat)
    requires i < |statements|
    ensures Statement(regex, types, statements[i]).Failure? ==>
      Parsed(regex, types, statements[i..]) == ([], Some(Statement(regex, types, statements[i]).error))
    ensures Statement(regex, types, statements[i]).Success? ==>
      Parsed(regex, types, statements[i..]) ==
        ([Statement(regex, types, statements[i]).value] + Parsed(regex, types, statements[i + 1..]).0,
         Parsed(regex, types, statements[i + 1..]).1)
  {
    assert statements[i..][1..] == statements[i + 1..];
  }

  /** One statement further into the parse of `statements`, from what the
      components before it are. */
  lemma ParsedAdvance<G, C>(regex: string -> Option<G>, types: seq<G -> Result<Option<C>, string>>, statements: seq<string>, i: nat, done: seq<C>)
    requires i < |statements|
    requires done + Parsed(regex, types, statements[i..]).0 == Parsed(regex, types, statements).0
    requires Parsed(regex, types, statements[i..]).1 == Parsed(regex, types, statements).1
    ensures Statement(regex, types, statements[i]).Failure? ==>
      done == Parsed(regex, types, statements).0 &&
      Parsed(regex, types, statements).1 == Some(Statement(regex, types, statements[i]).error)
    ensures Statement(regex, types, statements[i]).Success? ==>
      (done + [Statement(regex, types, statements[i]).value]) + Parsed(regex, types, statements[i + 1..]).0 ==
        Parsed(regex, types, statements).0 &&
      Parsed(regex, types, statements[i + 1..]).1 == Parsed(regex, types, statements).1
  {
    ParsedUnfold(regex, types, statements, i);
  }

  /** A parsed filter. */
  class Filter<G, C> {
    var filters: seq<C>
    const types: seq<G -> Result<Option<C>, string>>
    const regex: string -> Option<G>

    constructor(types: seq<G -> Result<Option<C>, string>>, regex: string -> Option<G>)
      ensures this.types == types && this.regex == regex && filters == []
    {
      this.types := types;
      this.regex := regex;
      filters := [];
    }

    /** `parse`: appends one component per statement; on the first failing
        statement it stops with that statement's error, keeping the
        components appended before it. */
    method Parse(filter: string) returns (error: Option<string>)
      modifies this`filters
      ensures filters == old(filters) + Parsed(regex, types, Words(filter)).0
      ensures error == Parsed(regex, types, Words(filter)).1
    {
      var statements := Words(filter);
      var i := 0;
      ghost var done: seq<C> := [];
      while i < |statements|
        invariant 0 <= i <= |statements|
        invariant filters == old(filters) + done
        invariant done + Parsed(regex, types, statements[i..]).0 == Parsed(regex, types, statements).0
        invariant Parsed(regex, types, statements[i..]).1 == Parsed(regex, types, statements).1
      {
        var outcome := ParseStatement(statements[i]);
        ParsedAdvance(regex, types, statements, i, done);
        if outcome.Failure? {
          return Some(outcome.error);
        }
        filters := filters + [outcome.value];
        done := done + [outcome.value];
        i := i + 1;
      }
      error := None;
    }

    /** One statement of `parse`: the pattern must match, and then the
        first type that does not decline decides. */
    method ParseStatement(st: string) returns (r: Result<C, string>)
      ensures r == Statement(regex, types, st)
    {
      var groups := regex(st);
      if groups.None? {
        return Failure(InvalidStatement(st));
      }
      var outcome := CreateComponent(groups.value);
      if outcome.Failure? {
        return Failure(outcome.error);
      }
      if outcome.value.None? {
        return Failure(InvalidStatement(st));
      }
      r := Success(outcome.value.value);
    }

    /** The inner loop of `parse`: the first type that raises or accepts
        the statement's groups decides. */
    method CreateComponent(groups: G) returns (r: Result<Option<C>, string>)
      ensures r == CreateFrom(types, groups, 0)
    {
      var j := 0;
      while j < |types|
        invariant 0 <= j <= |types|
        invariant CreateFrom(types, groups, 0) == CreateFrom(types, groups, j)
      {
        var outcome := types[j](groups);
        if outcome != Success(None) {
          return outcome;
        }
        j := j + 1;
      }
      return Success(None);
    }

    /** `matches`: some component matches. */
    function Matches(componentMatches: C -> bool): (b: bool)
      reads this
      ensures b <==> exists k :: 0 <= k < |filters| && componentMatches(filters[k])
    {
      AnyMatch(filters, componentMatches)
    }

    /** `explain`: the explanation of each component on a line of its own. */
    function Explain(explainOne: C --> string): string
      requires forall k :: 0 <= k < |filters| ==> explainOne.requires(filters[k])
      reads this
    {
      ExplainAll(filters, explainOne)
    }
  }

  function AnyMatch<C>(cs: seq<C>, m: C -> bool): (b: bool)
    ensures b <==> exists k :: 0 <= k < |cs| && m(cs[k])
  {
    if |cs| == 0 then false
    else m(cs[0]) || (assert forall k :: 0 < k < |cs| ==> cs[k] == cs[1..][k - 1]; AnyMatch(cs[1..], m))
  }

  function ExplainAll<C>(cs: seq<C>, explainOne: C --> string): string
    requires forall k :: 0 <= k < |cs| ==> explainOne.requires(cs[k])
  {
    if |cs| == 0 then "" else explainOne(cs[0]) + "\n" + ExplainAll(cs[1..], explainOne)
  }

  /** The explanation has one line per component, in component order, when
      no single explanation spans several lines. */
  lemma {:induction false} ExplainLines<C>(cs: seq<C>, explainOne: C --> string)
    requires forall k :: 0 <= k < |cs| ==> explainOne.requires(cs[k])
    requires forall k :: 0 <= k < |cs| ==> NoChar(explainOne(cs[k]), '\n')
    ensures SplitOn(ExplainAll(cs, explainOne), '\n') ==
      seq(|cs|, k requires 0 <= k < |cs| => explainOne(cs[k])) + [""]
  {
    if |cs| == 0 {
    } else {
      ExplainLines(cs[1..], explainOne);
      var line := explainOne(cs[0]);
      var rest := ExplainAll(cs[1..], explainOne);
      SplitOnPrefix(line, rest, '\n');
      assert ExplainAll(cs, explainOne) == line + ['\n'] + rest;
      assert seq(|cs|, k requires 0 <= k < |cs| => explainOne(cs[k])) ==
        [line] + seq(|cs[1..]|, k requires 0 <= k < |cs[1..]| => explainOne(cs[1..][k]));
    }
  }

  /** A filter string of only whitespace parses to no components, and an
      empty filter matches nothing. */
  lemma EmptyFilter<G, C>(regex: string -> Option<G>, types: seq<G -> Result<Option<C>, string>>, filter: string, m: C -> bool)
    requires forall k :: 0 <= k < |filter| ==> IsSpace(filter[k])
    ensures Parsed(regex, types, Words(filter)) == ([], None)
    ensures !AnyMatch(Parsed(regex, types, Words(filter)).0, m)
  {
    AllSpaceWords(filter);
  }

  lemma {:induction false} AllSpaceWords(s: string)
    requires forall k :: 0 <= k < |s| ==> IsSpace(s[k])
    ensures Words(s) == []
    decreases |s|
  {
    if |s| > 0 {
      AllSpaceWords(s[1..]);
    }
  }
}
