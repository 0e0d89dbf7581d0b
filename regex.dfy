/** The fragment of Python regular expressions used by the happening table:
    literal text, captured and uncaptured runs of one character class
    (`([a-z0-9_\-]+)`, `(?:[0-9]+)`) and a captured choice between literals
    (`(founded|refounded)`), matched at the start of the subject as
    `re.match` does.

    `Match` is a deterministic matcher (greedy runs, alternatives tried in
    order).  `Rel` is the declarative meaning of a pattern: some split of the
    subject puts every piece in its place.  For well-formed patterns, those
    in which every run is followed by literal text starting outside the
    run's class and no alternative is a prefix of another, the two agree
    exactly; so backtracking, which Python's engine would attempt, never
    finds anything the greedy matcher misses. */
module Regex {
  import opened Wrappers

  datatype CharClass = IdChars | Digits

  /** `[a-z0-9_\-]` and `[0-9]`. */
  predicate InClass(c: char, cls: CharClass) {
    match cls
    case IdChars => ('a' <= c <= 'z') || ('0' <= c <= '9') || c == '_' || c == '-'
    case Digits => '0' <= c <= '9'
  }

  predicate AllIn(s: string, cls: CharClass) {
    forall i :: 0 <= i < |s| ==> InClass(s[i], cls)
  }

  /** One piece of a pattern. */
  datatype Elem =
    | Lit(text: string)          // literal text
    | Group(cls: CharClass)      // ([class]+), captured
    | Skip(cls: CharClass)       // (?:[class]+), not captured
    | Choice(alts: seq<string>)  // (a|b|...), captured

  /** A pattern: its pieces in order. */
  datatype Pattern = End | Then(head: Elem, next: Pattern)

  predicate StartsWith(s: string, prefix: string) {
    |prefix| <= |s| && s[..|prefix|] == prefix
  }

  /** Length of the longest prefix of `s` inside the class. */
  function Run(s: string, cls: CharClass): (k: nat)
    ensures k <= |s| && AllIn(s[..k], cls)
    ensures k < |s| ==> !InClass(s[k], cls)
  {
    if |s| == 0 || !InClass(s[0], cls) then 0
    else
      var k := Run(s[1..], cls);
      assert s[..k + 1] == [s[0]] + s[1..][..k];
      k + 1
  }

  /** Index of the first alternative that starts `s`, or `|alts|`. */
  function FirstAlt(alts: seq<string>, s: string): (i: nat)
    ensures i <= |alts|
    ensures i < |alts| ==> StartsWith(s, alts[i])
    ensures forall j :: 0 <= j < i ==> !StartsWith(s, alts[j])
  {
    if |alts| == 0 then 0
    else if StartsWith(s, alts[0]) then 0
    else 1 + FirstAlt(alts[1..], s)
  }

  /** The captures and the unmatched remainder of the subject, or `None`. */
  function Match(p: Pattern, s: string): Option<(seq<string>, string)>
  {
    if p.End? then Some(([], s))
    else match p.head
      case Lit(l) =>
        if StartsWith(s, l) then Match(p.next, s[|l|..]) else None
      case Group(c) =>
        var k := Run(s, c);
        if k == 0 then None
        else (match Match(p.next, s[k..])
              case None => None
              case Some((caps, rest)) => Some(([s[..k]] + caps, rest)))
      case Skip(c) =>
        var k := Run(s, c);
        if k == 0 then None else Match(p.next, s[k..])
      case Choice(alts) =>
        var i := FirstAlt(alts, s);
        if i == |alts| then None
        else (match Match(p.next, s[|alts[i]|..])
              case None => None
              case Some((caps, rest)) => Some(([alts[i]] + caps, rest)))
  }

  /** `p` matches a prefix of `s` with captures `caps`, leaving `rest`. */
  predicate Rel(p: Pattern, s: string, caps: seq<string>, rest: string)
  {
    if p.End? then caps == [] && rest == s
    else match p.head
      case Lit(l) =>
        StartsWith(s, l) && Rel(p.next, s[|l|..], caps, rest)
      case Group(c) =>
        |caps| > 0 && |caps[0]| > 0 && StartsWith(s, caps[0]) && AllIn(caps[0], c) &&
        Rel(p.next, s[|caps[0]|..], caps[1..], rest)
      case Skip(c) =>
        exists k :: 0 < k <= |s| && AllIn(s[..k], c) && Rel(p.next, s[k..], caps, rest)
      case Choice(alts) =>
        |caps| > 0 && caps[0] in alts && StartsWith(s, caps[0]) &&
        Rel(p.next, s[|caps[0]|..], caps[1..], rest)
  }

  /** No alternative is a proper prefix of another. */
  predicate PrefixFree(alts: seq<string>) {
    forall i, j :: 0 <= i < |alts| && 0 <= j < |alts| && alts[i] != alts[j] ==>
      !StartsWith(alts[j], alts[i])
  }

  predicate HeadWellFormed(p: Pattern)
    requires p.Then?
  {
    match p.head
    case Lit(_) => true
    case Group(c) => p.next.Then? && p.next.head.Lit? && |p.next.head.text| > 0 && !InClass(p.next.head.text[0], c)
    case Skip(c) => p.next.Then? && p.next.head.Lit? && |p.next.head.text| > 0 && !InClass(p.next.head.text[0], c)
    case Choice(alts) => PrefixFree(alts)
  }

  /** Every run is followed by literal text that starts outside its class,
      and every choice is prefix-free. */
  predicate WellFormed(p: Pattern)
  {
    p.End? || (HeadWellFormed(p) && WellFormed(p.next))
  }

  /** Number of capture groups. */
  function GroupCount(p: Pattern): nat
  {
    if p.End? then 0
    else (if p.head.Group? || p.head.Choice? then 1 else 0) + GroupCount(p.next)
  }

  /** Each capture has the form its group demands, in order. */
  predicate CapturesFit(p: Pattern, caps: seq<string>)
  {
    if p.End? then caps == []
    else match p.head
      case Group(c) => |caps| > 0 && |caps[0]| > 0 && AllIn(caps[0], c) && CapturesFit(p.next, caps[1..])
      case Choice(alts) => |caps| > 0 && caps[0] in alts && CapturesFit(p.next, caps[1..])
      case _ => CapturesFit(p.next, caps)
  }

  /** The uncaptured runs have the form their pieces demand, in order. */
  predicate SkipsFit(p: Pattern, skips: seq<string>)
  {
    if p.End? then skips == []
    else match p.head
      case Skip(c) => |skips| > 0 && |skips[0]| > 0 && AllIn(skips[0], c) && SkipsFit(p.next, skips[1..])
      case _ => SkipsFit(p.next, skips)
  }

  lemma {:induction false} FitCount(p: Pattern, caps: seq<string>)
    requires CapturesFit(p, caps)
    ensures |caps| == GroupCount(p)
  {
    if p.Then? {
      if p.head.Group? || p.head.Choice? { FitCount(p.next, caps[1..]); } else { FitCount(p.next, caps); }
    }
  }

  /** The text a pattern matches when its groups hold `caps` and its
      uncaptured runs hold `skips`. */
  function Fill(p: Pattern, caps: seq<string>, skips: seq<string>): string
    requires CapturesFit(p, caps) && SkipsFit(p, skips)
  {
    if p.End? then ""
    else match p.head
      case Lit(l) => l + Fill(p.next, caps, skips)
      case Group(_) => caps[0] + Fill(p.next, caps[1..], skips)
      case Skip(_) => skips[0] + Fill(p.next, caps, skips[1..])
      case Choice(_) => caps[0] + Fill(p.next, caps[1..], skips)
  }

  lemma StartsWithAppend(a: string, b: string)
    ensures StartsWith(a + b, a) && (a + b)[|a|..] == b
  {
    assert (a + b)[..|a|] == a;
  }

  lemma PrefixesCompare(s: string, a: string, b: string)
    requires StartsWith(s, a) && StartsWith(s, b) && |a| <= |b|
    ensures StartsWith(b, a)
  {
    assert b[..|a|] == s[..|b|][..|a|];
  }

  /** The matcher finds only genuine matches. */
  lemma {:induction false} MatchSound(p: Pattern, s: string)
    requires Match(p, s).Some?
    ensures Rel(p, s, Match(p, s).value.0, Match(p, s).value.1)
  {
    if p.Then? {
      match p.head
      case Lit(l) =>
        MatchSound(p.next, s[|l|..]);
      case Group(c) =>
        var k := Run(s, c);
        MatchSound(p.next, s[k..]);
        var caps := Match(p, s).value.0;
        assert caps[0] == s[..k] && caps[1..] == Match(p.next, s[k..]).value.0;
      case Skip(c) =>
        var k := Run(s, c);
        MatchSound(p.next, s[k..]);
      case Choice(alts) =>
        var i := FirstAlt(alts, s);
        MatchSound(p.next, s[|alts[i]|..]);
        var caps := Match(p, s).value.0;
        assert caps[0] == alts[i] && caps[1..] == Match(p.next, s[|alts[i]|..]).value.0;
    }
  }

  /** A run followed by literal text that starts outside the class can only
      be the longest run. */
  lemma RunIsLongest(q: Pattern, s: string, c: CharClass, j: nat, caps: seq<string>, rest: string)
    requires q.Then? && q.head.Lit? && |q.head.text| > 0 && !InClass(q.head.text[0], c)
    requires 0 < j <= |s| && AllIn(s[..j], c)
    requires Rel(q, s[j..], caps, rest)
    ensures j == Run(s, c)
  {
    var k := Run(s, c);
    var l := q.head.text;
    assert StartsWith(s[j..], l);
    assert s[j] == s[j..][..|l|][0] == l[0];
    if j < k {
      assert false;
    } else if k < j {
      assert false;
    }
  }

  /** Every match is the one the matcher finds: a well-formed pattern has at
      most one way to match a prefix of a subject. */
  lemma {:induction false} MatchComplete(p: Pattern, s: string, caps: seq<string>, rest: string)
    requires WellFormed(p)
    requires Rel(p, s, caps, rest)
    ensures Match(p, s) == Some((caps, rest))
  {
    if p.Then? {
      match p.head
      case Lit(l) =>
        MatchComplete(p.next, s[|l|..], caps, rest);
      case Group(c) =>
        var j := |caps[0]|;
        assert s[..j] == caps[0];
        RunIsLongest(p.next, s, c, j, caps[1..], rest);
        MatchComplete(p.next, s[j..], caps[1..], rest);
        assert [caps[0]] + caps[1..] == caps;
      case Skip(c) =>
        var j :| 0 < j <= |s| && AllIn(s[..j], c) && Rel(p.next, s[j..], caps, rest);
        RunIsLongest(p.next, s, c, j, caps, rest);
        MatchComplete(p.next, s[j..], caps, rest);
      case Choice(alts) =>
        var i := FirstAlt(alts, s);
        var m :| 0 <= m < |alts| && alts[m] == caps[0];
        assert i <= m;
        if alts[i] != caps[0] {
          if |alts[i]| <= |caps[0]| {
            PrefixesCompare(s, alts[i], caps[0]);
          } else {
            PrefixesCompare(s, caps[0], alts[i]);
          }
          assert false;
        }
        MatchComplete(p.next, s[|caps[0]|..], caps[1..], rest);
        assert [caps[0]] + caps[1..] == caps;
    }
  }

  /** The captures of a match have the form their groups demand. */
  lemma {:induction false} RelFits(p: Pattern, s: string, caps: seq<string>, rest: string)
    requires Rel(p, s, caps, rest)
    ensures CapturesFit(p, caps)
  {
    if p.Then? {
      match p.head
      case Lit(l) => RelFits(p.next, s[|l|..], caps, rest);
      case Group(c) => RelFits(p.next, s[|caps[0]|..], caps[1..], rest);
      case Skip(c) =>
        var j :| 0 < j <= |s| && AllIn(s[..j], c) && Rel(p.next, s[j..], caps, rest);
        RelFits(p.next, s[j..], caps, rest);
      case Choice(alts) => RelFits(p.next, s[|caps[0]|..], caps[1..], rest);
    }
  }

  /** Text after a match does not disturb it: matching is anchored at the
      start only. */
  lemma {:induction false} RelAppend(p: Pattern, s: string, caps: seq<string>, rest: string, t: string)
    requires Rel(p, s, caps, rest)
    ensures Rel(p, s + t, caps, rest + t)
  {
    if p.Then? {
      match p.head
      case Lit(l) =>
        assert (s + t)[..|l|] == s[..|l|];
        assert (s + t)[|l|..] == s[|l|..] + t;
        RelAppend(p.next, s[|l|..], caps, rest, t);
      case Group(c) =>
        var j := |caps[0]|;
        assert (s + t)[..j] == s[..j];
        assert (s + t)[j..] == s[j..] + t;
        RelAppend(p.next, s[j..], caps[1..], rest, t);
      case Skip(c) =>
        var j :| 0 < j <= |s| && AllIn(s[..j], c) && Rel(p.next, s[j..], caps, rest);
        assert (s + t)[..j] == s[..j];
        assert (s + t)[j..] == s[j..] + t;
        RelAppend(p.next, s[j..], caps, rest, t);
      case Choice(alts) =>
        var j := |caps[0]|;
        assert (s + t)[..j] == s[..j];
        assert (s + t)[j..] == s[j..] + t;
        RelAppend(p.next, s[j..], caps[1..], rest, t);
    }
  }

  /** Trailing text after a complete match is accepted and left over. */
  lemma MatchAppend(p: Pattern, s: string, t: string)
    requires WellFormed(p) && Match(p, s).Some?
    ensures Match(p, s + t) == Some((Match(p, s).value.0, Match(p, s).value.1 + t))
  {
    MatchSound(p, s);
    RelAppend(p, s, Match(p, s).value.0, Match(p, s).value.1, t);
    MatchComplete(p, s + t, Match(p, s).value.0, Match(p, s).value.1 + t);
  }

  lemma {:induction false} FillRel(p: Pattern, caps: seq<string>, skips: seq<string>)
    requires CapturesFit(p, caps) && SkipsFit(p, skips)
    ensures Rel(p, Fill(p, caps, skips), caps, "")
  {
    if p.Then? {
      match p.head
      case Lit(l) =>
        FillRel(p.next, caps, skips);
        StartsWithAppend(l, Fill(p.next, caps, skips));
      case Group(_) =>
        FillRel(p.next, caps[1..], skips);
        StartsWithAppend(caps[0], Fill(p.next, caps[1..], skips));
      case Skip(c) =>
        FillRel(p.next, caps, skips[1..]);
        var f := Fill(p, caps, skips);
        StartsWithAppend(skips[0], Fill(p.next, caps, skips[1..]));
        assert f[..|skips[0]|] == skips[0];
        assert 0 < |skips[0]| <= |f| && AllIn(f[..|skips[0]|], c) &&
          Rel(p.next, f[|skips[0]|..], caps, "");
      case Choice(_) =>
        FillRel(p.next, caps[1..], skips);
        StartsWithAppend(caps[0], Fill(p.next, caps[1..], skips));
    }
  }

  /** Filling a pattern and matching it gives the captures back, whatever
      follows the filled text. */
  lemma MatchFill(p: Pattern, caps: seq<string>, skips: seq<string>, t: string)
    requires WellFormed(p) && CapturesFit(p, caps) && SkipsFit(p, skips)
    ensures Match(p, Fill(p, caps, skips) + t) == Some((caps, t))
  {
    FillRel(p, caps, skips);
    RelAppend(p, Fill(p, caps, skips), caps, "", t);
    assert "" + t == t;
    MatchComplete(p, Fill(p, caps, skips) + t, caps, t);
  }
}
