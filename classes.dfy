/** The shared records of the bot (`discord/classes.py`): cached nations and
    regions, regional officer authority, recruitment bucket queues and RMB
    messages. Times are seconds since the epoch as `real`. */
module Classes {
  import opened Wrappers
  import opened Strings
  import opened Filters
  import opened RecruitFilters

  /** World Assembly status of a nation. */
  const NonWa: int := 0
  const WaMember: int := 1
  const WaDelegate: int := 2

  /** A cached nation. */
  datatype Nation = Nation(
    id: string,
    name: string,
    flagUrl: string,
    waStatus: int,
    region: string,
    endorsements: set<string>,
    residencyNum: real,
    population: int,
    canRecruit: bool,
    lastLogin: int,
    foundedAt: int,
    lastApiUpdateTime: real,
    lastResidencyUpdateTime: real,
    flagDirty: bool)

  /** Python's `int(x)` on a float: truncation toward zero. */
  function Trunc(x: real): (n: int)
    ensures x >= 0.0 ==> n as real <= x < n as real + 1.0
    ensures x < 0.0 ==> n as real - 1.0 < x <= n as real
  {
    if x >= 0.0 then x.Floor else -((-x).Floor)
  }

  /** `resetLogin`: the last login becomes the current whole second; no
      other field changes. */
  function ResetLogin(n: Nation, now: real): (r: Nation)
    ensures r.lastLogin == Trunc(now)
    ensures r.(lastLogin := n.lastLogin) == n
  {
    n.(lastLogin := Trunc(now))
  }

  /** `resetResidency`: residency starts again from zero now. */
  function ResetResidency(n: Nation, now: real): (r: Nation)
    ensures r.residencyNum == 0.0 && r.lastResidencyUpdateTime == now
    ensures r.(residencyNum := n.residencyNum, lastResidencyUpdateTime := n.lastResidencyUpdateTime) == n
  {
    n.(residencyNum := 0.0, lastResidencyUpdateTime := now)
  }

  /** `residency()`: the recorded days of residency plus the days elapsed
      since they were recorded. */
  function Residency(n: Nation, now: real): real {
    n.residencyNum + (now - n.lastResidencyUpdateTime) / 86400.0
  }

  /** Right after a reset the residency is zero, and it then grows by one
      per day. */
  lemma ResidencyAfterReset(n: Nation, t: real, days: real)
    ensures Residency(ResetResidency(n, t), t) == 0.0
    ensures Residency(ResetResidency(n, t), t + 86400.0 * days) == days
  {
  }

  /** The powers of a regional officer. */
  datatype Authority = Authority(
    successor: bool,
    appearance: bool,
    borderControl: bool,
    communications: bool,
    embassies: bool,
    polls: bool)

  /** `Authority.parse`: each flag is set iff its letter occurs in the text;
      other characters are ignored. */
  method ParseAuthority(text: string) returns (a: Authority)
    ensures a.successor <==> 'S' in text
    ensures a.appearance <==> 'A' in text
    ensures a.borderControl <==> 'B' in text
    ensures a.communications <==> 'C' in text
    ensures a.embassies <==> 'E' in text
    ensures a.polls <==> 'P' in text
  {
    a := Authority(false, false, false, false, false, false);
    var i := 0;
    while i < |text|
      invariant 0 <= i <= |text|
      invariant a.successor <==> 'S' in text[..i]
      invariant a.appearance <==> 'A' in text[..i]
      invariant a.borderControl <==> 'B' in text[..i]
      invariant a.communications <==> 'C' in text[..i]
      invariant a.embassies <==> 'E' in text[..i]
      invariant a.polls <==> 'P' in text[..i]
    {
      var c := text[i];
      assert text[..i + 1] == text[..i] + [c];
      if c == 'S' {
        a := a.(successor := true);
      } else if c == 'A' {
        a := a.(appearance := true);
      } else if c == 'B' {
        a := a.(borderControl := true);
      } else if c == 'C' {
        a := a.(communications := true);
      } else if c == 'E' {
        a := a.(embassies := true);
      } else if c == 'P' {
        a := a.(polls := true);
      }
      i := i + 1;
    }
    assert text[..i] == text;
  }

  datatype RegionalOfficer = RegionalOfficer(nationId: string, officeName: string, authority: Authority)

  /** The tracked region, without its resident set: the cache keeps that
      set as its regional index entry for the region (see `Cache`). */
  datatype Region = Region(
    id: string,
    name: string,
    delegate: Option<string>,
    officers: map<string, RegionalOfficer>,
    recruiters: set<string>,
    lastApiUpdateTime: real)

  /** How a bucket may be used to recruit. */
  const ModeApi: int := 0
  const ModeManual: int := 1
  const ModeBoth: int := 2

  /** What is left of a sequence appended to a deque of at most `n`
      entries: its last `n` elements. */
  function LastN<T>(s: seq<T>, n: nat): (r: seq<T>)
    ensures |r| == if |s| <= n then |s| else n
    ensures r == s[|s| - |r|..]
  {
    if |s| <= n then s else s[|s| - n..]
  }

  /** `lastUpdate` of a bucket holding `nations`: 0 when empty, otherwise
      the time of the newest (rightmost) entry plus the priority. */
  function QueueLastUpdate(nations: seq<(string, real)>, priority: real): real {
    if |nations| > 0 then nations[|nations| - 1].1 + priority else 0.0
  }

  /** A recruitment bucket: a bounded deque of (nation, time) entries fed by
      the nations its filter matches. */
  class BucketQueue {
    var name: string
    var filter: seq<Component>
    var nations: seq<(string, real)>
    const maxlen: nat
    var priority: real
    var mode: int
    var templates: seq<string>

    predicate Valid()
      reads this
    {
      |nations| <= maxlen
    }

    constructor(name: string, filter: seq<Component>, maxlen: nat, priority: real, mode: int, templates: seq<string>)
      ensures Valid() && nations == []
      ensures this.name == name && this.filter == filter && this.maxlen == maxlen
      ensures this.priority == priority && this.mode == mode && this.templates == templates
    {
      this.name := name;
      this.filter := filter;
      this.nations := [];
      this.maxlen := maxlen;
      this.priority := priority;
      this.mode := mode;
      this.templates := templates;
    }

    /** `BucketQueue.create`: parses the filter text, raising its
        `FilterError`, and starts with an empty deque of the given size. */
    static method Create(name: string, filter: string, size: nat, priority: real, mode: int, templates: seq<string>)
      returns (r: Result<BucketQueue, string>)
      ensures r.Failure? <==> Parsed(MatchStatement, Types, Words(filter)).1.Some?
      ensures r.Failure? ==> r.error == Parsed(MatchStatement, Types, Words(filter)).1.value
      ensures r.Success? ==>
                (fresh(r.value) && r.value.Valid() && r.value.nations == [] &&
                 r.value.filter == Parsed(MatchStatement, Types, Words(filter)).0 &&
                 r.value.name == name && r.value.maxlen == size && r.value.priority == priority &&
                 r.value.mode == mode && r.value.templates == templates)
    {
      var f := NewRecruitFilter();
      var error := f.Parse(filter);
      if error.Some? {
        return Failure(error.value);
      }
      var b := new BucketQueue(name, f.filters, size, priority, mode, templates);
      return Success(b);
    }

    /** `nations.append(entry)`: a full deque drops its oldest (leftmost)
        entry. */
    method Append(entry: (string, real))
      requires Valid()
      modifies this`nations
      ensures Valid()
      ensures nations == LastN(old(nations) + [entry], maxlen)
    {
      nations := LastN(nations + [entry], maxlen);
    }

    /** `nations.pop()`: removes and returns the newest (rightmost) entry. */
    method Pop() returns (entry: (string, real))
      requires Valid() && |nations| > 0
      modifies this`nations
      ensures Valid()
      ensures entry == old(nations)[|old(nations)| - 1]
      ensures nations == old(nations)[..|old(nations)| - 1]
    {
      entry := nations[|nations| - 1];
      nations := nations[..|nations| - 1];
    }

    /** `lastUpdate`. */
    function LastUpdate(): real
      reads this
    {
      QueueLastUpdate(nations, priority)
    }

    function SupportsManual(): bool
      reads this
    {
      mode != ModeApi
    }

    function SupportsAPI(): bool
      reads this
    {
      mode != ModeManual
    }
  }

  /** A full bucket keeps its size: appending drops exactly the oldest
      entry and adds the new one at the newest end. */
  lemma AppendToFull<T>(s: seq<T>, x: T, n: nat)
    requires |s| == n && n > 0
    ensures LastN(s + [x], n) == s[1..] + [x]
  {
  }

  /** A bucket with room keeps every entry. */
  lemma AppendWithRoom<T>(s: seq<T>, x: T, n: nat)
    requires |s| < n
    ensures LastN(s + [x], n) == s + [x]
  {
  }

  /** After an entry is appended to a bucket of positive size, the bucket
      was last updated at the entry's time plus its priority; after its
      newest entry is popped, at the next newest one's. */
  lemma LastUpdateAfterAppendAndPop(nations: seq<(string, real)>, entry: (string, real), maxlen: nat, priority: real)
    requires maxlen > 0
    ensures QueueLastUpdate(LastN(nations + [entry], maxlen), priority) == entry.1 + priority
    ensures |nations| > 1 ==>
      QueueLastUpdate(nations[..|nations| - 1], priority) == nations[|nations| - 2].1 + priority
  {
  }

  /** The three modes: the API-only mode is not manual, the manual-only mode
      is not API, and the both mode is both. */
  lemma ModeSupport(b: BucketQueue)
    ensures b.mode == ModeApi ==> !b.SupportsManual() && b.SupportsAPI()
    ensures b.mode == ModeManual ==> b.SupportsManual() && !b.SupportsAPI()
    ensures b.mode == ModeBoth ==> b.SupportsManual() && b.SupportsAPI()
  {
  }

  /** RMB post status codes. */
  const RmbNormalPost: int := 0
  const RmbSuppressed: int := 1
  const RmbSelfDeleted: int := 2
  const RmbModSuppressed: int := 9

  /** A post on the regional message board. */
  datatype Message = Message(
    id: int,
    timestamp: int,
    nation: string,
    status: int,
    suppressor: Option<string>,
    content: Option<string>)
}
