/** The regional message board feed (`discord/cogs/rmb.py`,
    `discord/views/rmb.py`): on each board event the cog fetches the latest
    posts, posts the new ones to the feed channel and edits the posts it has
    already shown when their content or status changes.

    Channel traffic is returned as a list of deliveries. Parsing a post's
    markup is a parameter (`parse`, `None` when the parser raises), and so
    is the name the cache shows for a suppressor (`lookup`). */
module Rmb {
  import opened Wrappers
  import opened Strings
  import opened Lib
  import opened Classes
  import opened NsCode

  /** The feed queries the board at most once every 15 seconds. */
  const MaxUpdateFrequency: real := 15.0

  const RmbPage: string := "https://www.nationstates.net/page=display_region_rmb/region="
  const RegionPlaceholder: string := "%%regionid%%"
  const DeletedText: string := "**Original message deleted by author**"
  const ModSuppressedText: string := "**Original message suppressed by moderators**"

  /** A message sent to the feed channel, or an edit of one already sent;
      the link button is attached to normal posts only. */
  datatype Delivery =
    | Posted(postId: int, content: string, withButton: bool)
    | Edited(postId: int, content: string, withButton: bool)

  /** `generateRMBLink`. */
  function RmbLink(region: string, postId: int): string {
    RmbPage + Normalize(region) + "?postid=" + IntToString(postId) + "#p" + IntToString(postId)
  }

  /** The link names the board of the normalized region and the post twice,
      as query and as anchor; a region's display name and its id give the
      same link. */
  lemma RmbLinkParts(region: string, postId: int)
    ensures var link := RmbLink(region, postId);
      var n := |RmbPage| + |Normalize(region)|;
      link[..|RmbPage|] == RmbPage && link[|RmbPage|..n] == Normalize(region) &&
      link[n..] == "?postid=" + IntToString(postId) + "#p" + IntToString(postId)
    ensures RmbLink(Normalize(region), postId) == RmbLink(region, postId)
  {
    var i := IntToString(postId);
    var tail := "?postid=" + i + "#p" + i;
    RmbLinkSplit(region, postId);
    Framed(RmbPage, Normalize(region), tail);
    NormalizeIdempotent(region);
  }

  lemma RmbLinkSplit(region: string, postId: int)
    ensures var i := IntToString(postId);
      RmbLink(region, postId) == RmbPage + Normalize(region) + ("?postid=" + i + "#p" + i)
  {
    var i := IntToString(postId);
    var a := RmbPage + Normalize(region);
    ConcatAssoc(a, "?postid=" + i + "#p", i);
    ConcatAssoc(a, "?postid=" + i, "#p");
    ConcatAssoc(a, "?postid=", i);
  }

  /** The suppressor as an f-string shows it. */
  function SuppressorId(suppressor: Option<string>): string {
    if suppressor.Some? then suppressor.value else "None"
  }

  /** `parseContent`: a normal post's rendered markup with the region
      placeholder filled in (nothing when the markup does not parse); a
      fixed text for deleted and moderator-suppressed posts; otherwise a
      note naming the suppressor. */
  function ParseContent(post: Message, region: string, parse: Option<string> -> Option<NsCodeTree>,
                        lookup: Option<string> -> string): (r: Option<string>)
    ensures post.status == RmbNormalPost ==> (r.None? <==> parse(post.content).None?)
    ensures post.status != RmbNormalPost ==> Truthy(r)
  {
    if post.status == RmbNormalPost then
      match parse(post.content)
      case None => None
      case Some(tree) => Some(Replace(RenderTree(tree), RegionPlaceholder, Normalize(region)))
    else if post.status == RmbSelfDeleted then Some(DeletedText)
    else if post.status == RmbModSuppressed then Some(ModSuppressedText)
    else Some("**Original message suppressed by [" + lookup(post.suppressor) +
              "](https://www.nationstates.net/nation=" + SuppressorId(post.suppressor) + ")**")
  }

  /** The status texts: author deletion and moderator suppression have fixed
      texts, any other non-normal status names the suppressor and links to
      its nation page. */
  lemma StatusTexts(post: Message, region: string, parse: Option<string> -> Option<NsCodeTree>,
                    lookup: Option<string> -> string)
    ensures post.status == RmbSelfDeleted ==> ParseContent(post, region, parse, lookup) == Some(DeletedText)
    ensures post.status == RmbModSuppressed ==> ParseContent(post, region, parse, lookup) == Some(ModSuppressedText)
    ensures post.status !in {RmbNormalPost, RmbSelfDeleted, RmbModSuppressed} ==>
      var t := ParseContent(post, region, parse, lookup).value;
      var name := lookup(post.suppressor);
      t[..|"**Original message suppressed by ["|] == "**Original message suppressed by [" &&
      t[|"**Original message suppressed by ["|..|"**Original message suppressed by ["| + |name|] == name
  {
  }

  /** An `RMBView` as data: the post it shows, its region, its rendered
      content, and whether a channel message exists for it. */
  datatype ViewState = ViewState(post: Message, region: string, content: Option<string>, sent: bool)

  /** A view just constructed: content parsed, nothing sent yet. */
  function NewView(post: Message, region: string, parse: Option<string> -> Option<NsCodeTree>,
                   lookup: Option<string> -> string): ViewState {
    ViewState(post, region, ParseContent(post, region, parse, lookup), false)
  }

  /** `send`: nothing for empty content; otherwise the post goes to the
      channel and the view remembers its message. */
  function SendView(v: ViewState): (ViewState, Option<Delivery>) {
    if !Truthy(v.content) then (v, None)
    else (v.(sent := true), Some(Posted(v.post.id, v.content.value, v.post.status == RmbNormalPost)))
  }

  /** The first half of `update`: a post with the same content and status
      changes nothing; otherwise the view takes the new post and its parsed
      content. */
  function Revised(v: ViewState, newPost: Message, parse: Option<string> -> Option<NsCodeTree>,
                   lookup: Option<string> -> string): ViewState {
    if newPost.content == v.post.content && newPost.status == v.post.status then v
    else v.(post := newPost, content := ParseContent(newPost, v.region, parse, lookup))
  }

  predicate Unchanged(v: ViewState, newPost: Message) {
    newPost.content == v.post.content && newPost.status == v.post.status
  }

  /** `update` as written: a changed post with non-empty content edits the
      view's message, and fails when the view never sent one (its earlier
      content was empty). */
  function UpdatedViewAsWritten(v: ViewState, newPost: Message, parse: Option<string> -> Option<NsCodeTree>,
                                lookup: Option<string> -> string): (ViewState, Result<Option<Delivery>, string>) {
    var w := Revised(v, newPost, parse, lookup);
    if Unchanged(v, newPost) || !Truthy(w.content) then (w, Success(None))
    else if !w.sent then (w, Failure("AttributeError: 'RMBView' object has no attribute 'message'"))
    else (w, Success(Some(Edited(w.post.id, w.content.value, w.post.status == RmbNormalPost))))
  }

  /** `update` corrected: a view that never sent a message sends it now
      instead of editing a message that does not exist. */
  function UpdatedView(v: ViewState, newPost: Message, parse: Option<string> -> Option<NsCodeTree>,
                       lookup: Option<string> -> string): (ViewState, Option<Delivery>) {
    var w := Revised(v, newPost, parse, lookup);
    if Unchanged(v, newPost) || !Truthy(w.content) then (w, None)
    else if !w.sent then SendView(w)
    else (w, Some(Edited(w.post.id, w.content.value, w.post.status == RmbNormalPost)))
  }

  /** A view with content has a channel message. */
  predicate Delivered(v: ViewState) {
    Truthy(v.content) ==> v.sent
  }

  /** Sending, and the corrected update, leave every view with content
      delivered; an unchanged post is left exactly as it was. */
  lemma UpdateDelivers(v: ViewState, newPost: Message, parse: Option<string> -> Option<NsCodeTree>,
                       lookup: Option<string> -> string)
    ensures Delivered(SendView(v).0)
    ensures Delivered(v) ==> Delivered(UpdatedView(v, newPost, parse, lookup).0)
    ensures Unchanged(v, newPost) ==> UpdatedView(v, newPost, parse, lookup) == (v, None)
    ensures v.sent ==> forall d :: UpdatedView(v, newPost, parse, lookup).1 == Some(d) ==> d.Edited?
  {
  }

  /** The state of the post loop: the views by post id, the last post id
      sent, and the deliveries so far. */
  datatype Feed = Feed(views: map<int, ViewState>, lastPost: int, out: seq<Delivery>)

  function Emit(out: seq<Delivery>, d: Option<Delivery>): seq<Delivery> {
    if d.Some? then out + [d.value] else out
  }

  /** One turn of the loop (corrected update): a tracked post is updated;
      an untracked post no newer than the last sent one is skipped; any
      other post gets a new view that is sent, and becomes the last post. */
  function Step(f: Feed, m: Message, region: string, parse: Option<string> -> Option<NsCodeTree>,
                lookup: Option<string> -> string): Feed {
    if m.id in f.views then
      var (v, d) := UpdatedView(f.views[m.id], m, parse, lookup);
      Feed(f.views[m.id := v], f.lastPost, Emit(f.out, d))
    else if m.id <= f.lastPost then f
    else
      var (v, d) := SendView(NewView(m, region, parse, lookup));
      Feed(f.views[m.id := v], m.id, Emit(f.out, d))
  }

  function Process(f: Feed, ms: seq<Message>, region: string, parse: Option<string> -> Option<NsCodeTree>,
                   lookup: Option<string> -> string): Feed
    decreases |ms|
  {
    if ms == [] then f else Process(Step(f, ms[0], region, parse, lookup), ms[1..], region, parse, lookup)
  }

  /** Processing from position `i` is one turn at `i`, then the rest. */
  lemma ProcessAt(f: Feed, ms: seq<Message>, i: nat, region: string, parse: Option<string> -> Option<NsCodeTree>,
                  lookup: Option<string> -> string)
    requires i < |ms|
    ensures Process(f, ms[i..], region, parse, lookup) ==
      Process(Step(f, ms[i], region, parse, lookup), ms[i + 1..], region, parse, lookup)
  {
    assert ms[i..][1..] == ms[i + 1..];
  }

  /** The three cases of one turn. */
  lemma StepSpec(f: Feed, m: Message, region: string, parse: Option<string> -> Option<NsCodeTree>,
                 lookup: Option<string> -> string)
    ensures var g := Step(f, m, region, parse, lookup);
      (m.id in f.views ==>
         (g.lastPost == f.lastPost && g.views.Keys == f.views.Keys &&
          (forall k :: k in f.views && k != m.id ==> g.views[k] == f.views[k]) &&
          (f.views[m.id].sent ==> forall d :: d in g.out[|f.out|..] ==> d.Edited? && d.postId == m.id))) &&
      (m.id !in f.views && m.id <= f.lastPost ==> g == f) &&
      (m.id !in f.views && m.id > f.lastPost ==>
         (g.lastPost == m.id && g.views.Keys == f.views.Keys + {m.id} &&
         g.views[m.id].post == m && g.views[m.id].sent == Truthy(g.views[m.id].content) &&
         (forall k :: k in f.views ==> g.views[k] == f.views[k]) &&
         (forall d :: d in g.out[|f.out|..] ==> d.Posted? && d.postId == m.id)))
  {
  }

  /** Over a whole batch: the last post id never goes down, tracked views
      stay tracked, every newly tracked post is newer than the last post
      before the batch, and earlier deliveries are kept. */
  lemma {:induction false} ProcessMonotone(f: Feed, ms: seq<Message>, region: string,
                                           parse: Option<string> -> Option<NsCodeTree>, lookup: Option<string> -> string)
    ensures var g := Process(f, ms, region, parse, lookup);
      g.lastPost >= f.lastPost && f.views.Keys <= g.views.Keys &&
      (forall k :: k in g.views && k !in f.views ==> k > f.lastPost) &&
      |g.out| >= |f.out| && g.out[..|f.out|] == f.out
    decreases |ms|
  {
    if ms != [] {
      var f1 := Step(f, ms[0], region, parse, lookup);
      StepSpec(f, ms[0], region, parse, lookup);
      ProcessMonotone(f1, ms[1..], region, parse, lookup);
      var g := Process(f1, ms[1..], region, parse, lookup);
      assert g.out[..|f1.out|][..|f.out|] == g.out[..|f.out|];
    }
  }

  /** Every view with content keeps a channel message throughout a batch. */
  lemma {:induction false} ProcessDelivers(f: Feed, ms: seq<Message>, region: string,
                                           parse: Option<string> -> Option<NsCodeTree>, lookup: Option<string> -> string)
    requires forall k :: k in f.views ==> Delivered(f.views[k])
    ensures var g := Process(f, ms, region, parse, lookup);
      forall k :: k in g.views ==> Delivered(g.views[k])
    decreases |ms|
  {
    if ms != [] {
      var m := ms[0];
      if m.id in f.views {
        UpdateDelivers(f.views[m.id], m, parse, lookup);
      } else {
        UpdateDelivers(NewView(m, region, parse, lookup), m, parse, lookup);
      }
      var f1 := Step(f, m, region, parse, lookup);
      assert forall k :: k in f1.views ==> Delivered(f1.views[k]);
      ProcessDelivers(f1, ms[1..], region, parse, lookup);
      assert Process(f, ms, region, parse, lookup) == Process(f1, ms[1..], region, parse, lookup);
    }
  }

  /** One turn with the update as written: an update may fail. */
  function StepAsWritten(f: Feed, m: Message, region: string, parse: Option<string> -> Option<NsCodeTree>,
                         lookup: Option<string> -> string): Result<Feed, string> {
    if m.id in f.views then
      var (v, r) := UpdatedViewAsWritten(f.views[m.id], m, parse, lookup);
      match r
      case Failure(e) => Failure(e)
      case Success(d) => Success(Feed(f.views[m.id := v], f.lastPost, Emit(f.out, d)))
    else Success(Step(f, m, region, parse, lookup))
  }

  /** The loop as written: it stops at the first failing update, returning
      what it did before and the error. */
  function ProcessAsWritten(f: Feed, ms: seq<Message>, region: string, parse: Option<string> -> Option<NsCodeTree>,
                            lookup: Option<string> -> string): (Feed, Option<string>)
    decreases |ms|
  {
    if ms == [] then (f, None)
    else match StepAsWritten(f, ms[0], region, parse, lookup)
      case Failure(e) => (f, Some(e))
      case Success(g) => ProcessAsWritten(g, ms[1..], region, parse, lookup)
  }

  /** The cog's state: the in-progress flag, the time of the last completed
      update, the views by post id and the stored last post id. */
  datatype CogState = CogState(updating: bool, lastUpdate: real, views: map<int, ViewState>, rmbLastPost: int)

  /** The wait before fetching: whatever remains of the 15 seconds since the
      last update. */
  function RateWait(lastUpdate: real, now: real): (w: real)
    ensures w >= 0.0
    ensures now + w >= lastUpdate + MaxUpdateFrequency
    ensures now >= lastUpdate + MaxUpdateFrequency ==> w == 0.0
  {
    if now - lastUpdate < MaxUpdateFrequency then MaxUpdateFrequency - (now - lastUpdate) else 0.0
  }

  /** `updateRmb` as written. A failing update escapes the coroutine: the
      stored last post is not saved and the in-progress flag stays set. */
  function RmbUpdateAsWritten(c: CogState, channel: bool, messages: seq<Message>, finish: real, region: string,
                              parse: Option<string> -> Option<NsCodeTree>, lookup: Option<string> -> string)
    : (CogState, seq<Delivery>)
  {
    if c.updating || !channel then (c, [])
    else
      var (f, error) := ProcessAsWritten(Feed(c.views, c.rmbLastPost, []), messages, region, parse, lookup);
      if error.Some? then (c.(updating := true, views := f.views), f.out)
      else (CogState(false, finish, f.views, f.lastPost), f.out)
  }

  /** `updateRmb` with the corrected update. */
  function RmbUpdate(c: CogState, channel: bool, messages: seq<Message>, finish: real, region: string,
                     parse: Option<string> -> Option<NsCodeTree>, lookup: Option<string> -> string)
    : (CogState, seq<Delivery>)
  {
    if c.updating || !channel then (c, [])
    else
      var f := Process(Feed(c.views, c.rmbLastPost, []), messages, region, parse, lookup);
      (CogState(false, finish, f.views, f.lastPost), f.out)
  }

  /** Once the in-progress flag is stuck, every later call does nothing. */
  lemma StuckForever(c: CogState, channel: bool, messages: seq<Message>, finish: real, region: string,
                     parse: Option<string> -> Option<NsCodeTree>, lookup: Option<string> -> string)
    requires c.updating
    ensures RmbUpdateAsWritten(c, channel, messages, finish, region, parse, lookup) == (c, [])
  {
  }

  /** A normal post whose markup does not parse gets a view that sends
      nothing; when a moderator later suppresses the post, the update tries
      to edit the missing message, and the feed stays in progress for good. */
  lemma SuppressedUnsentPostWedges(post: Message, c0: CogState, region: string,
                                   parse: Option<string> -> Option<NsCodeTree>, lookup: Option<string> -> string)
    requires post.status == RmbNormalPost && parse(post.content).None?
    requires !c0.updating && post.id !in c0.views && post.id > c0.rmbLastPost
    ensures var (c1, out1) := RmbUpdateAsWritten(c0, true, [post], 20.0, region, parse, lookup);
      var (c2, out2) := RmbUpdateAsWritten(c1, true, [post.(status := RmbModSuppressed)], 40.0, region, parse, lookup);
      out1 == [] && !c1.updating && post.id in c1.views && !c1.views[post.id].sent &&
      c2.updating && out2 == []
  {
    var v := NewView(post, region, parse, lookup);
    assert SendView(v) == (v, None);
    var f1 := Feed(c0.views[post.id := v], post.id, []);
    assert StepAsWritten(Feed(c0.views, c0.rmbLastPost, []), post, region, parse, lookup) == Success(f1);
    assert [post][1..] == [];
    assert ProcessAsWritten(f1, [], region, parse, lookup) == (f1, None);
    var c1 := CogState(false, 20.0, f1.views, post.id);
    assert RmbUpdateAsWritten(c0, true, [post], 20.0, region, parse, lookup) == (c1, []);
    var suppressed := post.(status := RmbModSuppressed);
    assert UpdatedViewAsWritten(v, suppressed, parse, lookup).1.Failure?;
    assert StepAsWritten(Feed(c1.views, c1.rmbLastPost, []), suppressed, region, parse, lookup).Failure?;
  }

  /** With the corrected update the same history ends with the suppression
      notice posted and the feed free for the next event. */
  lemma SuppressedUnsentPostDelivered(post: Message, c0: CogState, region: string,
                                      parse: Option<string> -> Option<NsCodeTree>, lookup: Option<string> -> string)
    requires post.status == RmbNormalPost && parse(post.content).None?
    requires !c0.updating && post.id !in c0.views && post.id > c0.rmbLastPost
    ensures var (c1, out1) := RmbUpdate(c0, true, [post], 20.0, region, parse, lookup);
      var (c2, out2) := RmbUpdate(c1, true, [post.(status := RmbModSuppressed)], 40.0, region, parse, lookup);
      out1 == [] && !c2.updating && out2 == [Posted(post.id, ModSuppressedText, false)]
  {
    var v := NewView(post, region, parse, lookup);
    assert SendView(v) == (v, None);
    var f1 := Feed(c0.views[post.id := v], post.id, []);
    assert Step(Feed(c0.views, c0.rmbLastPost, []), post, region, parse, lookup) == f1;
    assert [post][1..] == [];
    assert Process(f1, [], region, parse, lookup) == f1;
    var c1 := CogState(false, 20.0, f1.views, post.id);
    assert RmbUpdate(c0, true, [post], 20.0, region, parse, lookup) == (c1, []);
    var suppressed := post.(status := RmbModSuppressed);
    var w := Revised(v, suppressed, parse, lookup);
    assert w.content == Some(ModSuppressedText);
    var f2 := Step(Feed(c1.views, c1.rmbLastPost, []), suppressed, region, parse, lookup);
    assert f2.out == [Posted(post.id, ModSuppressedText, false)];
    assert [suppressed][1..] == [];
    assert Process(f2, [], region, parse, lookup) == f2;
  }

  /** The corrected update always finishes: the flag is cleared, the time
      recorded, every view with content has a message, and the stored last
      post only grows. A call while another is in progress, or without a
      feed channel, changes nothing. */
  lemma UpdateRmbFinishes(c: CogState, channel: bool, messages: seq<Message>, finish: real, region: string,
                          parse: Option<string> -> Option<NsCodeTree>, lookup: Option<string> -> string)
    requires forall k :: k in c.views ==> Delivered(c.views[k])
    ensures var (d, out) := RmbUpdate(c, channel, messages, finish, region, parse, lookup);
      (c.updating || !channel ==> d == c && out == []) &&
      (!c.updating && channel ==>
         (!d.updating && d.lastUpdate == finish && d.rmbLastPost >= c.rmbLastPost &&
          c.views.Keys <= d.views.Keys)) &&
      forall k :: k in d.views ==> Delivered(d.views[k])
  {
    if !c.updating && channel {
      ProcessMonotone(Feed(c.views, c.rmbLastPost, []), messages, region, parse, lookup);
      ProcessDelivers(Feed(c.views, c.rmbLastPost, []), messages, region, parse, lookup);
    }
  }

  /** An `RMBView`. */
  class RmbView {
    var post: Message
    var content: Option<string>
    var sent: bool
    const region: string

    function State(): ViewState
      reads this
    {
      ViewState(post, region, content, sent)
    }

    constructor(post: Message, region: string, parse: Option<string> -> Option<NsCodeTree>,
                lookup: Option<string> -> string)
      ensures State() == NewView(post, region, parse, lookup)
    {
      this.post := post;
      this.region := region;
      this.content := ParseContent(post, region, parse, lookup);
      this.sent := false;
    }

    /** `send`. */
    method Send() returns (d: Option<Delivery>)
      modifies this
      ensures (State(), d) == SendView(old(State()))
    {
      d := None;
      if !Truthy(content) {
        return;
      }
      sent := true;
      d := Some(Posted(post.id, content.value, post.status == RmbNormalPost));
    }

    /** `update`, corrected. */
    method Update(newPost: Message, parse: Option<string> -> Option<NsCodeTree>, lookup: Option<string> -> string)
      returns (d: Option<Delivery>)
      modifies this
      ensures (State(), d) == UpdatedView(old(State()), newPost, parse, lookup)
    {
      d := None;
      if newPost.content == post.content && newPost.status == post.status {
        return;
      }
      content := ParseContent(newPost, region, parse, lookup);
      post := newPost;
      if !Truthy(content) {
        return;
      }
      if !sent {
        d := Send();
        return;
      }
      d := Some(Edited(post.id, content.value, post.status == RmbNormalPost));
    }
  }

  /** The views as data. */
  function ViewsOf(views: map<int, RmbView>): map<int, ViewState>
    reads views.Values
  {
    map k | k in views :: views[k].State()
  }

  /** No two post ids share a view. */
  predicate Distinct(views: map<int, RmbView>) {
    forall a, b :: a in views && b in views && a != b ==> views[a] != views[b]
  }

  /** The `RMBFeed` cog. `rmbLastPost` is the value kept in the stored
      configuration. */
  class RmbFeed {
    var updating: bool
    var lastUpdate: real
    var views: map<int, RmbView>
    var rmbLastPost: int

    predicate Valid()
      reads this
    {
      Distinct(views)
    }

    function State(): CogState
      reads this, views.Values
    {
      CogState(updating, lastUpdate, ViewsOf(views), rmbLastPost)
    }

    constructor(rmbLastPost: int)
      ensures Valid() && State() == CogState(false, 0.0, map[], rmbLastPost)
    {
      updating := false;
      lastUpdate := 0.0;
      views := map[];
      this.rmbLastPost := rmbLastPost;
    }

    /** One turn of the post loop, from the last post id sent and the
        deliveries so far. */
    method Deliver(lastPost: int, out: seq<Delivery>, m: Message, region: string,
                   parse: Option<string> -> Option<NsCodeTree>, lookup: Option<string> -> string)
      returns (newLast: int, newOut: seq<Delivery>)
      requires Valid()
      modifies this`views, views.Values
      ensures Valid() && fresh(views.Values - old(views.Values))
      ensures Feed(ViewsOf(views), newLast, newOut) == Step(Feed(old(ViewsOf(views)), lastPost, out), m, region, parse, lookup)
    {
      ghost var before := ViewsOf(views);
      newLast, newOut := lastPost, out;
      if m.id in views {
        var v := views[m.id];
        var d := v.Update(m, parse, lookup);
        forall k | k in views && k != m.id
          ensures views[k] != v
        {
        }
        assert ViewsOf(views) == before[m.id := v.State()];
        newOut := Emit(out, d);
      } else if m.id > lastPost {
        var v := new RmbView(m, region, parse, lookup);
        var d := v.Send();
        views := views[m.id := v];
        assert ViewsOf(views) == before[m.id := v.State()];
        newLast, newOut := m.id, Emit(out, d);
      }
    }

    /** `updateRmb`, with the corrected update. Returns the wait before
        the fetch and the channel traffic. */
    method UpdateRmb(channel: bool, messages: seq<Message>, now: real, finish: real, region: string,
                     parse: Option<string> -> Option<NsCodeTree>, lookup: Option<string> -> string)
      returns (wait: real, out: seq<Delivery>)
      requires Valid()
      modifies this, views.Values
      ensures Valid()
      ensures (State(), out) == RmbUpdate(old(State()), channel, messages, finish, region, parse, lookup)
      ensures !old(updating) && channel ==> wait == RateWait(old(lastUpdate), now)
    {
      wait := 0.0;
      out := [];
      if updating || !channel {
        return;
      }
      ghost var start := Feed(ViewsOf(views), rmbLastPost, []);
      assert start == Feed(old(State()).views, old(State()).rmbLastPost, []);
      updating := true;
      wait := RateWait(lastUpdate, now);
      var lastPost;
      lastPost, out := DeliverAll(rmbLastPost, messages, region, parse, lookup);
      ghost var final := Feed(ViewsOf(views), lastPost, out);
      rmbLastPost, lastUpdate, updating := lastPost, finish, false;
      assert State() == CogState(false, finish, final.views, final.lastPost);
    }

    /** The loop of `updateRmb`: one turn per fetched message, in order. */
    method DeliverAll(lastPost: int, messages: seq<Message>, region: string,
                      parse: Option<string> -> Option<NsCodeTree>, lookup: Option<string> -> string)
      returns (newLast: int, out: seq<Delivery>)
      requires Valid()
      modifies this`views, views.Values
      ensures Valid() && fresh(views.Values - old(views.Values))
      ensures Feed(ViewsOf(views), newLast, out) ==
        Process(Feed(old(ViewsOf(views)), lastPost, []), messages, region, parse, lookup)
    {
      ghost var start := Feed(ViewsOf(views), lastPost, []);
      newLast, out := lastPost, [];
      var i := 0;
      while i < |messages|
        invariant 0 <= i <= |messages|
        invariant Valid()
        invariant fresh(views.Values - old(views.Values))
        invariant Process(Feed(ViewsOf(views), newLast, out), messages[i..], region, parse, lookup) ==
                  Process(start, messages, region, parse, lookup)
      {
        ProcessAt(Feed(ViewsOf(views), newLast, out), messages, i, region, parse, lookup);
        newLast, out := Deliver(newLast, out, messages[i], region, parse, lookup);
        i := i + 1;
      }
      assert messages[i..] == [];
    }
  }
}
