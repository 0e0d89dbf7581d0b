/** The render half of the NationStates markup converter
    (`discord/nscode.py`): a parsed tag tree becomes Discord markdown. Every
    tag renders its children, joined, and then either wraps each line of the
    result, links it, quotes it, or passes it through. */
module NsCode {
  import opened Wrappers
  import opened Strings
  import opened Lib

  datatype Tag =
    | TextTag(text: string)
    | BoldTag(children: seq<Tag>)
    | ItalicTag(children: seq<Tag>)
    | UnderlineTag(children: seq<Tag>)
    | StrikeTag(children: seq<Tag>)
    | SubTag(children: seq<Tag>)
    | SupTag(children: seq<Tag>)
    | NationTag(name: string)
    | RegionTag(name: string)
    | ProposalTag(proposalId: string, children: seq<Tag>)
    | ResolutionTag(council: string, resolutionId: string, children: seq<Tag>)
    | UrlTag(url: string, children: seq<Tag>)
    | PreTag(children: seq<Tag>)
    | QuoteTag(author: string, id: string, children: seq<Tag>)
    | SpoilerTag(title: Option<string>, children: seq<Tag>)

  datatype NsCodeTree = NsCodeTree(children: seq<Tag>)

  const SiteRoot: string := "https://www.nationstates.net/"
  /** Quotes keep at most this many characters of their body. */
  const QuoteLimit: nat := 256

  /** `wrapNonEmpty`: the empty text stays empty, any other text is put
      between `start` and `end`. */
  function WrapNonEmpty(text: string, start: string, end: string): (r: string)
    ensures r == "" <==> text == ""
    ensures text != "" ==> (|r| == |start| + |text| + |end| && r[..|start|] == start &&
                            r[|start|..|start| + |text|] == text && r[|start| + |text|..] == end)
  {
    if text == "" then text else start + text + end
  }

  /** Each `\n`-separated line wrapped on its own, as the line-wise tags
      do. */
  function WrapLines(s: string, start: string, end: string): string {
    var lines := SplitOn(s, '\n');
    Join("\n", seq(|lines|, i requires 0 <= i < |lines| => WrapNonEmpty(lines[i], start, end)))
  }

  /** With delimiters free of line breaks, the lines of the result are the
      wrapped lines of the input, one for one: the line count is kept, an
      empty line stays empty and every other line is wrapped. */
  lemma WrapLinesSpec(s: string, start: string, end: string)
    requires NoChar(start, '\n') && NoChar(end, '\n')
    ensures var lines := SplitOn(s, '\n');
      var out := SplitOn(WrapLines(s, start, end), '\n');
      |out| == |lines| &&
      forall i :: 0 <= i < |lines| ==> out[i] == WrapNonEmpty(lines[i], start, end)
  {
    var lines := SplitOn(s, '\n');
    var wrapped := seq(|lines|, i requires 0 <= i < |lines| => WrapNonEmpty(lines[i], start, end));
    forall i | 0 <= i < |wrapped|
      ensures NoChar(wrapped[i], '\n')
    {
      var t := lines[i];
      if t != "" {
        assert wrapped[i] == start + t + end;
        forall k | 0 <= k < |wrapped[i]|
          ensures wrapped[i][k] != '\n'
        {
          if k < |start| {
            assert wrapped[i][k] == start[k];
          } else if k < |start| + |t| {
            assert wrapped[i][k] == t[k - |start|];
          } else {
            assert wrapped[i][k] == end[k - |start| - |t|];
          }
        }
      }
    }
    SplitOnJoin(wrapped, '\n');
  }

  /** `"".join(child.render() for child in children)`. */
  function Subtext(children: seq<Tag>): string
    decreases children, 1
  {
    Concat(seq(|children|, i requires 0 <= i < |children| => Render(children[i])))
  }

  /** The link page of a resolution: council 2 for the Security Council,
      the UN flag for the old UN, council 1 for anything else. */
  function ResolutionPage(council: string, resolutionId: string): string {
    if council == "SC" then "page=WA_past_resolution/id=" + resolutionId + "/council=2"
    else if council == "UN" then "page=WA_past_resolution/id=" + resolutionId + "/un=1"
    else "page=WA_past_resolution/id=" + resolutionId + "/council=1"
  }

  /** A quote body longer than 256 characters is cut to 256 plus "...". */
  function Truncated(subtext: string): (r: string)
    ensures |subtext| <= QuoteLimit ==> r == subtext
    ensures |subtext| > QuoteLimit ==> |r| == QuoteLimit + 3 && r[..QuoteLimit] == subtext[..QuoteLimit] && r[QuoteLimit..] == "..."
  {
    if |subtext| > QuoteLimit then subtext[..QuoteLimit] + "..." else subtext
  }

  /** The attribution line of a quote. */
  function QuoteHeader(author: string, id: string): string {
    "**[Quoted from " + DisplayName(author) + "](" + SiteRoot + "page=rmb/postid=" + id + ")**:\n"
  }

  /** The quoted lines of a quote. */
  function QuoteBody(children: seq<Tag>): string
    decreases children, 2
  {
    WrapLines(Truncated(Subtext(children)), "> ", "")
  }

  /** `Tag.render` for every kind of tag. */
  function Render(t: Tag): string
    decreases t, 0
  {
    match t
    case TextTag(text) => text
    case BoldTag(cs) => WrapLines(Subtext(cs), "**", "**")
    case ItalicTag(cs) => WrapLines(Subtext(cs), "*", "*")
    case UnderlineTag(cs) => WrapLines(Subtext(cs), "__", "__")
    case StrikeTag(cs) => WrapLines(Subtext(cs), "~~", "~~")
    case SubTag(cs) => Subtext(cs)
    case SupTag(cs) => Subtext(cs)
    case NationTag(name) => "[" + DisplayName(name) + "](" + SiteRoot + "nation=" + Normalize(name) + ")"
    case RegionTag(name) => "[" + name + "](" + SiteRoot + "region=" + Normalize(name) + ")"
    case ProposalTag(proposalId, cs) =>
      WrapLines(Subtext(cs), "[", "](" + SiteRoot + "page=UN_view_proposal/id=" + proposalId + ")")
    case ResolutionTag(council, resolutionId, cs) =>
      WrapLines(Subtext(cs), "[", "](" + SiteRoot + ResolutionPage(council, resolutionId) + ")")
    case UrlTag(url, cs) => WrapLines(Subtext(cs), "[", "](" + url + ")")
    case PreTag(cs) => WrapLines(Subtext(cs), "`", "`")
    case QuoteTag(author, id, cs) =>
      if author == "0" || id == "0" then QuoteBody(cs) else QuoteHeader(author, id) + QuoteBody(cs)
    case SpoilerTag(_, cs) => Subtext(cs)
  }

  /** `NsCodeTree.render`. */
  function RenderTree(tree: NsCodeTree): string {
    Subtext(tree.children)
  }

  lemma {:induction false} ConcatAppend(a: seq<string>, b: seq<string>)
    ensures Concat(a + b) == Concat(a) + Concat(b)
  {
    if a != [] {
      assert (a + b)[1..] == a[1..] + b;
      ConcatAppend(a[1..], b);
    } else {
      assert a + b == b;
    }
  }

  /** Rendering is compositional: a tree made of two runs of tags renders
      as the first run's text followed by the second's. */
  lemma RenderTreeAppend(a: seq<Tag>, b: seq<Tag>)
    ensures RenderTree(NsCodeTree(a + b)) == RenderTree(NsCodeTree(a)) + RenderTree(NsCodeTree(b))
  {
    var ra := seq(|a|, i requires 0 <= i < |a| => Render(a[i]));
    var rb := seq(|b|, i requires 0 <= i < |b| => Render(b[i]));
    var ab := a + b;
    assert seq(|ab|, i requires 0 <= i < |ab| => Render(ab[i])) == ra + rb;
    ConcatAppend(ra, rb);
  }

  /** Sub, sup and spoiler pass their children through unchanged, the
      spoiler's title is dropped, and text renders verbatim. */
  lemma PassThrough(cs: seq<Tag>, title: Option<string>, text: string)
    ensures Render(SubTag(cs)) == RenderTree(NsCodeTree(cs))
    ensures Render(SupTag(cs)) == RenderTree(NsCodeTree(cs))
    ensures Render(SpoilerTag(title, cs)) == Render(SpoilerTag(None, cs)) == RenderTree(NsCodeTree(cs))
    ensures Render(TextTag(text)) == text
    ensures RenderTree(NsCodeTree([TextTag(text)])) == text
  {
    var cs1 := [TextTag(text)];
    assert seq(|cs1|, i requires 0 <= i < |cs1| => Render(cs1[i])) == [text];
    assert Concat([text]) == text + Concat([]);
  }

  /** Bold, italic, underline, strike and pre keep the line structure of
      their content and wrap each non-empty line. */
  lemma LineWiseTags(cs: seq<Tag>)
    ensures var lines := SplitOn(Subtext(cs), '\n');
      |SplitOn(Render(BoldTag(cs)), '\n')| == |lines| &&
      |SplitOn(Render(ItalicTag(cs)), '\n')| == |lines| &&
      |SplitOn(Render(UnderlineTag(cs)), '\n')| == |lines| &&
      |SplitOn(Render(StrikeTag(cs)), '\n')| == |lines| &&
      |SplitOn(Render(PreTag(cs)), '\n')| == |lines| &&
      forall i :: 0 <= i < |lines| ==> SplitOn(Render(BoldTag(cs)), '\n')[i] == WrapNonEmpty(lines[i], "**", "**")
  {
    var s := Subtext(cs);
    WrapLinesSpec(s, "**", "**");
    WrapLinesSpec(s, "*", "*");
    WrapLinesSpec(s, "__", "__");
    WrapLinesSpec(s, "~~", "~~");
    WrapLinesSpec(s, "`", "`");
  }

  /** A quote has no attribution exactly when its author or post id is
      "0", and its body is the cut text with "> " in front of each
      non-empty line. */
  lemma QuoteSpec(author: string, id: string, cs: seq<Tag>)
    ensures Render(QuoteTag(author, id, cs)) == QuoteBody(cs) <==> author == "0" || id == "0"
    ensures var lines := SplitOn(Truncated(Subtext(cs)), '\n');
      |SplitOn(QuoteBody(cs), '\n')| == |lines| &&
      forall i :: 0 <= i < |lines| ==> SplitOn(QuoteBody(cs), '\n')[i] == WrapNonEmpty(lines[i], "> ", "")
  {
    WrapLinesSpec(Truncated(Subtext(cs)), "> ", "");
    if !(author == "0" || id == "0") {
      assert |QuoteHeader(author, id)| > 0;
      assert |Render(QuoteTag(author, id, cs))| > |QuoteBody(cs)|;
    }
  }

  /** The three resolution links. */
  lemma ResolutionLinks(resolutionId: string, council: string)
    requires council != "SC" && council != "UN"
    ensures ResolutionPage("SC", resolutionId) == "page=WA_past_resolution/id=" + resolutionId + "/council=2"
    ensures ResolutionPage("UN", resolutionId) == "page=WA_past_resolution/id=" + resolutionId + "/un=1"
    ensures ResolutionPage(council, resolutionId) == "page=WA_past_resolution/id=" + resolutionId + "/council=1"
    ensures ResolutionPage(council, resolutionId) == ResolutionPage("GA", resolutionId)
  {
  }
}
