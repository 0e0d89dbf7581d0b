/** The recruiter's telegram link (`discord/views/recruit.py`): the compose
    page of the sending nation, addressed to the nations to recruit, with
    the template's code as the message. */
module RecruitView {
  import opened Strings

  const ComposeRoot: string := "https://www.nationstates.net/"
  const GeneratedByPrefix: string := "generated_by=Polaris__by_Merethin__ran_by_"

  /** The path naming the sender as both the container and the nation. */
  function ContainerLink(senderId: string): string {
    "container=" + senderId + "/nation=" + senderId
  }

  /** The query naming the recipients and the template. */
  function SearchParams(template: string, nations: seq<string>): string {
    "tgto=" + Join(",", nations) + "&message=%TEMPLATE-" + template + "%"
  }

  /** `generateTelegramLink`. */
  function TelegramLink(userAgent: string, template: string, nations: seq<string>, senderId: string): string {
    ComposeRoot + ContainerLink(senderId) + "/page=compose_telegram?" + SearchParams(template, nations) +
    "&" + GeneratedByPrefix + userAgent
  }

  /** The recipient list splits back into the nations, in order, when no
      nation id contains a comma (nation ids never do). */
  lemma RecipientsRoundTrip(nations: seq<string>)
    requires |nations| >= 1
    requires forall k :: 0 <= k < |nations| ==> NoChar(nations[k], ',')
    ensures SplitOn(Join(",", nations), ',') == nations
  {
    SplitOnJoin(nations, ',');
  }

  lemma Parts(a: string, b: string, c: string)
    ensures |a + b + c| == |a| + |b| + |c|
    ensures (a + b + c)[..|a|] == a && (a + b + c)[|a| + |b|..] == c && (a + b + c)[|a|..|a| + |b|] == b
  {
  }

  lemma Assoc(a: string, b: string, c: string)
    ensures a + (b + c) == (a + b) + c
  {
  }

  /** The link is the compose page of the sender's nation inside its own
      container, the recipients and template follow as the query, and it
      ends with the credit to the user agent. */
  lemma TelegramLinkParts(userAgent: string, template: string, nations: seq<string>, senderId: string)
    ensures var link := TelegramLink(userAgent, template, nations, senderId);
      var head := ComposeRoot + ContainerLink(senderId) + "/page=compose_telegram?";
      var query := SearchParams(template, nations);
      var tail := "&" + GeneratedByPrefix + userAgent;
      |link| == |head| + |query| + |tail| &&
      link[..|head|] == head && link[|head|..|head| + |query|] == query && link[|head| + |query|..] == tail
  {
    var head := ComposeRoot + ContainerLink(senderId) + "/page=compose_telegram?";
    var query := SearchParams(template, nations);
    var tail := "&" + GeneratedByPrefix + userAgent;
    var x := head + query;
    Assoc(x, "&", GeneratedByPrefix);
    Assoc(x, "&" + GeneratedByPrefix, userAgent);
    assert TelegramLink(userAgent, template, nations, senderId) == head + query + tail;
    Parts(head, query, tail);
  }

  /** The sender id is both the container and the nation of the path. */
  lemma SenderTwice(senderId: string)
    ensures var c := ContainerLink(senderId);
      |c| == 18 + 2 * |senderId| && c[10..10 + |senderId|] == senderId && c[|c| - |senderId|..] == senderId
  {
    Parts("container=", senderId, "/nation=" + senderId);
    Assoc("container=" + senderId, "/nation=", senderId);
    Parts("container=" + senderId, "/nation=", senderId);
  }
}
