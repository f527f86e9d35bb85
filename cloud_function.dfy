/** The HTTP-triggered function of cloud_function/main.go: compose the digest message,
    resolve the Slack channel by name, post, and answer with a status. */
module CloudFunction {
  import opened GoBytes
  import opened Outcomes
  import opened Sdk

  /** The page size asked of Slack's conversation listing. */
  const ConversationsLimit: nat := 1000

  const StatusOK: int := 200
  const StatusInternalServerError: int := 500

  /** The fields of `cfg` that the handler's logic reads (the access tokens only reach
      the SDK clients). */
  datatype Config = Config(githubOwner: GoString, githubRepo: GoString, slackChannel: GoString)

  /** The two texts `Run` reads from the digest. */
  datatype Digest = Digest(summary: GoString, categorized: GoString)

  /** What the handler writes back: a status, and for a failure the error whose text
      becomes the body. */
  datatype Response = Response(status: int, error: Option<Error>)

  // ---------------------------------------------------------------------------
  // Channel resolution

  /** The position of the first channel, in listing order, named exactly `name`. */
  function FirstMatch(channels: seq<Channel>, name: GoString): (r: Option<nat>)
    ensures r.Some? ==> r.value < |channels| && channels[r.value].name == name
    ensures r.Some? ==> forall j | 0 <= j < r.value :: channels[j].name != name
    ensures r.None? <==> forall j | 0 <= j < |channels| :: channels[j].name != name
  {
    if channels == [] then None
    else if channels[0].name == name then Some(0)
    else match FirstMatch(channels[1..], name)
      case None => None
      case Some(k) => Some(k + 1)
  }

  /** What `findChannelIDByName` returns: the listing error as it is, the ID of the
      first channel named `channel`, or a "channel not found" error. */
  function LookupChannel(slack: Slack, channel: GoString): (r: Result<GoString>)
    ensures slack.getConversations(ConversationsLimit).Err? ==> r == Err(slack.getConversations(ConversationsLimit).error)
    ensures r.Ok? ==> var channels := slack.getConversations(ConversationsLimit).value;
      exists i | 0 <= i < |channels| :: channels[i].name == channel && channels[i].id == r.value
    ensures slack.getConversations(ConversationsLimit).Ok? && r.Err? ==> r.error == ChannelNotFound(channel)
  {
    match slack.getConversations(ConversationsLimit)
    case Err(e) => Err(e)
    case Ok(channels) =>
      match FirstMatch(channels, channel)
      case Some(i) => Ok(channels[i].id)
      case None => Err(ChannelNotFound(channel))
  }

  /** `findChannelIDByName`: one listing request, then a search in listing order that
      stops at the first exact match. */
  method FindChannelIdByName(slack: Slack, channel: GoString)
    returns (id: GoString, err: Option<Error>, calls: seq<Call>)
    ensures calls == [GetConversations(ConversationsLimit)]
    ensures err.None? ==> LookupChannel(slack, channel) == Ok(id)
    ensures err.Some? ==> id == [] && LookupChannel(slack, channel) == Err(err.value)
  {
    calls := [GetConversations(ConversationsLimit)];
    var conversations := slack.getConversations(ConversationsLimit);
    if conversations.Err? {
      return [], Some(conversations.error), calls;
    }
    var channels := conversations.value;
    for i := 0 to |channels|
      invariant forall j | 0 <= j < i :: channels[j].name != channel
    {
      if channels[i].name == channel {
        return channels[i].id, None, calls;
      }
    }
    return [], Some(ChannelNotFound(channel)), calls;
  }

  /** A lookup succeeds exactly when some listed channel has the name, and then gives the
      ID of the first such channel; otherwise, an empty listing included, it fails with
      "channel not found" for that name. */
  lemma LookupChannelSpec(slack: Slack, channel: GoString)
    requires slack.getConversations(ConversationsLimit).Ok?
    ensures var channels := slack.getConversations(ConversationsLimit).value;
      && (LookupChannel(slack, channel).Ok? <==> exists i | 0 <= i < |channels| :: channels[i].name == channel)
      && (LookupChannel(slack, channel).Ok? ==>
            exists i | 0 <= i < |channels| :: && channels[i].name == channel
                                              && channels[i].id == LookupChannel(slack, channel).value
                                              && forall j | 0 <= j < i :: channels[j].name != channel)
      && (LookupChannel(slack, channel).Err? ==> LookupChannel(slack, channel).error == ChannelNotFound(channel))
  {
  }

  /** Matching compares bytes: a channel whose name differs only in letter case is not
      returned, and when both spellings are listed the exact one wins. */
  lemma MatchIsCaseSensitive()
    ensures FirstMatch([Channel(Ascii("C1"), Ascii("General"))], Ascii("general")).None?
    ensures FirstMatch([Channel(Ascii("C1"), Ascii("General")), Channel(Ascii("C2"), Ascii("general"))],
                       Ascii("general")) == Some(1)
  {
    assert Ascii("General")[0] != Ascii("general")[0];
  }

  /** `SendChannel`: resolve, and only on success post the message, once, to the
      resolved ID. A lookup error comes back unchanged and nothing is posted. */
  method SendChannel(slack: Slack, channel: GoString, msg: GoString)
    returns (err: Option<Error>, calls: seq<Call>)
    ensures LookupChannel(slack, channel).Err? ==>
      && err == Some(LookupChannel(slack, channel).error)
      && calls == [GetConversations(ConversationsLimit)]
    ensures LookupChannel(slack, channel).Ok? ==>
      var id := LookupChannel(slack, channel).value;
      && calls == [GetConversations(ConversationsLimit), PostMessage(id, msg)]
      && err == (match slack.postMessage(id, msg) case Ok(_) => None case Err(e) => Some(e))
  {
    var channelId, e;
    channelId, e, calls := FindChannelIdByName(slack, channel);
    if e.Some? {
      return e, calls;
    }
    calls := calls + [PostMessage(channelId, msg)];
    var posted := slack.postMessage(channelId, msg);
    err := if posted.Err? then Some(posted.error) else None;
  }

  // ---------------------------------------------------------------------------
  // The message body

  /** `bytes.Buffer`, written to by `fmt.Fprintf` and `fmt.Fprintln`. */
  class Buffer {
    var bytes: GoString

    constructor ()
      ensures bytes == []
    {
      bytes := [];
    }

    method Write(s: GoString)
      modifies this
      ensures bytes == old(bytes) + s
    {
      bytes := bytes + s;
    }
  }

  const Newline: GoString := Ascii("\n")

  const DetailsHeading: GoString := Ascii("\n\nDetailed list of of changes\n\n")

  /** The first line of the message, naming the repository and the date, and a blank line. */
  function Header(owner: GoString, repo: GoString, date: GoString): (h: GoString)
    ensures Ascii("Summary of the change in the repository ") + owner <= h
    ensures h[|h| - 2..] == Ascii("\n\n")
    ensures |h| == |owner| + |repo| + |date| + 57
  {
    Ascii("Summary of the change in the repository ") + owner + Ascii("/") + repo
      + Ascii(" for the date ") + date + Ascii("\n\n")
  }

  /** The message `Run` posts. */
  function DigestBody(owner: GoString, repo: GoString, date: GoString,
                      summary: GoString, categorized: GoString): (b: GoString)
    ensures Header(owner, repo, date) + summary <= b
    ensures |b| == |Header(owner, repo, date)| + |summary| + |categorized| + |DetailsHeading| + 2
  {
    Header(owner, repo, date) + summary + Newline + DetailsHeading + categorized + Newline
  }

  /** The body splits back into its parts: after the header comes the summary verbatim,
      then a newline and the details heading, then the categorized text verbatim, and a
      final newline ends it. */
  lemma DigestBodyParts(owner: GoString, repo: GoString, date: GoString,
                        summary: GoString, categorized: GoString)
    ensures var b, h := DigestBody(owner, repo, date, summary, categorized), |Header(owner, repo, date)|;
      && |b| == h + |summary| + 1 + |DetailsHeading| + |categorized| + 1
      && b[..h] == Header(owner, repo, date)
      && b[h..h + |summary|] == summary
      && b[h + |summary|..h + |summary| + 1 + |DetailsHeading|] == Newline + DetailsHeading
      && b[|b| - 1 - |categorized|..|b| - 1] == categorized
      && b[|b| - 1..] == Newline
  {
  }

  // ---------------------------------------------------------------------------
  // The handler

  /** `Run`, from the digest outcome on: a digest error answers 500 and nothing reaches
      Slack; otherwise the composed body is sent to the configured channel, and the answer
      is 500 with the send error or 200. */
  method Run(cfg: Config, today: GoString, digest: Result<Digest>, slack: Slack)
    returns (response: Response, calls: seq<Call>)
    ensures response.status == StatusOK || response.status == StatusInternalServerError
    ensures response.status == StatusOK <==> response.error.None?
    ensures digest.Err? ==> response == Response(StatusInternalServerError, Some(digest.error)) && calls == []
    ensures digest.Ok? ==>
      var body := DigestBody(cfg.githubOwner, cfg.githubRepo, today, digest.value.summary, digest.value.categorized);
      match LookupChannel(slack, cfg.slackChannel)
      case Err(e) =>
        response == Response(StatusInternalServerError, Some(e)) && calls == [GetConversations(ConversationsLimit)]
      case Ok(id) =>
        && calls == [GetConversations(ConversationsLimit), PostMessage(id, body)]
        && response == match slack.postMessage(id, body)
                       case Ok(_) => Response(StatusOK, None)
                       case Err(e) => Response(StatusInternalServerError, Some(e))
  {
    if digest.Err? {
      return Response(StatusInternalServerError, Some(digest.error)), [];
    }
    var cd := digest.value;
    var header := Header(cfg.githubOwner, cfg.githubRepo, today);
    var buf := new Buffer();
    buf.Write(header);
    buf.Write(cd.summary + Newline);
    assert buf.bytes == header + cd.summary + Newline;
    buf.Write(DetailsHeading);
    buf.Write(cd.categorized + Newline);
    assert buf.bytes == header + cd.summary + Newline + DetailsHeading + cd.categorized + Newline;
    var body := buf.bytes;

    var err;
    err, calls := SendChannel(slack, cfg.slackChannel, body);
    if err.Some? {
      return Response(StatusInternalServerError, err), calls;
    }
    response := Response(StatusOK, None);
  }
}
