/** The bot of gitsumbot.go: fetch the commit messages of a repository's default branch,
    cut each to a bounded size, and ask a chat-completion model for a summary. */
module GitSumBot {
  import opened GoBytes
  import opened Outcomes
  import opened Sdk
  import Strings
  import Utf8

  /** Commit messages longer than this many bytes are cut to this many bytes. */
  const MaxMsgSize: nat := 500

  const FetchFailedContext: GoString := Ascii("error while fetching Github commit messages")
  const SummaryFailedContext: GoString := Ascii("error while generating summary")

  /** `openai.GPT3Dot5Turbo`, the model every summary request names. */
  const SummaryModel: GoString := Ascii("gpt-3.5-turbo")

  /** The fixed system turn of a summary request (a Go raw string literal, so the
      tab indentation of its continuation lines is part of it). */
  const SystemPrompt: GoString := Ascii(
    "Your role is to create details summary of code changes added to a codebase using the commit messages given by the user.\n"
    + "\tStarts your answer with the sentence: 'Based on the provided commit messages, here's the summary of changes:'\n"
    + "\tFollow your answer with a detailed summary of all the changes in a few sentences.\n"
    + "\t Group the changes in one of these category: build ci,ci,docs,feat,fix,perf,refactor,revert,style,test.")

  /** What the user turn starts with, before the joined messages. */
  const PromptHeading: GoString := Ascii("Here are the commit messages: \n ")

  const MessageSeparator: GoString := Ascii("\n\n")

  /** A `GitSumBot`: its GitHub and OpenAI clients. */
  datatype Bot = Bot(gh: GitHub, ai: OpenAI)

  // ---------------------------------------------------------------------------
  // Commit messages

  /** The message as it is passed on: its first `MaxMsgSize` bytes when it is longer. */
  function Truncate(msg: GoString): (r: GoString)
    ensures r <= msg
    ensures |r| <= MaxMsgSize
    ensures |msg| <= MaxMsgSize ==> r == msg
    ensures |msg| > MaxMsgSize ==> |r| == MaxMsgSize
  {
    if |msg| > MaxMsgSize then msg[..MaxMsgSize] else msg
  }

  function TruncateEach(msgs: seq<GoString>): (r: seq<GoString>)
    ensures |r| == |msgs|
    ensures forall i | 0 <= i < |r| :: r[i] <= msgs[i] && |r[i]| <= MaxMsgSize
  {
    seq(|msgs|, i requires 0 <= i < |msgs| => Truncate(msgs[i]))
  }

  /** The message text of each fetched commit, in the order GitHub listed them. */
  function Messages(commits: seq<RepositoryCommit>): (r: seq<GoString>)
    ensures |r| == |commits|
  {
    seq(|commits|, i requires 0 <= i < |commits| => MessageOf(commits[i]))
  }

  /** Cutting is idempotent: a list that has been through it comes out unchanged. */
  lemma TruncationIdempotent(msgs: seq<GoString>)
    ensures TruncateEach(TruncateEach(msgs)) == TruncateEach(msgs)
  {
  }

  /** A cut at a byte count can fall inside a multi-byte UTF-8 character: 499 ASCII
      bytes followed by a two-byte character form a well-framed 501-byte message whose
      first 500 bytes end in a lone lead byte. */
  lemma TruncationCanSplitCharacter(p: GoString, lead: byte, cont: byte)
    requires |p| == MaxMsgSize - 1 && Utf8.IsAscii(p)
    requires 0xC2 <= lead < 0xE0 && Utf8.IsContinuation(cont)
    ensures Utf8.WellFramed(p + [lead, cont])
    ensures !Utf8.WellFramed(Truncate(p + [lead, cont]))
  {
    Utf8.AsciiPrefix(p, [lead, cont]);
    Utf8.AsciiPrefix(p, [lead]);
    assert [lead, cont][2..] == [];
    assert Truncate(p + [lead, cont]) == p + [lead];
  }

  /** The loop of `getCommitMessages`: one message per commit, in order, each cut to
      `MaxMsgSize` bytes. */
  method TruncateMessages(commits: seq<RepositoryCommit>) returns (messages: seq<GoString>)
    ensures |messages| == |commits|
    ensures forall i | 0 <= i < |commits| :: messages[i] == Truncate(MessageOf(commits[i]))
    ensures forall i | 0 <= i < |messages| :: |messages[i]| <= MaxMsgSize
    ensures TruncateEach(messages) == messages
  {
    messages := [];
    for i := 0 to |commits|
      invariant |messages| == i
      invariant forall k | 0 <= k < i :: messages[k] == Truncate(MessageOf(commits[k]))
    {
      var msg := MessageOf(commits[i]);
      if |msg| > MaxMsgSize {
        msg := msg[..MaxMsgSize];
      }
      messages := messages + [msg];
    }
  }

  /** What `getCommitMessages` returns: the error of the first failing GitHub call, or
      the cut messages of the commits listed on the default branch. */
  function FetchMessages(gh: GitHub, owner: GoString, repo: GoString): (r: Result<seq<GoString>>)
    ensures gh.getRepository(owner, repo).Err? ==> r == Err(gh.getRepository(owner, repo).error)
    ensures gh.getRepository(owner, repo).Ok? ==>
      var listed := gh.listCommits(owner, repo, gh.getRepository(owner, repo).value.defaultBranch);
      listed.Err? ==> r == Err(listed.error)
    ensures r.Ok? ==> forall m | m in r.value :: |m| <= MaxMsgSize
  {
    match gh.getRepository(owner, repo)
    case Err(e) => Err(e)
    case Ok(repository) =>
      match gh.listCommits(owner, repo, repository.defaultBranch)
      case Err(e) => Err(e)
      case Ok(commits) => Ok(TruncateEach(Messages(commits)))
  }

  /** The GitHub requests `getCommitMessages` makes: the repository, then, if that
      succeeded, the commits of its default branch. */
  function FetchCalls(gh: GitHub, owner: GoString, repo: GoString): (r: seq<Call>)
    ensures 1 <= |r| <= 2 && r[0] == GetRepository(owner, repo)
    ensures |r| == 2 <==> gh.getRepository(owner, repo).Ok?
    ensures |r| == 2 ==> r[1] == ListCommits(owner, repo, gh.getRepository(owner, repo).value.defaultBranch)
    ensures forall c | c in r :: c.GetRepository? || c.ListCommits?
  {
    match gh.getRepository(owner, repo)
    case Err(_) => [GetRepository(owner, repo)]
    case Ok(repository) => [GetRepository(owner, repo), ListCommits(owner, repo, repository.defaultBranch)]
  }

  /** A successful fetch yields exactly one message per listed commit, in listing order,
      each the commit's message cut to `MaxMsgSize` bytes. */
  lemma FetchedMessagesFollowCommits(gh: GitHub, owner: GoString, repo: GoString)
    requires gh.getRepository(owner, repo).Ok?
    requires gh.listCommits(owner, repo, gh.getRepository(owner, repo).value.defaultBranch).Ok?
    ensures var commits := gh.listCommits(owner, repo, gh.getRepository(owner, repo).value.defaultBranch).value;
      var r := FetchMessages(gh, owner, repo);
      && r.Ok?
      && |r.value| == |commits|
      && (forall i | 0 <= i < |commits| :: r.value[i] <= MessageOf(commits[i]))
      && (forall i | 0 <= i < |commits| :: |MessageOf(commits[i])| <= MaxMsgSize ==> r.value[i] == MessageOf(commits[i]))
      && (forall i | 0 <= i < |commits| ::
            |MessageOf(commits[i])| > MaxMsgSize ==> r.value[i] == MessageOf(commits[i])[..MaxMsgSize])
  {
  }

  /** `getCommitMessages`. */
  method CommitMessages(gh: GitHub, owner: GoString, repo: GoString)
    returns (messages: Result<seq<GoString>>, calls: seq<Call>)
    ensures messages == FetchMessages(gh, owner, repo)
    ensures calls == FetchCalls(gh, owner, repo)
    ensures forall c | c in calls :: c.GetRepository? || c.ListCommits?
  {
    calls := [GetRepository(owner, repo)];
    var r := gh.getRepository(owner, repo);
    if r.Err? {
      return Err(r.error), calls;
    }
    var branch := r.value.defaultBranch;
    calls := calls + [ListCommits(owner, repo, branch)];
    var commits := gh.listCommits(owner, repo, branch);
    if commits.Err? {
      return Err(commits.error), calls;
    }
    var truncated := TruncateMessages(commits.value);
    assert truncated == TruncateEach(Messages(commits.value));
    messages := Ok(truncated);
  }

  // ---------------------------------------------------------------------------
  // The summary request

  /** The user turn: the heading, then the messages joined by a blank line. */
  function UserPrompt(messages: seq<GoString>): (p: GoString)
    ensures PromptHeading <= p
    ensures messages != [] ==> PromptHeading + messages[0] <= p
  {
    PromptHeading + Strings.Join(messages, MessageSeparator)
  }

  /** The request `summaries` sends: the system turn, then the user turn. */
  function SummaryRequest(messages: seq<GoString>): (r: ChatRequest)
    ensures |r.messages| == 2
    ensures r.messages[0].role == System && r.messages[1].role == User
    ensures r.messages[1].content == UserPrompt(messages)
  {
    ChatRequest(SummaryModel, [ChatMessage(System, SystemPrompt), ChatMessage(User, UserPrompt(messages))])
  }

  /** A summary request names the model and has exactly two turns: the fixed system
      prompt first, then the user turn built from the messages. */
  lemma SummaryRequestTurns(messages: seq<GoString>)
    ensures var req := SummaryRequest(messages);
      && req.model == SummaryModel
      && |req.messages| == 2
      && req.messages[0] == ChatMessage(System, SystemPrompt)
      && req.messages[1] == ChatMessage(User, UserPrompt(messages))
  {
  }

  /** The layout of the user turn: the heading comes first and the first message right
      after it; each message stands verbatim at its place, in order, with one separator
      between neighbours; the last message ends the turn. */
  lemma {:induction false} UserPromptLayout(messages: seq<GoString>, i: nat)
    requires i < |messages|
    ensures var p, o := UserPrompt(messages), |PromptHeading| + Strings.Offset(messages, MessageSeparator, i);
      && p[..|PromptHeading|] == PromptHeading
      && (i == 0 ==> o == |PromptHeading|)
      && o + |messages[i]| <= |p|
      && p[o..o + |messages[i]|] == messages[i]
      && (i + 1 == |messages| ==> o + |messages[i]| == |p|)
    ensures i + 1 < |messages| ==>
      var p, o := UserPrompt(messages), |PromptHeading| + Strings.Offset(messages, MessageSeparator, i);
      && Strings.Offset(messages, MessageSeparator, i + 1) == Strings.Offset(messages, MessageSeparator, i) + |messages[i]| + |MessageSeparator|
      && |PromptHeading| + Strings.Offset(messages, MessageSeparator, i + 1) <= |p|
      && p[o + |messages[i]|..|PromptHeading| + Strings.Offset(messages, MessageSeparator, i + 1)] == MessageSeparator
  {
    var j := Strings.Join(messages, MessageSeparator);
    Strings.ElementInJoin(messages, MessageSeparator, i);
    var o := Strings.Offset(messages, MessageSeparator, i);
    Strings.SliceOfSuffix(PromptHeading, j, |PromptHeading| + o, |PromptHeading| + o + |messages[i]|);
    if i + 1 < |messages| {
      Strings.SeparatorInJoin(messages, MessageSeparator, i);
      Strings.SliceOfSuffix(PromptHeading, j, |PromptHeading| + o + |messages[i]|,
                            |PromptHeading| + Strings.Offset(messages, MessageSeparator, i + 1));
    }
  }

  /** With no messages the user turn is the heading alone. */
  lemma UserPromptForNoCommits()
    ensures UserPrompt([]) == PromptHeading
  {
  }

  /** `summaries`: one chat completion; its error is passed back as it is. */
  method Summaries(ai: OpenAI, messages: seq<GoString>)
    returns (summary: GoString, err: Option<Error>, calls: seq<Call>)
    ensures calls == [CreateChatCompletion(SummaryRequest(messages))]
    ensures match ai.createChatCompletion(SummaryRequest(messages))
      case Ok(s) => summary == s && err == None
      case Err(e) => summary == [] && err == Some(e)
  {
    var request := SummaryRequest(messages);
    calls := [CreateChatCompletion(request)];
    var resp := ai.createChatCompletion(request);
    if resp.Err? {
      return [], Some(resp.error), calls;
    }
    return resp.value, None, calls;
  }

  // ---------------------------------------------------------------------------
  // The digest

  /** `ChangeDigest`: fetch, then summarise. A fetch error stops the pipeline before any
      completion is requested; either error comes back wrapped with its context; a
      summary comes back as the model wrote it. */
  method ChangeDigest(bot: Bot, owner: GoString, name: GoString)
    returns (summary: GoString, err: Option<Error>, calls: seq<Call>)
    ensures FetchMessages(bot.gh, owner, name).Err? ==>
      && summary == []
      && err == Some(Wrapped(FetchFailedContext, FetchMessages(bot.gh, owner, name).error))
      && calls == FetchCalls(bot.gh, owner, name)
      && forall c | c in calls :: !c.CreateChatCompletion?
    ensures FetchMessages(bot.gh, owner, name).Ok? ==>
      var request := SummaryRequest(FetchMessages(bot.gh, owner, name).value);
      && calls == FetchCalls(bot.gh, owner, name) + [CreateChatCompletion(request)]
      && match bot.ai.createChatCompletion(request)
         case Err(e) => summary == [] && err == Some(Wrapped(SummaryFailedContext, e))
         case Ok(s) => summary == s && err == None
    ensures FetchMessages(bot.gh, owner, name) == Ok([]) ==>
      calls[|calls| - 1] == CreateChatCompletion(SummaryRequest([]))
  {
    var messages;
    messages, calls := CommitMessages(bot.gh, owner, name);
    if messages.Err? {
      return [], Some(Wrapped(FetchFailedContext, messages.error)), calls;
    }
    var s, e, summaryCalls := Summaries(bot.ai, messages.value);
    calls := calls + summaryCalls;
    if e.Some? {
      return [], Some(Wrapped(SummaryFailedContext, e.value)), calls;
    }
    return s, None, calls;
  }
}
