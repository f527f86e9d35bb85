/** What the model sees of the three vendor SDKs (go-github, go-openai, slack-go): the
    values they return and the requests made to them. A service is a total function from
    request to outcome, so whatever the network answers is an input of the model. */
module Sdk {
  import opened GoBytes
  import opened Outcomes

  // GitHub

  datatype Repository = Repository(defaultBranch: GoString)

  /** `github.Commit`; its `Message` is a pointer that may be nil. */
  datatype Commit = Commit(message: Option<GoString>)

  /** `github.RepositoryCommit`; its `Commit` is a pointer that may be nil. */
  datatype RepositoryCommit = RepositoryCommit(commit: Option<Commit>)

  /** `c.GetCommit().GetMessage()`: the nil-safe getters give "" for a missing field. */
  function MessageOf(c: RepositoryCommit): (m: GoString)
    ensures c.commit.Some? && c.commit.value.message.Some? ==> m == c.commit.value.message.value
    ensures c.commit.None? || c.commit.value.message.None? ==> m == []
  {
    match c.commit
    case None => []
    case Some(k) => if k.message.Some? then k.message.value else []
  }

  datatype GitHub = GitHub(
    getRepository: (GoString, GoString) -> Result<Repository>,
    listCommits: (GoString, GoString, GoString) -> Result<seq<RepositoryCommit>>)

  // OpenAI

  datatype Role = System | User

  datatype ChatMessage = ChatMessage(role: Role, content: GoString)

  datatype ChatRequest = ChatRequest(model: GoString, messages: seq<ChatMessage>)

  /** The content of the first choice of a chat completion, or the error. */
  datatype OpenAI = OpenAI(createChatCompletion: ChatRequest -> Result<GoString>)

  // Slack

  datatype Channel = Channel(id: GoString, name: GoString)

  datatype Slack = Slack(
    getConversations: nat -> Result<seq<Channel>>,
    postMessage: (GoString, GoString) -> Result<()>)

  /** One request sent to a vendor, in the order the program sends them. */
  datatype Call =
    | GetRepository(owner: GoString, repo: GoString)
    | ListCommits(owner: GoString, repo: GoString, sha: GoString)
    | CreateChatCompletion(request: ChatRequest)
    | GetConversations(limit: nat)
    | PostMessage(channelId: GoString, text: GoString)
}
