# gitsumbot, modelled in Dafny

gitsumbot posts a daily digest of a GitHub repository to a Slack channel. It fetches
the commit messages of the default branch and cuts each one to 500 bytes. It asks an
OpenAI chat model for a summary of them. An HTTP-triggered cloud function then composes
the digest message, resolves the Slack channel by name and posts the message.

This project models the logic between those vendor calls. The GitHub, OpenAI and Slack
clients are value datatypes whose fields are total functions from request to outcome
(`Sdk.GitHub`, `Sdk.OpenAI`, `Sdk.Slack`), so whatever the network answers is an input.
Every operation that talks to a vendor also returns the list of requests it made
(`Sdk.Call`). Its contract can therefore say what was asked, in which order and how
often: "no completion is requested after a fetch error", "the message is posted once,
to the resolved ID".

Go strings are byte strings, so every text is a `seq<byte>` (`GoBytes.GoString`), and
lengths and cuts count bytes. Errors are structural: `fmt.Errorf("<context>: %w", e)` is
`Wrapped(context, e)`.

Files, one module each:

- `gobytes.dfy`: bytes and ASCII literals.
- `outcomes.dfy`: `Option`, `Error`, `Result`.
- `utf8.dfy`: the lead/continuation structure of UTF-8, used to show that a byte cut can
  split a character.
- `sdk.dfy`: the vendor types and requests.
- `strings.dfy`: `strings.Join` and its layout.
- `gitsumbot.dfy`: `getCommitMessages`, `summaries`, `ChangeDigest`.
- `cloud_function.dfy`: `findChannelIDByName`, `SendChannel`, the message body, `Run`.

Three facts about the code shape the model:

- `ChangeDigest` makes one completion request. The code has no concurrent
  summarise/categorise pair and no "no changes" outcome.
- An empty commit list is not short-circuited: it still reaches the summary request,
  whose user turn is then the heading alone.
- `Run` reads `cd.Summary` and `cd.Categorized`, but `ChangeDigest` returns a plain
  string. `CloudFunction.Run` therefore takes the digest outcome, a `Digest` of those
  two texts or an error, as an input. It models `Run` from that outcome on.

## Model

| member | source | states |
|---|---|---|
| `Sdk.MessageOf` | gitsumbot.go:99 | `c.GetCommit().GetMessage()`: the commit's message when both the commit and its message are present, "" when either is nil |
| `GitSumBot.Truncate` | gitsumbot.go:100-102 | the result is a prefix of the message, at most 500 bytes long; a message of 500 bytes or fewer passes unchanged, and a longer one becomes exactly its first 500 bytes |
| `GitSumBot.TruncateMessages` | gitsumbot.go:97-104 | one output per commit, same count and order, no filtering; output `i` is commit `i`'s message (nil-safe getters give "") cut to 500 bytes; every output is at most 500 bytes; cutting the output again changes nothing |
| `GitSumBot.TruncateEach` | gitsumbot.go:97-104 | the cut applied to every message of a list: same length, each result a prefix of its message and at most 500 bytes |
| `GitSumBot.Messages` | gitsumbot.go:98-99 | one message text per fetched commit, in listing order |
| `GitSumBot.TruncationIdempotent` | gitsumbot.go:100-102 | applying the cut to an already processed list leaves it unchanged |
| `GitSumBot.TruncationCanSplitCharacter` | gitsumbot.go:100-102 | a well-framed UTF-8 message of 499 ASCII bytes and one two-byte character is cut into 500 bytes that are no longer well framed (the cut counts bytes, not characters) |
| `GitSumBot.FetchMessages` | gitsumbot.go:79-107 | the outcome of `getCommitMessages`: the repository error, else the listing error for its default branch, else the cut messages; every message of a success is at most 500 bytes |
| `GitSumBot.FetchCalls` | gitsumbot.go:80-92 | the GitHub requests of `getCommitMessages`: always the repository request first, and the commit listing second exactly when the repository request succeeded, and that listing names the repository's default branch; nothing else |
| `GitSumBot.FetchedMessagesFollowCommits` | gitsumbot.go:97-106 | a successful fetch has one message per listed commit; each is a prefix of that commit's message, equal to it when it is at most 500 bytes, and exactly its first 500 bytes when it is longer |
| `GitSumBot.CommitMessages` | gitsumbot.go:79-107 | returns `FetchMessages`; asks GitHub for the repository, and only when that succeeds for the commits of its default branch; makes no other request |
| `Strings.Join` | gitsumbot.go:67 | `strings.Join`: "" for no elements, otherwise a string that starts with the first element |
| `Strings.JoinLength` | gitsumbot.go:67 | joining nothing gives ""; otherwise the length is the sum of the element lengths plus one separator per neighbouring pair |
| `Strings.JoinAppend` | gitsumbot.go:67 | joining one more element appends exactly the separator and that element |
| `Strings.ElementInJoin` | gitsumbot.go:67 | every element occurs verbatim at its offset in the joined string, the first at offset 0, and the last one ends the string (no leading or trailing separator) |
| `Strings.SeparatorInJoin` | gitsumbot.go:67 | exactly one separator stands between element `i` and element `i + 1` |
| `GitSumBot.UserPrompt` | gitsumbot.go:67 | the user turn starts with the heading "Here are the commit messages: \n ", followed directly by the first message when there is one |
| `GitSumBot.SummaryRequest` | gitsumbot.go:59-69 | the request has two turns, system then user, and the user turn is the user prompt of the messages |
| `GitSumBot.SummaryRequestTurns` | gitsumbot.go:64-68 | the request names gpt-3.5-turbo and has exactly two turns, the fixed system prompt first and the user turn second |
| `GitSumBot.UserPromptLayout` | gitsumbot.go:67 | the user turn is the heading "Here are the commit messages: \n " followed by each message verbatim, in order, with exactly one "\n\n" between neighbours, none before the first and none after the last |
| `GitSumBot.UserPromptForNoCommits` | gitsumbot.go:67 | an empty message list is not special-cased: its user turn is the heading alone |
| `GitSumBot.Summaries` | gitsumbot.go:51-77 | exactly one completion request, for the summary request of the messages; the error comes back as it is with "", else the content |
| `GitSumBot.ChangeDigest` | gitsumbot.go:37-49 | a fetch error gives "" and the error wrapped as "error while fetching Github commit messages", with no completion requested; otherwise exactly one completion follows the fetch, and its error gives "" wrapped as "error while generating summary", while its content is returned verbatim with no error; an empty list is still summarised |
| `CloudFunction.FirstMatch` | cloud_function/main.go:78-82 | the index of the first channel, in list order, whose name equals the target byte for byte; none exactly when no channel has that name |
| `CloudFunction.LookupChannel` | cloud_function/main.go:71-84 | what `findChannelIDByName` returns: the listing error unchanged; an ID only when some listed channel has exactly the target name and that ID; otherwise "channel not found" for the target |
| `CloudFunction.FindChannelIdByName` | cloud_function/main.go:71-84 | one listing request of 1000; a listing error comes back with ""; else the ID of the first exactly matching channel, or "" and a "channel not found" error for the target |
| `CloudFunction.LookupChannelSpec` | cloud_function/main.go:78-83 | the lookup succeeds exactly when some listed channel has the target name, and then gives the first such channel's ID; otherwise, an empty list included, it fails with "channel not found" |
| `CloudFunction.MatchIsCaseSensitive` | cloud_function/main.go:79 | "General" does not match "general"; with both listed, the exact spelling is returned |
| `CloudFunction.SendChannel` | cloud_function/main.go:86-96 | a lookup error comes back unchanged and nothing is posted; otherwise the message is posted exactly once, to the resolved ID, and the post's error (or none) is returned |
| `CloudFunction.Buffer.Write` | cloud_function/main.go:53-57 | writing appends the bytes to the buffer's contents |
| `CloudFunction.Header` | cloud_function/main.go:54 | the first line starts "Summary of the change in the repository " and the owner, ends with a blank line, and is 57 bytes longer than owner, repo and date together |
| `CloudFunction.DigestBody` | cloud_function/main.go:53-57 | the body starts with the header and the summary, and is as long as header, summary, details heading, categorized text and two newlines |
| `CloudFunction.DigestBodyParts` | cloud_function/main.go:53-57 | the body is the header naming owner/repo and the date with a blank line, the summary verbatim, a newline, "\n\nDetailed list of of changes\n\n", the categorized text verbatim and a final newline; both texts can be read back at their offsets |
| `CloudFunction.Run` | cloud_function/main.go:36-65 | a digest error answers 500 with that error and sends nothing to Slack; otherwise the composed body goes to the configured channel, and the answer is 500 with a lookup or post error, else 200; the status is always 200 or 500, and 200 exactly when there is no error |

## Left out

- The GitHub, OpenAI and Slack SDK calls are foreign network calls. Their results are inputs of the model.
- `New` and its oauth2 client set-up, and the access tokens, are library plumbing.
- `cfgFromEnv` reads environment variables (I/O). `Run` takes a `Config` of the values its logic reads.
- `time.Now`, the lookback window passed to `ListCommits` as `Since`/`Until`, and the date formatting depend on the clock. The model takes the date text as a parameter and does not record the window in the `ListCommits` request.
- Temperature, TopP and the penalties of the completion request are floating-point values forwarded to the vendor with no logic.
- Pagination is not modelled, as in the code: only the single page of commits that GitHub returns is seen, and `findChannelIDByName` reads one page of at most 1000 conversations and ignores the returned cursor, so a channel beyond that page gives "channel not found". The model reproduces both with a single request each (`getConversations(1000)` for Slack).
- The nil-pointer panic of `*r.DefaultBranch` is not modelled: a repository always carries a default branch here.
- The index-out-of-range panic of `resp.Choices[0]` is not modelled: a completion yields the content of its first choice, or an error.
- Error texts (`err.Error()`, with `%w` and `%q` rendering) are not rendered: errors stay structural. The HTTP response carries the error value, and the `http.Error` body format and logging are I/O.
- Request contexts and cancellation are not modelled: nothing in the model blocks.
- `Utf8.WellFramed` checks only lead and continuation bytes. Overlong forms and surrogates are not rejected.
- `CloudFunction.Run` does not model the call to `ChangeDigest`: the digest outcome it reads two fields from does not match the shown `ChangeDigest`, so it is an input.
