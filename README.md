# multissh-go core, modelled in Dafny

multissh-go runs one shell command on many hosts over SSH and prints every
line the hosts write, prefixed with the host's name. This project models the
decision and string logic around that plumbing and proves what it promises:

- **Node-list parsing** (`nodes.dfy`, module `Nodes`): the comma-separated
  node string is split, each field trimmed, empty fields skipped, and every
  remaining field validated by three abstract checks (FQDN, hostname, IPv4)
  tried in that order. The loop of `getNodeList` is an imperative method
  proved against the function `NodeList`. `os.Exit(1)` on an invalid node
  becomes an `Err` result.
- **Parameter resolution** (`args.dfy`, module `Args`): username, password
  and private-key path by priority (argument, then environment variable,
  then fallback). The environment, the current-user lookup and the
  file-exists check are parameters.
- **SSH client configuration** (`config.dfy`, module `Config`): password
  authentication, agent authentication or an unlocked key file, decided on
  the password and on the outcome of dialling the agent socket. The
  environment, the socket dialer, the terminal prompt, file reading and key
  parsing are parameters.
- **Connecting** (`connection.dfy`, module `Connections`): the address
  `host:22`, one TCP dial with the given configuration, and the shape of the
  result on success and on failure.
- **Output relay** (`distribute.dfy`, module `Distribution`, with
  `bufio.dfy` and `go_runtime.dfy`): a line scanner over each output stream
  of a session produces messages tagged with the host. The messages go
  through a bounded FIFO channel of capacity 1000. A receiver prints each
  one as `[host] line`. The per-host short-circuits (connect failure,
  session failure, pipe failure) are pure decisions. `RunCommand` and
  `Distribute` are methods that append the receivers' records to a
  modelled standard output. That model holds only these records. In the
  program, log lines go to the same standard output (internal/multissh/logging.go:29
  sets it as the log output), among them the errors logged when a connect,
  session or pipe fails.
- Go's own library behaviour the core relies on is written out:
  `strings.Split`, `Count`, `IndexByte` and `TrimSpace`
  (`go_strings.dfy`), `bufio.ScanLines` and the `Scanner`
  (`bufio.dfy`), and buffered channels and the record stream
  (`go_runtime.dfy`).

The concurrent program is modelled as one sequential schedule. Hosts are
handled in list order. Within a host, the standard-output stream is relayed
before the standard-error stream. A send that finds its channel full lets
the receiver print one message first. The receiver drains the channel once
the scanner reaches the end of its stream. Each channel is first-in
first-out and private to one stream. So under every schedule a stream's
records come out in token order, and no record of another stream gets
between them in its channel. How many of them are printed before the
process exits does depend on the schedule; the model prints all of them
(see "Left out").

## Model

| member | source | states |
|---|---|---|
| Nodes.ValidateNode | internal/multissh/nodes.go:34-56 | Ok exactly when one of the three checks accepts the non-empty node. The kind reported is the first passing check in the order FQDN, hostname, IPv4. Otherwise the error is "invalid node: " and the node. |
| Nodes.GetNodeList | internal/multissh/nodes.go:12-32 | The loop over split fields returns exactly `NodeList`: the trimmed non-empty fields in input order, or the error for the first invalid one. |
| Nodes.InvalidStopsList | internal/multissh/nodes.go:19-28 | When the fields before an invalid one are all valid, that invalid field is the first invalid node of the whole list, so no list is returned. |
| Nodes.NodeListAcceptance | internal/multissh/nodes.go:17-28 | A list is returned iff every cleaned field passes a check. An error names the first cleaned field, in input order, that no check accepts; every field before it was accepted. |
| Nodes.NodeList | internal/multissh/nodes.go:17-28 | A returned list has no more nodes than there are comma-separated fields, and every node in it is accepted by a check. |
| Nodes.Clean | internal/multissh/nodes.go:19-24 | Trimming and skipping empty fields never adds fields: at most as many nodes as fields. |
| Nodes.NodeListShape | internal/multissh/nodes.go:17-28 | Every returned node is non-empty, trimmed, comma-free and accepted. There are at most (number of commas + 1) nodes. |
| Nodes.BlankNodeString | internal/multissh/nodes.go:17-24 | An input made only of commas and white space, the empty string included, yields the empty list. |
| Nodes.JoinParseRoundTrip | internal/multissh/nodes.go:17-27 | Joining a returned list with "," and parsing it again returns the same list. |
| Nodes.CleanNodes | internal/multissh/nodes.go:21-24 | Every field kept by the loop is non-empty and has no surrounding white space. |
| Nodes.CleanStep | internal/multissh/nodes.go:19-27 | One more field appends its trimmed form, unless that is empty. |
| Nodes.CleanAppend | internal/multissh/nodes.go:19-28 | The fields are processed independently, in order: cleaning a concatenation is the concatenation of the cleanings. |
| Nodes.CleanKeepsCharacters | internal/multissh/nodes.go:17-21 | Trimming adds no characters, so fields without a comma give nodes without a comma. |
| Nodes.CleanBlank | internal/multissh/nodes.go:21-24 | Fields made only of white space are all skipped. |
| Nodes.CleanClean | internal/multissh/nodes.go:21-24 | Fields that are already non-empty and trimmed pass through unchanged. |
| Nodes.FirstInvalid | internal/multissh/nodes.go:19-28 | None iff every node is accepted. Otherwise the first unaccepted node in list order: every node before it is accepted. |
| Nodes.FirstInvalidAppend | internal/multissh/nodes.go:19-28 | The first invalid node of a concatenation is the first invalid node of the earlier part, if there is one. |
| GoStrings.Split | internal/multissh/nodes.go:17 | One piece per separator plus one. No piece contains the separator. Pieces hold only characters of the input. |
| GoStrings.SplitJoin | internal/multissh/nodes.go:17 | Splitting the join of separator-free pieces gives the pieces back. |
| GoStrings.JoinSplit | internal/multissh/nodes.go:17 | Joining the pieces of a split gives the input back. |
| GoStrings.IndexByte | internal/multissh/distribute.go:109 | The index of the first occurrence of the character, or None exactly when it does not occur. |
| GoStrings.TrimSpace | internal/multissh/nodes.go:21 | The result is no longer than the input and has no white space at either end. An input that is already trimmed is unchanged. |
| GoStrings.TrimSpaceSlice | internal/multissh/nodes.go:21 | The result is a contiguous slice of the input, and only white space is removed on either side. |
| GoStrings.TrimSpaceEmpty | internal/multissh/nodes.go:21-24 | The result is empty iff the input is all white space. |
| GoStrings.TrimSpaceChars | internal/multissh/nodes.go:21 | Every character of the result occurs in the input. |
| Args.FirstNonEmpty | internal/multissh/args.go:87-129 | The first non-empty candidate in priority order, or None iff all candidates are empty. |
| Args.GetUsername | internal/multissh/args.go:87-109 | A non-empty argument wins. Otherwise a non-empty MULTISSH_USERNAME wins. Otherwise the result of the current-user lookup is returned, with its error. |
| Args.GetPassword | internal/multissh/args.go:111-129 | A non-empty argument wins. Otherwise the value of MULTISSH_PASSWORD is returned, which is "" when it is unset. It never fails. |
| Args.ResolversFollowPriority | internal/multissh/args.go:87-129 | Both resolvers return the first non-empty of (argument, environment variable), and use the fallback only when both are empty. |
| Args.ArgumentWins | internal/multissh/args.go:89-92 | With a non-empty argument, the result does not depend on the environment or the user lookup. |
| Args.UsernameFailsOnlyOnLookup | internal/multissh/args.go:102-106 | The username fails iff the argument and MULTISSH_USERNAME are both empty and the user lookup fails. |
| Args.GetPrivateKeyPath | internal/multissh/args.go:137-147 | An empty path gives ("", no error). An existing path is returned unchanged. A missing path gives "" and "file not found: " plus the path. |
| Args.EmptyKeyPathSkipsStat | internal/multissh/args.go:139-142 | The empty path is decided without asking the file system. |
| Args.GetNodes | internal/multissh/args.go:131-135 | Returns exactly the node list of `getNodeList`. |
| Config.PrivateKey | internal/multissh/config.go:102-117 | A read or parse failure is returned as the error, with no auth method. On success the method is public-key auth with the parsed signer. |
| Config.GetSSHPasswordConfig | internal/multissh/config.go:36-58 | A non-empty password gives one password method for the user, with host keys ignored. An empty one prompts: a prompt error is returned as the error, and a typed password gives password auth with exactly that password. |
| Config.GetSSHKeyConfig | internal/multissh/config.go:62-99 | A failed agent dial is the error. A connection gives agent auth. Key-file auth arises only from a nil connection with no error. Then a passphrase-prompt error is returned as the error, a `privateKey` error is returned as the error, and otherwise the config uses the key's auth method. Every config has the user, one method and host keys ignored. |
| Config.NewClientConfig | internal/multissh/config.go:14-32 | A non-empty password gives exactly the password config. An empty password gives exactly the key config: an error when the agent dial fails, agent auth on the dialled connection when it succeeds. Every config is well formed. |
| Config.NewClientConfigNeverPrompts | internal/multissh/config.go:16-23 | On this path the password prompt is never consulted. With Go's dialer, the passphrase prompt, the key file and the key parser are never consulted either. |
| Config.PrivateKeyBranchUnreachable | internal/multissh/config.go:70-91 | With Go's dialer, every produced config uses password or agent authentication. |
| Connections.DialAddress | internal/multissh/connection.go:15 | The address is the host followed by exactly ":22". |
| Connections.DialAddressNamesHost | internal/multissh/connection.go:15 | The dial address is the host followed by ":22", and the host can be read back from it. |
| Connections.Connect | internal/multissh/connection.go:13-27 | One TCP dial to host:22 with the given config. No error iff the dial succeeds. On failure: the zero connection and the dial error unchanged. On success: the host kept and the dialled client wrapped. |
| Bufio.DropCR | internal/multissh/distribute.go:109-110 | Removes at most one character, and removes it iff it is a trailing carriage return. |
| Bufio.Cut | internal/multissh/distribute.go:109-110 | No tokens remain iff the stream is exhausted and no partial line has been read. |
| Bufio.ScanLines | internal/multissh/distribute.go:107-110 | A stream yields no tokens iff it is empty. |
| Bufio.CutLine | internal/multissh/distribute.go:109-110 | A stretch without a newline, followed by a newline, is one token (with a trailing carriage return dropped), and scanning resumes after the newline. |
| Bufio.CutTail | internal/multissh/distribute.go:109-110 | A non-empty final stretch without a newline is one last token. |
| Bufio.ScanLinesShape | internal/multissh/distribute.go:107-110 | No token contains a newline. There is one token per newline, plus one for a non-empty unterminated tail. |
| Bufio.ScanLinesUnlines | internal/multissh/distribute.go:107-110 | Scanning newline-terminated plain lines gives exactly those lines back: none dropped, merged or duplicated. |
| Bufio.Scanner.constructor | internal/multissh/distribute.go:107 | A new scanner holds the whole stream, no token yet, and its pending tokens are those of `ScanLines` on the stream. |
| Bufio.Scanner.Scan | internal/multissh/distribute.go:109-110 | True iff input remains. On true, the token is the next token of the stream and the rest shrinks. On false, the input is unchanged, the token is empty and no tokens remain. |
| GoRuntime.Channel.constructor | internal/multissh/distribute.go:67-68 | A new channel is empty and has the given positive capacity. |
| GoRuntime.Channel.Send | internal/multissh/distribute.go:114 | Allowed only when the channel is not full. Appends the value at the back. |
| GoRuntime.Channel.Receive | internal/multissh/distribute.go:86 | Allowed only when the channel is not empty. Removes and returns the oldest value. |
| GoRuntime.Stdout.Write | internal/multissh/distribute.go:87 | Appends one record to the receivers' output. |
| Distribution.Format | internal/multissh/distribute.go:87 | A record is the host and the line plus four characters, opens with '[' and ends with a newline. |
| Distribution.FormatRoundTrip | internal/multissh/distribute.go:87 | The printed record "[host] line\n" can be read back into exactly the message, provided the host holds no ']'. |
| Distribution.Tagged | internal/multissh/distribute.go:108-115 | Exactly one message per token. |
| Distribution.Rendered | internal/multissh/distribute.go:84-88 | Exactly one record per message. |
| Distribution.TaggedAt | internal/multissh/distribute.go:63-65 | The i-th message sent carries the host and the i-th token. |
| Distribution.RenderedAt | internal/multissh/distribute.go:87 | The i-th record printed is the format of the i-th message. |
| Distribution.TaggedAppend | internal/multissh/distribute.go:108-115 | Tagging the tokens of a concatenation gives the concatenation of the taggings. |
| Distribution.RenderedAppend | internal/multissh/distribute.go:84-88 | Rendering a concatenation of messages gives the concatenation of the renderings. |
| Distribution.ReceiveOne | internal/multissh/distribute.go:86-87 | Removes the oldest message and prints its record. |
| Distribution.MessageReceiver | internal/multissh/distribute.go:83-90 | Prints every queued message exactly once, oldest first, and leaves the channel empty. |
| Distribution.SendWaiting | internal/multissh/distribute.go:114 | A send on a full channel first lets the receiver print the oldest message. What was printed plus what is queued is the old queue plus the new message. |
| Distribution.ScanSessionMessageToChannel | internal/multissh/distribute.go:106-117 | One message per token of the stream, in token order, with the session's host and the token as line. Nothing is sent after the end of the stream. What is printed while waiting, plus what stays queued, is the old queue followed by these messages. |
| Distribution.RelayStream | internal/multissh/distribute.go:71-76 | Over a fresh private channel, the output gains exactly one record per token of the stream, in order, tagged with the host. |
| Distribution.SessionStep | internal/multissh/distribute.go:45-61 | A failed session is reported as such. The command runs iff the session and both pipes were set up, and then on this connection's host. |
| Distribution.HostStep | internal/multissh/distribute.go:29-34 | A failed dial ends the host with the dial error. A successful dial goes on to the session steps on a connection to the node with the dialled client. A run only ever happens on the node itself. |
| Distribution.RunOutput | internal/multissh/distribute.go:42-80 | A host that did not run writes no records. |
| Distribution.HostOutput | internal/multissh/distribute.go:29-34 | A node whose dial fails writes no records. |
| Distribution.Each | internal/multissh/distribute.go:24-36 | No nodes give no records; a single node gives exactly its own records. |
| Distribution.EachAppend | internal/multissh/distribute.go:24-36 | The records over concatenated node lists are those of the first list, then those of the second. |
| Distribution.DistributeOutput | internal/multissh/distribute.go:20-39 | No nodes give no records; a single node gives exactly that host's records. |
| Distribution.RunCommand | internal/multissh/distribute.go:42-80 | The output gains exactly the host's records: stdout tokens, then stderr tokens. A session or pipe failure writes no records. |
| Distribution.Distribute | internal/multissh/distribute.go:20-39 | The output gains the records of every node in list order. Unreachable nodes are skipped. |
| Distribution.HostOutputIsTagged | internal/multissh/distribute.go:63-76 | Every record a host writes is its name with one of its tokens, in stream order. A host that fails before running writes no records. |
| Distribution.FailuresAreSilent | internal/multissh/distribute.go:29-49 | A failed connect, or a failed `NewSession` after a good connect, ends the host with that error and no records. The model does not log. The program logs the `NewSession` error; for a failed connect it logs only that the host failed to connect, and drops the dial error. |
| Distribution.PrintedRecordsNameTheirHost | internal/multissh/distribute.go:63-65 | Reading back any record a host prints gives that host's name and the matching token. |
| Distribution.DistributeAppend | internal/multissh/distribute.go:24-36 | The output over concatenated node lists is the concatenation of their outputs. |
| Distribution.FailedNodeIsInvisible | internal/multissh/distribute.go:29-32 | A node that fails before running takes nothing away from the others. The records are those of the other nodes. |
| Distribution.OneReachableOfTwo | internal/multissh/distribute.go:20-39 | With one host answering "ok" and one unreachable, exactly one record, "[h1] ok", is printed. |

## Left out

- Goroutines, the `sync.WaitGroup`, and the interleaving of output from different hosts and between a host's two streams are not modelled. The model fixes one schedule: hosts in list order, standard output before standard error. Under every schedule a stream's records keep their token order; how many of them are printed before the program exits is covered below.
- Distribution.ScanSessionMessageToChannel: the Go loop never returns. After the end of the stream it keeps calling `Scan`, which keeps returning false. The model stops at the end of the stream instead; it sends nothing more either way.
- Distribution.MessageReceiver: the Go receiver waits forever for more messages. The model stops once the channel is empty.
- In Go, `RunCommand` returns when `sess.Run` returns, without waiting for the scanners or the receivers, and `Distribute` returns once every `RunCommand` has. When the program then exits, records still queued are lost, and so are tokens the scanners have not yet read from the pipes. How much is lost depends on the schedule. The model scans and prints everything.
- The error of `sess.Run` is ignored in the Go code, and the model ignores it too. The remote side is a parameter that yields the text of the two streams.
- `Close` calls on connections and sessions are not modelled.
- Logging is not modelled. The program's log output is standard output (internal/multissh/logging.go:29), so the error lines logged on a failed connect (internal/multissh/connection.go:18, host only), session or pipe (internal/multissh/distribute.go:47, 54, 59, with the error) appear on standard output among the records. The modelled output holds the `[host] line` records only. "No records" in the table does not mean nothing reaches standard output.
- The two output channels of a session are created with capacity 1000 inside `RunCommand`. That size is not part of its contract. The contract says which records come out, and the order holds for any capacity.
- The 64 KiB token limit of `bufio.Scanner` (`ErrTooLong`) is not modelled. Every line is assumed to fit.
- Streams are modelled as text, not bytes. Invalid UTF-8 is not modelled. Newline and carriage return never occur inside a multi-byte UTF-8 sequence, so cutting the text equals cutting the bytes.
- `bufferedMessageReceiver` is never called and its code after the loop cannot run, so it is not modelled.
- `Cli` (argument parsing and exits) is not modelled. Its node-list error check tests an error already known to be nil.
- util.go (terminal password prompting), logging.go (logger setup) and runner.go (orchestration) are not part of this model. The prompt is the parameter `readPassword`.
- The ssh, agent, net and validator libraries are abstract: dial outcomes, session outcomes and three validation predicates. The `required` tag is modelled as non-empty.
- Args.GetPrivateKeyPath: `os.Stat` is modelled as a yes/no file-exists check. The Go code reports every `os.Stat` failure, including a permission error, as "file not found".
- Go's `strings.Split` is modelled for a one-character separator only, which is the only kind the program uses. The program never calls `strings.Join`. `Join` is defined in `go_strings.dfy`, also for one character, only to state the round trips `SplitJoin`, `JoinSplit` and `JoinParseRoundTrip`.
- Duplicate nodes are kept, as in the Go code. A node listed twice is run twice.
