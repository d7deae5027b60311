/** Running the command on every host and relaying each host's output.
    The concurrent program is modelled as one sequential schedule: hosts
    are handled in list order; within a host the standard-output stream is
    relayed before the standard-error stream; a send that finds its channel
    full lets the receiver print one message first, and the receiver
    drains the channel once the scanner reaches the end of the stream.
    Because every channel is first-in first-out and private to one stream,
    the records of a stream always come out in token order; how many of
    them are printed before the process exits does depend on the schedule,
    and the model prints all of them. Only the receivers' records are
    modelled: log lines written to the same standard output are not. */
module Distribution {
  import opened Common
  import opened GoStrings
  import opened Bufio
  import opened GoRuntime
  import opened Args
  import opened Config
  import opened Connections

  /** `message`: one line of output and the host it came from. */
  datatype Message = Message(hostname: string, line: string)

  /** The buffer size of each output channel. */
  const OutputBufferSize := 1000

  /** What the receiver prints for a message: `[host] line` and a newline. */
  function Format(m: Message): (record: string)
    ensures |record| == |m.hostname| + |m.line| + 4
    ensures record[0] == '[' && record[|record| - 1] == '\n'
  {
    "[" + m.hostname + "] " + m.line + "\n"
  }

  /** Reads a printed record back: the host is the text between the leading
      `[` and the first `]`, the line what follows `] ` up to the final
      newline. */
  function Unformat(s: string): Option<Message> {
    if |s| < 4 || s[0] != '[' || s[|s| - 1] != '\n' then None
    else match IndexByte(s, ']')
      case None => None
      case Some(i) =>
        if 1 <= i && i + 2 < |s| && s[i + 1] == ' '
        then Some(Message(s[1..i], s[i + 2..|s| - 1]))
        else None
  }

  /** A printed record names its host and line unambiguously, as long as
      the host name holds no `]`. */
  lemma FormatRoundTrip(m: Message)
    requires ']' !in m.hostname
    ensures Unformat(Format(m)) == Some(m)
  {
    var s := Format(m);
    var h := m.hostname;
    assert s == ("[" + h) + "]" + (" " + m.line + "\n");
    IndexByteAfter("[" + h, ']', " " + m.line + "\n");
    assert s[1..|h| + 1] == h;
    assert s[|h| + 3..|s| - 1] == m.line;
  }

  /** The messages a scanner loop sends for the given tokens: one per token,
      in token order, each tagged with the host. */
  function Tagged(host: string, lines: seq<string>): (ms: seq<Message>)
    ensures |ms| == |lines|
  {
    if lines == [] then [] else [Message(host, lines[0])] + Tagged(host, lines[1..])
  }

  /** What the receiver prints for the given messages, in order. */
  function Rendered(ms: seq<Message>): (out: seq<string>)
    ensures |out| == |ms|
  {
    if ms == [] then [] else [Format(ms[0])] + Rendered(ms[1..])
  }

  /** The i-th message of a tagged list carries the host and the i-th token. */
  lemma {:induction false} TaggedAt(host: string, lines: seq<string>, i: nat)
    requires i < |lines|
    ensures Tagged(host, lines)[i] == Message(host, lines[i])
  {
    if i > 0 {
      TaggedAt(host, lines[1..], i - 1);
    }
  }

  /** The i-th printed string is the record of the i-th message. */
  lemma {:induction false} RenderedAt(ms: seq<Message>, i: nat)
    requires i < |ms|
    ensures Rendered(ms)[i] == Format(ms[i])
  {
    if i > 0 {
      RenderedAt(ms[1..], i - 1);
    }
  }

  lemma {:induction false} TaggedAppend(host: string, a: seq<string>, b: seq<string>)
    ensures Tagged(host, a + b) == Tagged(host, a) + Tagged(host, b)
  {
    if a != [] {
      assert (a + b)[1..] == a[1..] + b;
      TaggedAppend(host, a[1..], b);
    } else {
      assert a + b == b;
    }
  }

  lemma {:induction false} RenderedAppend(a: seq<Message>, b: seq<Message>)
    ensures Rendered(a + b) == Rendered(a) + Rendered(b)
  {
    if a != [] {
      assert (a + b)[1..] == a[1..] + b;
      RenderedAppend(a[1..], b);
    } else {
      assert a + b == b;
    }
  }

  /** One step of `messageReceiver`: take the oldest message and print it. */
  method ReceiveOne(c: Channel<Message>, out: Stdout)
    requires c.Valid() && c.buf != []
    modifies c, out
    ensures c.Valid() && c.buf == old(c.buf)[1..]
    ensures out.written == old(out.written) + [Format(old(c.buf)[0])]
  {
    var m := c.Receive();
    out.Write(Format(m));
  }

  /** Moving the head of a queue to the end of what was printed keeps
      their concatenation. */
  lemma MoveFirst<T>(printed: seq<T>, queued: seq<T>)
    requires queued != []
    ensures (printed + [queued[0]]) + queued[1..] == printed + queued
  {
    assert [queued[0]] + queued[1..] == queued;
  }

  /** `messageReceiver`: prints every message of the channel exactly once,
      oldest first. The Go loop then waits forever for more; the model stops
      when the channel is empty. */
  method MessageReceiver(c: Channel<Message>, out: Stdout)
    requires c.Valid()
    modifies c, out
    ensures c.Valid() && c.buf == []
    ensures out.written == old(out.written) + Rendered(old(c.buf))
  {
    ghost var printed: seq<Message> := [];
    while c.buf != []
      invariant c.Valid()
      invariant printed + c.buf == old(c.buf)
      invariant out.written == old(out.written) + Rendered(printed)
      decreases |c.buf|
    {
      MoveFirst(printed, c.buf);
      RenderedAppend(printed, [c.buf[0]]);
      printed := printed + [c.buf[0]];
      ReceiveOne(c, out);
    }
    assert printed + c.buf == printed;
  }

  /** `c <- x` with a receiver on the other side: when the channel is full
      the receiver prints its oldest message first (`taken`), then `x` is
      queued. */
  method SendWaiting(c: Channel<Message>, x: Message, out: Stdout) returns (ghost taken: seq<Message>)
    requires c.Valid()
    modifies c, out
    ensures c.Valid()
    ensures taken + c.buf == old(c.buf) + [x]
    ensures out.written == old(out.written) + Rendered(taken)
  {
    taken := [];
    if c.Full() {
      taken := [c.buf[0]];
      ReceiveOne(c, out);
    }
    c.Send(x);
  }

  /** Bookkeeping for one send: what was printed before, plus what the
      send let through, plus what is queued now, is what was printed and
      queued before plus the new message. */
  lemma QueueStep<T>(printed: seq<T>, taken: seq<T>, queued: seq<T>, before: seq<T>,
                     start: seq<T>, sent: seq<T>, x: seq<T>)
    requires taken + queued == before + x
    requires printed + before == start + sent
    ensures (printed + taken) + queued == start + (sent + x)
  {
    calc {
      (printed + taken) + queued;
      printed + (taken + queued);
      printed + (before + x);
      (printed + before) + x;
      (start + sent) + x;
      start + (sent + x);
    }
  }

  /** `scanSessionMessageToChannel`: for every token the scanner cuts, sets
      the line of the message and sends it; nothing is sent once `Scan`
      reports the end of the stream. The messages the receiver printed while
      a send waited (`delivered`) followed by what is still queued are the
      old queue followed by one message per token. */
  method ScanSessionMessageToChannel(sc: Scanner, c: Channel<Message>, m: Message, out: Stdout)
    returns (ghost delivered: seq<Message>)
    requires c.Valid() && sc.Valid()
    modifies sc, c, out
    ensures c.Valid() && sc.rest == ""
    ensures delivered + c.buf == old(c.buf) + Tagged(m.hostname, old(sc.pending))
    ensures out.written == old(out.written) + Rendered(delivered)
  {
    var msg := m;
    ghost var emitted: seq<string> := [];
    delivered := [];
    var done := false;
    while !done
      invariant c.Valid() && msg.hostname == m.hostname
      invariant sc.Valid() && emitted + sc.pending == old(sc.pending)
      invariant delivered + c.buf == old(c.buf) + Tagged(m.hostname, emitted)
      invariant out.written == old(out.written) + Rendered(delivered)
      invariant done ==> sc.rest == "" && sc.pending == []
      decreases |sc.rest| + (if done then 0 else 1)
    {
      var tkn := sc.Scan();
      if tkn {
        msg := Message(m.hostname, sc.token);
        ghost var before := c.buf;
        ghost var taken := SendWaiting(c, msg, out);
        RenderedAppend(delivered, taken);
        TaggedAppend(m.hostname, emitted, [sc.token]);
        assert Tagged(m.hostname, [sc.token]) == [msg];
        QueueStep(delivered, taken, c.buf, before, old(c.buf), Tagged(m.hostname, emitted), [msg]);
        delivered := delivered + taken;
        emitted := emitted + [sc.token];
      } else {
        done := true;
      }
    }
    assert emitted == old(sc.pending);
  }

  /** One output stream of a session: a scanner over the stream feeding a
      fresh channel and a receiver draining it. Every token of the stream is
      printed once, tagged with the host, in stream order, and nothing else
      goes through the channel. */
  method RelayStream(stream: string, c: Channel<Message>, m: Message, out: Stdout)
    requires c.Valid() && c.buf == []
    modifies c, out
    ensures c.Valid() && c.buf == []
    ensures out.written == old(out.written) + Rendered(Tagged(m.hostname, ScanLines(stream)))
  {
    var sc := new Scanner(stream);
    ghost var delivered := ScanSessionMessageToChannel(sc, c, m, out);
    ghost var queued := c.buf;
    MessageReceiver(c, out);
    assert delivered + queued == Tagged(m.hostname, ScanLines(stream));
    RenderedAppend(delivered, queued);
  }

  /** The outcome of `NewSession` and of attaching to its two output pipes. */
  datatype SessionOutcome =
    | NewSessionFailed(err: string)
    | SessionOpened(stdoutPipeErr: Option<string>, stderrPipeErr: Option<string>)

  /** What the remote command writes to its two streams. */
  datatype RemoteOutput = RemoteOutput(stdout: string, stderr: string)

  /** The SSH library and the remote side: dialling, opening a session on a
      client and running a command in it. */
  datatype Remote = Remote(
    dial: Dialer,
    newSession: Client -> SessionOutcome,
    run: (Client, string) -> RemoteOutput)

  /** How the work for one host ends. */
  datatype HostRun =
    | ConnectFailed(err: string)
    | SessionFailed(err: string)
    | StdoutPipeFailed(err: string)
    | StderrPipeFailed(err: string)
    | Ran(host: string, output: RemoteOutput)

  /** The decisions of `RunCommand` on a connection: stop if the session or
      either pipe cannot be set up, otherwise run the command. */
  function SessionStep(command: string, c: Connection, remote: Remote): (r: HostRun)
    requires c.client.Some?
    ensures r.Ran? ==> r.host == c.host && r.output == remote.run(c.client.value, command)
    ensures remote.newSession(c.client.value).NewSessionFailed? ==> r == SessionFailed(remote.newSession(c.client.value).err)
    ensures r.Ran? <==> remote.newSession(c.client.value) == SessionOpened(None, None)
  {
    var client := c.client.value;
    match remote.newSession(client)
    case NewSessionFailed(e) => SessionFailed(e)
    case SessionOpened(outErr, errErr) =>
      if outErr.Some? then StdoutPipeFailed(outErr.value)
      else if errErr.Some? then StderrPipeFailed(errErr.value)
      else Ran(c.host, remote.run(client, command))
  }

  /** The decisions for one node in `Distribute`: stop if `Connect` fails,
      otherwise continue with the session. */
  function HostStep(config: ClientConfig, command: string, node: string, remote: Remote): (r: HostRun)
    ensures remote.dial(ConnectRequest(node, config)).DialFailed? ==> r == ConnectFailed(remote.dial(ConnectRequest(node, config)).err)
    ensures r.Ran? ==> r.host == node
    ensures remote.dial(ConnectRequest(node, config)).Dialled? ==>
      r == SessionStep(command, Connection(node, Some(remote.dial(ConnectRequest(node, config)).client)), remote)
  {
    var c := Connect(node, config, remote.dial);
    if c.err.Some? then ConnectFailed(c.err.value)
    else SessionStep(command, c.value, remote)
  }

  /** The tokens a host's two streams yield, standard output first. */
  function RunLines(run: HostRun): seq<string> {
    match run
    case Ran(_, output) => ScanLines(output.stdout) + ScanLines(output.stderr)
    case _ => []
  }

  /** What the work for one host prints. */
  function RunOutput(run: HostRun): (out: seq<string>)
    ensures !run.Ran? ==> out == []
  {
    match run
    case Ran(host, output) =>
      Rendered(Tagged(host, ScanLines(output.stdout))) + Rendered(Tagged(host, ScanLines(output.stderr)))
    case _ => []
  }

  function HostOutput(config: ClientConfig, command: string, node: string, remote: Remote): (out: seq<string>)
    ensures remote.dial(ConnectRequest(node, config)).DialFailed? ==> out == []
  {
    RunOutput(HostStep(config, command, node, remote))
  }

  /** The outputs of the given nodes, one after the other in list order. */
  function Each(output: string -> seq<string>, nodes: seq<string>): (out: seq<string>)
    ensures nodes == [] ==> out == []
    ensures |nodes| == 1 ==> out == output(nodes[0])
  {
    if nodes == [] then []
    else Each(output, nodes[..|nodes| - 1]) + output(nodes[|nodes| - 1])
  }

  /** Running over concatenated node lists prints the outputs of the first
      list, then those of the second. */
  lemma {:induction false} EachAppend(output: string -> seq<string>, a: seq<string>, b: seq<string>)
    ensures Each(output, a + b) == Each(output, a) + Each(output, b)
    decreases |b|
  {
    if b == [] {
      assert a + b == a;
    } else {
      var init := b[..|b| - 1];
      assert (a + b)[..|a + b| - 1] == a + init;
      assert (a + b)[|a + b| - 1] == b[|b| - 1];
      EachAppend(output, a, init);
    }
  }

  /** What `Distribute` prints for a list of nodes, host by host. */
  function DistributeOutput(config: ClientConfig, command: string, nodes: seq<string>, remote: Remote): (out: seq<string>)
    ensures nodes == [] ==> out == []
    ensures |nodes| == 1 ==> out == HostOutput(config, command, nodes[0], remote)
  {
    Each(node => HostOutput(config, command, node, remote), nodes)
  }

  /** `RunCommand`: opens a session, attaches to both output pipes, starts a
      receiver and a scanner per stream on two separate channels of
      capacity 1000, and runs the command. A failure to open the session or
      a pipe writes no records. */
  method RunCommand(command: string, c: Connection, remote: Remote, out: Stdout)
    requires c.client.Some?
    modifies out
    ensures out.written == old(out.written) + RunOutput(SessionStep(command, c, remote))
  {
    var conn := c.client.value;
    var sess := remote.newSession(conn);
    if sess.NewSessionFailed? {
      return;
    }
    if sess.stdoutPipeErr.Some? {
      return;
    }
    if sess.stderrPipeErr.Some? {
      return;
    }
    var m := Message(c.host, "");
    var soc := new Channel<Message>(OutputBufferSize);
    var sec := new Channel<Message>(OutputBufferSize);
    var output := remote.run(conn, command);
    assert SessionStep(command, c, remote) == Ran(c.host, output);
    ghost var start := out.written;
    RelayStream(output.stdout, soc, m, out);
    ghost var fromStdout := out.written[|start|..];
    assert out.written == start + fromStdout;
    RelayStream(output.stderr, sec, m, out);
    assert out.written == start + (fromStdout + Rendered(Tagged(c.host, ScanLines(output.stderr))));
  }

  /** `Distribute`: for every node, connects and, when that succeeds, runs
      the command; a node that cannot be reached is skipped. */
  method Distribute(config: ClientConfig, p: CommandParameters, remote: Remote, out: Stdout)
    modifies out
    ensures out.written == old(out.written) + DistributeOutput(config, p.command, p.nodes, remote)
  {
    var command := p.command;
    for i := 0 to |p.nodes|
      invariant out.written == old(out.written) + DistributeOutput(config, command, p.nodes[..i], remote)
    {
      assert p.nodes[..i + 1][..i] == p.nodes[..i];
      var node := p.nodes[i];
      var c := Connect(node, config, remote.dial);
      if c.err.Some? {
        continue;
      }
      RunCommand(command, c.value, remote, out);
    }
    assert p.nodes[..|p.nodes|] == p.nodes;
  }

  /** Every record a host prints is that host's name and one of its tokens:
      standard-output tokens in order, then standard-error tokens in order.
      A host whose connection, session or pipes fail writes no records. */
  lemma HostOutputIsTagged(config: ClientConfig, command: string, node: string, remote: Remote)
    ensures HostOutput(config, command, node, remote) ==
      Rendered(Tagged(node, RunLines(HostStep(config, command, node, remote))))
    ensures !HostStep(config, command, node, remote).Ran? ==> HostOutput(config, command, node, remote) == []
  {
    var run := HostStep(config, command, node, remote);
    if run.Ran? {
      TaggedAppend(node, ScanLines(run.output.stdout), ScanLines(run.output.stderr));
      RenderedAppend(Tagged(node, ScanLines(run.output.stdout)), Tagged(node, ScanLines(run.output.stderr)));
    }
  }

  /** The two short-circuits of a host: a failed dial ends it before any
      session, and a failed `NewSession` ends it before any channel exists;
      either way the host writes no records. */
  lemma FailuresAreSilent(config: ClientConfig, command: string, node: string, remote: Remote)
    ensures remote.dial(ConnectRequest(node, config)).DialFailed? ==>
      HostStep(config, command, node, remote) == ConnectFailed(remote.dial(ConnectRequest(node, config)).err) &&
      HostOutput(config, command, node, remote) == []
    ensures remote.dial(ConnectRequest(node, config)).Dialled? &&
            remote.newSession(remote.dial(ConnectRequest(node, config)).client).NewSessionFailed? ==>
      HostStep(config, command, node, remote) ==
        SessionFailed(remote.newSession(remote.dial(ConnectRequest(node, config)).client).err) &&
      HostOutput(config, command, node, remote) == []
  {
  }

  /** Reading back any record a host prints gives that host's name. */
  lemma PrintedRecordsNameTheirHost(config: ClientConfig, command: string, node: string, remote: Remote)
    requires ']' !in node
    ensures forall i :: 0 <= i < |HostOutput(config, command, node, remote)| ==>
      Unformat(HostOutput(config, command, node, remote)[i]) ==
        Some(Message(node, RunLines(HostStep(config, command, node, remote))[i]))
  {
    HostOutputIsTagged(config, command, node, remote);
    var printed := HostOutput(config, command, node, remote);
    var lines := RunLines(HostStep(config, command, node, remote));
    forall i | 0 <= i < |printed|
      ensures Unformat(printed[i]) == Some(Message(node, lines[i]))
    {
      RenderedAt(Tagged(node, lines), i);
      TaggedAt(node, lines, i);
      FormatRoundTrip(Message(node, lines[i]));
    }
  }

  /** The output of a run over concatenated node lists is the concatenation
      of their outputs. */
  lemma DistributeAppend(config: ClientConfig, command: string, a: seq<string>, b: seq<string>, remote: Remote)
    ensures DistributeOutput(config, command, a + b, remote) ==
      DistributeOutput(config, command, a, remote) + DistributeOutput(config, command, b, remote)
  {
    EachAppend(node => HostOutput(config, command, node, remote), a, b);
  }

  /** A node that cannot be reached, or whose session cannot be set up,
      takes nothing away from the others: the output is what the other
      nodes print, in order. */
  lemma FailedNodeIsInvisible(config: ClientConfig, command: string, a: seq<string>, node: string, b: seq<string>, remote: Remote)
    requires !HostStep(config, command, node, remote).Ran?
    ensures DistributeOutput(config, command, a + [node] + b, remote) == DistributeOutput(config, command, a + b, remote)
  {
    DistributeAppend(config, command, a + [node], b, remote);
    DistributeAppend(config, command, a, [node], remote);
    DistributeAppend(config, command, a, b, remote);
    assert [node][..0] == [];
    HostOutputIsTagged(config, command, node, remote);
  }

  /** Two hosts: `h1` answers "ok" on standard output, `h2` cannot be
      reached. */
  function TwoHostRemote(): Remote {
    Remote(
      (req: DialRequest) => if req.address == "h1:22" then Dialled(Client(1)) else DialFailed("no route to host"),
      client => SessionOpened(None, None),
      (client, command) => RemoteOutput("ok\n", ""))
  }

  /** With the first host answering "ok" and the second unreachable, the
      run prints exactly one record, `[h1] ok`. */
  lemma OneReachableOfTwo(config: ClientConfig)
    ensures DistributeOutput(config, "uptime", ["h1", "h2"], TwoHostRemote()) == ["[h1] ok\n"]
  {
    var remote := TwoHostRemote();
    assert DialAddress("h1") == "h1:22";
    assert DialAddress("h2") == "h2:22";
    assert "h2:22"[1] != "h1:22"[1];
    assert HostStep(config, "uptime", "h2", remote) == ConnectFailed("no route to host");
    assert HostStep(config, "uptime", "h1", remote) == Ran("h1", RemoteOutput("ok\n", ""));
    assert PlainLine("ok");
    ScanLinesUnlines(["ok"]);
    assert Unlines(["ok"]) == "ok\n";
    assert ScanLines("") == [];
    assert Tagged("h1", ["ok"]) == [Message("h1", "ok")];
    assert Format(Message("h1", "ok")) == "[h1] ok\n";
    assert Rendered([Message("h1", "ok")]) == ["[h1] ok\n"];
    assert Rendered(Tagged("h1", [])) == [];
    assert HostOutput(config, "uptime", "h1", remote) ==
      Rendered(Tagged("h1", ScanLines("ok\n"))) + Rendered(Tagged("h1", ScanLines("")));
    assert HostOutput(config, "uptime", "h1", remote) == ["[h1] ok\n"];
    assert ["h1", "h2"][..1] == ["h1"];
    assert ["h1"][..0] == [];
    assert DistributeOutput(config, "uptime", ["h1"], remote) == ["[h1] ok\n"];
  }
}
