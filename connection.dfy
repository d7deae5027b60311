/** Opening the SSH connection to one host. The SSH library's dial is a
    parameter: it receives the network, the address and the configuration
    and either yields a client or fails. */
module Connections {
  import opened Common
  import opened Config

  /** An established `*ssh.Client`. */
  datatype Client = Client(id: nat)

  /** `connection`: the host name and its client; the zero value has an
      empty host and a nil client. */
  datatype Connection = Connection(host: string, client: Option<Client>)

  const ZeroConnection := Connection("", None)

  /** The arguments of one `ssh.Dial` call. */
  datatype DialRequest = DialRequest(network: string, address: string, config: ClientConfig)

  /** The outcome of one `ssh.Dial` call. */
  datatype DialOutcome = Dialled(client: Client) | DialFailed(err: string)

  type Dialer = DialRequest -> DialOutcome

  const SshPort := "22"

  /** The address dialled for a host: the host, a colon and the SSH port. */
  function DialAddress(host: string): (address: string)
    ensures |address| == |host| + 3
    ensures address[..|host|] == host && address[|host|..] == ":22"
  {
    host + ":" + SshPort
  }

  /** The host part of an address ending in the SSH port. */
  function AddressHost(address: string): Option<string> {
    var suffix := ":" + SshPort;
    if |address| >= |suffix| && address[|address| - |suffix|..] == suffix
    then Some(address[..|address| - |suffix|])
    else None
  }

  /** The dial address names the host and the SSH port, and nothing else. */
  lemma DialAddressNamesHost(host: string)
    ensures AddressHost(DialAddress(host)) == Some(host)
  {
    var a := DialAddress(host);
    assert a[..|a| - 3] == host;
    assert a[|a| - 3..] == ":22";
  }

  /** The one dial `Connect` makes: TCP, to the host's SSH port, with the
      given configuration. */
  function ConnectRequest(host: string, config: ClientConfig): DialRequest {
    DialRequest("tcp", DialAddress(host), config)
  }

  /** `Connect`: dials once, without retrying. On failure it returns the zero
      connection and the dial error unchanged; on success a connection that
      keeps the host name and wraps the dialled client. */
  function Connect(host: string, config: ClientConfig, dial: Dialer): (r: Returns<Connection>)
    ensures r.err.None? <==> dial(ConnectRequest(host, config)).Dialled?
    ensures r.err.Some? ==> r.value == ZeroConnection && r.err.value == dial(ConnectRequest(host, config)).err
    ensures r.err.None? ==> r.value.host == host && r.value.client == Some(dial(ConnectRequest(host, config)).client)
  {
    var connectHost := DialAddress(host);
    match dial(DialRequest("tcp", connectHost, config))
    case DialFailed(e) => Returns(ZeroConnection, Some(e))
    case Dialled(conn) => Returns(Connection(host, Some(conn)), None)
  }
}
