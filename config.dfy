/** Selection of the SSH client configuration: password authentication when
    a password is known, otherwise keys from the SSH agent, otherwise (in a
    branch the real dialer never reaches) an unlocked private-key file.
    Everything outside the program is a parameter: the environment, the
    agent-socket dialer, the terminal prompt, file reading and key parsing. */
module Config {
  import opened Common
  import opened Args

  /** A live connection to the SSH agent's socket. */
  datatype AgentConn = AgentConn(socket: string)

  /** A private key parsed and unlocked by the SSH library. */
  datatype Signer = Signer(key: string, passphrase: string)

  /** `ssh.AuthMethod`: password, keys offered by the agent over a
      connection (`ssh.PublicKeysCallback(agent.NewClient(conn).Signers)`),
      or an unlocked key (`ssh.PublicKeys(signer)`). */
  datatype AuthMethod =
    | PasswordAuth(password: string)
    | AgentAuth(agent: AgentConn)
    | PublicKeysAuth(signer: Signer)

  /** The host-key policy; the program only ever uses
      `ssh.InsecureIgnoreHostKey()`. */
  datatype HostKeyCallback = InsecureIgnoreHostKey

  /** `ssh.ClientConfig`, restricted to the fields the program sets. */
  datatype ClientConfig = ClientConfig(user: string, auth: seq<AuthMethod>, hostKeyCallback: HostKeyCallback)

  /** The outcome of `net.Dial("unix", socket)`: an error, or a connection
      and no error. Go's dialer never gives a nil connection without an
      error; `AgentDialed(None)` is that combination, kept because the code
      tests for it. */
  datatype AgentDial = AgentDialFailed(err: string) | AgentDialed(conn: Option<AgentConn>)

  /** The program's view of its surroundings. */
  datatype System = System(
    getenv: string -> string,                       // os.Getenv
    dialUnix: string -> AgentDial,                  // net.Dial("unix", ·)
    readPassword: string -> Result<string>,         // getSecurePassword(prompt)
    readFile: string -> Result<string>,             // ioutil.ReadFile
    parseKey: (string, string) -> Result<Signer>)   // ssh.ParsePrivateKeyWithPassphrase

  const AgentSocketVariable := "SSH_AUTH_SOCK"

  function PasswordPrompt(username: string): string {
    "Password for user " + username + ": "
  }

  function PassphrasePrompt(username: string): string {
    "SSH key passphrase for user " + username + ":"
  }

  /** A configuration as the program builds it: the given user, one
      authentication method, host keys ignored. */
  predicate WellFormed(c: ClientConfig, p: CommandParameters) {
    c.user == p.username && |c.auth| == 1 && c.hostKeyCallback == InsecureIgnoreHostKey
  }

  /** A dialer that behaves as Go's does: success always carries a
      connection. */
  ghost predicate RealDialer(sys: System) {
    forall socket :: sys.dialUnix(socket).AgentDialed? ==> sys.dialUnix(socket).conn.Some?
  }

  /** `privateKey`: reads the key file and unlocks it with the passphrase;
      a failure of either step is returned as the error, with no
      authentication method. */
  function PrivateKey(path: string, passphrase: string, sys: System): (r: Result<AuthMethod>)
    ensures sys.readFile(path).Err? ==> r == Err(sys.readFile(path).error)
    ensures sys.readFile(path).Ok? && sys.parseKey(sys.readFile(path).value, passphrase).Err? ==>
      r == Err(sys.parseKey(sys.readFile(path).value, passphrase).error)
    ensures r.Ok? ==> r.value.PublicKeysAuth? && r.value.signer == sys.parseKey(sys.readFile(path).value, passphrase).value
  {
    match sys.readFile(path)
    case Err(e) => Err(e)
    case Ok(key) =>
      match sys.parseKey(key, passphrase)
      case Err(e) => Err(e)
      case Ok(signer) => Ok(PublicKeysAuth(signer))
  }

  /** `getSSHPasswordConfig`: password authentication with the known
      password, or with one read from the terminal when none is known. */
  function GetSSHPasswordConfig(p: CommandParameters, sys: System): (r: Result<ClientConfig>)
    ensures r.Ok? ==> WellFormed(r.value, p) && r.value.auth[0].PasswordAuth?
    ensures p.password != "" ==> r == Ok(ClientConfig(p.username, [PasswordAuth(p.password)], InsecureIgnoreHostKey))
    ensures p.password == "" ==> (r.Err? <==> sys.readPassword(PasswordPrompt(p.username)).Err?)
    ensures p.password == "" && sys.readPassword(PasswordPrompt(p.username)).Err? ==>
      r == Err(sys.readPassword(PasswordPrompt(p.username)).error)
    ensures p.password == "" && sys.readPassword(PasswordPrompt(p.username)).Ok? ==>
      r == Ok(ClientConfig(p.username, [PasswordAuth(sys.readPassword(PasswordPrompt(p.username)).value)], InsecureIgnoreHostKey))
  {
    var password := p.password;
    if password == "" then
      match sys.readPassword(PasswordPrompt(p.username))
      case Err(e) => Err(e)
      case Ok(typed) => Ok(ClientConfig(p.username, [PasswordAuth(typed)], InsecureIgnoreHostKey))
    else
      Ok(ClientConfig(p.username, [PasswordAuth(password)], InsecureIgnoreHostKey))
  }

  /** `getSSHKeyConfig`: dials the agent socket named by `SSH_AUTH_SOCK`; a
      failed dial is an error; a connection selects agent authentication;
      only a nil connection without an error leads to the passphrase prompt
      and the private-key file. */
  function GetSSHKeyConfig(p: CommandParameters, sys: System): (r: Result<ClientConfig>)
    ensures r.Ok? ==> WellFormed(r.value, p)
    ensures sys.dialUnix(sys.getenv(AgentSocketVariable)).AgentDialFailed? ==>
      r == Err(sys.dialUnix(sys.getenv(AgentSocketVariable)).err)
    ensures sys.dialUnix(sys.getenv(AgentSocketVariable)).AgentDialed? && sys.dialUnix(sys.getenv(AgentSocketVariable)).conn.Some? ==>
      r == Ok(ClientConfig(p.username, [AgentAuth(sys.dialUnix(sys.getenv(AgentSocketVariable)).conn.value)], InsecureIgnoreHostKey))
    ensures r.Ok? && r.value.auth[0].PublicKeysAuth? ==> sys.dialUnix(sys.getenv(AgentSocketVariable)) == AgentDialed(None)
    ensures sys.dialUnix(sys.getenv(AgentSocketVariable)) == AgentDialed(None) && sys.readPassword(PassphrasePrompt(p.username)).Err? ==>
      r == Err(sys.readPassword(PassphrasePrompt(p.username)).error)
    ensures sys.dialUnix(sys.getenv(AgentSocketVariable)) == AgentDialed(None) && sys.readPassword(PassphrasePrompt(p.username)).Ok? ==>
      var k := PrivateKey(p.privateKeyPath, sys.readPassword(PassphrasePrompt(p.username)).value, sys);
      (k.Err? ==> r == Err(k.error)) && (k.Ok? ==> r == Ok(ClientConfig(p.username, [k.value], InsecureIgnoreHostKey)))
  {
    var socket := sys.getenv(AgentSocketVariable);
    match sys.dialUnix(socket)
    case AgentDialFailed(e) => Err(e)
    case AgentDialed(Some(conn)) => Ok(ClientConfig(p.username, [AgentAuth(conn)], InsecureIgnoreHostKey))
    case AgentDialed(None) =>
      match sys.readPassword(PassphrasePrompt(p.username))
      case Err(e) => Err(e)
      case Ok(passphrase) =>
        match PrivateKey(p.privateKeyPath, passphrase, sys)
        case Err(e) => Err(e)
        case Ok(authMethod) => Ok(ClientConfig(p.username, [authMethod], InsecureIgnoreHostKey))
  }

  /** `newClientConfig`: the password configuration when a password is
      known, the key configuration otherwise; an error from either stops
      the program. */
  function NewClientConfig(p: CommandParameters, sys: System): (r: Result<ClientConfig>)
    ensures r.Ok? ==> WellFormed(r.value, p)
    ensures p.password != "" ==> r == Ok(ClientConfig(p.username, [PasswordAuth(p.password)], InsecureIgnoreHostKey))
    ensures p.password == "" && sys.dialUnix(sys.getenv(AgentSocketVariable)).AgentDialFailed? ==> r.Err?
    ensures p.password == "" && sys.dialUnix(sys.getenv(AgentSocketVariable)).AgentDialed? && sys.dialUnix(sys.getenv(AgentSocketVariable)).conn.Some? ==>
      r == Ok(ClientConfig(p.username, [AgentAuth(sys.dialUnix(sys.getenv(AgentSocketVariable)).conn.value)], InsecureIgnoreHostKey))
    ensures p.password == "" ==> r == GetSSHKeyConfig(p, sys)
  {
    if p.password != "" then GetSSHPasswordConfig(p, sys)
    else GetSSHKeyConfig(p, sys)
  }

  /** On the path through `newClientConfig` the password prompt is never
      shown: the configuration does not depend on what the terminal would
      answer. With a dialer that behaves as Go's does, the passphrase
      prompt, the key file and the key parser are never used either. */
  lemma NewClientConfigNeverPrompts(p: CommandParameters, sys: System,
                                    readPassword: string -> Result<string>,
                                    readFile: string -> Result<string>,
                                    parseKey: (string, string) -> Result<Signer>)
    requires p.password != "" || RealDialer(sys)
    ensures NewClientConfig(p, sys) == NewClientConfig(p, sys.(readPassword := readPassword, readFile := readFile, parseKey := parseKey))
  {
    if p.password == "" {
      var socket := sys.getenv(AgentSocketVariable);
      assert sys.dialUnix(socket).AgentDialed? ==> sys.dialUnix(socket).conn.Some?;
    }
  }

  /** With a dialer that behaves as Go's does, every configuration
      `newClientConfig` produces uses the password or the agent; the
      private-key branch is unreachable. */
  lemma PrivateKeyBranchUnreachable(p: CommandParameters, sys: System)
    requires RealDialer(sys)
    requires NewClientConfig(p, sys).Ok?
    ensures NewClientConfig(p, sys).value.auth[0].PasswordAuth? || NewClientConfig(p, sys).value.auth[0].AgentAuth?
  {
    var socket := sys.getenv(AgentSocketVariable);
    assert sys.dialUnix(socket).AgentDialed? ==> sys.dialUnix(socket).conn.Some?;
  }
}
