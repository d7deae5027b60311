/** Resolution of the run's parameters from the command line, the
    environment and the operating system. The environment is a function
    from variable names to values (`os.Getenv`, which gives "" for an unset
    variable); the current-user lookup and the file-exists check are
    parameters too. */
module Args {
  import opened Common
  import opened Nodes

  /** `CommandParameters`: everything a run needs. */
  datatype CommandParameters = CommandParameters(
    nodes: seq<string>,
    command: string,
    username: string,
    password: string,
    privateKeyPath: string,
    debug: bool)

  const UsernameVariable := "MULTISSH_USERNAME"
  const PasswordVariable := "MULTISSH_PASSWORD"

  /** The first non-empty candidate, in priority order: the rule each
      resolver below follows before falling back. */
  function FirstNonEmpty(candidates: seq<string>): (r: Option<string>)
    ensures r.None? <==> forall i :: 0 <= i < |candidates| ==> candidates[i] == ""
    ensures r.Some? ==> r.value != "" && exists i :: (
              && 0 <= i < |candidates| && candidates[i] == r.value
              && forall j :: 0 <= j < i ==> candidates[j] == "")
  {
    if candidates == [] then None
    else if candidates[0] != "" then Some(candidates[0])
    else
      var r := FirstNonEmpty(candidates[1..]);
      if r.Some? then
        ghost var i :| (
          && 0 <= i < |candidates[1..]| && candidates[1..][i] == r.value
          && forall j :: 0 <= j < i ==> candidates[1..][j] == "");
        assert candidates[i + 1] == r.value;
        r
      else r
  }

  /** `getUsername`: the argument if given, else `MULTISSH_USERNAME` if set,
      else the current operating-system user; a failed user lookup stops
      the program. */
  function GetUsername(u: string, getenv: string -> string, currentUser: Result<string>): (r: Result<string>)
    ensures u != "" ==> r == Ok(u)
    ensures u == "" && getenv(UsernameVariable) != "" ==> r == Ok(getenv(UsernameVariable))
    ensures u == "" && getenv(UsernameVariable) == "" ==> r == currentUser
  {
    if u != "" then Ok(u)
    else
      var envUsername := getenv(UsernameVariable);
      if envUsername != "" then Ok(envUsername)
      else currentUser
  }

  /** `getPassword`: the argument if given, else `MULTISSH_PASSWORD` if set,
      else the empty string; it never fails. */
  function GetPassword(p: string, getenv: string -> string): (r: string)
    ensures p != "" ==> r == p
    ensures p == "" ==> r == getenv(PasswordVariable)
  {
    if p != "" then p
    else
      var envPassword := getenv(PasswordVariable);
      if envPassword != "" then envPassword
      else ""
  }

  /** Both resolvers follow the priority rule: the first non-empty of the
      argument and the environment variable wins; only when both are empty
      does the fallback apply. */
  lemma ResolversFollowPriority(arg: string, getenv: string -> string, currentUser: Result<string>)
    ensures GetUsername(arg, getenv, currentUser) ==
      match FirstNonEmpty([arg, getenv(UsernameVariable)])
      case Some(name) => Ok(name)
      case None => currentUser
    ensures GetPassword(arg, getenv) ==
      match FirstNonEmpty([arg, getenv(PasswordVariable)])
      case Some(password) => password
      case None => ""
  {
    assert [arg, getenv(UsernameVariable)][1..] == [getenv(UsernameVariable)];
    assert [arg, getenv(PasswordVariable)][1..] == [getenv(PasswordVariable)];
  }

  /** A non-empty argument is used as it is: neither the environment nor the
      user lookup is consulted. */
  lemma ArgumentWins(arg: string, getenv1: string -> string, getenv2: string -> string,
                     currentUser1: Result<string>, currentUser2: Result<string>)
    requires arg != ""
    ensures GetUsername(arg, getenv1, currentUser1) == GetUsername(arg, getenv2, currentUser2) == Ok(arg)
    ensures GetPassword(arg, getenv1) == GetPassword(arg, getenv2) == arg
  {
  }

  /** The username resolver can fail only through the user lookup, and only
      when neither the argument nor the environment supplied a name. */
  lemma UsernameFailsOnlyOnLookup(u: string, getenv: string -> string, currentUser: Result<string>)
    ensures GetUsername(u, getenv, currentUser).Err? <==>
      u == "" && getenv(UsernameVariable) == "" && currentUser.Err?
  {
  }

  /** `getPrivateKeyPath`: no path gives no path and no error, without
      touching the file system; an existing path is returned as it is; a
      path that `fileExists` reports missing gives "" and a "file not found" error. */
  function GetPrivateKeyPath(k: string, fileExists: string -> bool): (r: Returns<string>)
    ensures r.err.None? ==> r.value == k
    ensures r.err.Some? ==> r.value == "" && r.err.value == "file not found: " + k
    ensures r.err.Some? <==> k != "" && !fileExists(k)
  {
    if k == "" then Returns("", None)
    else if !fileExists(k) then Returns("", Some("file not found: " + k))
    else Returns(k, None)
  }

  /** The empty path is decided without asking the file system. */
  lemma EmptyKeyPathSkipsStat(fileExists1: string -> bool, fileExists2: string -> bool)
    ensures GetPrivateKeyPath("", fileExists1) == GetPrivateKeyPath("", fileExists2) == Returns("", None)
  {
  }

  /** `getNodes`: the node list of `getNodeList`, unchanged. */
  method GetNodes(v: Validators, n: string) returns (r: Result<seq<string>>)
    ensures r == NodeList(v, n)
  {
    r := GetNodeList(v, n);
  }
}
