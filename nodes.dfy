/** The node-list parser: a comma-separated list of hosts becomes a list of
    validated host names, or the program stops on the first invalid one. */
module Nodes {
  import opened Common
  import opened GoStrings

  /** The three checks of the validator library, as abstract predicates:
      the `fqdn`, `hostname` and `ip4_addr` validation tags. */
  datatype Validators = Validators(
    fqdn: string -> bool,
    hostname: string -> bool,
    ip4Addr: string -> bool)

  /** Which of the three checks accepted a node. */
  datatype NodeKind = Fqdn | Hostname | Ip4Addr

  /** A validation tag combined with `required`, which rejects the empty
      string. */
  predicate Passes(check: string -> bool, n: string) {
    n != "" && check(n)
  }

  /** A node the validator accepts under at least one of the three tags. */
  predicate Accepted(v: Validators, n: string) {
    Passes(v.fqdn, n) || Passes(v.hostname, n) || Passes(v.ip4Addr, n)
  }

  /** The message logged before the program stops on an invalid node. */
  function InvalidNode(n: string): string {
    "invalid node: " + n
  }

  /** `validateNodeString`: tries the FQDN, hostname and IPv4 checks in that
      order and stops at the first that passes; if none passes the program
      stops. */
  function ValidateNode(v: Validators, n: string): (r: Result<NodeKind>)
    ensures r.Ok? <==> Accepted(v, n)
    ensures r.Err? ==> r.error == InvalidNode(n)
    ensures r == Ok(Fqdn) ==> Passes(v.fqdn, n)
    ensures r == Ok(Hostname) ==> !Passes(v.fqdn, n) && Passes(v.hostname, n)
    ensures r == Ok(Ip4Addr) ==> !Passes(v.fqdn, n) && !Passes(v.hostname, n) && Passes(v.ip4Addr, n)
  {
    if Passes(v.fqdn, n) then Ok(Fqdn)
    else if Passes(v.hostname, n) then Ok(Hostname)
    else if Passes(v.ip4Addr, n) then Ok(Ip4Addr)
    else Err(InvalidNode(n))
  }

  /** The fields that survive the loop of `getNodeList`: each trimmed, the
      empty ones dropped, in input order. */
  function Clean(fields: seq<string>): (r: seq<string>)
    ensures |r| <= |fields|
  {
    if fields == [] then []
    else
      var n := TrimSpace(fields[0]);
      (if n == "" then [] else [n]) + Clean(fields[1..])
  }

  /** Every surviving field is non-empty and trimmed. */
  lemma {:induction false} CleanNodes(fields: seq<string>)
    ensures forall i :: 0 <= i < |Clean(fields)| ==> Clean(fields)[i] != "" && IsTrimmed(Clean(fields)[i])
  {
    if fields != [] {
      CleanNodes(fields[1..]);
      var n := TrimSpace(fields[0]);
      var r := Clean(fields);
      assert r == (if n == "" then [] else [n]) + Clean(fields[1..]);
    }
  }

  /** One more field: its trimmed form is appended unless it is empty. */
  lemma CleanStep(l: seq<string>, i: nat)
    requires i < |l|
    ensures Clean(l[..i + 1]) == Clean(l[..i]) + (if TrimSpace(l[i]) == "" then [] else [TrimSpace(l[i])])
  {
    CleanAppend(l[..i], [l[i]]);
    CleanSingle(l[i]);
    assert l[..i + 1] == l[..i] + [l[i]];
  }

  lemma {:induction false} CleanAppend(a: seq<string>, b: seq<string>)
    ensures Clean(a + b) == Clean(a) + Clean(b)
  {
    if a == [] {
      assert a + b == b;
    } else {
      assert (a + b)[1..] == a[1..] + b;
      CleanAppend(a[1..], b);
    }
  }

  lemma CleanSingle(f: string)
    ensures Clean([f]) == if TrimSpace(f) == "" then [] else [TrimSpace(f)]
  {
    assert [f][1..] == [];
  }

  /** A field that holds no comma yields nodes that hold no comma. */
  lemma {:induction false} CleanKeepsCharacters(fields: seq<string>, c: char)
    requires forall i :: 0 <= i < |fields| ==> c !in fields[i]
    ensures forall i :: 0 <= i < |Clean(fields)| ==> c !in Clean(fields)[i]
  {
    if fields != [] {
      CleanKeepsCharacters(fields[1..], c);
      var n := TrimSpace(fields[0]);
      TrimSpaceChars(fields[0]);
      assert c !in n by {
        assert forall k :: 0 <= k < |n| ==> n[k] in fields[0];
      }
    }
  }

  /** Fields made only of white space contribute nothing. */
  lemma {:induction false} CleanBlank(fields: seq<string>)
    requires forall i, k :: 0 <= i < |fields| && 0 <= k < |fields[i]| ==> IsSpace(fields[i][k])
    ensures Clean(fields) == []
  {
    if fields != [] {
      TrimSpaceEmpty(fields[0]);
      CleanBlank(fields[1..]);
    }
  }

  /** Already clean fields are left as they are. */
  lemma {:induction false} CleanClean(nodes: seq<string>)
    requires forall i :: 0 <= i < |nodes| ==> nodes[i] != "" && IsTrimmed(nodes[i])
    ensures Clean(nodes) == nodes
  {
    if nodes != [] {
      CleanClean(nodes[1..]);
      assert [nodes[0]] + nodes[1..] == nodes;
    }
  }

  /** The first node, in list order, that no check accepts. */
  function FirstInvalid(v: Validators, nodes: seq<string>): (r: Option<string>)
    ensures r.None? <==> forall i :: 0 <= i < |nodes| ==> Accepted(v, nodes[i])
    ensures r.Some? ==> !Accepted(v, r.value) && exists i :: (
              && 0 <= i < |nodes| && nodes[i] == r.value
              && forall j :: 0 <= j < i ==> Accepted(v, nodes[j]))
  {
    if nodes == [] then None
    else if !Accepted(v, nodes[0]) then Some(nodes[0])
    else
      var r := FirstInvalid(v, nodes[1..]);
      if r.Some? then
        ghost var i :| (
          && 0 <= i < |nodes[1..]| && nodes[1..][i] == r.value
          && forall j :: 0 <= j < i ==> Accepted(v, nodes[1..][j]));
        assert nodes[i + 1] == r.value;
        assert forall j :: 0 < j < i + 1 ==> nodes[j] == nodes[1..][j - 1];
        r
      else r
  }

  lemma {:induction false} FirstInvalidAppend(v: Validators, a: seq<string>, b: seq<string>)
    ensures FirstInvalid(v, a + b) == if FirstInvalid(v, a).Some? then FirstInvalid(v, a) else FirstInvalid(v, b)
  {
    if a == [] {
      assert a + b == b;
    } else {
      assert (a + b)[1..] == a[1..] + b;
      FirstInvalidAppend(v, a[1..], b);
    }
  }

  /** What `getNodeList` computes: the cleaned comma-separated fields, or
      the error for the first of them that fails validation. */
  function NodeList(v: Validators, ns: string): (r: Result<seq<string>>)
    ensures r.Ok? ==> |r.value| <= |Split(ns, ',')|
    ensures r.Ok? ==> forall i :: 0 <= i < |r.value| ==> Accepted(v, r.value[i])
  {
    var nodes := Clean(Split(ns, ','));
    match FirstInvalid(v, nodes)
    case Some(n) => Err(InvalidNode(n))
    case None => Ok(nodes)
  }

  /** `getNodeList`: splits on commas, trims every field, skips empty
      fields, validates each remaining field in order and appends it. */
  method GetNodeList(v: Validators, ns: string) returns (r: Result<seq<string>>)
    ensures r == NodeList(v, ns)
  {
    var nl: seq<string> := [];
    var l := Split(ns, ',');
    var i := 0;
    while i < |l|
      invariant 0 <= i <= |l|
      invariant nl == Clean(l[..i])
      invariant FirstInvalid(v, nl).None?
    {
      CleanStep(l, i);
      var n := TrimSpace(l[i]);
      if n != "" {
        var check := ValidateNode(v, n);
        if check.Err? {
          InvalidStopsList(v, l, i);
          return Err(check.error);
        }
        FirstInvalidAppend(v, nl, [n]);
        nl := nl + [n];
      }
      i := i + 1;
    }
    assert l[..|l|] == l;
    return Ok(nl);
  }

  /** Once the cleaned fields before position `i` are all valid, an invalid
      field at `i` is the first invalid node of the whole list. */
  lemma InvalidStopsList(v: Validators, l: seq<string>, i: nat)
    requires i < |l| && FirstInvalid(v, Clean(l[..i])).None?
    requires TrimSpace(l[i]) != "" && !Accepted(v, TrimSpace(l[i]))
    ensures FirstInvalid(v, Clean(l)) == Some(TrimSpace(l[i]))
  {
    var n := TrimSpace(l[i]);
    assert l == l[..i + 1] + l[i + 1..];
    CleanAppend(l[..i + 1], l[i + 1..]);
    CleanStep(l, i);
    var before := Clean(l[..i]);
    var after := Clean(l[i + 1..]);
    assert Clean(l) == (before + [n]) + after;
    FirstInvalidAppend(v, before, [n]);
    FirstInvalidAppend(v, before + [n], after);
  }

  /** A node list is produced exactly when every cleaned field passes a
      check; otherwise the error names the first cleaned field, in input
      order, that none accepts: every field before it was accepted. */
  lemma NodeListAcceptance(v: Validators, ns: string)
    ensures NodeList(v, ns).Ok? <==> forall n :: n in Clean(Split(ns, ',')) ==> Accepted(v, n)
    ensures NodeList(v, ns).Err? ==>
      var nodes := Clean(Split(ns, ','));
      exists i :: (
        && 0 <= i < |nodes| && !Accepted(v, nodes[i])
        && NodeList(v, ns).error == InvalidNode(nodes[i])
        && forall j :: 0 <= j < i ==> Accepted(v, nodes[j]))
  {
    var nodes := Clean(Split(ns, ','));
    if NodeList(v, ns).Err? {
      var n := FirstInvalid(v, nodes).value;
      var i :| 0 <= i < |nodes| && nodes[i] == n && forall j :: 0 <= j < i ==> Accepted(v, nodes[j]);
      assert NodeList(v, ns).error == InvalidNode(nodes[i]);
    }
  }

  /** Every node of a produced list is non-empty, trimmed, free of commas
      and accepted by a check, and there is at most one more node than
      there are commas in the input. */
  lemma NodeListShape(v: Validators, ns: string)
    requires NodeList(v, ns).Ok?
    ensures |NodeList(v, ns).value| <= Count(ns, ',') + 1
    ensures forall n :: n in NodeList(v, ns).value ==> n != "" && IsTrimmed(n) && Accepted(v, n)
    ensures forall n :: n in NodeList(v, ns).value ==> ',' !in n
  {
    var fields := Split(ns, ',');
    var nodes := Clean(fields);
    assert FirstInvalid(v, nodes).None? && NodeList(v, ns).value == nodes;
    assert |nodes| <= |fields| == Count(ns, ',') + 1;
    CleanNodes(fields);
    CleanKeepsCharacters(fields, ',');
    forall n | n in nodes
      ensures n != "" && IsTrimmed(n) && Accepted(v, n) && ',' !in n
    {
      var i :| 0 <= i < |nodes| && nodes[i] == n;
    }
  }

  /** An input holding only commas and white space, the empty string
      among them, yields the empty node list. */
  lemma BlankNodeString(v: Validators, ns: string)
    requires forall k :: 0 <= k < |ns| ==> ns[k] == ',' || IsSpace(ns[k])
    ensures NodeList(v, ns) == Ok([])
  {
    var fields := Split(ns, ',');
    forall i, k | 0 <= i < |fields| && 0 <= k < |fields[i]| ensures IsSpace(fields[i][k]) {
      assert fields[i][k] in fields[i];
      assert fields[i][k] in ns;
    }
    CleanBlank(fields);
  }

  /** Joining a parsed node list with commas and parsing it again gives the
      same list. */
  lemma JoinParseRoundTrip(v: Validators, ns: string)
    requires NodeList(v, ns).Ok?
    ensures NodeList(v, Join(NodeList(v, ns).value, ',')) == NodeList(v, ns)
  {
    var nl := NodeList(v, ns).value;
    NodeListShape(v, ns);
    if nl == [] {
      assert Split("", ',') == [""];
    } else {
      SplitJoin(nl, ',');
      CleanClean(nl);
    }
  }
}
