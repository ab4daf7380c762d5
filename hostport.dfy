/**
  Go's `net.SplitHostPort`, which `BuildServerConfig` uses to take the listen port from the
  endpoint, and its inverse `net.JoinHostPort`.

  The port follows the last colon. A host that holds colons itself (an IPv6 literal) must be
  written in brackets, and brackets may appear nowhere else. All malformed inputs are reported
  as `InvalidInput`; Go's individual messages (missing port, too many colons, missing or
  unexpected bracket) are not distinguished.
 */
module HostPort {
  import opened Results
  import opened Text

  /** Splits `hostport` into its host and its port. */
  function SplitHostPort(hostport: string): (r: Result<(string, string)>)
    ensures r.Err? ==> r.error == InvalidInput
    ensures ':' !in hostport ==> r.Err?
    ensures r.Ok? ==>
      (hostport == r.value.0 + ":" + r.value.1 || hostport == "[" + r.value.0 + "]:" + r.value.1)
    ensures r.Ok? ==> ':' !in r.value.1 && '[' !in r.value.1 && ']' !in r.value.1
    ensures r.Ok? ==> '[' !in r.value.0 && ']' !in r.value.0
    ensures r.Ok? && ':' in r.value.0 ==> hostport == "[" + r.value.0 + "]:" + r.value.1
  {
    var i := LastIndexOf(hostport, ':');
    if i < 0 then Err(InvalidInput)
    else if hostport[0] == '[' then
      var end := IndexOf(hostport, ']');
      if end < 0 then Err(InvalidInput)        // missing ']'
      else if end + 1 != i then Err(InvalidInput) // missing port, or too many colons
      else
        var host := hostport[1..end];
        if '[' in hostport[1..] then Err(InvalidInput)
        else if ']' in hostport[end + 1..] then Err(InvalidInput)
        else
          assert hostport == "[" + host + "]:" + hostport[i + 1..];
          Ok((host, hostport[i + 1..]))
    else
      var host := hostport[..i];
      if ':' in host then Err(InvalidInput)       // too many colons
      else if '[' in hostport then Err(InvalidInput)
      else if ']' in hostport then Err(InvalidInput)
      else
        assert hostport == host + ":" + hostport[i + 1..];
        Ok((host, hostport[i + 1..]))
  }

  /** `net.JoinHostPort`: a host holding a colon is bracketed. */
  function JoinHostPort(host: string, port: string): (r: string)
    ensures ':' in r
  {
    if ':' in host then "[" + host + "]:" + port
    else
      assert (host + ":" + port)[|host|] == ':';
      host + ":" + port
  }

  /** Joining a host and a port that hold no brackets, the port no colon, is undone by splitting. */
  lemma SplitJoin(host: string, port: string)
    requires '[' !in host && ']' !in host
    requires ':' !in port && '[' !in port && ']' !in port
    ensures SplitHostPort(JoinHostPort(host, port)) == Ok((host, port))
  {
    if ':' in host {
      SplitBracketed(host, port);
    } else {
      SplitPlain(host, port);
    }
  }

  lemma SplitBracketed(host: string, port: string)
    requires ':' in host && '[' !in host && ']' !in host
    requires ':' !in port && '[' !in port && ']' !in port
    ensures SplitHostPort("[" + host + "]:" + port) == Ok((host, port))
  {
    var s := "[" + host + "]:" + port;
    BracketedShape(host, port);
    SplitAtBrackets(s, |host| + 1);
  }

  /** Where the separators of a bracketed host and port sit. */
  lemma BracketedShape(host: string, port: string)
    requires '[' !in host && ']' !in host
    requires ':' !in port && '[' !in port && ']' !in port
    ensures var s := "[" + host + "]:" + port;
      s[0] == '[' && LastIndexOf(s, ':') == |host| + 2 && IndexOf(s, ']') == |host| + 1 &&
      '[' !in s[1..] && ']' !in s[|host| + 2..] && s[1..|host| + 1] == host && s[|host| + 3..] == port
  {
    BracketedColon(host, port);
    BracketedClose(host, port);
    BracketedNoOpen(host, port);
    BracketedParts(host, port);
  }

  lemma BracketedColon(host: string, port: string)
    requires ':' !in port
    ensures LastIndexOf("[" + host + "]:" + port, ':') == |host| + 2
  {
    assert "[" + host + "]:" + port == ("[" + host + "]") + [':'] + port;
    LastIndexOfBefore("[" + host + "]", ':', port);
  }

  lemma BracketedClose(host: string, port: string)
    requires ']' !in host
    ensures IndexOf("[" + host + "]:" + port, ']') == |host| + 1
  {
    assert "[" + host + "]:" + port == ("[" + host) + [']'] + (":" + port);
    IndexOfAfter("[" + host, ']', ":" + port);
  }

  lemma BracketedNoOpen(host: string, port: string)
    requires '[' !in host && '[' !in port
    ensures '[' !in ("[" + host + "]:" + port)[1..]
  {
    var tail := "]:" + port;
    assert ("[" + host + "]:" + port)[1..] == host + tail;
    Absent('[', "]:", port);
    Absent('[', host, tail);
  }

  lemma BracketedParts(host: string, port: string)
    requires ']' !in port
    ensures var s := "[" + host + "]:" + port;
      s[0] == '[' && ']' !in s[|host| + 2..] && s[1..|host| + 1] == host && s[|host| + 3..] == port
  {
    var s := "[" + host + "]:" + port;
    assert s[|host| + 2..] == ":" + port;
    Absent(']', ":", port);
    assert s[1..|host| + 1] == host;
  }

  /** The bracketed branch of `SplitHostPort`, for any text of that shape. */
  lemma SplitAtBrackets(s: string, end: nat)
    requires end + 1 < |s| && s[0] == '[' && LastIndexOf(s, ':') == end + 1 && IndexOf(s, ']') == end
    requires '[' !in s[1..] && ']' !in s[end + 1..]
    ensures SplitHostPort(s) == Ok((s[1..end], s[end + 2..]))
  {
  }

  /** A character in neither part is not in their concatenation. */
  lemma Absent(c: char, a: string, b: string)
    requires c !in a && c !in b
    ensures c !in a + b
  {
  }

  lemma SplitPlain(host: string, port: string)
    requires ':' !in host && '[' !in host && ']' !in host
    requires ':' !in port && '[' !in port && ']' !in port
    ensures SplitHostPort(host + ":" + port) == Ok((host, port))
  {
    var s := host + ":" + port;
    assert s == host + [':'] + port;
    LastIndexOfBefore(host, ':', port);
    assert s[..|host|] == host;
    assert s[|host| + 1..] == port;
    if host != "" {
      assert s[0] == host[0];
    }
  }

  /** An endpoint without a port is refused. */
  lemma MissingPortRefused()
    ensures SplitHostPort("203.0.113.1").Err?
  {
    assert forall j :: 0 <= j < |"203.0.113.1"| ==> "203.0.113.1"[j] != ':';
  }

  /** The port of a host:port endpoint is the text after the colon. */
  lemma PortOfEndpoint()
    ensures SplitHostPort("203.0.113.1:51820") == Ok(("203.0.113.1", "51820"))
  {
    assert forall j :: 0 <= j < |"51820"| ==> "51820"[j] != ':';
    SplitJoin("203.0.113.1", "51820");
    assert JoinHostPort("203.0.113.1", "51820") == "203.0.113.1:51820";
  }

  /** An IPv6 host is accepted in brackets. */
  lemma BracketedIPv6()
    ensures SplitHostPort("[fd00::1]:51820") == Ok(("fd00::1", "51820"))
  {
    var host, port := "fd00::1", "51820";
    assert ':' !in port && '[' !in port && ']' !in port by {
      assert forall j :: 0 <= j < |port| ==> port[j] != ':' && port[j] != '[' && port[j] != ']';
    }
    assert '[' !in host && ']' !in host by {
      assert forall j :: 0 <= j < |host| ==> host[j] != '[' && host[j] != ']';
    }
    assert JoinHostPort(host, port) == "[fd00::1]:51820" by {
      assert host[4] == ':';
    }
    SplitJoin(host, port);
  }

  /** An IPv6 host without brackets is refused: its colons cannot be told from the port's. */
  lemma UnbracketedIPv6Refused()
    ensures SplitHostPort("fd00::1:51820").Err?
  {
    var s := "fd00::1:51820";
    assert forall j :: 0 <= j < |"51820"| ==> "51820"[j] != ':';
    assert s == "fd00::1" + [':'] + "51820";
    LastIndexOfBefore("fd00::1", ':', "51820");
    assert s[..7] == "fd00::1";
    assert s[..7][4] == ':';
  }
}
