/** Hub host names and storage URIs: taking them apart and putting them together. */
module HostNames {

  import opened Options

  // strchr: the first position of c, or the length of the text.
  function FirstIndex(text: string, c: char): (i: nat)
    ensures i <= |text|
    ensures c !in text[..i]
    ensures i < |text| ==> text[i] == c
  {
    if text == "" || text[0] == c then 0
    else
      var i := 1 + FirstIndex(text[1..], c);
      assert text[..i] == [text[0]] + text[1..][..i - 1];
      i
  }

  lemma {:induction false} FirstIndexOfJoin(before: string, c: char, after: string)
    requires c !in before
    ensures FirstIndex(before + [c] + after, c) == |before|
  {
    if before == "" {
      assert (before + [c] + after)[0] == c;
    } else {
      FirstIndexOfJoin(before[1..], c, after);
      assert (before + [c] + after)[1..] == before[1..] + [c] + after;
    }
  }

  // ----- Hub name and suffix -----

  // The splitter used for a shared transport.
  function SplitTransportHostname(hostname: string): Option<(string, string)> {
    var whereIsDot := FirstIndex(hostname, '.');
    if whereIsDot == |hostname| then None
    else Some((hostname[..whereIsDot], hostname[whereIsDot + 1..]))
  }

  // It succeeds exactly on names with a dot, and cuts at the first one.
  lemma SplitsAtFirstDot(hostname: string, name: string, suffix: string)
    ensures SplitTransportHostname(hostname) == Some((name, suffix))
       <==> hostname == name + "." + suffix && '.' !in name
    ensures SplitTransportHostname(hostname) == None <==> '.' !in hostname
  {
    var i := FirstIndex(hostname, '.');
    if i < |hostname| {
      assert hostname == hostname[..i] + "." + hostname[i + 1..];
    } else {
      assert hostname[..i] == hostname;
    }
    if hostname == name + "." + suffix && '.' !in name {
      FirstIndexOfJoin(name, '.', suffix);
      assert hostname[..|name|] == name && hostname[|name| + 1..] == suffix;
    }
  }

  // The splitter used with device authentication walks the URI and agrees with the other one.
  method SplitDeviceAuthUri(uri: string) returns (config: Option<(string, string)>)
    ensures config == SplitTransportHostname(uri)
  {
    config := None;
    var position := 0;
    while position < |uri|
      invariant position <= |uri|
      invariant '.' !in uri[..position]
      invariant config == None
    {
      if uri[position] == '.' {
        var length := position;
        var iothubName := uri[..length];
        var iothubSuffix := uri[position + 1..];
        config := Some((iothubName, iothubSuffix));
        assert uri == iothubName + "." + iothubSuffix;
        SplitsAtFirstDot(uri, iothubName, iothubSuffix);
        return;
      }
      position := position + 1;
    }
    assert uri[..position] == uri;
    SplitsAtFirstDot(uri, "", "");
  }

  // The upload client joins the two parts in a buffer, with a terminator.
  method JoinHostname(name: string, suffix: string) returns (hostname: array<char>)
    ensures fresh(hostname) && hostname[..] == name + "." + suffix + ['\0']
  {
    var buffer := new char[|name| + 1 + |suffix| + 1](_ => '\0');
    forall i | 0 <= i < |name| {
      buffer[i] := name[i];
    }
    var insertPos := |name|;
    buffer[insertPos] := '.';
    insertPos := insertPos + 1;
    forall i | 0 <= i < |suffix| {
      buffer[insertPos + i] := suffix[i];
    }
    insertPos := insertPos + |suffix|;
    buffer[insertPos] := '\0';
    hostname := buffer;
  }

  // Splitting a hub host name and joining the parts restores it.
  lemma SplitPartsRejoin(hostname: string)
    requires '.' in hostname
    ensures SplitTransportHostname(hostname).Some?
    ensures var (name, suffix) := SplitTransportHostname(hostname).value; name + "." + suffix == hostname
  {
    SplitsAtFirstDot(hostname, "", "");
    var (name, suffix) := SplitTransportHostname(hostname).value;
    SplitsAtFirstDot(hostname, name, suffix);
  }

  // ----- Storage URIs -----

  // strstr: the first position of the pattern, or the length of the text.
  function FirstOccurrence(text: string, pattern: string): (i: nat)
    ensures i <= |text|
    ensures i < |text| && pattern != "" ==> pattern <= text[i..]
  {
    if text == "" || pattern <= text then 0 else 1 + FirstOccurrence(text[1..], pattern)
  }

  lemma {:induction false} NoneBefore(text: string, pattern: string, j: nat)
    requires j < FirstOccurrence(text, pattern)
    ensures !(pattern <= text[j..])
  {
    if j > 0 {
      NoneBefore(text[1..], pattern, j - 1);
      assert text[j..] == text[1..][j - 1..];
    } else {
      assert text[0..] == text;
    }
  }

  lemma {:induction false} FirstOccurrenceAfter(before: string, pattern: string, after: string)
    requires pattern != "" && pattern[0] !in before
    ensures FirstOccurrence(before + (pattern + after), pattern) == |before|
  {
    if before == "" {
      assert before + (pattern + after) == pattern + after;
    } else {
      FirstOccurrenceAfter(before[1..], pattern, after);
      assert (before + (pattern + after))[1..] == before[1..] + (pattern + after);
    }
  }

  const SCHEME_END: string := "://"

  function BuildSasUri(host: string, container: string, blob: string, sasToken: string): string {
    "https" + (SCHEME_END + (host + "/" + (container + "/" + blob + sasToken)))
  }

  // The host runs from "://" to the next "/", and the relative path starts at that "/".
  function ParseSasUri(uri: string): Option<(string, string)> {
    var schemeEnd := FirstOccurrence(uri, SCHEME_END);
    if schemeEnd == |uri| then None
    else
      var hostnameBegin := uri[schemeEnd + 3..];
      var slash := FirstIndex(hostnameBegin, '/');
      if slash == |hostnameBegin| then None
      else Some((hostnameBegin[..slash], hostnameBegin[slash..]))
  }

  // Parsing the URI built from a host restores it exactly when the host has no slash.
  lemma BuiltUriParsesBack(host: string, container: string, blob: string, sasToken: string)
    ensures ParseSasUri(BuildSasUri(host, container, blob, sasToken))
         == Some((host, "/" + (container + "/" + blob + sasToken)))
       <==> '/' !in host
  {
    var rest := container + "/" + blob + sasToken;
    var hostnameBegin := host + "/" + rest;
    var uri := BuildSasUri(host, container, blob, sasToken);
    FirstOccurrenceAfter("https", SCHEME_END, hostnameBegin);
    assert uri[|"https"| + 3..] == hostnameBegin;
    if '/' !in host {
      FirstIndexOfJoin(host, '/', rest);
      assert hostnameBegin[..|host|] == host;
      assert hostnameBegin[|host|..] == "/" + rest;
    }
  }

  // The URI of a block blob with its token, as it is printed.
  lemma SasUriIs(host: string, container: string, blob: string, sasToken: string)
    ensures BuildSasUri(host, container, blob, sasToken)
         == "https://" + host + "/" + container + "/" + blob + sasToken
  {
  }

  // Over every text: parsing succeeds exactly when there is a "://" with a "/" somewhere after the first
  // one, and then the text is what stood before, that "://", the host, which has no "/", and the path.
  lemma ParsesWhen(uri: string)
    ensures var i := FirstOccurrence(uri, "://");
            ParseSasUri(uri).Some? <==> i < |uri| && '/' in uri[i + 3..]
    ensures ParseSasUri(uri).Some? ==>
              var i, (host, path) := FirstOccurrence(uri, "://"), ParseSasUri(uri).value;
              && uri == uri[..i] + ("://" + (host + path))
              && '/' !in host && path != "" && path[0] == '/'
  {
    hide FirstOccurrence, FirstIndex;
    var i := FirstOccurrence(uri, "://");
    if i < |uri| {
      Around(uri, "://", i);
      var after := uri[i + 3..];
      var slash := FirstIndex(after, '/');
      assert after[..slash] + after[slash..] == after;
      assert slash == |after| ==> after[..slash] == after;
    }
  }

  lemma Around(text: string, pattern: string, i: nat)
    requires i <= |text| && pattern <= text[i..]
    ensures i + |pattern| <= |text| && text == text[..i] + (pattern + text[i + |pattern|..])
  {
  }
}
