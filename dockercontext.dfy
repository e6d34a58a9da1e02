/**
 * `dockerContext.ts`: the names that `docker context ls` prints, and the
 * endpoint a context's `docker context inspect` record resolves to.
 * Running the commands, `JSON.parse` and the WHATWG `URL` parser are not
 * modelled: their results are inputs.
 */
module DockerContext {
  import opened Wrappers
  import opened Text
  import opened DockerCli

  /** `DockerContextInfo` */
  datatype ContextInfo = ContextInfo(name: string)

  /**
   * `listDockerContexts`, given the standard output of `docker context ls`
   * (`None` when the command failed): one record per line that is not blank
   * once trimmed, in order, named by the trimmed line.
   */
  function ListDockerContexts(stdout: Option<string>): (r: seq<ContextInfo>)
    ensures stdout.None? ==> r == []
    ensures forall k :: 0 <= k < |r| ==> r[k].name != "" && Trim(r[k].name) == r[k].name
  {
    match stdout
    case None => []
    case Some(out) =>
      var names := TrimmedLines(SplitLines(out), "");
      seq(|names|, k requires 0 <= k < |names| => ContextInfo(names[k]))
  }

  /** A listed name is the trim of some line of the output. */
  lemma ListedNamesAreLines(out: string, k: nat)
    requires k < |ListDockerContexts(Some(out))|
    ensures exists j :: 0 <= j < |SplitLines(out)| && Trim(SplitLines(out)[j]) == ListDockerContexts(Some(out))[k].name
  {
    var names := TrimmedLines(SplitLines(out), "");
    assert names[k] in names;
    TrimmedLinesMembers(SplitLines(out), "", names[k]);
  }

  /**
   * Names printed one per line are listed back, in order: the names of
   * `docker context ls` are not blank and hold no surrounding white space.
   */
  lemma ListsPrintedNames(names: seq<string>)
    requires |names| >= 1
    requires forall k :: 0 <= k < |names| ==> names[k] != "" && Trim(names[k]) == names[k] && '\n' !in names[k]
    ensures |ListDockerContexts(Some(Join(names, "\n")))| == |names|
    ensures forall k :: 0 <= k < |names| ==> ListDockerContexts(Some(Join(names, "\n")))[k].name == names[k]
  {
    PrintedNamesRead(names);
  }

  /** The trimmed non-blank lines of names printed one per line are the names. */
  lemma PrintedNamesRead(names: seq<string>)
    requires |names| >= 1
    requires forall k :: 0 <= k < |names| ==> names[k] != "" && Trim(names[k]) == names[k] && '\n' !in names[k]
    ensures TrimmedLines(SplitLines(Join(names, "\n")), "") == names
  {
    forall k | 0 <= k < |names| - 1
      ensures names[k] == [] || names[k][|names[k]| - 1] != '\r'
    {
      NoTrailingCR(names[k]);
    }
    SplitLinesOfJoin(names);
    TrimmedOfTrimmed(names);
  }

  lemma NoTrailingCR(name: string)
    requires name != "" && Trim(name) == name
    ensures name[|name| - 1] != '\r'
  {
    assert !IsJsWhitespace(Trim(name)[|name| - 1]);
  }

  lemma {:induction false} TrimmedOfTrimmed(names: seq<string>)
    requires forall k :: 0 <= k < |names| ==> names[k] != "" && Trim(names[k]) == names[k]
    ensures TrimmedLines(names, "") == names
  {
    if names != [] {
      var rest := names[1..];
      assert forall k :: 0 <= k < |rest| ==> rest[k] == names[k + 1];
      TrimmedOfTrimmed(rest);
      assert Trim(names[0]) == names[0] != "";
      assert TrimmedLines(names, "") == [names[0]] + TrimmedLines(rest, "");
      HeadTail(names);
    }
  }

  lemma HeadTail<T>(s: seq<T>)
    requires s != []
    ensures [s[0]] + s[1..] == s
  {
  }

  /** What `new URL(url)` exposes: `protocol` (with its colon), `hostname` and the explicit `port`, if any. */
  datatype Url = Url(protocol: string, hostname: string, port: Option<nat>)

  /** `ResolvedDockerContext` without its TLS material. */
  datatype Endpoint = Endpoint(host: string, port: nat)

  const TLS_PORT := 2376
  const PLAIN_PORT := 2375

  /** The port of an endpoint URL: the explicit one, else 2376 for `https:` and 2375 otherwise. */
  function PortOf(u: Url): (p: nat)
    ensures u.port.Some? ==> p == u.port.value
    ensures u.port.None? ==> (p == TLS_PORT <==> u.protocol == "https:")
    ensures u.port.None? ==> p == TLS_PORT || p == PLAIN_PORT
  {
    match u.port
    case Some(p) => p
    case None => if u.protocol == "https:" then TLS_PORT else PLAIN_PORT
  }

  /** Host URLs of local sockets, which the default client serves. */
  predicate IsLocalSocket(url: string) {
    StartsWith(url, "unix://") || StartsWith(url, "npipe://")
  }

  /**
   * `resolveDockerContext`, given the endpoint's `Host` from the parsed
   * `docker context inspect` record (`None` when the command or the parse
   * failed or the record has none) and the URL parser (`None` when it throws).
   */
  method ResolveDockerContext(hostUrl: Option<string>, parseUrl: string -> Option<Url>) returns (r: Option<Endpoint>)
    ensures hostUrl.None? || hostUrl.value == "" ==> r.None?
    ensures hostUrl.Some? && IsLocalSocket(hostUrl.value) ==> r.None?
    ensures hostUrl.Some? && hostUrl.value != "" && !IsLocalSocket(hostUrl.value) ==>
      var h := hostUrl.value;
      var url := if StartsWith(h, "tcp://") then "https://" + h[6..] else h;
      r == match parseUrl(url)
        case None => None
        case Some(u) => Some(Endpoint(u.protocol + "//" + u.hostname, PortOf(u)))
  {
    if hostUrl.None? || hostUrl.value == "" {
      return None;
    }
    var url := hostUrl.value;
    if StartsWith(url, "unix://") || StartsWith(url, "npipe://") {
      return None;
    }
    if StartsWith(url, "tcp://") {
      url := "https://" + url[6..];
    }
    var parsed := parseUrl(url);
    if parsed.None? {
      return None;
    }
    var u := parsed.value;
    var host := u.protocol + "//" + u.hostname;
    var port := if u.port.Some? then u.port.value else if u.protocol == "https:" then TLS_PORT else PLAIN_PORT;
    return Some(Endpoint(host, port));
  }
}
