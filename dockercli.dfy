/**
 * The Docker command line as the plugin drives it: the argument lists of the
 * commands it issues (with their scheduling priority), the `--context` prefix,
 * and the parsers of the commands' standard output.
 * A command's run (a child process) is not modelled: its standard output, or
 * the fact that it failed, is an input of the parsers.
 */
module DockerCli {
  import opened Wrappers
  import opened Text
  import opened OrderedMaps

  /** `context?: string`; both `undefined` and `""` mean the default context. */
  type Context = Option<string>

  /** JavaScript truthiness of a context: present and not empty. */
  predicate Named(c: Context) {
    c.Some? && c.value != ""
  }

  datatype Priority = Normal | High | Urgent

  /** The key of the default context's queue and ping cache entry. */
  const DEFAULT_KEY := "<default>"

  /** The queue key of a context: its name, or `<default>`. */
  function QueueKey(c: Context): (k: string)
    ensures k != ""
    ensures Named(c) ==> k == c.value
  {
    if Named(c) then c.value else DEFAULT_KEY
  }

  /** The arguments `docker` is invoked with: `--context <name>` first when the context is named. */
  function FinalArgs(args: seq<string>, c: Context): (r: seq<string>)
    ensures |r| == if Named(c) then |args| + 2 else |args|
  {
    if Named(c) then ["--context", c.value] + args else args
  }

  /** How the Docker command line reads a leading `--context <name>` back. */
  function ReadContextFlag(r: seq<string>): (Context, seq<string>) {
    if |r| >= 2 && r[0] == "--context" then (Some(r[1]), r[2..]) else (None, r)
  }

  /**
   * The command line selects the intended context and receives the intended
   * arguments, whenever those do not themselves begin with `--context`.
   */
  lemma FinalArgsRoundTrip(args: seq<string>, c: Context)
    requires args == [] || args[0] != "--context"
    ensures ReadContextFlag(FinalArgs(args, c)) == (if Named(c) then c else None, args)
  {
    if Named(c) {
      assert FinalArgs(args, c)[2..] == args;
    }
  }

  /** Two contexts share a queue exactly when they name the same endpoint. */
  lemma QueueKeySharedIffSameEndpoint(c: Context, d: Context)
    requires Named(c) ==> c.value != DEFAULT_KEY
    requires Named(d) ==> d.value != DEFAULT_KEY
    ensures QueueKey(c) == QueueKey(d) <==> (Named(c) == Named(d) && (Named(c) ==> c.value == d.value))
  {
  }

  // ---- commands ----

  const PS_FORMAT := "{{.Names}}\t{{.State}}\t{{json .Labels}}"
  const INSPECT_FORMAT := "{{.State.Status}}"
  const IMAGES_FORMAT := "{{.Repository}}:{{.Tag}}"
  const NAME_FORMAT := "{{.Name}}"
  const SERVICE_FORMAT := "{{.Name}}\t{{.Mode}}\t{{.Replicas}}"
  const COMPOSE_PROJECT_LABEL := "com.docker.compose.project"
  const STACK_NAMESPACE_LABEL := "com.docker.stack.namespace"
  const SWARM_SERVICE_LABEL := "com.docker.swarm.service.name"
  /** `CONTAINER_STATUS_RUNNING`: the state `ps` reports for a running container. */
  const CONTAINER_STATUS_RUNNING := "running"

  /** The commands the plugin issues through `runDocker`. */
  datatype DockerCall =
    | Version
    | Ps(all: bool, filters: seq<string>)
    | Inspect(name: string)
    | Start(name: string)
    | Stop(name: string)
    | Wait(name: string)
    | Remove(name: string)
    | RunDetached(image: string, name: string)
    | Images
    | ComposeLs
    | StackLs
    | ServiceLs(stack: string)
    | ServiceScale(service: string, replicas: nat)

  function FilterFlags(filters: seq<string>): (r: seq<string>)
    ensures |r| == 2 * |filters|
  {
    if filters == [] then [] else ["--filter", filters[0]] + FilterFlags(filters[1..])
  }

  /** The k-th filter sits right after the k-th `--filter` flag. */
  lemma {:induction false} FilterFlagsAt(filters: seq<string>, k: nat)
    requires k < |filters|
    ensures FilterFlags(filters)[2 * k] == "--filter" && FilterFlags(filters)[2 * k + 1] == filters[k]
  {
    if k > 0 {
      FilterFlagsAt(filters[1..], k - 1);
    }
  }

  /** `.filter(Boolean)` on a list of strings. */
  function NonEmptyOnly(s: seq<string>): (r: seq<string>)
    ensures forall k :: 0 <= k < |r| ==> r[k] != ""
    ensures |r| <= |s|
  {
    if s == [] then [] else (if s[0] == "" then [] else [s[0]]) + NonEmptyOnly(s[1..])
  }

  lemma {:induction false} NonEmptyOnlyAppend(a: seq<string>, b: seq<string>)
    ensures NonEmptyOnly(a + b) == NonEmptyOnly(a) + NonEmptyOnly(b)
  {
    if a != [] {
      assert (a + b)[0] == a[0];
      assert (a + b)[1..] == a[1..] + b;
      NonEmptyOnlyAppend(a[1..], b);
    } else {
      assert a + b == b;
    }
  }

  lemma {:induction false} NonEmptyOnlyKeeps(s: seq<string>)
    requires forall k :: 0 <= k < |s| ==> s[k] != ""
    ensures NonEmptyOnly(s) == s
  {
    if s != [] {
      NonEmptyOnlyKeeps(s[1..]);
    }
  }

  /** `ps`, `-a` when listing all, `--filter f` per filter, then the format. */
  function PsArgs(all: bool, filters: seq<string>): seq<string> {
    NonEmptyOnly(["ps", if all then "-a" else ""] + FilterFlags(filters) + ["--format", PS_FORMAT])
  }

  /**
   * With non-empty filters nothing but the placeholder for `-a` is dropped:
   * every filter is passed, in order, behind its own `--filter`.
   */
  lemma PsArgsShape(all: bool, filters: seq<string>)
    requires forall k :: 0 <= k < |filters| ==> filters[k] != ""
    ensures PsArgs(all, filters)
      == ["ps"] + (if all then ["-a"] else []) + FilterFlags(filters) + ["--format", PS_FORMAT]
  {
    var flags := FilterFlags(filters);
    var head := ["ps", if all then "-a" else ""];
    var tail := ["--format", PS_FORMAT];
    NonEmptyOnlyAppend(head + flags, tail);
    NonEmptyOnlyAppend(head, flags);
    FilterFlagsNonEmpty(filters);
    PsArgsEnds(all);
  }

  lemma PsArgsEnds(all: bool)
    ensures NonEmptyOnly(["ps", if all then "-a" else ""]) == ["ps"] + (if all then ["-a"] else [])
    ensures NonEmptyOnly(["--format", PS_FORMAT]) == ["--format", PS_FORMAT]
  {
    NonEmptyOnlyKeeps(["--format", PS_FORMAT]);
    var head := ["ps", if all then "-a" else ""];
    assert head[1..] == [head[1]] && [head[1]][1..] == [];
  }

  lemma {:induction false} FilterFlagsNonEmpty(filters: seq<string>)
    requires forall k :: 0 <= k < |filters| ==> filters[k] != ""
    ensures NonEmptyOnly(FilterFlags(filters)) == FilterFlags(filters)
  {
    if filters != [] {
      FilterFlagsNonEmpty(filters[1..]);
      NonEmptyOnlyAppend(["--filter", filters[0]], FilterFlags(filters[1..]));
      NonEmptyOnlyKeeps(["--filter", filters[0]]);
    }
  }

  /** The arguments of each command (before the context prefix). */
  function Args(call: DockerCall): seq<string> {
    match call
    case Version => ["version"]
    case Ps(all, filters) => PsArgs(all, filters)
    case Inspect(name) => ["inspect", "-f", INSPECT_FORMAT, name]
    case Start(name) => ["start", name]
    case Stop(name) => ["stop", name]
    case Wait(name) => ["wait", name]
    case Remove(name) => ["rm", "-f", name]
    case RunDetached(image, name) => ["run", "-d", "--name", name, image]
    case Images => ["images", "--format", IMAGES_FORMAT]
    case ComposeLs => ["compose", "ls", "-a", "--format", "json"]
    case StackLs => ["stack", "ls", "-a", "--format", NAME_FORMAT]
    case ServiceLs(stack) =>
      ["service", "ls", "--filter", "label=" + STACK_NAMESPACE_LABEL + "=" + stack, "--format", SERVICE_FORMAT]
    case ServiceScale(service, replicas) => ["service", "scale", service + "=" + NatToString(replicas)]
  }

  /** The queue each command is scheduled in: key presses' start and stop are urgent, listings high. */
  function PriorityOf(call: DockerCall): (p: Priority)
    ensures p == Urgent <==> call.Start? || call.Stop?
    ensures p == High <==> call.Ps? || call.ComposeLs? || call.StackLs?
  {
    match call
    case Start(_) => Urgent
    case Stop(_) => Urgent
    case Ps(_, _) => High
    case ComposeLs => High
    case StackLs => High
    case _ => Normal
  }

  /** Scaling a service names it and its replica count in one `name=replicas` argument. */
  lemma ScaleArgumentReadsBack(service: string, replicas: nat)
    requires '=' !in service
    ensures var a := Args(ServiceScale(service, replicas))[2];
      Split(a, '=') == [service, NatToString(replicas)]
      && ParseInt(NatToString(replicas)) == Some(replicas)
  {
    var digits := NatToString(replicas);
    assert '=' !in digits by {
      forall i | 0 <= i < |digits| ensures digits[i] != '=' { assert IsDigit(digits[i]); }
    }
    SplitAround(service, digits, '=');
    ParseIntOfNatToString(replicas);
  }

  lemma SplitAround(a: string, b: string, sep: char)
    requires sep !in a && sep !in b
    ensures Split(a + [sep] + b, sep) == [a, b]
  {
    SplitCons(a, b, sep);
    SplitNoSeparator(b, sep);
  }

  // ---- `inspect` ----

  /** `getContainerState`: the trimmed output, or undefined when the command failed. */
  function ContainerState(stdout: Option<string>): (r: Option<string>)
    ensures stdout.None? ==> r.None?
    ensures stdout.Some? ==> r == Some(Trim(stdout.value))
  {
    match stdout
    case None => None
    case Some(out) => Some(Trim(out))
  }

  // ---- line filters ----

  /** The lines that are not blank, in order. */
  function NonBlank(lines: seq<string>): (r: seq<string>)
    ensures |r| <= |lines|
  {
    if lines == [] then []
    else (if AllWhitespace(lines[0]) then [] else [lines[0]]) + NonBlank(lines[1..])
  }

  /** Exactly the lines that are not blank survive, and only those. */
  lemma {:induction false} NonBlankMembers(lines: seq<string>, l: string)
    ensures l in NonBlank(lines) <==> l in lines && !AllWhitespace(l)
  {
    if lines != [] {
      NonBlankMembers(lines[1..], l);
      assert l in lines <==> l == lines[0] || l in lines[1..];
    }
  }

  /** `.map((s) => s.trim()).filter(keep)` where `keep` drops the empty string and, for images, `<none>:<none>`. */
  function TrimmedLines(lines: seq<string>, drop: string): (r: seq<string>)
    ensures |r| <= |lines|
    ensures forall k :: 0 <= k < |r| ==> r[k] != "" && r[k] != drop && Trim(r[k]) == r[k]
  {
    if lines == [] then []
    else
      var t := Trim(lines[0]);
      TrimIdempotent(lines[0]);
      (if t != "" && t != drop then [t] else []) + TrimmedLines(lines[1..], drop)
  }

  /** What survives the trimming filter: the trimmed lines other than `""` and `drop`. */
  lemma TrimmedLinesMembers(lines: seq<string>, drop: string, x: string)
    ensures x in TrimmedLines(lines, drop) <==>
      x != "" && x != drop && exists k :: 0 <= k < |lines| && Trim(lines[k]) == x
  {
    if x in TrimmedLines(lines, drop) {
      TrimmedLinesOnlyTrimmed(lines, drop, x);
    }
    if x != "" && x != drop && exists k :: 0 <= k < |lines| && Trim(lines[k]) == x {
      var k :| 0 <= k < |lines| && Trim(lines[k]) == x;
      TrimmedLinesHasTrimmed(lines, drop, k);
    }
  }

  lemma {:induction false} TrimmedLinesHasTrimmed(lines: seq<string>, drop: string, k: nat)
    requires k < |lines| && Trim(lines[k]) != "" && Trim(lines[k]) != drop
    ensures Trim(lines[k]) in TrimmedLines(lines, drop)
  {
    if k > 0 {
      TrimmedLinesHasTrimmed(lines[1..], drop, k - 1);
      assert lines[1..][k - 1] == lines[k];
    }
  }

  lemma {:induction false} TrimmedLinesOnlyTrimmed(lines: seq<string>, drop: string, x: string)
    requires x in TrimmedLines(lines, drop)
    ensures x != "" && x != drop && exists k :: 0 <= k < |lines| && Trim(lines[k]) == x
  {
    if x != Trim(lines[0]) {
      TrimmedLinesOnlyTrimmed(lines[1..], drop, x);
      var k :| 0 <= k < |lines| - 1 && Trim(lines[1..][k]) == x;
      assert Trim(lines[k + 1]) == x;
    }
  }

  // ---- `ps` ----

  type Labels = map<string, string>

  /** One container of `ps`: `name`, `state` (undefined without a tab) and the labels when they parsed. */
  datatype PsItem = PsItem(name: string, state: Option<string>, labels: Option<Labels>)

  /** A label's value when the labels parsed and carry it (`it.labels?.[label]`). */
  function LabelOf(it: PsItem, key: string): Option<string> {
    if it.labels.Some? && key in it.labels.value then Some(it.labels.value[key]) else None
  }

  /**
   * One line of `ps` output: the tab-separated name, state and labels JSON.
   * `json` stands for `JSON.parse` of the labels: `None` when it throws.
   * The state is undefined without a tab; the labels are undefined without a
   * non-empty third field, and otherwise whatever `json` makes of it.
   */
  function ParsePsLine(line: string, json: string -> Option<Labels>): (it: PsItem)
    ensures var parts := Split(line, '\t');
      && it.name == parts[0]
      && (it.state.Some? <==> '\t' in line)
      && (it.state.Some? ==> |parts| >= 2 && it.state.value == parts[1])
      && (it.labels.Some? ==> |parts| >= 3 && parts[2] != "")
      && (|parts| >= 3 && parts[2] != "" ==> it.labels == json(parts[2]))
  {
    var parts := Split(line, '\t');
    SplitHasMoreIff(line, '\t');
    var state := if |parts| > 1 then Some(parts[1]) else None;
    var labels := if |parts| > 2 && parts[2] != "" then json(parts[2]) else None;
    PsItem(parts[0], state, labels)
  }

  /** A line printed by the `ps` format reads back as its three fields. */
  lemma ParsePsLineOfFormat(name: string, state: string, labelsJson: string, json: string -> Option<Labels>)
    requires '\t' !in name && '\t' !in state && '\t' !in labelsJson
    ensures ParsePsLine(name + "\t" + state + "\t" + labelsJson, json)
      == PsItem(name, Some(state), if labelsJson == "" then None else json(labelsJson))
  {
    SplitThree(name, state, labelsJson, '\t');
  }

  lemma SplitThree(a: string, b: string, c: string, sep: char)
    requires sep !in a && sep !in b && sep !in c
    ensures Split(a + [sep] + b + [sep] + c, sep) == [a, b, c]
  {
    assert a + [sep] + b + [sep] + c == a + [sep] + (b + [sep] + c);
    SplitCons(a, b + [sep] + c, sep);
    SplitAround(b, c, sep);
  }

  /** A split has more than one piece exactly when the separator occurs. */
  lemma {:induction false} SplitHasMoreIff(s: string, sep: char)
    ensures |Split(s, sep)| >= 2 <==> sep in s
  {
    if s != [] && s[0] != sep {
      SplitHasMoreIff(s[1..], sep);
    }
  }

  /**
   * `listContainers`, given the command's output: every line that is not blank
   * yields one item, in order; a line whose labels do not parse still yields
   * its item, without labels.
   */
  method ListContainers(stdout: string, json: string -> Option<Labels>) returns (items: seq<PsItem>)
    ensures var lines := NonBlank(SplitLines(stdout));
      |items| == |lines| && forall k :: 0 <= k < |items| ==> items[k] == ParsePsLine(lines[k], json)
  {
    var lines := SplitLines(stdout);
    ghost var kept := [];
    items := [];
    var i := 0;
    while i < |lines|
      invariant 0 <= i <= |lines|
      invariant kept == NonBlank(lines[..i])
      invariant items == ParsePsLines(kept, json)
    {
      var line := lines[i];
      NonBlankStep(lines, i);
      if Trim(line) != "" {
        ParsePsLinesSnoc(kept, line, json);
        items := items + [ParsePsLine(line, json)];
        kept := kept + [line];
      }
      i := i + 1;
    }
    assert lines[..i] == lines;
    forall k | 0 <= k < |items|
      ensures items[k] == ParsePsLine(kept[k], json)
    {
      ParsePsLinesAt(kept, k, json);
    }
  }

  /** The items of the given `ps` lines, in order. */
  function ParsePsLines(lines: seq<string>, json: string -> Option<Labels>): (r: seq<PsItem>)
    ensures |r| == |lines|
  {
    if lines == [] then [] else [ParsePsLine(lines[0], json)] + ParsePsLines(lines[1..], json)
  }

  lemma {:induction false} ParsePsLinesAt(lines: seq<string>, k: nat, json: string -> Option<Labels>)
    requires k < |lines|
    ensures ParsePsLines(lines, json)[k] == ParsePsLine(lines[k], json)
  {
    if k > 0 {
      ParsePsLinesAt(lines[1..], k - 1, json);
    }
  }

  lemma {:induction false} ParsePsLinesSnoc(lines: seq<string>, line: string, json: string -> Option<Labels>)
    ensures ParsePsLines(lines + [line], json) == ParsePsLines(lines, json) + [ParsePsLine(line, json)]
  {
    if lines != [] {
      assert (lines + [line])[0] == lines[0];
      assert (lines + [line])[1..] == lines[1..] + [line];
      ParsePsLinesSnoc(lines[1..], line, json);
    }
  }

  /** One more line either joins the non-blank lines or is skipped, as `!line.trim()` decides. */
  lemma NonBlankStep(lines: seq<string>, i: nat)
    requires i < |lines|
    ensures NonBlank(lines[..i + 1]) == NonBlank(lines[..i]) + (if Trim(lines[i]) == "" then [] else [lines[i]])
  {
    TrimEmptyIffBlank(lines[i]);
    NonBlankSnoc(lines[..i], lines[i]);
    assert lines[..i + 1] == lines[..i] + [lines[i]];
  }

  lemma {:induction false} NonBlankSnoc(lines: seq<string>, line: string)
    ensures NonBlank(lines + [line]) == NonBlank(lines) + (if AllWhitespace(line) then [] else [line])
  {
    if lines != [] {
      assert (lines + [line])[0] == lines[0];
      assert (lines + [line])[1..] == lines[1..] + [line];
      NonBlankSnoc(lines[1..], line);
    }
  }

  /** `listImages`, given the output of `images`. */
  function ListImages(stdout: string): (images: seq<string>)
    ensures forall k :: 0 <= k < |images| ==> images[k] != "" && images[k] != "<none>:<none>"
  {
    TrimmedLines(SplitLines(stdout), "<none>:<none>")
  }

  /**
   * The images listed are exactly the trimmed output lines other than the empty
   * line and the dangling `<none>:<none>`.
   */
  lemma ListImagesMembers(stdout: string, x: string)
    ensures x in ListImages(stdout) <==>
      x != "" && x != "<none>:<none>"
      && exists k :: 0 <= k < |SplitLines(stdout)| && Trim(SplitLines(stdout)[k]) == x
  {
    TrimmedLinesMembers(SplitLines(stdout), "<none>:<none>", x);
  }

  /** `keyFor(it)` where the key is the item's name: the map that `set(it.name, it)` builds item by item. */
  function ByName(items: seq<PsItem>): (m: JsMap<string, PsItem>)
    ensures m.Valid()
  {
    if items == [] then Empty() else ByName(items[..|items| - 1]).Set(items[|items| - 1].name, items[|items| - 1])
  }

  /** The index of the last item with name `n`, or -1. */
  function LastNamed(items: seq<PsItem>, n: string): (k: int)
    ensures -1 <= k < |items|
    ensures k >= 0 ==> items[k].name == n
    ensures forall j :: k < j < |items| ==> items[j].name != n
  {
    if items == [] then -1
    else if items[|items| - 1].name == n then |items| - 1
    else
      var k := LastNamed(items[..|items| - 1], n);
      assert forall j :: 0 <= j < |items| - 1 ==> items[..|items| - 1][j] == items[j];
      k
  }

  /**
   * A name is a key exactly when some item carries it, and its value is the
   * last item with that name: a later duplicate overwrites an earlier one.
   */
  lemma {:induction false} ByNameLast(items: seq<PsItem>, n: string)
    ensures n in ByName(items).vals <==> LastNamed(items, n) >= 0
    ensures n in ByName(items).vals ==> ByName(items).vals[n] == items[LastNamed(items, n)]
  {
    if items != [] {
      var init := items[..|items| - 1];
      ByNameLast(init, n);
      if items[|items| - 1].name != n && LastNamed(init, n) >= 0 {
        assert init[LastNamed(init, n)] == items[LastNamed(init, n)];
      }
    }
  }

  /** Some item carries the name exactly when `LastNamed` finds one. */
  lemma LastNamedFound(items: seq<PsItem>, k: int)
    requires 0 <= k < |items|
    ensures LastNamed(items, items[k].name) >= k
  {
  }

  /** The `for (const it of items) map.set(it.name, it)` loop. */
  method IndexByName(items: seq<PsItem>) returns (m: JsMap<string, PsItem>)
    ensures m == ByName(items) && m.Valid()
  {
    m := Empty();
    var i := 0;
    while i < |items|
      invariant 0 <= i <= |items|
      invariant m == ByName(items[..i])
    {
      assert items[..i + 1][..i] == items[..i];
      m := m.Set(items[i].name, items[i]);
      i := i + 1;
    }
    assert items[..i] == items;
  }

  /** The two listings `containersByComposeProject` issues: by compose project label, then by stack namespace label. */
  function ProjectListings(project: string): seq<DockerCall> {
    [Ps(true, ["label=" + COMPOSE_PROJECT_LABEL + "=" + project]),
     Ps(true, ["label=" + STACK_NAMESPACE_LABEL + "=" + project])]
  }

  /** Both listings run `ps -a` with one label filter for the project. */
  lemma ProjectListingsArgs(project: string)
    ensures var calls := ProjectListings(project);
      && Args(calls[0]) == ["ps", "-a", "--filter", "label=" + COMPOSE_PROJECT_LABEL + "=" + project, "--format", PS_FORMAT]
      && Args(calls[1]) == ["ps", "-a", "--filter", "label=" + STACK_NAMESPACE_LABEL + "=" + project, "--format", PS_FORMAT]
  {
    OneFilterArgs("label=" + COMPOSE_PROJECT_LABEL + "=" + project);
    OneFilterArgs("label=" + STACK_NAMESPACE_LABEL + "=" + project);
  }

  lemma OneFilterArgs(filter: string)
    requires filter != ""
    ensures Args(Ps(true, [filter])) == ["ps", "-a", "--filter", filter, "--format", PS_FORMAT]
  {
    PsArgsShape(true, [filter]);
    assert FilterFlags([filter]) == ["--filter", filter];
  }

  /** The members `containersByComposeProject` returns: the values of the name index over both listings. */
  function MergedMembers(viaCompose: Option<seq<PsItem>>, viaSwarm: Option<seq<PsItem>>): seq<PsItem> {
    ByName(viaCompose.GetOr([]) + viaSwarm.GetOr([])).Values()
  }

  /** The names of the items, each once, in the order of their first occurrence. */
  function FirstNames(items: seq<PsItem>): (r: seq<string>)
    ensures Distinct(r)
  {
    if items == [] then []
    else
      var d := FirstNames(items[..|items| - 1]);
      var n := items[|items| - 1].name;
      if n in d then d else d + [n]
  }

  /** The names first seen in a prefix of the items come first: listing more never reorders them. */
  lemma {:induction false} FirstNamesPrefix(items: seq<PsItem>, n: nat)
    requires n <= |items|
    ensures FirstNames(items[..n]) <= FirstNames(items)
  {
    if n < |items| {
      FirstNamesPrefix(items[..|items| - 1], n);
      assert items[..|items| - 1][..n] == items[..n];
    } else {
      assert items[..n] == items;
    }
  }

  /** The index's iteration order is the order in which names are first listed. */
  lemma {:induction false} ByNameOrder(items: seq<PsItem>)
    ensures ByName(items).order == FirstNames(items)
  {
    if items != [] {
      ByNameOrder(items[..|items| - 1]);
    }
  }

  /**
   * `containersByComposeProject`, given the two `ps` listings (by compose
   * project label and by stack namespace label; `None` when one failed, which
   * counts as empty): the union, one item per name, the later listing winning,
   * in the order in which names are first listed.
   */
  method ContainersByComposeProject(viaCompose: Option<seq<PsItem>>, viaSwarm: Option<seq<PsItem>>)
    returns (members: seq<PsItem>)
    ensures members == MergedMembers(viaCompose, viaSwarm)
    ensures var all := viaCompose.GetOr([]) + viaSwarm.GetOr([]);
      && (forall k :: 0 <= k < |members| ==>
            LastNamed(all, members[k].name) >= 0 && members[k] == all[LastNamed(all, members[k].name)])
      && (forall k :: 0 <= k < |all| ==> exists j :: 0 <= j < |members| && members[j].name == all[k].name)
      && (forall j, k :: 0 <= j < k < |members| ==> members[j].name != members[k].name)
    ensures var all := viaCompose.GetOr([]) + viaSwarm.GetOr([]);
      |members| == |FirstNames(all)| && forall k :: 0 <= k < |members| ==> members[k].name == FirstNames(all)[k]
  {
    var all := viaCompose.GetOr([]) + viaSwarm.GetOr([]);
    var m := IndexByName(all);
    members := m.Values();
    MembersAreLastNamed(all, members);
    MembersCoverAll(all, members);
    MembersHaveDistinctNames(all, members);
    MembersInFirstOrder(all, members);
  }

  /** The members come in the order of the names' first listing. */
  lemma MembersInFirstOrder(all: seq<PsItem>, members: seq<PsItem>)
    requires members == ByName(all).Values()
    ensures |members| == |FirstNames(all)| && forall k :: 0 <= k < |members| ==> members[k].name == FirstNames(all)[k]
  {
    ByNameOrder(all);
    var m := ByName(all);
    forall k | 0 <= k < |members| ensures members[k].name == FirstNames(all)[k] {
      NameIsKey(all, m.order[k]);
    }
  }

  /** Containers found by their compose label come first, in their own first-listed order. */
  lemma ComposeMembersFirst(viaCompose: seq<PsItem>, viaSwarm: seq<PsItem>)
    ensures FirstNames(viaCompose) <= FirstNames(viaCompose + viaSwarm)
  {
    FirstNamesPrefix(viaCompose + viaSwarm, |viaCompose|);
    assert (viaCompose + viaSwarm)[..|viaCompose|] == viaCompose;
  }

  /** Each value of the index is the last item listed under its name. */
  lemma MembersAreLastNamed(all: seq<PsItem>, members: seq<PsItem>)
    requires members == ByName(all).Values()
    ensures forall k :: 0 <= k < |members| ==>
      LastNamed(all, members[k].name) >= 0 && members[k] == all[LastNamed(all, members[k].name)]
  {
    var m := ByName(all);
    forall k | 0 <= k < |members|
      ensures LastNamed(all, members[k].name) >= 0 && members[k] == all[LastNamed(all, members[k].name)]
    {
      NameIsKey(all, m.order[k]);
      ByNameLast(all, m.order[k]);
    }
  }

  /** Every listed name has a value in the index. */
  lemma MembersCoverAll(all: seq<PsItem>, members: seq<PsItem>)
    requires members == ByName(all).Values()
    ensures forall k :: 0 <= k < |all| ==> exists j :: 0 <= j < |members| && members[j].name == all[k].name
  {
    var m := ByName(all);
    forall k | 0 <= k < |all| ensures exists j :: 0 <= j < |members| && members[j].name == all[k].name {
      LastNamedFound(all, k);
      ByNameLast(all, all[k].name);
      var j :| 0 <= j < |m.order| && m.order[j] == all[k].name;
      NameIsKey(all, m.order[j]);
      assert members[j].name == all[k].name;
    }
  }

  /** No name has two values in the index. */
  lemma MembersHaveDistinctNames(all: seq<PsItem>, members: seq<PsItem>)
    requires members == ByName(all).Values()
    ensures forall j, k :: 0 <= j < k < |members| ==> members[j].name != members[k].name
  {
    var m := ByName(all);
    forall j, k | 0 <= j < k < |members| ensures members[j].name != members[k].name {
      NameIsKey(all, m.order[j]);
      NameIsKey(all, m.order[k]);
    }
  }

  /** The value stored under a name carries that name. */
  lemma {:induction false} NameIsKey(items: seq<PsItem>, n: string)
    requires n in ByName(items).vals
    ensures ByName(items).vals[n].name == n
  {
    ByNameLast(items, n);
  }

  // ---- compose / stack names ----

  /** A total order on strings: the plugin sorts stack names with `localeCompare`. */
  ghost predicate TotalOrder(leq: (string, string) -> bool) {
    && (forall a :: leq(a, a))
    && (forall a, b :: leq(a, b) && leq(b, a) ==> a == b)
    && (forall a, b, c :: leq(a, b) && leq(b, c) ==> leq(a, c))
    && (forall a, b :: leq(a, b) || leq(b, a))
  }

  /** Sorted by `leq`, no element twice. */
  ghost predicate StrictlySorted(s: seq<string>, leq: (string, string) -> bool) {
    forall i, j :: 0 <= i < j < |s| ==> leq(s[i], s[j]) && s[i] != s[j]
  }

  function InsertSorted(s: seq<string>, x: string, leq: (string, string) -> bool): (r: seq<string>)
    requires TotalOrder(leq) && StrictlySorted(s, leq)
    ensures StrictlySorted(r, leq)
    ensures ElementsOf(r) == ElementsOf(s) + {x}
  {
    if s == [] then [x]
    else if x == s[0] then s
    else if leq(x, s[0]) then
      assert ElementsOf([x] + s) == ElementsOf(s) + {x};
      [x] + s
    else
      var rest := InsertSorted(s[1..], x, leq);
      assert ElementsOf(s) == {s[0]} + ElementsOf(s[1..]);
      assert ElementsOf([s[0]] + rest) == {s[0]} + ElementsOf(rest);
      assert leq(s[0], x) && s[0] != x;
      assert forall j :: 0 <= j < |rest| ==> rest[j] in ElementsOf(rest);
      assert forall j :: 1 <= j < |s| ==> leq(s[0], s[j]) && s[0] != s[j];
      assert forall y :: y in ElementsOf(s[1..]) ==> exists j :: 1 <= j < |s| && s[j] == y;
      [s[0]] + rest
  }

  /** `Array.from(set).sort((a, b) => a.localeCompare(b))` */
  method SortNames(names: set<string>, leq: (string, string) -> bool) returns (r: seq<string>)
    requires TotalOrder(leq)
    ensures StrictlySorted(r, leq) && ElementsOf(r) == names
  {
    r := [];
    var left := names;
    while left != {}
      invariant StrictlySorted(r, leq)
      invariant ElementsOf(r) + left == names
      decreases left
    {
      var x :| x in left;
      r := InsertSorted(r, x, leq);
      left := left - {x};
    }
  }

  /** The names a container contributes: its non-empty compose project and stack namespace labels. */
  function StackLabels(it: PsItem): set<string> {
    (if LabelOf(it, COMPOSE_PROJECT_LABEL).Some? && LabelOf(it, COMPOSE_PROJECT_LABEL).value != ""
     then {LabelOf(it, COMPOSE_PROJECT_LABEL).value} else {})
    + (if LabelOf(it, STACK_NAMESPACE_LABEL).Some? && LabelOf(it, STACK_NAMESPACE_LABEL).value != ""
       then {LabelOf(it, STACK_NAMESPACE_LABEL).value} else {})
  }

  /**
   * `listComposeProjects`: the label values of all containers, the names of
   * `compose ls` (`None` when the command or its JSON failed) and the lines of
   * `stack ls` (`None` when it failed), sorted, each once.
   */
  method ListComposeProjects(items: seq<PsItem>, composeNames: Option<seq<string>>,
                             stackLs: Option<string>, leq: (string, string) -> bool)
    returns (names: seq<string>)
    requires TotalOrder(leq)
    ensures StrictlySorted(names, leq)
    ensures forall n :: n in names <==>
      || (exists k :: 0 <= k < |items| && n in StackLabels(items[k]))
      || (composeNames.Some? && n in composeNames.value)
      || (stackLs.Some? && n in TrimmedLines(SplitLines(stackLs.value), ""))
  {
    var found: set<string> := {};
    var i := 0;
    while i < |items|
      invariant 0 <= i <= |items|
      invariant found == LabelsOf(items[..i])
    {
      assert items[..i + 1][..i] == items[..i];
      var composeProject := LabelOf(items[i], COMPOSE_PROJECT_LABEL);
      var swarmStack := LabelOf(items[i], STACK_NAMESPACE_LABEL);
      if composeProject.Some? && composeProject.value != "" {
        found := found + {composeProject.value};
      }
      if swarmStack.Some? && swarmStack.value != "" {
        found := found + {swarmStack.value};
      }
      i := i + 1;
    }
    assert items[..i] == items;
    ghost var labels := found;
    if composeNames.Some? {
      found := found + ElementsOf(composeNames.value);
    }
    if stackLs.Some? {
      found := found + ElementsOf(TrimmedLines(SplitLines(stackLs.value), ""));
    }
    names := SortNames(found, leq);
    forall n
      ensures n in names <==> (n in labels
        || (composeNames.Some? && n in composeNames.value)
        || (stackLs.Some? && n in TrimmedLines(SplitLines(stackLs.value), "")))
    {
      assert n in names <==> n in ElementsOf(names);
    }
    forall n ensures n in labels <==> exists k :: 0 <= k < |items| && n in StackLabels(items[k]) {
      LabelsOfMembers(items, n);
    }
  }

  /** The stack labels of all the given containers. */
  function LabelsOf(items: seq<PsItem>): set<string> {
    if items == [] then {} else LabelsOf(items[..|items| - 1]) + StackLabels(items[|items| - 1])
  }

  lemma {:induction false} LabelsOfMembers(items: seq<PsItem>, n: string)
    ensures n in LabelsOf(items) <==> exists k :: 0 <= k < |items| && n in StackLabels(items[k])
  {
    if items != [] {
      var init := items[..|items| - 1];
      LabelsOfMembers(init, n);
      if n in LabelsOf(init) {
        var k :| 0 <= k < |init| && n in StackLabels(init[k]);
        assert items[k] == init[k];
      }
      if exists k :: 0 <= k < |items| && n in StackLabels(items[k]) {
        var k :| 0 <= k < |items| && n in StackLabels(items[k]);
        if k < |init| {
          assert init[k] == items[k];
        }
      }
    }
  }

  // ---- swarm services ----

  /** One service of `service ls`: replicas desired when the replicas column reads `current/desired`. */
  datatype SwarmService = SwarmService(name: string, mode: Option<string>, replicasDesired: Option<int>)

  /** The desired count of a `current/desired` replicas column: `parseInt` of the part after the first `/`. */
  function DesiredReplicas(replicas: Option<string>): (r: Option<int>)
    ensures replicas.None? || '/' !in replicas.value ==> r.None?
    ensures replicas.Some? && '/' in replicas.value ==>
      |Split(replicas.value, '/')| >= 2 && r == ParseInt(Split(replicas.value, '/')[1])
  {
    if replicas.Some? && '/' in replicas.value then
      SplitHasMoreIff(replicas.value, '/');
      ParseInt(Split(replicas.value, '/')[1])
    else None
  }

  /**
   * One line of `service ls`: the tab-separated name, mode and replicas. The
   * mode is undefined without a tab; the desired count is read from a third
   * field holding a `/`, and is undefined otherwise.
   */
  function ParseServiceLine(line: string): (svc: SwarmService)
    ensures var parts := Split(line, '\t');
      && svc.name == parts[0]
      && (svc.mode.Some? <==> '\t' in line)
      && (svc.mode.Some? ==> |parts| >= 2 && svc.mode.value == parts[1])
      && (svc.replicasDesired.Some? ==> |parts| >= 3 && '/' in parts[2])
      && (|parts| >= 3 && '/' in parts[2] ==>
            |Split(parts[2], '/')| >= 2 && svc.replicasDesired == ParseInt(Split(parts[2], '/')[1]))
  {
    var parts := Split(line, '\t');
    SplitHasMoreIff(line, '\t');
    SwarmService(parts[0], if |parts| > 1 then Some(parts[1]) else None,
                 DesiredReplicas(if |parts| > 2 then Some(parts[2]) else None))
  }

  /** A line printed by the `service ls` format reads back its name, mode and desired count. */
  lemma ParseServiceLineOfFormat(name: string, mode: string, current: nat, desired: nat)
    requires '\t' !in name && '\t' !in mode
    ensures ParseServiceLine(name + "\t" + mode + "\t" + NatToString(current) + "/" + NatToString(desired))
      == SwarmService(name, Some(mode), Some(desired))
  {
    var replicas := NatToString(current) + "/" + NatToString(desired);
    ReplicasField(current, desired);
    assert name + "\t" + mode + "\t" + NatToString(current) + "/" + NatToString(desired)
      == name + ['\t'] + mode + ['\t'] + replicas;
    SplitThree(name, mode, replicas, '\t');
    ParseIntOfNatToString(desired);
  }

  /** The replicas column `current/desired` holds no tab and splits at its one `/`. */
  lemma ReplicasField(current: nat, desired: nat)
    ensures var c, d := NatToString(current), NatToString(desired);
      '\t' !in c + "/" + d && '/' in c + "/" + d && Split(c + "/" + d, '/') == [c, d]
  {
    var c, d := NatToString(current), NatToString(desired);
    DigitsHoldNo(c, '\t');
    DigitsHoldNo(d, '\t');
    DigitsHoldNo(c, '/');
    DigitsHoldNo(d, '/');
    var replicas := c + "/" + d;
    assert replicas[|c|] == '/';
    SplitAround(c, d, '/');
  }

  lemma DigitsHoldNo(ds: string, x: char)
    requires forall i :: 0 <= i < |ds| ==> IsDigit(ds[i])
    requires !IsDigit(x)
    ensures x !in ds
  {
  }

  /** The services of the given `service ls` lines, in order. */
  function ParseServiceLines(lines: seq<string>): (r: seq<SwarmService>)
    ensures |r| == |lines|
  {
    if lines == [] then [] else [ParseServiceLine(lines[0])] + ParseServiceLines(lines[1..])
  }

  lemma {:induction false} ParseServiceLinesAt(lines: seq<string>, k: nat)
    requires k < |lines|
    ensures ParseServiceLines(lines)[k] == ParseServiceLine(lines[k])
  {
    if k > 0 {
      ParseServiceLinesAt(lines[1..], k - 1);
    }
  }

  lemma {:induction false} ParseServiceLinesSnoc(lines: seq<string>, line: string)
    ensures ParseServiceLines(lines + [line]) == ParseServiceLines(lines) + [ParseServiceLine(line)]
  {
    if lines != [] {
      assert (lines + [line])[0] == lines[0];
      assert (lines + [line])[1..] == lines[1..] + [line];
      ParseServiceLinesSnoc(lines[1..], line);
    }
  }

  /** `listSwarmServicesInStack`, given the output of `service ls` (`None` when it failed: no service). */
  method ListSwarmServicesInStack(stdout: Option<string>) returns (services: seq<SwarmService>)
    ensures stdout.None? ==> services == []
    ensures stdout.Some? ==> services == ParseServiceLines(NonBlank(SplitLines(stdout.value)))
  {
    services := [];
    if stdout.Some? {
      services := ServicesOfLines(SplitLines(stdout.value));
    }
  }

  /** The loop over the lines of `service ls`: blank lines are skipped, every other one is parsed. */
  method ServicesOfLines(lines: seq<string>) returns (services: seq<SwarmService>)
    ensures services == ParseServiceLines(NonBlank(lines))
  {
    ghost var kept := [];
    services := [];
    var i := 0;
    while i < |lines|
      invariant 0 <= i <= |lines|
      invariant kept == NonBlank(lines[..i])
      invariant services == ParseServiceLines(kept)
    {
      var line := lines[i];
      NonBlankStep(lines, i);
      if Trim(line) != "" {
        ParseServiceLinesSnoc(kept, line);
        services := services + [ParseServiceLine(line)];
        kept := kept + [line];
      }
      i := i + 1;
    }
    assert lines[..i] == lines;
  }


  /** One service per non-blank line of `service ls`, in order. */
  lemma ServicesPerLine(stdout: string, k: nat)
    requires k < |NonBlank(SplitLines(stdout))|
    ensures ParseServiceLines(NonBlank(SplitLines(stdout)))[k] == ParseServiceLine(NonBlank(SplitLines(stdout))[k])
  {
    ParseServiceLinesAt(NonBlank(SplitLines(stdout)), k);
  }

  /** `isSwarmStack`: some service carries the stack's namespace label. */
  method IsSwarmStack(stdout: Option<string>) returns (swarm: bool)
    ensures swarm <==> stdout.Some? && NonBlank(SplitLines(stdout.value)) != []
  {
    var services := ListSwarmServicesInStack(stdout);
    swarm := |services| > 0;
  }
}
