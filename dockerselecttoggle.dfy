/**
 * `docker-select-toggle.ts`: a dial that walks through every container of
 * the daemon, shows the selected one's name and toggles it when pressed.
 * Unlike the keys, the dial keeps its list, its position and its one
 * refresh interval in the action object itself; the commands issued and
 * what the dial shows go to a `Sink`.
 */
module DockerSelectToggle {
  import opened Wrappers
  import opened DockerCli
  import opened Ui

  const NO_CONTAINER_TITLE := "No Container"
  const RUNNING_ICON := "imgs/actions/docker-running/key"
  const STOPPED_ICON := "imgs/actions/docker-stopped/key"
  /** The start of the line logged at the info level on every refresh (a missing name prints as `undefined`). */
  const UPDATING_MESSAGE := "Updating container state for "

  /** `DockerContainerData`: the names docker prints (with the leading slash) and the state. */
  datatype Entry = Entry(names: seq<string>, state: Option<string>)

  /** `slice(1)`: everything after the first character, `""` for the empty string. */
  function DropFirst(s: string): (r: string)
    ensures |s| >= 1 ==> s == s[..1] + r
    ensures |s| == 0 ==> r == ""
  {
    if |s| >= 1 then s[1..] else ""
  }

  /** `items.map((it) => ({ Names: ["/" + it.name], State: it.state }))` */
  function Entries(items: seq<PsItem>): (r: seq<Entry>)
    ensures |r| == |items|
    ensures forall i :: 0 <= i < |r| ==> r[i].state == items[i].state && |r[i].names| == 1
  {
    seq(|items|, i requires 0 <= i < |items| => Entry(["/" + items[i].name], items[i].state))
  }

  /** Every entry holds exactly one name, as `Entries` builds them. */
  predicate OneNameEach(containers: seq<Entry>) {
    forall i :: 0 <= i < |containers| ==> |containers[i].names| == 1
  }

  /** The name an entry stands for: its first name without the leading character. */
  function EntryName(e: Entry): (n: string)
    requires |e.names| >= 1
  {
    DropFirst(e.names[0])
  }

  /**
   * `this.containers[i]?.Names?.[0]?.slice(1)`: the name the refresh interval
   * set up by `onWillAppear` passes on each tick, undefined once the
   * selection lies past the end of the list.
   */
  function SelectedName(containers: seq<Entry>, i: nat): (n: Option<string>)
    requires OneNameEach(containers)
    ensures n.None? <==> i >= |containers|
    ensures n.Some? ==> n.value == EntryName(containers[i])
  {
    if i < |containers| then Some(EntryName(containers[i])) else None
  }

  /** A name as string concatenation prints it: an undefined one is `undefined`. */
  function Printed(n: Option<string>): string {
    match n
    case Some(v) => v
    case None => "undefined"
  }

  /** `this.containers[i]?.Names[0].slice(1) || "No Container"`: the dial's title. */
  function DisplayName(containers: seq<Entry>, i: nat): (t: string)
    requires OneNameEach(containers)
    ensures t != ""
    ensures i >= |containers| ==> t == NO_CONTAINER_TITLE
    ensures i < |containers| && EntryName(containers[i]) != "" ==> t == EntryName(containers[i])
  {
    if i < |containers| && EntryName(containers[i]) != "" then EntryName(containers[i]) else NO_CONTAINER_TITLE
  }

  /** Storing a name with the slash and showing it without gives the name back. */
  lemma DisplayRecoversName(items: seq<PsItem>, i: nat)
    requires i < |items|
    ensures EntryName(Entries(items)[i]) == items[i].name
    ensures items[i].name != "" ==> DisplayName(Entries(items), i) == items[i].name
    ensures items[i].name == "" ==> DisplayName(Entries(items), i) == NO_CONTAINER_TITLE
  {
    var s := "/" + items[i].name;
    assert Entries(items)[i].names[0] == s;
    assert s[1..] == items[i].name;
  }

  /** One step of the dial over `n` entries: forward, and back to the start past the end. */
  function Rotate(i: nat, n: nat): (r: nat)
    requires n > 0
    ensures r < n
    ensures i < n ==> r == (i + 1) % n
    ensures i >= n ==> r == 0
  {
    if i + 1 >= n then 0 else i + 1
  }

  /** `k` steps of the dial. */
  function RotateTimes(i: nat, n: nat, k: nat): (r: nat)
    requires n > 0
    ensures k > 0 ==> r < n
  {
    if k == 0 then i else Rotate(RotateTimes(i, n, k - 1), n)
  }

  /** Steps that stay before the end move the selection forward by as many places. */
  lemma {:induction false} RotateWalk(i: nat, n: nat, k: nat)
    requires i + k < n
    ensures RotateTimes(i, n, k) == i + k
  {
    if k > 0 {
      RotateWalk(i, n, k - 1);
    }
  }

  /** `a` steps and then `b` steps are `a + b` steps. */
  lemma {:induction false} RotateAdd(i: nat, n: nat, a: nat, b: nat)
    requires n > 0
    ensures RotateTimes(i, n, a + b) == RotateTimes(RotateTimes(i, n, a), n, b)
  {
    if b > 0 {
      RotateAdd(i, n, a, b - 1);
      assert a + b - 1 == a + (b - 1);
    }
  }

  /** A full turn of the dial, as many steps as there are entries, returns to where it began. */
  lemma FullTurn(i: nat, n: nat)
    requires i < n
    ensures RotateTimes(i, n, n) == i
  {
    var toEnd := n - 1 - i;
    RotateWalk(i, n, toEnd);
    RotateAdd(i, n, toEnd, 1);
    assert RotateTimes(i, n, toEnd + 1) == 0;
    RotateAdd(i, n, toEnd + 1, i);
    RotateWalk(0, n, i);
    assert toEnd + 1 + i == n;
  }

  /** The icon `setFeedback` shows for a container state. */
  function FeedbackIcon(state: Option<string>): (icon: string)
    ensures icon == RUNNING_ICON <==> state == Some(CONTAINER_STATUS_RUNNING)
    ensures icon == STOPPED_ICON <==> state != Some(CONTAINER_STATUS_RUNNING)
  {
    if state == Some(CONTAINER_STATUS_RUNNING) then RUNNING_ICON else STOPPED_ICON
  }

  /** The commands a press issues for a known state, up to the first one that rejects. */
  function PressCommands(name: string, state: Option<string>, rejects: set<DockerCall>): (r: seq<DockerCall>)
    ensures state == Some(CONTAINER_STATUS_RUNNING) ==> r == if Stop(name) in rejects then [Stop(name)] else [Stop(name), Wait(name)]
    ensures state != Some(CONTAINER_STATUS_RUNNING) ==> r == [Start(name)]
  {
    if state == Some(CONTAINER_STATUS_RUNNING) then
      if Stop(name) in rejects then [Stop(name)] else [Stop(name), Wait(name)]
    else [Start(name)]
  }

  /** A press whose commands all succeed ends with the container toggled: stopped and waited for, or started. */
  lemma PressToggles(name: string, state: Option<string>, rejects: set<DockerCall>)
    requires rejects == {}
    ensures var r := PressCommands(name, state, rejects);
      (state == Some(CONTAINER_STATUS_RUNNING) <==> r == [Stop(name), Wait(name)])
      && (state != Some(CONTAINER_STATUS_RUNNING) <==> r == [Start(name)])
  {
  }

  class Dial {
    var containers: seq<Entry>
    var currentIndex: nat
    var updateInterval: Option<nat>
    /** The intervals the host runs for this action, and the next handle it hands out. */
    var live: set<nat>
    var next: nat

    /** Entries come from `Entries`; the interval the action remembers runs; handles are new. */
    ghost predicate Valid()
      reads this
    {
      && OneNameEach(containers)
      && (updateInterval.Some? ==> updateInterval.value in live)
      && (forall h :: h in live ==> h < next)
    }

    constructor()
      ensures Valid()
      ensures containers == [] && currentIndex == 0 && updateInterval == None && live == {} && next == 0
    {
      containers := [];
      currentIndex := 0;
      updateInterval := None;
      live := {};
      next := 0;
    }

    /** `setInterval(...)` assigned to `this.updateInterval`: the previous interval keeps running. */
    method StartInterval()
      requires Valid()
      modifies this`updateInterval, this`live, this`next
      ensures Valid()
      ensures updateInterval == Some(old(next)) && old(next) !in old(live)
      ensures live == old(live) + {old(next)} && next == old(next) + 1
    {
      updateInterval := Some(next);
      live := live + {next};
      next := next + 1;
    }

    /**
     * `updateContainersList`: every container of the daemon is listed, stopped
     * ones included; `listing` is the answer, `None` when the listing rejected,
     * which leaves the list as it was and makes the awaiting handler throw.
     */
    method UpdateContainersList(sink: Sink, listing: Option<seq<PsItem>>)
      requires Valid()
      modifies this`containers, sink
      ensures Valid()
      ensures listing.Some? ==> containers == Entries(listing.value)
      ensures listing.None? ==> containers == old(containers)
      ensures sink.calls == old(sink.calls) + [Ps(true, [])] && sink.ui == old(sink.ui)
    {
      sink.Issue(Ps(true, []));
      if listing.Some? {
        containers := Entries(listing.value);
      }
    }

    /** `updateContainerName`: the title is the selected container's name. */
    method UpdateContainerName(sink: Sink)
      requires Valid()
      modifies sink
      ensures sink.calls == old(sink.calls) && sink.ui == old(sink.ui) + [SetTitle(DisplayName(containers, currentIndex))]
    {
      sink.Show(SetTitle(DisplayName(containers, currentIndex)));
    }

    /**
     * `onWillAppear` on a dial: with Docker up the list is loaded and the
     * name shown, and a listing that rejects ends the handler; otherwise a
     * refresh interval starts.
     */
    method OnWillAppear(sink: Sink, isDial: bool, dockerIsUp: bool, listing: Option<seq<PsItem>>)
      requires Valid()
      modifies this, sink
      ensures Valid()
      ensures currentIndex == old(currentIndex)
      ensures !isDial ==>
        && containers == old(containers) && live == old(live) && updateInterval == old(updateInterval)
        && sink.calls == old(sink.calls) && sink.ui == old(sink.ui)
      ensures isDial && !dockerIsUp ==> containers == old(containers) && sink.calls == old(sink.calls) && sink.ui == old(sink.ui)
      ensures isDial && dockerIsUp && listing.None? ==>
        && containers == old(containers)
        && sink.calls == old(sink.calls) + [Ps(true, [])] && sink.ui == old(sink.ui)
        && live == old(live) && updateInterval == old(updateInterval) && next == old(next)
      ensures isDial && dockerIsUp && listing.Some? ==>
        && containers == Entries(listing.value)
        && sink.calls == old(sink.calls) + [Ps(true, [])]
        && sink.ui == old(sink.ui) + [SetTitle(DisplayName(Entries(listing.value), currentIndex))]
      ensures isDial && (!dockerIsUp || listing.Some?) ==>
        updateInterval == Some(old(next)) && live == old(live) + {old(next)} && next == old(next) + 1
    {
      if !isDial {
        return;
      }
      if dockerIsUp {
        UpdateContainersList(sink, listing);
        if listing.None? {
          return;
        }
        UpdateContainerName(sink);
      }
      StartInterval();
    }

    /**
     * `onDialRotate`: with no containers nothing happens; otherwise the
     * selection moves one step, wrapping past the end, and the title follows.
     */
    method OnDialRotate(sink: Sink)
      requires Valid()
      modifies this`currentIndex, sink
      ensures Valid()
      ensures |containers| == 0 ==> currentIndex == old(currentIndex) && sink.ui == old(sink.ui)
      ensures |containers| > 0 ==>
        && currentIndex == Rotate(old(currentIndex), |containers|)
        && currentIndex < |containers|
        && sink.ui == old(sink.ui) + [SetTitle(DisplayName(containers, currentIndex))]
      ensures sink.calls == old(sink.calls)
    {
      if |containers| == 0 {
        return;
      }
      currentIndex := currentIndex + 1;
      if currentIndex >= |containers| {
        currentIndex := 0;
      }
      UpdateContainerName(sink);
    }

    /**
     * `onDialDown`. Nothing happens when Docker is down, when the selection
     * lies past the list (the handler throws on the missing entry) or when the
     * selected name is empty. Otherwise the container's state is read and it
     * is toggled; a command that rejects ends the handler. Only after
     * the commands succeed does a new refresh interval start, and it replaces
     * `updateInterval` without stopping the interval that was there.
     */
    method OnDialDown(sink: Sink, dockerIsUp: bool, state: Option<string>, rejects: set<DockerCall>)
      requires Valid()
      modifies this`updateInterval, this`live, this`next, sink
      ensures Valid()
      ensures sink.ui == old(sink.ui)
      ensures !dockerIsUp || currentIndex >= |containers| || EntryName(containers[currentIndex]) == "" ==>
        sink.calls == old(sink.calls) && updateInterval == old(updateInterval) && live == old(live) && next == old(next)
      ensures dockerIsUp && currentIndex < |containers| && EntryName(containers[currentIndex]) != "" ==>
        var name := EntryName(containers[currentIndex]);
        var cmds := PressCommands(name, state, rejects);
        && sink.calls == old(sink.calls) + [Inspect(name)] + cmds
        && (cmds[|cmds| - 1] in rejects ==> updateInterval == old(updateInterval) && live == old(live) && next == old(next))
        && (cmds[|cmds| - 1] !in rejects ==>
              updateInterval == Some(old(next)) && live == old(live) + {old(next)} && next == old(next) + 1)
    {
      if !dockerIsUp || currentIndex >= |containers| {
        return;
      }
      var name := EntryName(containers[currentIndex]);
      if name == "" {
        return;
      }
      sink.Issue(Inspect(name));
      if state == Some(CONTAINER_STATUS_RUNNING) {
        sink.Issue(Stop(name));
        if Stop(name) in rejects {
          return;
        }
        sink.Issue(Wait(name));
        if Wait(name) in rejects {
          return;
        }
      } else {
        sink.Issue(Start(name));
        if Start(name) in rejects {
          return;
        }
      }
      StartInterval();
    }

    /**
     * `updateContainerState`, the body of the refresh interval. The name, which
     * is undefined when the interval of `onWillAppear` finds the selection past
     * the end of the list, is logged first. With Docker up and an empty list,
     * the list is reloaded and the name shown, and the state read is the newly
     * selected container's (the handler throws when there is none, or when the
     * listing rejects). With a non-empty list an undefined name throws at
     * `toString` before any command. Otherwise the dial's icon shows whether
     * that container runs.
     */
    method UpdateContainerState(sink: Sink, containerName: Option<string>, dockerIsUp: bool,
                                listing: Option<seq<PsItem>>, state: Option<string>)
      requires Valid()
      modifies this`containers, sink
      ensures Valid()
      ensures var logged := old(sink.ui) + [LogInfo(UPDATING_MESSAGE + Printed(containerName))];
        && (!dockerIsUp ==> containers == old(containers) && sink.calls == old(sink.calls) && sink.ui == logged)
        && (dockerIsUp && |old(containers)| > 0 && containerName.None? ==>
              containers == old(containers) && sink.calls == old(sink.calls) && sink.ui == logged)
        && (dockerIsUp && |old(containers)| > 0 && containerName.Some? ==>
              && containers == old(containers)
              && sink.calls == old(sink.calls) + [Inspect(containerName.value)]
              && sink.ui == logged + [SetFeedback(FeedbackIcon(state))])
        && (dockerIsUp && |old(containers)| == 0 && listing.None? ==>
              containers == old(containers) && sink.calls == old(sink.calls) + [Ps(true, [])] && sink.ui == logged)
      ensures dockerIsUp && |old(containers)| == 0 && listing.Some? ==>
        var items := listing.value;
        && containers == Entries(items)
        && var shown := old(sink.ui) + [LogInfo(UPDATING_MESSAGE + Printed(containerName)), SetTitle(DisplayName(containers, currentIndex))];
        && (currentIndex >= |items| ==> sink.calls == old(sink.calls) + [Ps(true, [])] && sink.ui == shown)
        && (currentIndex < |items| ==>
              sink.calls == old(sink.calls) + [Ps(true, []), Inspect(items[currentIndex].name)]
              && sink.ui == shown + [SetFeedback(FeedbackIcon(state))])
    {
      sink.Show(LogInfo(UPDATING_MESSAGE + Printed(containerName)));
      if !dockerIsUp {
        return;
      }
      var name := containerName;
      if |containers| == 0 {
        UpdateContainersList(sink, listing);
        if listing.None? {
          return;
        }
        UpdateContainerName(sink);
        if currentIndex < |containers| {
          DisplayRecoversName(listing.value, currentIndex);
        }
        name := SelectedName(containers, currentIndex);
      }
      if name.None? {
        return;
      }
      sink.Issue(Inspect(name.value));
      sink.Show(SetFeedback(FeedbackIcon(state)));
    }
  }

  /**
   * Pressing the dial twice with every command succeeding leaves two
   * refresh intervals running although the action remembers only one.
   */
  method TwoPressesLeaveTwoIntervals(sink: Sink, items: seq<PsItem>) returns (d: Dial)
    requires |items| >= 1 && items[0].name != ""
    modifies sink
    ensures d.Valid() && |d.live| == 2 && d.updateInterval.Some?
  {
    d := new Dial();
    d.UpdateContainersList(sink, Some(items));
    DisplayRecoversName(items, 0);
    d.OnDialDown(sink, true, None, {});
    d.OnDialDown(sink, true, None, {});
    assert d.live == {0, 1};
  }
}
