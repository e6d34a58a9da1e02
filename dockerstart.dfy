/**
 * `docker-start.ts`: a key that starts or stops one container and shows
 * whether it runs. The answers of the Docker commands the handlers await
 * (`pingDocker`, `getContainerState`, the store snapshot) are inputs; the
 * commands issued and what the key shows go to a `Sink`.
 */
module DockerStart {
  import opened Wrappers
  import opened OrderedMaps
  import opened DockerCli
  import opened Ui

  const NO_CONTAINER_MESSAGE := "Container not found in key."
  const NOT_FOUND_TITLE := "Not\nFound"

  /**
   * The commands a key press issues once the container's state is known: a
   * running container is stopped and then waited for (unless the stop
   * rejects); any other is started, or scaled to one replica when it is a
   * task of a Swarm service. `rejects` are the commands that fail.
   */
  function PressCommands(name: string, state: string, swarmService: Option<string>, rejects: set<DockerCall>): (r: seq<DockerCall>)
    ensures state == CONTAINER_STATUS_RUNNING ==> r == if Stop(name) in rejects then [Stop(name)] else [Stop(name), Wait(name)]
    ensures state != CONTAINER_STATUS_RUNNING && Named(swarmService) ==> r == [ServiceScale(swarmService.value, 1)]
    ensures state != CONTAINER_STATUS_RUNNING && !Named(swarmService) ==> r == [Start(name)]
  {
    if state == CONTAINER_STATUS_RUNNING then
      if Stop(name) in rejects then [Stop(name)] else [Stop(name), Wait(name)]
    else if Named(swarmService) then [ServiceScale(swarmService.value, 1)]
    else [Start(name)]
  }

  /** A press stops the container exactly when the key shows it running. */
  lemma PressFollowsShownState(name: string, state: string, swarmService: Option<string>, rejects: set<DockerCall>)
    ensures PressCommands(name, state, swarmService, rejects)[0] == Stop(name) <==> RunningIndex(Some(state)) == 0
  {
  }

  /** A press never starts a running container nor stops one that does not run. */
  lemma PressToggles(name: string, state: string, swarmService: Option<string>, rejects: set<DockerCall>)
    ensures var r := PressCommands(name, state, swarmService, rejects);
      (state == CONTAINER_STATUS_RUNNING ==> forall c :: c in r ==> !c.Start? && !c.ServiceScale?)
      && (state != CONTAINER_STATUS_RUNNING ==> forall c :: c in r ==> !c.Stop? && !c.Wait?)
  {
  }

  /**
   * `onKeyDown`. Nothing happens when Docker is down. Otherwise the key's
   * interval stops; without a container name an error is logged; a container
   * that `inspect` does not know is shown as not found; any other is toggled
   * by `PressCommands` and the interval restarts.
   */
  method OnKeyDown(sink: Sink, timers: Intervals, instanceId: string, containerName: Option<string>,
                   dockerIsUp: bool, state: Option<string>, swarmService: Option<string>, rejects: set<DockerCall>)
    requires timers.Valid()
    modifies sink, timers
    ensures timers.Valid()
    ensures !dockerIsUp ==> sink.calls == old(sink.calls) && sink.ui == old(sink.ui) && timers.handles == old(timers.handles)
    ensures dockerIsUp && !Named(containerName) ==>
      && sink.calls == old(sink.calls) && sink.ui == old(sink.ui) + [LogError(NO_CONTAINER_MESSAGE)]
      && timers.handles == old(timers.handles) - {instanceId}
    ensures dockerIsUp && Named(containerName) && !Named(state) ==>
      && sink.calls == old(sink.calls) + [Inspect(containerName.value)]
      && sink.ui == old(sink.ui) + [SetTitle(NOT_FOUND_TITLE)]
      && timers.handles == old(timers.handles) - {instanceId}
    ensures dockerIsUp && Named(containerName) && Named(state) ==>
      var name := containerName.value;
      var cmds := PressCommands(name, state.value, swarmService, rejects);
      && sink.calls == old(sink.calls) + [Inspect(name)] + cmds
      && sink.ui == old(sink.ui) + (if cmds[|cmds| - 1] in rejects then [LogError(FailureMessage(cmds[0], name))] else [])
      && instanceId in timers.handles && timers.handles[instanceId] !in old(timers.live)
      && timers.handles == old(timers.handles)[instanceId := timers.handles[instanceId]]
  {
    if !dockerIsUp {
      return;
    }
    timers.ClearIntervalFor(instanceId);
    if !Named(containerName) {
      sink.Show(LogError(NO_CONTAINER_MESSAGE));
      return;
    }
    var name := containerName.value;
    sink.Issue(Inspect(name));
    if !Named(state) {
      sink.Show(SetTitle(NOT_FOUND_TITLE));
      return;
    }
    Toggle(sink, name, state.value, swarmService, rejects);
    var _ := timers.SetIntervalFor(instanceId);
  }

  /** The `try` block of `onKeyDown`: the press's commands, and the error logged when the last one rejects. */
  method Toggle(sink: Sink, name: string, state: string, swarmService: Option<string>, rejects: set<DockerCall>)
    modifies sink
    ensures var cmds := PressCommands(name, state, swarmService, rejects);
      && sink.calls == old(sink.calls) + cmds
      && sink.ui == old(sink.ui) + (if cmds[|cmds| - 1] in rejects then [LogError(FailureMessage(cmds[0], name))] else [])
  {
    if state == CONTAINER_STATUS_RUNNING {
      // try { await stop; await wait } catch { log }
      sink.Issue(Stop(name));
      if Stop(name) in rejects {
        sink.Show(LogError(FailureMessage(Stop(name), name)));
      } else {
        sink.Issue(Wait(name));
        if Wait(name) in rejects {
          sink.Show(LogError(FailureMessage(Stop(name), name)));
        }
      }
    } else {
      var cmd := if Named(swarmService) then ServiceScale(swarmService.value, 1) else Start(name);
      sink.Issue(cmd);
      if cmd in rejects {
        sink.Show(LogError(FailureMessage(cmd, name)));
      }
    }
  }

  /** The error logged when the stop (or the wait after it), or the start, rejects. */
  function FailureMessage(first: DockerCall, name: string): string {
    (if first.Stop? then "Error stopping " else "Error starting ") + name
  }

  /**
   * `updateContainerState`: with Docker up, the title is the formatted name
   * and, on a key, the state index comes from the store snapshot's state, or
   * from `inspect` (issued only then) when the snapshot has none.
   */
  method UpdateContainerState(sink: Sink, containerName: string, dockerIsUp: bool, isKey: bool,
                              snapshotState: Option<string>, inspected: Option<string>)
    modifies sink
    ensures !dockerIsUp ==> sink.calls == old(sink.calls) && sink.ui == old(sink.ui)
    ensures dockerIsUp ==>
      var st := if Named(snapshotState) then snapshotState else inspected;
      && sink.calls == old(sink.calls) + (if Named(snapshotState) then [] else [Inspect(containerName)])
      && sink.ui == old(sink.ui) + [SetTitle(FormatTitle(containerName))] + (if isKey then [SetState(RunningIndex(st))] else [])
  {
    if !dockerIsUp {
      return;
    }
    sink.Show(SetTitle(FormatTitle(containerName)));
    var st := snapshotState;
    if !Named(st) {
      sink.Issue(Inspect(containerName));
      st := inspected;
    }
    if isKey {
      sink.Show(SetState(RunningIndex(st)));
    }
  }

  /**
   * The container-store subscriber of `onWillAppear`: a key with a container
   * name that the new snapshot holds shows the formatted name and its state.
   */
  method OnContainers(sink: Sink, containerName: Option<string>, snapshot: JsMap<string, PsItem>, isKey: bool)
    modifies sink
    ensures sink.calls == old(sink.calls)
    ensures !(Named(containerName) && containerName.value in snapshot.vals) ==> sink.ui == old(sink.ui)
    ensures Named(containerName) && containerName.value in snapshot.vals ==>
      var cn := containerName.value;
      sink.ui == old(sink.ui) + [SetTitle(FormatTitle(cn))]
        + (if isKey then [SetState(RunningIndex(snapshot.vals[cn].state))] else [])
  {
    if !Named(containerName) {
      return;
    }
    var cn := containerName.value;
    var it := snapshot.Get(cn);
    if it.Some? {
      sink.Show(SetTitle(FormatTitle(cn)));
      if isKey {
        sink.Show(SetState(RunningIndex(it.value.state)));
      }
    }
  }
}
