/**
 * `docker-run-or-rm.ts`: a key that creates a container from an image when
 * it does not exist and force-removes it when it does. The answers of
 * `pingDocker` and `getContainerState` are inputs; the commands issued and
 * what the key shows go to a `Sink`.
 */
module DockerRunOrRm {
  import opened Wrappers
  import opened DockerCli
  import opened Ui

  const NO_IMAGE_MESSAGE := "No image name specified."
  const NO_CONTAINER_MESSAGE := "No container name specified."
  const HANDLING_ERROR_PREFIX := "Error handling container: "

  /** The command a press issues once `inspect` answered: remove what exists, run what does not. */
  function PressCommand(image: string, name: string, state: Option<string>): (c: DockerCall)
    ensures c.Remove? || c.RunDetached?
    ensures c.Remove? <==> Named(state)
    ensures c.Remove? ==> c.name == name
    ensures c.RunDetached? ==> c.image == image && c.name == name
  {
    if Named(state) then Remove(name) else RunDetached(image, name)
  }

  /** A press that removes leaves a key that shows the container absent, and one that runs the opposite. */
  lemma PressFlipsShownState(image: string, name: string, state: Option<string>)
    ensures PressCommand(image, name, state).Remove? <==> KeyState(state) == 0
    ensures PressCommand(image, name, state).RunDetached? <==> KeyState(state) == 1
  {
  }

  /**
   * `onKeyDown`. The image name is checked first, then the container name;
   * either missing is logged and nothing is issued. Otherwise `inspect`
   * decides between `rm -f` and `run -d`, and a command's failure
   * (`failure`, its message) is logged rather than propagated.
   */
  method OnKeyDown(sink: Sink, imageName: Option<string>, containerName: Option<string>,
                   state: Option<string>, failure: Option<string>)
    modifies sink
    ensures !Named(imageName) ==> sink.calls == old(sink.calls) && sink.ui == old(sink.ui) + [LogError(NO_IMAGE_MESSAGE)]
    ensures Named(imageName) && !Named(containerName) ==>
      sink.calls == old(sink.calls) && sink.ui == old(sink.ui) + [LogError(NO_CONTAINER_MESSAGE)]
    ensures Named(imageName) && Named(containerName) ==>
      var name := containerName.value;
      && sink.calls == old(sink.calls) + [Inspect(name), PressCommand(imageName.value, name, state)]
      && sink.ui == old(sink.ui) + (if failure.Some? then [LogError(HANDLING_ERROR_PREFIX + failure.value)] else [])
  {
    if !Named(imageName) {
      sink.Show(LogError(NO_IMAGE_MESSAGE));
      return;
    }
    if !Named(containerName) {
      sink.Show(LogError(NO_CONTAINER_MESSAGE));
      return;
    }
    var name := containerName.value;
    sink.Issue(Inspect(name));
    if Named(state) {
      sink.Issue(Remove(name));
    } else {
      sink.Issue(RunDetached(imageName.value, name));
    }
    if failure.Some? {
      sink.Show(LogError(HANDLING_ERROR_PREFIX + failure.value));
    }
  }

  /** `st ? 0 : 1`: the key shows 0 exactly when `inspect` found the container. */
  function KeyState(state: Option<string>): (index: nat)
    ensures index == 0 <==> Named(state)
    ensures index == 1 <==> !Named(state)
  {
    if Named(state) then 0 else 1
  }

  /**
   * `updateDockerState`: with Docker up, the container is inspected (when
   * the settings name one) and the key shows whether it exists.
   */
  method UpdateDockerState(sink: Sink, dockerIsUp: bool, containerName: Option<string>, state: Option<string>)
    modifies sink
    ensures !dockerIsUp ==> sink.calls == old(sink.calls) && sink.ui == old(sink.ui)
    ensures dockerIsUp ==>
      && sink.calls == old(sink.calls) + (if containerName.Some? then [Inspect(containerName.value)] else [])
      && sink.ui == old(sink.ui) + [SetState(KeyState(if containerName.Some? then state else None))]
  {
    if !dockerIsUp {
      return;
    }
    var st: Option<string> := None;
    if containerName.Some? {
      sink.Issue(Inspect(containerName.value));
      st := state;
    }
    sink.Show(SetState(KeyState(st)));
  }
}
