/**
 * `docker-stack-start.ts`: a key that starts or stops the containers of one
 * compose or Swarm stack and shows whether all of them run. The members come
 * from `containersByComposeProject`, whose two listings are answered by
 * parameters; the commands issued and what the key shows go to a `Sink`. Each stop, wait and start swallows its own failure,
 * so every member is processed whatever the daemon answers.
 */
module DockerStackStart {
  import opened Wrappers
  import opened DockerCli
  import opened Ui

  const NO_STACK_MESSAGE := "No stack selected."
  const NO_STACK_TITLE := "No\nStack"
  const NOT_FOUND_TITLE := "Not\nFound"

  predicate IsRunning(c: PsItem) {
    c.state == Some(CONTAINER_STATUS_RUNNING)
  }

  /** `containers.every((c) => c.state === CONTAINER_STATUS_RUNNING)` */
  predicate AllRunning(members: seq<PsItem>) {
    forall i :: 0 <= i < |members| ==> IsRunning(members[i])
  }

  /** A stop and then a wait for every member, in order. */
  function StopAll(members: seq<PsItem>): (r: seq<DockerCall>)
    ensures |r| == 2 * |members|
    ensures forall i :: 0 <= i < |members| ==> r[2 * i] == Stop(members[i].name) && r[2 * i + 1] == Wait(members[i].name)
  {
    if members == [] then []
    else StopAll(members[..|members| - 1]) + [Stop(members[|members| - 1].name), Wait(members[|members| - 1].name)]
  }

  lemma StopAllSnoc(members: seq<PsItem>, i: nat)
    requires i < |members|
    ensures StopAll(members[..i + 1]) == StopAll(members[..i]) + [Stop(members[i].name), Wait(members[i].name)]
  {
    assert members[..i + 1][..i] == members[..i];
  }

  /** A start for every member that does not run, in order. */
  function StartIdle(members: seq<PsItem>): (r: seq<DockerCall>)
    ensures |r| <= |members|
    ensures forall c :: c in r ==> c.Start?
  {
    if members == [] then []
    else
      var last := members[|members| - 1];
      StartIdle(members[..|members| - 1]) + (if IsRunning(last) then [] else [Start(last.name)])
  }

  /** A member is started exactly when it is one that does not run. */
  lemma {:induction false} StartIdleMembers(members: seq<PsItem>, n: string)
    ensures Start(n) in StartIdle(members) <==> exists i :: 0 <= i < |members| && members[i].name == n && !IsRunning(members[i])
  {
    if members != [] {
      var init := members[..|members| - 1];
      StartIdleMembers(init, n);
      assert forall i :: 0 <= i < |init| ==> init[i] == members[i];
    }
  }

  /** When not all members run, at least one is started. */
  lemma {:induction false} StartIdleNonEmpty(members: seq<PsItem>)
    requires !AllRunning(members)
    ensures |StartIdle(members)| >= 1
  {
    var i :| 0 <= i < |members| && !IsRunning(members[i]);
    StartIdleMembers(members, members[i].name);
  }

  /**
   * `containersByComposeProject(stackName, context)` as the handlers await it:
   * the two `ps` listings are issued, in order, and their answers merged.
   */
  method FetchMembers(sink: Sink, project: string, viaCompose: Option<seq<PsItem>>, viaSwarm: Option<seq<PsItem>>)
    returns (members: seq<PsItem>)
    modifies sink
    ensures sink.calls == old(sink.calls) + ProjectListings(project) && sink.ui == old(sink.ui)
    ensures members == MergedMembers(viaCompose, viaSwarm)
  {
    var listings := ProjectListings(project);
    sink.Issue(listings[0]);
    sink.Issue(listings[1]);
    members := ContainersByComposeProject(viaCompose, viaSwarm);
  }

  /**
   * `onKeyDown`. Nothing happens when Docker is down; without a selected
   * stack an error is logged; otherwise the stack's members are listed, a
   * stack without members is shown as not found, a stack whose members all
   * run is stopped member by member, and any other has its idle members started.
   */
  method OnKeyDown(sink: Sink, dockerIsUp: bool, stackName: Option<string>,
                   viaCompose: Option<seq<PsItem>>, viaSwarm: Option<seq<PsItem>>)
    modifies sink
    ensures !dockerIsUp ==> sink.calls == old(sink.calls) && sink.ui == old(sink.ui)
    ensures dockerIsUp && !Named(stackName) ==>
      sink.calls == old(sink.calls) && sink.ui == old(sink.ui) + [LogError(NO_STACK_MESSAGE)]
    ensures dockerIsUp && Named(stackName) && MergedMembers(viaCompose, viaSwarm) == [] ==>
      && sink.calls == old(sink.calls) + ProjectListings(stackName.value)
      && sink.ui == old(sink.ui) + [SetTitle(NOT_FOUND_TITLE)]
    ensures dockerIsUp && Named(stackName) && MergedMembers(viaCompose, viaSwarm) != [] ==>
      var members := MergedMembers(viaCompose, viaSwarm);
      && sink.calls == old(sink.calls) + ProjectListings(stackName.value)
           + (if AllRunning(members) then StopAll(members) else StartIdle(members))
      && sink.ui == old(sink.ui)
  {
    if !dockerIsUp {
      return;
    }
    if !Named(stackName) {
      sink.Show(LogError(NO_STACK_MESSAGE));
      return;
    }
    var members := FetchMembers(sink, stackName.value, viaCompose, viaSwarm);
    if members == [] {
      sink.Show(SetTitle(NOT_FOUND_TITLE));
      return;
    }
    var allRunning := AllRunningLoop(members);
    if allRunning {
      StopMembers(sink, members);
    } else {
      StartMembers(sink, members);
    }
  }

  /** The stopping loop of `onKeyDown`: every member is stopped and then waited for, in order. */
  method StopMembers(sink: Sink, members: seq<PsItem>)
    modifies sink
    ensures sink.calls == old(sink.calls) + StopAll(members) && sink.ui == old(sink.ui)
  {
    var i := 0;
    while i < |members|
      invariant 0 <= i <= |members|
      invariant sink.calls == old(sink.calls) + StopAll(members[..i]) && sink.ui == old(sink.ui)
    {
      StopAllSnoc(members, i);
      StopOne(sink, members[i].name);
      i := i + 1;
    }
    assert members[..i] == members;
  }

  /** One turn of the stopping loop: the member is stopped and then waited for. */
  method StopOne(sink: Sink, name: string)
    modifies sink
    ensures sink.calls == old(sink.calls) + [Stop(name), Wait(name)] && sink.ui == old(sink.ui)
  {
    sink.Issue(Stop(name));
    sink.Issue(Wait(name));
  }

  /** The starting loop of `onKeyDown`: every member that does not run is started, in order. */
  method StartMembers(sink: Sink, members: seq<PsItem>)
    modifies sink
    ensures sink.calls == old(sink.calls) + StartIdle(members) && sink.ui == old(sink.ui)
  {
    var i := 0;
    while i < |members|
      invariant 0 <= i <= |members|
      invariant sink.calls == old(sink.calls) + StartIdle(members[..i]) && sink.ui == old(sink.ui)
    {
      assert members[..i + 1][..i] == members[..i];
      if !IsRunning(members[i]) {
        sink.Issue(Start(members[i].name));
      }
      i := i + 1;
    }
    assert members[..i] == members;
  }

  /** `containers.every(...)`, stopping at the first member that does not run. */
  method AllRunningLoop(members: seq<PsItem>) returns (all: bool)
    ensures all == AllRunning(members)
  {
    var i := 0;
    while i < |members|
      invariant 0 <= i <= |members|
      invariant forall j :: 0 <= j < i ==> IsRunning(members[j])
    {
      if !IsRunning(members[i]) {
        return false;
      }
      i := i + 1;
    }
    return true;
  }

  /** `containers.filter((c) => c.state === CONTAINER_STATUS_RUNNING).length` */
  function RunningCount(members: seq<PsItem>): (n: nat)
    ensures n <= |members|
  {
    if members == [] then 0
    else RunningCount(members[..|members| - 1]) + (if IsRunning(members[|members| - 1]) then 1 else 0)
  }

  /** All members run exactly when the running ones are all of them. */
  lemma {:induction false} RunningCountAll(members: seq<PsItem>)
    ensures RunningCount(members) == |members| <==> AllRunning(members)
  {
    if members != [] {
      var init := members[..|members| - 1];
      RunningCountAll(init);
      assert forall i :: 0 <= i < |init| ==> init[i] == members[i];
    }
  }

  /** The title and state index `updateStackState` shows. */
  function StackView(stackName: Option<string>, members: seq<PsItem>): (v: (string, nat))
    ensures !Named(stackName) ==> v == (NO_STACK_TITLE, 1)
    ensures Named(stackName) && members == [] ==> v == (NOT_FOUND_TITLE, 1)
    ensures Named(stackName) && members != [] ==> v.0 == FormatTitle(stackName.value)
    ensures v.1 == 0 <==> Named(stackName) && members != [] && AllRunning(members)
  {
    if !Named(stackName) then (NO_STACK_TITLE, 1)
    else if members == [] then (NOT_FOUND_TITLE, 1)
    else
      RunningCountAll(members);
      (FormatTitle(stackName.value), if RunningCount(members) == |members| then 0 else 1)
  }

  /**
   * `updateStackState`: with Docker up and a stack selected, the stack's
   * members are listed; with Docker up the key shows `StackView` of them.
   */
  method UpdateStackState(sink: Sink, dockerIsUp: bool, stackName: Option<string>,
                          viaCompose: Option<seq<PsItem>>, viaSwarm: Option<seq<PsItem>>)
    modifies sink
    ensures !dockerIsUp ==> sink.calls == old(sink.calls) && sink.ui == old(sink.ui)
    ensures dockerIsUp && !Named(stackName) ==>
      sink.calls == old(sink.calls) && sink.ui == old(sink.ui) + [SetTitle(NO_STACK_TITLE), SetState(1)]
    ensures dockerIsUp && Named(stackName) ==>
      var v := StackView(stackName, MergedMembers(viaCompose, viaSwarm));
      && sink.calls == old(sink.calls) + ProjectListings(stackName.value)
      && sink.ui == old(sink.ui) + [SetTitle(v.0), SetState(v.1)]
  {
    if !dockerIsUp {
      return;
    }
    var members: seq<PsItem> := [];
    if Named(stackName) {
      members := FetchMembers(sink, stackName.value, viaCompose, viaSwarm);
    }
    var v := StackView(stackName, members);
    sink.Show(SetTitle(v.0));
    sink.Show(SetState(v.1));
  }

  /** A press on a key showing state 0 stops the whole stack; one showing 1 stops nothing. */
  lemma PressFollowsShownState(stackName: Option<string>, members: seq<PsItem>)
    requires Named(stackName) && members != []
    ensures StackView(stackName, members).1 == 0 ==> (AllRunning(members) && |StopAll(members)| == 2 * |members|)
    ensures StackView(stackName, members).1 == 1 ==> |StartIdle(members)| >= 1
  {
    if StackView(stackName, members).1 == 1 {
      StartIdleNonEmpty(members);
    }
  }
}
