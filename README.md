# streamdeck-docker — a verified model of the plugin core

The Stream Deck Docker plugin drives the `docker` command line from keys and
dials. Keys can start or stop a container or a compose/Swarm stack, count
containers, or run and remove a container. A dial walks through the
containers. This project models the logic behind those actions, in Dafny.

- **Command scheduler** (`CliScheduler`). A global limit on concurrent
  `docker` processes, with a FIFO list of waiters. Each context has three
  FIFO lanes (urgent, high, normal), drained one task at a time. The
  promises and the event loop are explicit steps: `ScheduleInContext`,
  `RunImmediate` (that is, `runNextInContext`) and `Finish`. The `ping`
  cache with its time-to-live is here too.
- **Argument builders and output parsers** (`DockerCli`): `ps`, `images`,
  the stack-name union, the merge by name, `service ls`.
- **Change-detecting stores.**
  - `Stores.Registry`: the container store and the stacks store, which
    feeds on it through a synchronous internal subscription.
  - `ContextHealth.HealthMonitors`: the per-context up/down monitor.
  - `ContextsStore.Contexts`: the singleton store of Docker contexts.
  - Each store is created by its first subscriber and destroyed by its last
    one. A poll is split into `TickStart` (up to the `await`) and
    `TickFinish` (with the listing). Each subscriber call is appended to a
    log together with the snapshot it received.
- **Context resolution** (`EffectiveContext`, `DockerContext`).
- **The five actions** (`DockerStart`, `DockerStackStart`,
  `DockerSelectToggle`, `ContainersCount`, `DockerRunOrRm`).
  - An action's decisions go to a `Ui.Sink`: the Docker commands it
    issues, in order, and the titles, state indices, dial icons and log
    lines it shows.
  - The per-instance refresh intervals are `Ui.Intervals`.
  - What the awaited commands answer (ping, `inspect`, listings) and which
    commands reject are parameters. A listing that rejects is `None`.

Two behaviours of the code are kept as written and stated in contracts:

- After a task ends, the scheduler posts a continuation only when the high
  or normal lane is non-empty. An urgent task queued alone behind a running
  one is left waiting (`CliScheduler.StrandedUrgentScenario`).
- The dial's `onDialDown` overwrites `updateInterval` without clearing the
  interval already there. Two presses leave two intervals running
  (`DockerSelectToggle.TwoPressesLeaveTwoIntervals`).

Object identity matters where a store is deleted and re-created while a
poll is in flight. Each container store and health monitor carries a
generation number, so a poll that finishes for a stale generation changes
nothing. This is what the detached object in the code amounts to. The
contexts store reads the module-level `state` again after its `await`, so
there the finish step works on whatever state is current.

JavaScript's `Map` keeps insertion order, and the order of subscriber calls
depends on it. `OrderedMaps.JsMap` models it: a key list without duplicates
plus a map. `Set` on a present key keeps that key's position.

## Model

| member | source | states |
|---|---|---|
| CliScheduler.EnvOr | src/utils/dockerCli.ts:10 | an unset or empty environment variable gives the fallback, any other value is kept |
| CliScheduler.MaxGlobalConcurrency | src/utils/dockerCli.ts:10 | the limit is `parseInt` of the variable or of "5"; NaN gives 0 |
| CliScheduler.PingTtl | src/utils/dockerCli.ts:104 | a set variable is read with `parseInt` |
| CliScheduler.DefaultConcurrency | src/utils/dockerCli.ts:10 | unset, the limit is 5 |
| CliScheduler.DefaultPingTtl | src/utils/dockerCli.ts:104 | unset, the time-to-live is 5000 ms |
| CliScheduler.Push | src/utils/dockerCli.ts:76-78 | a task joins the end of its priority's lane; the other lanes and `running` are unchanged |
| CliScheduler.Shift | src/utils/dockerCli.ts:45-46 | nothing is taken from an empty context, otherwise one task, and the running flag is untouched |
| CliScheduler.ShiftTakesFirst | src/utils/dockerCli.ts:45-46 | the task taken is the first in urgent-high-normal order; exactly that task leaves the queue |
| CliScheduler.DrainIsLaneOrder | src/utils/dockerCli.ts:45-46 | taking tasks until none is left yields all urgent tasks, then all high, then all normal, each lane in arrival order |
| CliScheduler.ArrivalOrderDoesNotDecide | src/utils/dockerCli.ts:45-46 | normal, high and urgent tasks enqueued in that order run urgent first, normal last |
| CliScheduler.UrgentAloneIsNotContinued | src/utils/dockerCli.ts:59-64 | a context holding only urgent tasks gets no continuation after a task ends, although tasks are queued |
| CliScheduler.Scheduler.constructor | src/utils/dockerCli.ts:10-12 | no slot held, no waiter, no queue |
| CliScheduler.Scheduler.ScheduleInContext | src/utils/dockerCli.ts:68-84 | the context's lanes are created when missing; the task joins its lane; an immediate is posted for the context; the slots are untouched |
| CliScheduler.Scheduler.RunDocker | src/utils/dockerCli.ts:86-100 | the task runs `FinalArgs` of the arguments; it is queued under `QueueKey` of the context, with priority normal by default |
| CliScheduler.Scheduler.AcquireGlobal | src/utils/dockerCli.ts:14-25 | with a slot free the counter rises by one; otherwise the context joins the end of the waiters |
| CliScheduler.Scheduler.RunNextInContext | src/utils/dockerCli.ts:41-49 | an unknown, running or empty context is left as it is; otherwise the next task is taken, the context is marked running, and the task gets a slot or waits |
| CliScheduler.Scheduler.RunImmediate | src/utils/dockerCli.ts:80-82 | the oldest posted immediate runs `runNextInContext` for its context |
| CliScheduler.Scheduler.ReleaseGlobal | src/utils/dockerCli.ts:27-31 | without waiters the counter falls by one (never below 0); with waiters the slot passes to the oldest one and the counter stays |
| CliScheduler.Scheduler.Finish | src/utils/dockerCli.ts:50-65 | success and failure alike: only this task's promise is settled, with its outcome; the slot is released (to the oldest waiter if any); `running` is cleared; a continuation is posted iff the high or normal lane is non-empty |
| CliScheduler.Scheduler.MarkIdle | src/utils/dockerCli.ts:57 | the context no longer holds a task |
| CliScheduler.Scheduler.GlobalCap | src/utils/dockerCli.ts:14-31 | under the invariant, at most the limit of processes run across all contexts, and at most one per context |
| CliScheduler.ServeAlone | src/utils/dockerCli.ts:41-65 | one context alone with a free slot: its next task runs and settles with its outcome, and a continuation is posted iff high or normal tasks remain |
| CliScheduler.EnqueueThree | src/utils/dockerCli.ts:68-84 | three tasks enqueued in an idle context sit in their lanes with three immediates posted |
| CliScheduler.RunPosted | src/utils/dockerCli.ts:41-49 | the first immediate takes the urgent task; the two others find the context running and do nothing |
| CliScheduler.PriorityOrderScenario | src/utils/dockerCli.ts:41-84 | normal, high and urgent tasks scheduled in that order settle in the order urgent, high, normal |
| CliScheduler.StrandedUrgentScenario | src/utils/dockerCli.ts:59-64 | an urgent task queued while another runs stays queued after that one ends, with no immediate posted and the context idle |
| CliScheduler.GlobalWaiterScenario | src/utils/dockerCli.ts:14-31 | with one slot, a second context's task waits and receives the slot when the first task ends |
| CliScheduler.PingCache.constructor | src/utils/dockerCli.ts:103 | the cache starts empty |
| CliScheduler.PingCache.Ping | src/utils/dockerCli.ts:106-112 | a cached entry younger than the time-to-live answers, and the scheduler and the in-flight table are unchanged; otherwise a `version` task with a fresh id joins the key's normal lane, one immediate is posted for the key, the probe is recorded with its key and `now`, and the slots, waiters, taken and settled tasks are unchanged |
| CliScheduler.PingCache.PingSettled | src/utils/dockerCli.ts:112-118 | for a probe in flight whose task has settled, the verdict is whether that task succeeded; it is cached under the probe's key with the `now` of its `ping`, for success and failure alike, and the probe leaves the in-flight table |
| CliScheduler.SettledOutcome | src/utils/dockerCli.ts:111-117 | present iff the task has settled, and then an outcome recorded for that task |
| CliScheduler.PingTwiceScenario | src/utils/dockerCli.ts:106-118 | a first ping probes, its task runs and settles through the scheduler, and a second ping within the time-to-live reuses that verdict; one probe in all |
| DockerCli.QueueKey | src/utils/dockerCli.ts:90 | a named context is its own key; otherwise the key is `<default>` |
| DockerCli.FinalArgs | src/utils/dockerCli.ts:87-89 | two arguments longer exactly when the context is named |
| DockerCli.FinalArgsRoundTrip | src/utils/dockerCli.ts:87-89 | reading a leading `--context` back gives the named context (or none) and the original arguments |
| DockerCli.QueueKeySharedIffSameEndpoint | src/utils/dockerCli.ts:90 | two contexts share a queue iff both are unnamed or both name the same context |
| DockerCli.FilterFlags | src/utils/dockerCli.ts:125 | each filter becomes `--filter` followed by the filter, in order |
| DockerCli.NonEmptyOnly | src/utils/dockerCli.ts:125-127 | `.filter(Boolean)` keeps no empty string and never lengthens the list |
| DockerCli.NonEmptyOnlyAppend | src/utils/dockerCli.ts:125-127 | the filter distributes over concatenation |
| DockerCli.PsArgsShape | src/utils/dockerCli.ts:124-127 | with non-empty filters, the `ps` arguments are `ps`, `-a` when listing all, the filter flags, then the format |
| DockerCli.PriorityOf | src/utils/dockerCli.ts:123-174 | start and stop are urgent; the listings (`ps`, `compose ls`, `stack ls`) are high; everything else is normal |
| DockerCli.ScaleArgumentReadsBack | src/utils/dockerCli.ts:258-260 | the `name=replicas` argument splits back into the service and the replica count |
| DockerCli.ContainerState | src/utils/dockerCli.ts:144-151 | a failed `inspect` gives undefined; otherwise the trimmed output |
| DockerCli.NonBlankMembers | src/utils/dockerCli.ts:130-131 | a line is kept iff it is one of the lines and not blank |
| DockerCli.TrimmedLines | src/utils/dockerCli.ts:175-178 | never more names than lines; every one kept is trimmed, non-empty and not the dropped value |
| DockerCli.TrimmedLinesMembers | src/utils/dockerCli.ts:175-178 | a string survives the trim-and-filter pipeline iff it is a trimmed line that is neither empty nor the dropped value |
| DockerCli.ParsePsLine | src/utils/dockerCli.ts:132-139 | the name is the first tab field; the state is defined iff the line has a tab, and is then the second field; the labels are defined only with a non-empty third field, and with one they are what `JSON.parse` makes of it |
| DockerCli.ParsePsLineOfFormat | src/utils/dockerCli.ts:124-139 | a line printed in the `ps` format reads back as its name, state and labels; an empty labels field gives undefined labels |
| DockerCli.SplitHasMoreIff | src/utils/dockerCli.ts:132 | a line splits into two or more tab fields iff it holds a tab |
| DockerCli.ListContainers | src/utils/dockerCli.ts:123-142 | one item per non-blank line of the `\r?\n` split, in order, each `ParsePsLine` of its line |
| DockerCli.ListImages | src/utils/dockerCli.ts:173-179 | no listed image is empty or `<none>:<none>` |
| DockerCli.ListImagesMembers | src/utils/dockerCli.ts:175-178 | an image is listed iff it is a trimmed output line other than empty and `<none>:<none>` |
| DockerCli.ByNameLast | src/utils/dockerCli.ts:216-217 | a name is in the merged map iff some item has it; its value is the last such item |
| DockerCli.LastNamed | src/utils/dockerCli.ts:216-217 | the index found holds the name and no later item has it; -1 when none has it |
| DockerCli.LastNamedFound | src/utils/dockerCli.ts:216-217 | the item kept for a name is at or after every item of that name |
| DockerCli.IndexByName | src/utils/dockerCli.ts:216-217 | the loop builds exactly the map keyed by name |
| DockerCli.NameIsKey | src/utils/dockerCli.ts:217 | the value stored under a name carries that name |
| DockerCli.ContainersByComposeProject | src/utils/dockerCli.ts:207-219 | a failed listing counts as empty; the members are the values of the name index over the compose listing followed by the stack listing: every listed name once, each member the last item listed under its name, in the order in which names are first listed |
| DockerCli.ProjectListingsArgs | src/utils/dockerCli.ts:209-214 | the two listings are `ps -a` with one label filter each, compose project first and stack namespace second, in the `ps` format |
| DockerCli.FirstNames | src/utils/dockerCli.ts:216-218 | each name once |
| DockerCli.FirstNamesPrefix | src/utils/dockerCli.ts:216-218 | listing more items never reorders the names already seen |
| DockerCli.ByNameOrder | src/utils/dockerCli.ts:216-218 | the map's iteration order is the order in which names are first set |
| DockerCli.MembersInFirstOrder | src/utils/dockerCli.ts:216-218 | the k-th member carries the k-th first-listed name |
| DockerCli.ComposeMembersFirst | src/utils/dockerCli.ts:217 | the names of the compose listing come first, in their own order |
| DockerCli.InsertSorted | src/utils/dockerCli.ts:204 | inserting into a strictly sorted list keeps it strictly sorted and adds exactly the element |
| DockerCli.SortNames | src/utils/dockerCli.ts:204 | the sorted array is strictly sorted and holds exactly the set |
| DockerCli.ListComposeProjects | src/utils/dockerCli.ts:181-205 | strictly sorted, no duplicates; a name is listed iff it is a non-empty compose or stack label of a container, or a `compose ls` name, or a `stack ls` line; a failed `compose ls` or `stack ls` adds nothing |
| DockerCli.DesiredReplicas | src/utils/dockerCli.ts:244-249 | without a `/` no desired count; otherwise `parseInt` of the part after the first `/` |
| DockerCli.ParseServiceLine | src/utils/dockerCli.ts:240-250 | the name is the first tab field; the mode is defined iff the line has a tab, and is then the second field; the desired count is defined only when a third field holds a `/`, and with one it is `parseInt` of the part after the first `/` |
| DockerCli.ParseServiceLineOfFormat | src/utils/dockerCli.ts:234-250 | a line printed in the `service ls` format, with replicas `current/desired`, reads back its name, mode and desired count |
| DockerCli.ListSwarmServicesInStack | src/utils/dockerCli.ts:224-256 | a failed command gives no service; otherwise one service per non-blank line, in order |
| DockerCli.ServicesPerLine | src/utils/dockerCli.ts:240-251 | the k-th service is parsed from the k-th non-blank line |
| DockerCli.IsSwarmStack | src/utils/dockerCli.ts:262-265 | true iff `service ls` succeeded with at least one non-blank line |
| Text.Trim | src/utils/dockerCli.ts:147 | never longer than the string, and the result neither starts nor ends with JavaScript white space |
| Text.TrimIsSlice | src/utils/dockerCli.ts:147 | what `trim()` keeps is the slice of the string that follows its leading white space |
| Text.TrimDropsWhitespace | src/utils/dockerCli.ts:147 | only white space comes before and after the kept slice: nothing else is removed |
| Text.TrimUnfolds | src/utils/dockerCli.ts:147 | trimming is `trimStart` followed by `trimEnd` |
| Text.TrimStart | src/utils/dockerCli.ts:247 | a suffix of the string, preceded only by white space and not starting with any |
| Text.TrimEnd | src/utils/dockerCli.ts:147 | a prefix of the string, followed only by white space and not ending with any |
| Text.TrimIdempotent | src/utils/dockerCli.ts:147 | trimming twice is trimming once |
| Text.SplitLines | src/utils/dockerCli.ts:130 | the lines are the `\n`-pieces, each but the last without one trailing `\r`; the last piece, a final `\r` included, stays as it is; no line holds a `\n` |
| Text.SplitLinesSingle | src/utils/dockerCli.ts:130 | a text without a line feed is one line, a final carriage return included |
| Text.SplitLinesCrLf | src/utils/dockerCli.ts:130 | a line ended by `\r\n` is split off without its `\r` |
| Text.SplitLinesLf | src/utils/dockerCli.ts:130 | a line ended by a bare `\n` is split off as it stands |
| Text.SplitLinesOfJoin | src/utils/dockerCli.ts:130 | lines joined by `\n`, none but the last ending in `\r`, split back into the lines |
| Text.Split | src/utils/dockerCli.ts:132 | at least one field, and no field holds the separator |
| Text.SplitOfJoin | src/utils/dockerCli.ts:132 | splitting fields joined by a separator they do not hold gives the fields back |
| Text.TrimEmptyIffBlank | src/utils/dockerCli.ts:131 | a line trims to empty iff it is all white space |
| Text.JoinSplit | src/actions/docker-start.ts:222 | joining the pieces of a split with the separator gives back the string |
| Text.SplitJoinReplaces | src/actions/docker-start.ts:222 | `split(sep).join(with)` replaces every separator character and keeps the others |
| Text.ParseInt | src/utils/dockerCli.ts:247 | `parseInt` is NaN iff no digit follows the white space and the optional sign |
| Text.ParseIntOfNatToString | src/utils/dockerCli.ts:259 | `parseInt` reads back the decimal rendering of every count |
| ContainerStore.KeyFor | src/utils/containerStore.ts:14-16 | a store key is never empty |
| ContainerStore.ContextOfKey | src/utils/containerStore.ts:23 | only `__local__` maps to the undefined context |
| ContainerStore.PollsOwnContext | src/utils/containerStore.ts:14-23 | a store polls the context it was keyed by; unnamed contexts and a context literally named `__local__` poll the local daemon |
| ContainerStore.KeyOfPolledContext | src/utils/containerStore.ts:14-23 | every non-empty key is the key of the context its store polls |
| ContainerStore.LocalNameCollides | src/utils/containerStore.ts:14-16 | undefined, empty and `__local__` contexts share one store |
| ContainerStore.DetectChange | src/utils/containerStore.ts:28-39 | the loop with `break` decides exactly `Differs`: the sizes differ, or some new name is missing from the old snapshot or has another state |
| ContainerStore.DiffersIff | src/utils/containerStore.ts:28-39 | no change iff the same names with the same states; labels are not compared |
| StacksStore.StackName | src/utils/stacksStore.ts:24-26 | a container's stack is its compose label, else its namespace label; no such label, no stack |
| StacksStore.Tally | src/utils/stacksStore.ts:27-30 | one container adds 1 to its stack's total, and 1 to its running count when it runs; others leave the map unchanged |
| StacksStore.AggregateCounts | src/utils/stacksStore.ts:21-33 | a stack is present iff some container belongs to it; its entry counts exactly its members and its running members |
| StacksStore.RunningAtMostTotal | src/utils/stacksStore.ts:27-30 | a stack never has more running members than members |
| StacksStore.AggregateBounds | src/utils/stacksStore.ts:27-30 | every stack has 1 <= total and running <= total |
| StacksStore.AggregateStacks | src/utils/stacksStore.ts:21-33 | the loop over the containers computes exactly `Aggregate` of their values |
| StacksStore.AreEqual | src/utils/stacksStore.ts:35-42 | the early-exit loop decides exactly `SameCounts` |
| StacksStore.SameCountsIff | src/utils/stacksStore.ts:35-42 | equal iff the same stack names with the same running and total counts |
| Stores.NewStore | src/utils/containerStore.ts:57-64 | a new store has an empty snapshot and is not polling |
| Stores.Detach | src/utils/containerStore.ts:76-85 | removing a subscriber touches no other context's store |
| Stores.StacksNotices | src/utils/stacksStore.ts:59-63 | one call per stacks subscriber |
| Stores.RefeedReflects | src/utils/stacksStore.ts:55-65 | after the internal callback, the stacks snapshot equals the aggregate of the containers it received, subscribers unchanged |
| Stores.FeedKeepsState | src/utils/containerStore.ts:40-45 | replacing a container snapshot and running the stacks feed keeps the registry invariant |
| Stores.SettleKeepsState | src/utils/containerStore.ts:48-50 | resetting `polling` keeps the registry invariant |
| Stores.DropStore | src/utils/containerStore.ts:81-84 | deleting a container store no stacks store feeds on keeps the invariant |
| Stores.AddStacksStore | src/utils/stacksStore.ts:46-69 | a new stacks store with its internal subscription and the aggregated snapshot keeps the invariant |
| Stores.RemoveStacksStore | src/utils/stacksStore.ts:83-87 | dropping a stacks store together with its internal subscription keeps the invariant |
| Stores.Registry.constructor | src/utils/containerStore.ts:12 | no store, no call logged |
| Stores.Registry.ContainersSnapshot | src/utils/containerStore.ts:87-90 | defined iff the context has a store, and then its snapshot |
| Stores.Registry.StacksSnapshot | src/utils/stacksStore.ts:90-93 | defined iff the context has a stacks store, and then its snapshot |
| Stores.Registry.StacksFollowContainers | src/utils/stacksStore.ts:55-68 | a stacks snapshot always holds exactly the stacks of the container snapshot of the same context, with their exact member and running counts |
| Stores.Registry.StoreFor | src/utils/containerStore.ts:55-68 | the existing store, or a new one with a fresh generation |
| Stores.Registry.SubscribeContainers | src/utils/containerStore.ts:53-74 | the first subscriber creates the store; a repeated id replaces its callback; the subscriber is called at once iff the snapshot is non-empty |
| Stores.Registry.UnsubscribeContainers | src/utils/containerStore.ts:76-85 | the id is removed; the last one deletes the store; nothing is logged |
| Stores.Registry.SubscribeStacks | src/utils/stacksStore.ts:44-76 | an existing store gains the subscriber; otherwise a store is created whose snapshot aggregates any container snapshot, with its internal container subscription; called at once iff the snapshot is non-empty |
| Stores.Registry.AddStacksSubscriber | src/utils/stacksStore.ts:70 | the id is set in the stacks store's subscribers |
| Stores.Registry.CreateStacksStore | src/utils/stacksStore.ts:46-69 | the new stacks store, its internal subscription in the container store, and that store created when missing |
| Stores.Registry.UnsubscribeStacks | src/utils/stacksStore.ts:78-88 | the id is removed; the last one deletes the stacks store and its internal container subscription |
| Stores.Registry.DropStacksStore | src/utils/stacksStore.ts:83-87 | the stacks store is gone, and its subscription is detached from the container store |
| Stores.Registry.TickStart | src/utils/containerStore.ts:18-23 | an absent store or one already polling is left alone; otherwise `polling` is set and the store's context (undefined for `__local__`) is polled |
| Stores.Registry.TickFinish | src/utils/containerStore.ts:24-50 | a stale poll changes nothing; a failed or unchanged listing only clears `polling`; a change replaces the snapshot with the listing keyed by name and calls every subscriber in order, the stacks feed included |
| Stores.ApplyListing | src/utils/containerStore.ts:24-50 | the same on values, keeping the registry invariant |
| Stores.Publish | src/utils/containerStore.ts:40-45 | the store's snapshot becomes the new listing, its subscribers are called as `NotifyContainers` says, and the registry invariant holds |
| Stores.NotifyContainers | src/utils/containerStore.ts:42-44 | one call per container subscriber in subscription order; the internal one re-aggregates the stacks store and calls its subscribers when the counts changed |
| Stores.FeedStacks | src/utils/stacksStore.ts:55-65 | the internal callback replaces the stacks snapshot and calls its subscribers only when the aggregate is not `areEqual` to it |
| Stores.StacksCalls | src/utils/stacksStore.ts:59-63 | one call per stacks subscriber, in order, with the new snapshot |
| ContextHealth.HealthNotices | src/utils/contextHealth.ts:37-39 | one call per subscriber, in order, with the value |
| ContextHealth.Observe | src/utils/contextHealth.ts:35-47 | the stored value becomes the probe's; subscribers are called iff the value changed and someone listens, all with the new value |
| ContextHealth.ObserveSteady | src/utils/contextHealth.ts:35-40 | a repeated verdict notifies nobody |
| ContextHealth.FirstAnswerReports | src/utils/contextHealth.ts:35-40 | from the unknown state, the first verdict reaches every subscriber |
| ContextHealth.HealthMonitors.constructor | src/utils/contextHealth.ts:5 | no monitor |
| ContextHealth.HealthMonitors.Subscribe | src/utils/contextHealth.ts:9-17 | the first subscriber creates a monitor with an unknown state; nobody is called |
| ContextHealth.HealthMonitors.Unsubscribe | src/utils/contextHealth.ts:19-28 | the id is removed; the last one deletes the monitor |
| ContextHealth.HealthMonitors.TickStart | src/utils/contextHealth.ts:30-34 | no probe for an absent monitor; otherwise the probe targets the context of the key |
| ContextHealth.HealthMonitors.TickFinish | src/utils/contextHealth.ts:30-49 | a stale monitor changes nothing; a thrown probe counts as down; otherwise `Observe` |
| ContextHealth.HealthCalls | src/utils/contextHealth.ts:37-39 | the fan-out loop makes exactly `HealthNotices` |
| ContextsStore.ByNameNames | src/utils/contextsStore.ts:19-20 | a name is a key iff some context has it |
| ContextsStore.ByNameKeyed | src/utils/contextsStore.ts:19-20 | every key's value carries its key |
| ContextsStore.IndexByName | src/utils/contextsStore.ts:19-20 | the loop builds exactly the map keyed by name |
| ContextsStore.DetectChange | src/utils/contextsStore.ts:22-33 | the loop with `break` decides exactly a size change or a new name missing from the old snapshot |
| ContextsStore.NamesDifferIff | src/utils/contextsStore.ts:22-33 | no change iff the same names |
| ContextsStore.UnchangedNamesSameContexts | src/utils/contextsStore.ts:22-33 | snapshots keyed by name with the same names hold the same records |
| ContextsStore.ContextsNotices | src/utils/contextsStore.ts:36-40 | one call per subscriber, in order, with the new snapshot |
| ContextsStore.Contexts.constructor | src/utils/contextsStore.ts:12 | no state |
| ContextsStore.Contexts.Snapshot | src/utils/contextsStore.ts:79-81 | undefined iff there is no state, else its snapshot |
| ContextsStore.Contexts.TickStart | src/utils/contextsStore.ts:14-16 | a poll starts iff a state exists and is not polling, and then sets `polling` |
| ContextsStore.Contexts.TickFinish | src/utils/contextsStore.ts:17-46 | without a state nothing happens; a change of names replaces the snapshot and calls every subscriber; `polling` is cleared either way |
| ContextsStore.Contexts.Subscribe | src/utils/contextsStore.ts:49-68 | the first subscriber creates the state with an empty snapshot; the subscriber is called at once iff the snapshot is non-empty |
| ContextsStore.Contexts.Unsubscribe | src/utils/contextsStore.ts:70-77 | the id is removed; the last one resets the state to undefined |
| ContextsStore.ContextsCalls | src/utils/contextsStore.ts:36-40 | the fan-out loop makes exactly `ContextsNotices` |
| EffectiveContext.GetEffectiveContext | src/utils/getEffectiveContext.ts:7-11 | a defined result is the settings' name, never empty and never `default` |
| EffectiveContext.DefaultSelections | src/utils/getEffectiveContext.ts:8-9 | undefined iff the settings or their name are missing, or the name is empty or `default` |
| EffectiveContext.Idempotent | src/utils/getEffectiveContext.ts:8-10 | applied to its own result, it gives that result again |
| EffectiveContext.EffectiveIsNamed | src/utils/getEffectiveContext.ts:9-10 | a defined result is always a truthy context name |
| DockerContext.ListDockerContexts | src/utils/dockerContext.ts:12-23 | a failed command gives none; every name is non-empty and trimmed |
| DockerContext.ListedNamesAreLines | src/utils/dockerContext.ts:15-19 | every listed name is a trimmed output line |
| DockerContext.ListsPrintedNames | src/utils/dockerContext.ts:15-19 | the names printed one per line are listed back, all and in order |
| DockerContext.PrintedNamesRead | src/utils/dockerContext.ts:15-19 | trimming and filtering the lines of names printed one per line gives the names |
| DockerContext.PortOf | src/utils/dockerContext.ts:50 | the explicit port if any, else 2376 exactly for `https:`, else 2375 |
| DockerContext.ResolveDockerContext | src/utils/dockerContext.ts:39-50 | no host, a local socket, or a URL that does not parse gives undefined; `tcp://` becomes `https://`; the host is protocol, `//` and host name, with `PortOf` as port |
| Ui.FormatTitle | src/actions/docker-start.ts:221-223 | same length; every `-` becomes a line break and every other character stays |
| Ui.FormatTitleWithoutDash | src/actions/docker-start.ts:221-223 | a title without dashes is shown unchanged |
| Ui.RunningIndex | src/actions/docker-start.ts:217 | state index 0 iff the state is `running`, else 1 |
| Ui.Intervals.constructor | src/actions/docker-start.ts:41 | no interval |
| Ui.Intervals.ClearIntervalFor | src/actions/docker-start.ts:233-239 | the instance's interval, if any, stops and is forgotten; others are untouched |
| Ui.Intervals.SetIntervalFor | src/actions/docker-start.ts:225-231 | the instance's previous interval stops; a new, never used handle takes its place |
| Ui.Intervals.OneIntervalEach | src/actions/docker-start.ts:225-239 | exactly one running interval per instance that has one |
| Ui.OnePerInstance | src/actions/docker-start.ts:225-239 | with distinct handles, the running intervals are as many as the instances |
| DockerStart.PressCommands | src/actions/docker-start.ts:178-199 | running: stop, then wait unless the stop rejected; otherwise scale the Swarm service to 1 when the container is a task of one, else start |
| DockerStart.PressToggles | src/actions/docker-start.ts:178-199 | a running container is never started or scaled; any other one is never stopped or waited for |
| DockerStart.PressFollowsShownState | src/actions/docker-start.ts:178-217 | a press stops the container iff the key shows state 0 |
| DockerStart.OnKeyDown | src/actions/docker-start.ts:156-202 | Docker down: nothing, intervals untouched. Otherwise the instance's interval stops. No name: an error and no command. Unknown container: `inspect` and `Not\nFound`, no toggle. Else `inspect`, `PressCommands`, an error line when the last one rejects, and a new interval for this instance only, other instances' intervals unchanged |
| DockerStart.Toggle | src/actions/docker-start.ts:178-199 | the commands are `PressCommands`, followed by an error line exactly when the last one rejects |
| DockerStart.UpdateContainerState | src/actions/docker-start.ts:204-219 | the formatted title; on a key the state index of the snapshot's state, with `inspect` issued only when the snapshot has none |
| DockerStart.OnContainers | src/actions/docker-start.ts:66-75 | a snapshot holding the key's container updates its title and state index; otherwise nothing is shown |
| DockerStackStart.StopAll | src/actions/docker-stack-start.ts:136-146 | stop then wait for every member, in member order |
| DockerStackStart.StopMembers | src/actions/docker-stack-start.ts:139-146 | the commands issued are `StopAll` of the members; nothing is shown |
| DockerStackStart.StartMembers | src/actions/docker-stack-start.ts:148-156 | the commands issued are `StartIdle` of the members; nothing is shown |
| DockerStackStart.StartIdle | src/actions/docker-stack-start.ts:147-157 | only start commands, at most one per member |
| DockerStackStart.StartIdleMembers | src/actions/docker-stack-start.ts:147-157 | a member is started iff it does not run |
| DockerStackStart.StartIdleNonEmpty | src/actions/docker-stack-start.ts:147-157 | when not all members run, at least one is started |
| DockerStackStart.OnKeyDown | src/actions/docker-stack-start.ts:118-158 | Docker down: nothing. No stack: an error and no command. Otherwise the two project listings, then: no member, `Not\nFound`; all running, `StopAll`; else `StartIdle`; failures never cut the loop short |
| DockerStackStart.FetchMembers | src/utils/dockerCli.ts:207-219 | the two project listings are issued, in order, and the members are their merge by name; nothing is shown |
| DockerStackStart.StopOne | src/actions/docker-stack-start.ts:140-142 | one member is stopped, then waited for |
| DockerStackStart.AllRunningLoop | src/actions/docker-stack-start.ts:136 | `every` decides exactly whether all members run |
| DockerStackStart.RunningCount | src/actions/docker-stack-start.ts:188 | never more than the members |
| DockerStackStart.RunningCountAll | src/actions/docker-stack-start.ts:188-189 | the running count equals the member count iff all members run |
| DockerStackStart.StackView | src/actions/docker-stack-start.ts:174-191 | no stack: `No\nStack`, 1; no member: `Not\nFound`, 1; otherwise the formatted name, with state 0 iff all members run |
| DockerStackStart.UpdateStackState | src/actions/docker-stack-start.ts:169-192 | Docker down: nothing. No stack: `No\nStack` and state 1, no command. Otherwise the two project listings, then the title and state of `StackView` of the merged members |
| DockerStackStart.PressFollowsShownState | src/actions/docker-stack-start.ts:136-191 | a key showing 0 stops every member on a press; one showing 1 starts at least one |
| DockerSelectToggle.DropFirst | src/actions/docker-select-toggle.ts:98 | `slice(1)`: the string without its first character |
| DockerSelectToggle.Entries | src/actions/docker-select-toggle.ts:92 | one entry per listed container, with its state and one name |
| DockerSelectToggle.DisplayName | src/actions/docker-select-toggle.ts:98 | never empty; `No Container` past the end of the list; otherwise the entry's name when it is non-empty |
| DockerSelectToggle.SelectedName | src/actions/docker-select-toggle.ts:50 | undefined exactly when the index lies past the end of the list; otherwise the entry's name without its slash |
| DockerSelectToggle.DisplayRecoversName | src/actions/docker-select-toggle.ts:92-98 | storing a name as `/`+name and dropping the first character gives the name back; an empty name shows `No Container` |
| DockerSelectToggle.Rotate | src/actions/docker-select-toggle.ts:60-63 | the new index is in range: from in range it is one step on modulo the length, from past the end it is 0 |
| DockerSelectToggle.RotateTimes | src/actions/docker-select-toggle.ts:60-63 | any positive number of rotations lands in range |
| DockerSelectToggle.RotateWalk | src/actions/docker-select-toggle.ts:60-63 | steps that stay before the end move the index forward one place each |
| DockerSelectToggle.RotateAdd | src/actions/docker-select-toggle.ts:60-63 | a steps then b steps are a+b steps |
| DockerSelectToggle.FullTurn | src/actions/docker-select-toggle.ts:60-63 | as many rotations as entries return to the starting index |
| DockerSelectToggle.FeedbackIcon | src/actions/docker-select-toggle.ts:114 | the running image iff the state is `running`, else the stopped image |
| DockerSelectToggle.PressCommands | src/actions/docker-select-toggle.ts:78-84 | running: stop, then wait unless the stop rejected; otherwise start |
| DockerSelectToggle.PressToggles | src/actions/docker-select-toggle.ts:78-84 | with no rejection: stop then wait iff the container runs, start iff it does not |
| DockerSelectToggle.Dial.constructor | src/actions/docker-select-toggle.ts:31-35 | empty list, index 0, no interval |
| DockerSelectToggle.Dial.StartInterval | src/actions/docker-select-toggle.ts:85-87 | `updateInterval` is a new handle; the interval it replaced keeps running |
| DockerSelectToggle.Dial.UpdateContainersList | src/actions/docker-select-toggle.ts:90-93 | one listing of all containers; the list becomes `Entries` of its answer, and stays as it was when it rejects |
| DockerSelectToggle.Dial.UpdateContainerName | src/actions/docker-select-toggle.ts:95-100 | the title is `DisplayName` of the selection |
| DockerSelectToggle.Dial.OnWillAppear | src/actions/docker-select-toggle.ts:40-53 | not a dial: nothing. Docker down: no command and a new interval. Docker up: the listing; when it answers, the list is loaded, the name shown and an interval starts; when it rejects, the list, the title and the intervals stay as they were |
| DockerSelectToggle.Dial.OnDialRotate | src/actions/docker-select-toggle.ts:58-65 | an empty list changes nothing; otherwise the index moves by `Rotate`, lands in range, and the title follows |
| DockerSelectToggle.Dial.OnDialDown | src/actions/docker-select-toggle.ts:70-88 | Docker down, a selection past the list or an empty name: nothing. Else `inspect` and `PressCommands`; a rejection ends the handler; otherwise an interval starts without the old one being stopped |
| DockerSelectToggle.Dial.UpdateContainerState | src/actions/docker-select-toggle.ts:102-118 | the name is logged first, an undefined one as `undefined`. Docker down: nothing more. Docker up with a non-empty list: an undefined name throws before any command; a defined one gets `inspect` and the icon of its state. An empty list is reloaded first: a rejected listing ends there; otherwise the new selection is shown and inspected, with nothing more when there is none |
| DockerSelectToggle.TwoPressesLeaveTwoIntervals | src/actions/docker-select-toggle.ts:85-87 | two successful presses leave two intervals running though one is remembered |
| ContainersCount.DefaultStatus | src/actions/containers-count.ts:55-57 | a missing or empty status is `all`; any other is kept |
| ContainersCount.CountTitleReadsBack | src/actions/containers-count.ts:117 | the title splits at the line break into the status and a number that `parseInt` reads as the count |
| ContainersCount.UpdateContainersList | src/actions/containers-count.ts:96-120 | Docker down: nothing. Otherwise state 0 and the one listing `CountListing(status)`; when it answers, the title with the status and the count; when it rejects, no title |
| ContainersCount.CountListing | src/actions/containers-count.ts:107-115 | a `ps` listing of all containers with no filter for `all`; for any other non-empty status, without `-a` and with exactly the `status=<status>` filter |
| ContainersCount.OnDidReceiveSettings | src/actions/containers-count.ts:83-94 | the instance's old interval stops and a new, never used one takes its place, other instances' untouched; the count is refreshed for the defaulted status as `UpdateContainersList` says; the interval starts whether or not the listing rejects |
| DockerRunOrRm.PressCommand | src/actions/docker-run-or-rm.ts:97-102 | `rm -f` of the container iff `inspect` gave a state, else `run -d` of the image under the name |
| DockerRunOrRm.PressFlipsShownState | src/actions/docker-run-or-rm.ts:97-115 | a key showing 0 removes the container on a press; one showing 1 runs it |
| DockerRunOrRm.OnKeyDown | src/actions/docker-run-or-rm.ts:84-106 | image checked before container, each missing one logged with no command; otherwise `inspect` and `PressCommand`, a failure logged and not propagated |
| DockerRunOrRm.KeyState | src/actions/docker-run-or-rm.ts:115 | state 0 iff `inspect` gave a state, else 1 |
| DockerRunOrRm.UpdateDockerState | src/actions/docker-run-or-rm.ts:108-117 | with Docker up, the key shows `KeyState` of the inspected state; no other command is issued |

## Left out

- Process execution (`execFile`, `exec`) is not modelled. A task ends with an outcome `Ok(stdout)` or `Err` that the caller supplies.
- Timers and the event loop are not modelled. `setInterval`, `setTimeout` and `setImmediate` become explicit `TickStart`/`TickFinish` and `RunImmediate` calls. Interleavings are whatever order the caller chooses.
- The clock is a `now` parameter, and environment variables are parameters.
- `JSON.parse` (labels, `compose ls`), the WHATWG `URL` parser and `localeCompare` are parameters. They are a partial label parser, a partial URL parser returning protocol, host name and port, and a total order.
- DockerContext.ResolveDockerContext: the `docker context inspect` call and its JSON are not modelled. The endpoint host URL is an input. The TLS material read from files (src/utils/dockerContext.ts:52-80) is file I/O and is left out.
- DockerContext.PortOf: dropping a scheme's default port, which `URL` does, belongs to the URL parser parameter.
- CliScheduler.MaxGlobalConcurrency: a negative value or NaN gives 0, which blocks every task, as the comparison in the code does.
- Stream Deck host calls (titles, states, feedback, log lines) are appended events. Error messages keep only their fixed text: `e.message` and the context name are not part of them. Two lines keep more: the run-or-rm handler's error keeps `error.message`, and the dial's info line keeps the container name, printed as `undefined` when it is missing.
- `DockerCall` names a command by its arguments without the leading `--context <name>`. `DockerCli.FinalArgs` models that prefix, and the scheduler's tasks carry it.
- Text: strings are sequences of Unicode scalar values, while JavaScript's are UTF-16 code units. `trim` and `split` cut at the same characters either way, since every separator and white-space character lies in the Basic Multilingual Plane. A character outside it counts as one here and as two in JavaScript, and an unpaired surrogate, which JavaScript allows, cannot be represented.
- src/utils/pingDocker.ts is not part of this model. Whether Docker is up is an input, and the title and state `pingDocker` shows when it is down are not modelled.
- The property-inspector handlers (`onSendToPlugin`), `onWillDisappear`, and the `lastSettingsByContext` and `currentStackNameByContext` maps are not modelled. These are the host's lifecycle plumbing. `onWillAppear` is modelled only for the dial.
- The health and container subscriptions that the keys set up in `onWillAppear` are not modelled. The stores they call are modelled, and each callback's body is modelled as `DockerStart.OnContainers`.
- Stores.Registry.SubscribeStacks: the internal subscription id is a parameter. The code draws it at random, so the caller must pick one that is not in use.
- StacksStore.AggregateCounts states each stack's counts. The fact that the totals sum to the number of labelled containers is not stated separately.
- DockerRunOrRm.UpdateDockerState: when the settings name no container, no `inspect` is issued and the state is 1. The code would spawn `inspect` with an undefined argument, which fails.
- ContainersCount.DefaultStatus: src/constants/docker.ts is not part of this model. The value of `CONTAINER_LIST_ALL_STATUS` is assumed to be `"all"`, and the ensures `s != ""` relies on it being non-empty.
- Text.ParseInt: digits are ASCII only, and results beyond the range of double-precision floats are not rounded.
