/**
 * `containers-count.ts`: a key that shows how many containers have a given
 * status ("all", "running", "exited", ...). The answers of `pingDocker` and
 * `listContainers` (`None` when the listing rejected) are inputs; the listing asked for and what the key shows
 * go to a `Sink`, the refresh interval to `Intervals`.
 */
module ContainersCount {
  import opened Wrappers
  import opened Text
  import opened DockerCli
  import opened Ui

  /** `CONTAINER_LIST_ALL_STATUS`: the status that counts every container. */
  const CONTAINER_LIST_ALL_STATUS := "all"

  /** `status || CONTAINER_LIST_ALL_STATUS`: a missing or empty status counts every container. */
  function DefaultStatus(status: Option<string>): (s: string)
    ensures s != ""
    ensures Named(status) ==> s == status.value
    ensures !Named(status) ==> s == CONTAINER_LIST_ALL_STATUS
  {
    if Named(status) then status.value else CONTAINER_LIST_ALL_STATUS
  }

  /** The key's title: the status, a line break and the count. */
  function CountTitle(status: string, count: nat): string {
    status + "\n" + NatToString(count)
  }

  /** A title whose status has no line break splits back into the status and the count. */
  lemma CountTitleReadsBack(status: string, count: nat)
    requires '\n' !in status
    ensures var lines := Split(CountTitle(status, count), '\n');
      |lines| == 2 && lines[0] == status && ParseInt(lines[1]) == Some(count)
  {
    var digits := NatToString(count);
    assert '\n' !in digits by {
      forall i | 0 <= i < |digits| ensures digits[i] != '\n' { assert IsDigit(digits[i]); }
    }
    assert CountTitle(status, count) == status + ['\n'] + digits;
    SplitAround(status, digits, '\n');
    ParseIntOfNatToString(count);
  }

  /**
   * The listing `updateContainersList` asks for: every container, with no
   * filter, for the "all" status; only those with the status, through exactly
   * one `status=` filter, for any other non-empty status.
   */
  function CountListing(status: string): (call: DockerCall)
    ensures call.Ps?
    ensures call.all <==> status == CONTAINER_LIST_ALL_STATUS
    ensures status == CONTAINER_LIST_ALL_STATUS || status == "" ==> call.filters == []
    ensures status != CONTAINER_LIST_ALL_STATUS && status != "" ==> call.filters == ["status=" + status]
  {
    if status == CONTAINER_LIST_ALL_STATUS then Ps(true, [])
    else if status == "" then Ps(false, [])
    else Ps(false, ["status=" + status])
  }

  /**
   * `updateContainersList(ev, status)`. Nothing happens when Docker is down.
   * Otherwise the key's state is reset and `CountListing(status)` is issued;
   * `listing` is its answer, `None` when it rejected, which ends the handler
   * before the title is set. The title is the status and the number listed.
   */
  method UpdateContainersList(sink: Sink, dockerIsUp: bool, status: string, listing: Option<seq<PsItem>>)
    modifies sink
    ensures !dockerIsUp ==> sink.calls == old(sink.calls) && sink.ui == old(sink.ui)
    ensures dockerIsUp ==> sink.calls == old(sink.calls) + [CountListing(status)]
    ensures dockerIsUp && listing.None? ==> sink.ui == old(sink.ui) + [SetState(0)]
    ensures dockerIsUp && listing.Some? ==>
      sink.ui == old(sink.ui) + [SetState(0), SetTitle(CountTitle(status, |listing.value|))]
  {
    if !dockerIsUp {
      return;
    }
    sink.Show(SetState(0));
    var all := false;
    var optionStatus: Option<string> := None;
    if status == CONTAINER_LIST_ALL_STATUS {
      all := true;
    } else {
      optionStatus := Some(status);
    }
    var filters: seq<string> := [];
    if Named(optionStatus) {
      filters := filters + ["status=" + optionStatus.value];
    }
    assert Ps(all, filters) == CountListing(status);
    sink.Issue(Ps(all, filters));
    if listing.None? {
      return;
    }
    sink.Show(SetTitle(CountTitle(status, |listing.value|)));
  }

  /**
   * `onDidReceiveSettings`: the instance's interval stops, the count is
   * refreshed for the new status (defaulted), and a new interval `h` starts in
   * its place; the refresh is not awaited, so the interval starts whether or
   * not its listing rejects. Other instances' intervals are untouched.
   */
  method OnDidReceiveSettings(sink: Sink, timers: Intervals, instanceId: string, status: Option<string>,
                              dockerIsUp: bool, listing: Option<seq<PsItem>>)
    returns (h: nat)
    requires timers.Valid()
    modifies sink, timers
    ensures timers.Valid()
    ensures h !in old(timers.live) && timers.handles == old(timers.handles)[instanceId := h]
    ensures timers.live == (if instanceId in old(timers.handles) then old(timers.live) - {old(timers.handles)[instanceId]}
                            else old(timers.live)) + {h}
    ensures !dockerIsUp ==> sink.calls == old(sink.calls) && sink.ui == old(sink.ui)
    ensures dockerIsUp ==> sink.calls == old(sink.calls) + [CountListing(DefaultStatus(status))]
    ensures dockerIsUp && listing.None? ==> sink.ui == old(sink.ui) + [SetState(0)]
    ensures dockerIsUp && listing.Some? ==>
      sink.ui == old(sink.ui) + [SetState(0), SetTitle(CountTitle(DefaultStatus(status), |listing.value|))]
  {
    timers.ClearIntervalFor(instanceId);
    UpdateContainersList(sink, dockerIsUp, DefaultStatus(status), listing);
    h := timers.SetIntervalFor(instanceId);
  }
}
