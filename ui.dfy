/**
 * What the actions share: the sink their decisions go to (the Docker
 * commands they issue, in order, and what they show on the key or dial),
 * the title formatting, the key state of a container state, and the
 * per-instance polling intervals.
 */
module Ui {
  import opened Wrappers
  import opened Text
  import opened DockerCli

  /** A call into the Stream Deck host: a title, a state index, a dial icon, or a log line at the error or info level. */
  datatype UiEvent =
    | SetTitle(title: string)
    | SetState(index: nat)
    | SetFeedback(icon: string)
    | LogError(message: string)
    | LogInfo(message: string)

  /** The commands an action issued and what it showed, each in order. */
  class Sink {
    var calls: seq<DockerCall>
    var ui: seq<UiEvent>

    constructor()
      ensures calls == [] && ui == []
    {
      calls := [];
      ui := [];
    }

    method Issue(call: DockerCall)
      modifies this
      ensures calls == old(calls) + [call] && ui == old(ui)
    {
      calls := calls + [call];
    }

    method Show(e: UiEvent)
      modifies this
      ensures ui == old(ui) + [e] && calls == old(calls)
    {
      ui := ui + [e];
    }
  }

  /** `formatTitle(title)`: `title.split("-").join("\n")`, every dash becomes a line break. */
  function FormatTitle(title: string): (r: string)
    ensures |r| == |title|
    ensures forall i :: 0 <= i < |title| ==> r[i] == if title[i] == '-' then '\n' else title[i]
  {
    SplitJoinReplaces(title, '-', '\n');
    Join(Split(title, '-'), "\n")
  }

  /** A title without dashes is shown as it is. */
  lemma FormatTitleWithoutDash(title: string)
    requires '-' !in title
    ensures FormatTitle(title) == title
  {
    var r := FormatTitle(title);
    assert forall i :: 0 <= i < |title| ==> r[i] == title[i];
  }

  /** `state === CONTAINER_STATUS_RUNNING ? 0 : 1`: the key's state index for a container state. */
  function RunningIndex(state: Option<string>): (index: nat)
    ensures index == 0 <==> state == Some(CONTAINER_STATUS_RUNNING)
    ensures index == 1 <==> state != Some(CONTAINER_STATUS_RUNNING)
  {
    if state == Some(CONTAINER_STATUS_RUNNING) then 0 else 1
  }

  /** No two instances share a handle. */
  ghost predicate Injective(m: map<string, nat>) {
    forall a, b :: a in m && b in m && m[a] == m[b] ==> a == b
  }

  /** Every value of `m`. */
  function Handles(m: map<string, nat>): set<nat> {
    set id | id in m :: m[id]
  }

  /**
   * An action's `updateIntervals` map and the intervals the host runs:
   * `live` holds the handles created and not cleared.
   */
  class Intervals {
    var handles: map<string, nat>
    var live: set<nat>
    var next: nat

    /** Every running interval belongs to exactly one instance, and handles are new when created. */
    ghost predicate Valid()
      reads this
    {
      && live == Handles(handles)
      && Injective(handles)
      && (forall h :: h in live ==> h < next)
    }

    constructor()
      ensures Valid() && handles == map[] && live == {}
    {
      handles := map[];
      live := {};
      next := 0;
    }

    /** `clearIntervalFor(id)`: the instance's interval, if any, stops and is forgotten. */
    method ClearIntervalFor(id: string)
      requires Valid()
      modifies this`handles, this`live
      ensures Valid()
      ensures handles == old(handles) - {id}
      ensures live == if id in old(handles) then old(live) - {old(handles)[id]} else old(live)
    {
      if id in handles {
        var h := handles[id];
        handles := handles - {id};
        live := live - {h};
        forall x | x in old(live) - {h}
          ensures x in Handles(handles)
        {
          var y :| y in old(handles) && old(handles)[y] == x;
          assert y != id && y in handles && handles[y] == x;
        }
      }
    }

    /**
     * `setIntervalFor(id, fn)`: the instance's previous interval, if any,
     * stops, and a new one starts in its place.
     */
    method SetIntervalFor(id: string) returns (h: nat)
      requires Valid()
      modifies this
      ensures Valid()
      ensures h == old(next) && h !in old(live)
      ensures handles == old(handles)[id := h]
      ensures live == (if id in old(handles) then old(live) - {old(handles)[id]} else old(live)) + {h}
    {
      assert next !in live;
      ClearIntervalFor(id);
      h := next;
      AddHandle(handles, live, id, h);
      handles := handles[id := h];
      live := live + {h};
      next := next + 1;
    }

    /** At most one interval runs per instance: as many as there are instances with one. */
    lemma OneIntervalEach()
      requires Valid()
      ensures |live| == |handles.Keys|
    {
      OnePerInstance(handles, live);
    }
  }

  /** One instance's new handle, unused so far, keeps every running interval owned by one instance. */
  lemma AddHandle(handles: map<string, nat>, live: set<nat>, id: string, h: nat)
    requires live == Handles(handles) && id !in handles && h !in live
    requires Injective(handles)
    ensures live + {h} == Handles(handles[id := h]) && Injective(handles[id := h])
  {
    var m := handles[id := h];
    forall x | x in live + {h}
      ensures x in Handles(m)
    {
      if x != h {
        var y :| y in handles && handles[y] == x;
        assert y in m && m[y] == x;
      } else {
        assert m[id] == h;
      }
    }
  }

  /** The running intervals are exactly one per instance that has one. */
  lemma {:induction false} OnePerInstance(handles: map<string, nat>, live: set<nat>)
    requires live == Handles(handles) && Injective(handles)
    ensures |live| == |handles.Keys|
  {
    if handles != map[] {
      var id :| id in handles;
      var rest := handles - {id};
      RemoveHandle(handles, id);
      OnePerInstance(rest, Handles(rest));
      assert handles.Keys == rest.Keys + {id};
    }
  }

  /** Without one instance, its handle is no longer running and the others still are. */
  lemma RemoveHandle(handles: map<string, nat>, id: string)
    requires Injective(handles) && id in handles
    ensures Injective(handles - {id})
    ensures Handles(handles) == Handles(handles - {id}) + {handles[id]}
    ensures handles[id] !in Handles(handles - {id})
  {
    var rest := handles - {id};
    forall x | x in Handles(handles)
      ensures x in Handles(rest) + {handles[id]}
    {
      var y :| y in handles && handles[y] == x;
      if y != id {
        assert y in rest;
      }
    }
  }

}
