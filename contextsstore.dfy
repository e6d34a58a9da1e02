/**
 * `contextsStore.ts`: one store for the whole plugin that polls
 * `docker context ls` and tells its subscribers about the contexts, but only
 * when the set of names changed. The interval and start-up timers are left to
 * the caller: a poll is `TickStart` followed later by `TickFinish` with the
 * listing. Unlike the container store, the second half works on whatever
 * store exists when the listing arrives.
 */
module ContextsStore {
  import opened Wrappers
  import opened OrderedMaps
  import opened DockerContext

  /** The store's `CtxState`. */
  datatype CtxState = CtxState(interval: nat, subs: JsMap<string, nat>,
                               snapshot: JsMap<string, ContextInfo>, polling: bool)

  /** One call of a subscriber and the snapshot passed to it. */
  datatype ContextsNotice = ContextsTo(token: nat, contexts: JsMap<string, ContextInfo>)

  /** The default polling period of `subscribeDockerContexts`, in milliseconds. */
  const DEFAULT_INTERVAL_MS := 5000

  /** `for (const it of items) next.set(it.name, it)` */
  function ByName(items: seq<ContextInfo>): (m: JsMap<string, ContextInfo>)
    ensures m.Valid()
  {
    if items == [] then Empty() else ByName(items[..|items| - 1]).Set(items[|items| - 1].name, items[|items| - 1])
  }

  /** Each context sits under its own name. */
  ghost predicate KeyedByName(m: JsMap<string, ContextInfo>) {
    forall n :: n in m.vals ==> m.vals[n].name == n
  }

  /** The names of the new snapshot are those of the listing. */
  lemma ByNameNames(items: seq<ContextInfo>, n: string)
    ensures n in ByName(items).vals <==> exists i :: 0 <= i < |items| && items[i].name == n
  {
    if n in ByName(items).vals {
      ByNameOnlyListed(items, n);
    }
    if exists i :: 0 <= i < |items| && items[i].name == n {
      var i :| 0 <= i < |items| && items[i].name == n;
      ByNameHasListed(items, i);
    }
  }

  lemma {:induction false} ByNameHasListed(items: seq<ContextInfo>, i: nat)
    requires i < |items|
    ensures items[i].name in ByName(items).vals
  {
    if i < |items| - 1 {
      var init := items[..|items| - 1];
      ByNameHasListed(init, i);
      assert init[i] == items[i];
    }
  }

  lemma {:induction false} ByNameOnlyListed(items: seq<ContextInfo>, n: string)
    requires n in ByName(items).vals
    ensures exists i :: 0 <= i < |items| && items[i].name == n
  {
    var last := items[|items| - 1];
    if n != last.name {
      var init := items[..|items| - 1];
      ByNameOnlyListed(init, n);
      var i :| 0 <= i < |init| && init[i].name == n;
      assert items[i].name == n;
    }
  }

  /** Each context of the new snapshot sits under its own name. */
  lemma {:induction false} ByNameKeyed(items: seq<ContextInfo>)
    ensures KeyedByName(ByName(items))
  {
    if items != [] {
      ByNameKeyed(items[..|items| - 1]);
    }
  }

  method IndexByName(items: seq<ContextInfo>) returns (m: JsMap<string, ContextInfo>)
    ensures m == ByName(items)
  {
    m := Empty();
    var i := 0;
    while i < |items|
      invariant 0 <= i <= |items|
      invariant m == ByName(items[..i])
    {
      assert items[..i + 1][..i] == items[..i];
      m := m.Set(items[i].name, items[i]);
      i := i + 1;
    }
    assert items[..i] == items;
  }

  /** The change test of `tick`: another size, or a name of `next` that `snap` lacks. */
  predicate NamesDiffer(next: JsMap<string, ContextInfo>, snap: JsMap<string, ContextInfo>) {
    next.Size() != snap.Size() || exists i :: 0 <= i < |next.order| && next.order[i] !in snap.vals
  }

  /** The membership test in `tick`, which stops at the first new name. */
  method DetectChange(next: JsMap<string, ContextInfo>, snap: JsMap<string, ContextInfo>) returns (changed: bool)
    ensures changed == NamesDiffer(next, snap)
  {
    if next.Size() != snap.Size() {
      return true;
    }
    changed := false;
    var i := 0;
    while i < |next.order|
      invariant 0 <= i <= |next.order|
      invariant forall j :: 0 <= j < i ==> next.order[j] in snap.vals
    {
      if !snap.Has(next.order[i]) {
        changed := true;
        break;
      }
      i := i + 1;
    }
  }

  /** Two snapshots count as unchanged exactly when they hold the same names; order plays no part. */
  lemma NamesDifferIff(next: JsMap<string, ContextInfo>, snap: JsMap<string, ContextInfo>)
    requires next.Valid() && snap.Valid()
    ensures !NamesDiffer(next, snap) <==> next.vals.Keys == snap.vals.Keys
  {
    SizeIsKeyCount(next);
    SizeIsKeyCount(snap);
    if !NamesDiffer(next, snap) {
      forall n | n in next.vals
        ensures n in snap.vals
      {
        var i :| 0 <= i < |next.order| && next.order[i] == n;
      }
      SubsetSameSize(next.vals.Keys, snap.vals.Keys);
    }
  }

  /** Since a context is only its name, unchanged names mean unchanged contexts. */
  lemma UnchangedNamesSameContexts(next: JsMap<string, ContextInfo>, snap: JsMap<string, ContextInfo>)
    requires next.Valid() && snap.Valid() && KeyedByName(next) && KeyedByName(snap)
    requires !NamesDiffer(next, snap)
    ensures next.vals == snap.vals
  {
    NamesDifferIff(next, snap);
    forall n | n in next.vals
      ensures next.vals[n] == snap.vals[n]
    {
      assert next.vals[n].name == n == snap.vals[n].name;
    }
  }

  /** The calls of the subscribers `ids`, in order, with the snapshot `payload`. */
  function ContextsNotices(ids: seq<string>, subs: map<string, nat>, payload: JsMap<string, ContextInfo>): (r: seq<ContextsNotice>)
    requires forall i :: 0 <= i < |ids| ==> ids[i] in subs
    ensures |r| == |ids|
    ensures forall i :: 0 <= i < |ids| ==> r[i] == ContextsTo(subs[ids[i]], payload)
  {
    if ids == [] then [] else ContextsNotices(ids[..|ids| - 1], subs, payload) + [ContextsTo(subs[ids[|ids| - 1]], payload)]
  }

  ghost predicate StateOk(st: CtxState) {
    st.subs.Valid() && st.subs.Size() > 0 && st.snapshot.Valid() && KeyedByName(st.snapshot)
  }

  /** The module-level `state`, with the calls of the subscribers in `log`. */
  class Contexts {
    var state: Option<CtxState>
    var log: seq<ContextsNotice>

    ghost predicate Valid()
      reads this
    {
      state.Some? ==> StateOk(state.value)
    }

    constructor()
      ensures Valid() && state.None? && log == []
    {
      state := None;
      log := [];
    }

    /** `getDockerContextsSnapshot()` */
    function Snapshot(): (r: Option<JsMap<string, ContextInfo>>)
      reads this
      ensures r.None? <==> state.None?
      ensures r.Some? ==> r.value == state.value.snapshot
    {
      if state.Some? then Some(state.value.snapshot) else None
    }

    /** The synchronous part of `tick`: nothing without a store or while a poll runs; else it is marked polling. */
    method TickStart() returns (started: bool)
      requires Valid()
      modifies this`state
      ensures Valid()
      ensures started <==> old(state).Some? && !old(state).value.polling
      ensures started ==> state == Some(old(state).value.(polling := true))
      ensures !started ==> state == old(state)
    {
      if state.None? || state.value.polling {
        return false;
      }
      state := Some(state.value.(polling := true));
      return true;
    }

    /**
     * The rest of `tick`, once `listDockerContexts` returned: on the store
     * that exists by then, if any, the listing replaces the snapshot and
     * reaches every subscriber when its names changed; polling ends.
     */
    method TickFinish(items: seq<ContextInfo>)
      requires Valid()
      modifies this`state, this`log
      ensures Valid()
      ensures old(state).None? ==> state.None? && log == old(log)
      ensures old(state).Some? ==>
        var st := old(state).value;
        var next := ByName(items);
        if NamesDiffer(next, st.snapshot) then
          state == Some(st.(snapshot := next, polling := false))
          && log == old(log) + ContextsNotices(st.subs.order, st.subs.vals, next)
        else
          state == Some(st.(polling := false)) && log == old(log)
    {
      if state.None? {
        // `state.snapshot` throws, the catch ignores it, `finally` finds no state
        return;
      }
      var st := state.value;
      var next := IndexByName(items);
      var changed := DetectChange(next, st.snapshot);
      if changed {
        ByNameKeyed(items);
        st := st.(snapshot := next);
        var calls := ContextsCalls(st.subs, next);
        log := log + calls;
      }
      state := Some(st.(polling := false));
    }

    /**
     * `subscribeDockerContexts`: the first subscriber creates the store with
     * an empty snapshot; a subscriber is called at once with a snapshot that
     * is not empty.
     */
    method Subscribe(id: string, token: nat, intervalMs: Option<nat>)
      requires Valid()
      modifies this
      ensures Valid()
      ensures var st := if old(state).Some? then old(state).value
                        else CtxState(intervalMs.GetOr(DEFAULT_INTERVAL_MS), Empty(), Empty(), false);
        && state == Some(st.(subs := st.subs.Set(id, token)))
        && log == old(log) + if st.snapshot.Size() > 0 then [ContextsTo(token, st.snapshot)] else []
    {
      var st;
      if state.Some? {
        st := state.value;
      } else {
        st := CtxState(intervalMs.GetOr(DEFAULT_INTERVAL_MS), Empty(), Empty(), false);
      }
      st := st.(subs := st.subs.Set(id, token));
      state := Some(st);
      if st.snapshot.Size() > 0 {
        log := log + [ContextsTo(token, st.snapshot)];
      }
    }

    /** `unsubscribeDockerContexts`: the id leaves, and the store goes with its last subscriber. */
    method Unsubscribe(id: string)
      requires Valid()
      modifies this`state
      ensures Valid()
      ensures old(state).None? ==> state.None?
      ensures old(state).Some? ==>
        var subs := old(state).value.subs.Delete(id);
        state == if subs.Size() == 0 then None else Some(old(state).value.(subs := subs))
    {
      if state.None? {
        return;
      }
      var subs := state.value.subs.Delete(id);
      if subs.Size() == 0 {
        state := None;
      } else {
        state := Some(state.value.(subs := subs));
      }
    }
  }

  /** `for (const [, cb] of state.subs) cb(state.snapshot)`: the calls made, in order. */
  method ContextsCalls(subs: JsMap<string, nat>, payload: JsMap<string, ContextInfo>) returns (calls: seq<ContextsNotice>)
    requires subs.Valid()
    ensures calls == ContextsNotices(subs.order, subs.vals, payload)
  {
    calls := [];
    var i := 0;
    while i < |subs.order|
      invariant 0 <= i <= |subs.order|
      invariant calls == ContextsNotices(subs.order[..i], subs.vals, payload)
    {
      assert subs.order[..i + 1][..i] == subs.order[..i];
      calls := calls + [ContextsTo(subs.vals[subs.order[i]], payload)];
      i := i + 1;
    }
    assert subs.order[..i] == subs.order;
  }
}
