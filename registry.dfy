/**
 * The state of `containerStore.ts` and `stacksStore.ts` together. The stacks
 * store of a context feeds on the container store of the same context through
 * an internal subscription whose callback runs synchronously inside the
 * container store's fan-out, so the two module-level `stores` maps are fields
 * of one object here.
 *
 * Subscriber functions are named by tokens, and every call of one is recorded
 * in `log` with the snapshot it received. The interval and start-up timers are
 * left to the caller: a poll is `TickStart` (the synchronous part of `tick`,
 * up to the `await` of `listContainers`) followed later by `TickFinish` with
 * the listing (or `None` when it threw).
 */
module Stores {
  import opened Wrappers
  import opened OrderedMaps
  import opened DockerCli
  import opened ContainerStore
  import opened StacksStore

  /** A container-store subscriber: an outside callback, or the stacks store of the same key. */
  datatype Callback = External(token: nat) | StacksFeed

  /** One call of a subscriber and the snapshot passed to it. */
  datatype Notice =
    | ContainersTo(token: nat, containers: JsMap<string, PsItem>)
    | StacksTo(token: nat, stacks: JsMap<string, StackInfo>)

  /**
   * A container store's `CtxState`. `gen` stands for the object's identity: a
   * poll started on a store deleted meanwhile finishes on the detached object.
   */
  datatype CtxState = CtxState(gen: nat, interval: nat, subs: JsMap<string, Callback>,
                               snapshot: JsMap<string, PsItem>, polling: bool)

  /** A stacks store's `CtxState`. */
  datatype StacksState = StacksState(subs: JsMap<string, nat>, snapshot: JsMap<string, StackInfo>,
                                     containerSubId: string)

  /** The default polling period of `subscribeContainers`, in milliseconds. */
  const DEFAULT_INTERVAL_MS := 1500

  function NewStore(gen: nat, interval: nat): (cs: CtxState)
    ensures cs.subs.Valid() && cs.snapshot.Valid() && cs.snapshot.Size() == 0 && !cs.polling
  {
    CtxState(gen, interval, Empty(), Empty(), false)
  }

  /** `unsubscribeContainers` on the map of stores: the id leaves, and a store left without subscribers goes. */
  function Detach(m: map<string, CtxState>, key: string, id: string): (r: map<string, CtxState>)
    requires key in m ==> m[key].subs.Valid()
    ensures r.Keys <= m.Keys
    ensures forall k :: k in m && k != key ==> k in r && r[k] == m[k]
  {
    if key !in m then m
    else
      var subs := m[key].subs.Delete(id);
      if subs.Size() == 0 then m - {key} else m[key := m[key].(subs := subs)]
  }

  /** The calls of the stacks subscribers `ids`, in order, with the snapshot `payload`. */
  function StacksNotices(ids: seq<string>, subs: map<string, nat>, payload: JsMap<string, StackInfo>): (r: seq<Notice>)
    requires forall i :: 0 <= i < |ids| ==> ids[i] in subs
    ensures |r| == |ids|
  {
    if ids == [] then []
    else StacksNotices(ids[..|ids| - 1], subs, payload) + [StacksTo(subs[ids[|ids| - 1]], payload)]
  }

  /**
   * The stacks store's callback on a new container snapshot: the aggregate
   * replaces the stacks snapshot and reaches every stacks subscriber unless it
   * has the same stacks with the same counts.
   */
  function Refeed(st: StacksState, containers: JsMap<string, PsItem>): (r: (StacksState, seq<Notice>))
    requires st.subs.Valid() && containers.Valid()
  {
    var agg := Aggregate(containers.Values());
    if SameCounts(agg, st.snapshot) then (st, [])
    else (st.(snapshot := agg), StacksNotices(st.subs.order, st.subs.vals, agg))
  }

  /** The calls of the container subscribers `ids` in order; the stacks feed contributes `feed`. */
  function ContainerNotices(ids: seq<string>, subs: map<string, Callback>, payload: JsMap<string, PsItem>,
                            feed: seq<Notice>): seq<Notice>
    requires forall i :: 0 <= i < |ids| ==> ids[i] in subs
  {
    if ids == [] then []
    else
      ContainerNotices(ids[..|ids| - 1], subs, payload, feed)
      + match subs[ids[|ids| - 1]]
        case External(t) => [ContainersTo(t, payload)]
        case StacksFeed => feed
  }

  /** The stacks stores after the container snapshot of `key` became `snap`. */
  function AfterFeed(sm: map<string, StacksState>, key: string, snap: JsMap<string, PsItem>): map<string, StacksState>
    requires key in sm ==> sm[key].subs.Valid()
    requires snap.Valid()
  {
    if key in sm then sm[key := Refeed(sm[key], snap).0] else sm
  }

  /** The stacks subscriber calls that the container snapshot `snap` of `key` causes. */
  function FeedNotices(sm: map<string, StacksState>, key: string, snap: JsMap<string, PsItem>): seq<Notice>
    requires key in sm ==> sm[key].subs.Valid()
    requires snap.Valid()
  {
    if key in sm then Refeed(sm[key], snap).1 else []
  }

  /** Only the stacks store's own id carries the feed. */
  ghost predicate FeedOwner(cs: CtxState, owner: Option<string>) {
    forall id :: id in cs.subs.vals && cs.subs.vals[id] == StacksFeed ==> owner == Some(id)
  }

  /** The two maps of a container store's record are well formed. */
  ghost predicate RecordOk(cs: CtxState) {
    cs.subs.Valid() && cs.snapshot.Valid()
  }

  ghost predicate StoreOk(cs: CtxState, nextGen: nat) {
    RecordOk(cs) && cs.subs.Size() > 0 && cs.gen < nextGen
  }

  ghost predicate StacksOk(st: StacksState, cs: CtxState) {
    && st.subs.Valid() && st.snapshot.Valid() && st.subs.Size() > 0
    && st.containerSubId in cs.subs.vals && cs.subs.vals[st.containerSubId] == StacksFeed
  }

  function OwnerIn(sm: map<string, StacksState>, k: string): Option<string> {
    if k in sm then Some(sm[k].containerSubId) else None
  }

  /** The container store of `k`, if any, has subscribers and carries at most its own stacks feed. */
  ghost predicate StoreWired(cm: map<string, CtxState>, sm: map<string, StacksState>, g: nat, k: string) {
    k in cm ==> StoreOk(cm[k], g) && FeedOwner(cm[k], OwnerIn(sm, k))
  }

  /** The stacks store of `k`, if any, has subscribers and is fed by the container store of `k`. */
  ghost predicate StacksWired(cm: map<string, CtxState>, sm: map<string, StacksState>, k: string) {
    k in sm ==> k in cm && StacksOk(sm[k], cm[k])
  }

  /** The stacks snapshot of `k`, if any, has the stacks and counts of the container snapshot of `k`. */
  ghost predicate ReflectsAt(cm: map<string, CtxState>, sm: map<string, StacksState>, k: string) {
    k in sm && k in cm && cm[k].snapshot.Valid() ==>
      SameCounts(Aggregate(cm[k].snapshot.Values()), sm[k].snapshot)
  }

  ghost predicate Wired(cm: map<string, CtxState>, sm: map<string, StacksState>, g: nat) {
    && (forall k :: k in cm ==> RecordOk(cm[k]))
    && (forall k :: k in sm ==> sm[k].subs.Valid() && sm[k].snapshot.Valid())
    && (forall k :: StoreWired(cm, sm, g, k))
    && (forall k :: StacksWired(cm, sm, k))
  }

  ghost predicate Reflects(cm: map<string, CtxState>, sm: map<string, StacksState>) {
    forall k :: ReflectsAt(cm, sm, k)
  }

  /** The wiring of one key depends on that key's records only. */
  lemma StoreWiredFrame(cm: map<string, CtxState>, sm: map<string, StacksState>,
                        cm': map<string, CtxState>, sm': map<string, StacksState>, g: nat, k: string)
    requires StoreWired(cm, sm, g, k)
    requires (k in cm' <==> k in cm) && (k in cm ==> cm'[k] == cm[k])
    requires OwnerIn(sm', k) == OwnerIn(sm, k)
    ensures StoreWired(cm', sm', g, k)
  {
  }

  lemma StacksWiredFrame(cm: map<string, CtxState>, sm: map<string, StacksState>,
                         cm': map<string, CtxState>, sm': map<string, StacksState>, k: string)
    requires StacksWired(cm, sm, k)
    requires (k in sm' <==> k in sm) && (k in sm ==> sm'[k] == sm[k])
    requires k in cm ==> k in cm' && cm'[k] == cm[k]
    ensures StacksWired(cm', sm', k)
  {
  }

  lemma ReflectsFrame(cm: map<string, CtxState>, sm: map<string, StacksState>,
                      cm': map<string, CtxState>, sm': map<string, StacksState>, k: string)
    requires ReflectsAt(cm, sm, k)
    requires (k in sm' <==> k in sm) && (k in sm ==> sm'[k] == sm[k])
    requires (k in cm' <==> k in cm) && (k in cm ==> cm'[k] == cm[k])
    ensures ReflectsAt(cm', sm', k)
  {
  }

  /** Replacing one container store keeps the state wired if the new record is. */
  lemma UpdateStore(cm: map<string, CtxState>, sm: map<string, StacksState>, g: nat, key: string, st: CtxState)
    requires Wired(cm, sm, g)
    requires StoreOk(st, g) && FeedOwner(st, OwnerIn(sm, key))
    requires key in sm ==> StacksOk(sm[key], st)
    ensures Wired(cm[key := st], sm, g)
  {
    var cm' := cm[key := st];
    forall k
      ensures StoreWired(cm', sm, g, k) && StacksWired(cm', sm, k)
    {
      assert StoreWired(cm, sm, g, k) && StacksWired(cm, sm, k);
    }
  }

  /** Replacing one container store keeps the stacks in step if its stacks snapshot still agrees. */
  lemma UpdateStoreReflects(cm: map<string, CtxState>, sm: map<string, StacksState>, key: string, st: CtxState)
    requires Reflects(cm, sm)
    requires key in sm && st.snapshot.Valid() ==> SameCounts(Aggregate(st.snapshot.Values()), sm[key].snapshot)
    ensures Reflects(cm[key := st], sm)
  {
    var cm' := cm[key := st];
    forall k
      ensures ReflectsAt(cm', sm, k)
    {
      assert ReflectsAt(cm, sm, k);
    }
  }

  /** Setting an outside subscriber keeps a store's record wired. */
  lemma AddExternal(cm: map<string, CtxState>, sm: map<string, StacksState>, g: nat, key: string,
                    st: CtxState, id: string, token: nat)
    requires Wired(cm, sm, g) && Reflects(cm, sm)
    requires st.subs.Valid() && st.snapshot.Valid() && st.gen < g
    requires key in cm ==> st == cm[key]
    requires key !in cm ==> st.subs.Size() == 0
    requires key in sm ==> id != sm[key].containerSubId
    ensures var st' := st.(subs := st.subs.Set(id, External(token)));
      Wired(cm[key := st'], sm, g) && Reflects(cm[key := st'], sm)
  {
    var st' := st.(subs := st.subs.Set(id, External(token)));
    assert StoreWired(cm, sm, g, key) && StacksWired(cm, sm, key) && ReflectsAt(cm, sm, key);
    if key !in cm {
      SizeZeroIffEmpty(st.subs);
      assert st'.subs.vals == map[id := External(token)];
    }
    assert FeedOwner(st', OwnerIn(sm, key)) by {
      forall x | x in st'.subs.vals && st'.subs.vals[x] == StacksFeed
        ensures OwnerIn(sm, key) == Some(x)
      {
        assert x != id && x in st.subs.vals;
      }
    }
    UpdateStore(cm, sm, g, key, st');
    UpdateStoreReflects(cm, sm, key, st');
  }

  /** Dropping an outside subscriber of a container store keeps the state wired and in step. */
  lemma ContainerSubscriberDropped(cm: map<string, CtxState>, sm: map<string, StacksState>, g: nat, key: string, id: string)
    requires Wired(cm, sm, g) && Reflects(cm, sm) && key in cm
    requires key in sm ==> id != sm[key].containerSubId
    ensures Wired(Detach(cm, key, id), sm, g) && Reflects(Detach(cm, key, id), sm)
  {
    assert StoreWired(cm, sm, g, key) && StacksWired(cm, sm, key);
    assert ReflectsAt(cm, sm, key);
    var st := cm[key];
    var subs := st.subs.Delete(id);
    if subs.Size() == 0 {
      SizeZeroIffEmpty(subs);
      DropStore(cm, sm, g, key);
    } else {
      var st' := st.(subs := subs);
      assert FeedOwner(st', OwnerIn(sm, key)) by {
        forall x | x in subs.vals && subs.vals[x] == StacksFeed
          ensures OwnerIn(sm, key) == Some(x)
        {
          assert x in st.subs.vals && st.subs.vals[x] == StacksFeed;
        }
      }
      UpdateStore(cm, sm, g, key, st');
      UpdateStoreReflects(cm, sm, key, st');
    }
  }

  lemma DropStore(cm: map<string, CtxState>, sm: map<string, StacksState>, g: nat, key: string)
    requires Wired(cm, sm, g) && Reflects(cm, sm) && key !in sm
    ensures Wired(cm - {key}, sm, g) && Reflects(cm - {key}, sm)
  {
    var cm' := cm - {key};
    forall k
      ensures StoreWired(cm', sm, g, k) && StacksWired(cm', sm, k) && ReflectsAt(cm', sm, k)
    {
      assert StoreWired(cm, sm, g, k) && StacksWired(cm, sm, k) && ReflectsAt(cm, sm, k);
    }
  }

  /** Handing out a new identity keeps the state wired. */
  lemma NextGen(cm: map<string, CtxState>, sm: map<string, StacksState>, g: nat)
    requires Wired(cm, sm, g)
    ensures Wired(cm, sm, g + 1)
  {
    var g' := g + 1;
    forall k
      ensures StoreWired(cm, sm, g', k)
    {
      assert StoreWired(cm, sm, g, k);
    }
  }

  /** A stacks store whose record is replaced, id kept, stays wired. */
  lemma UpdateStacks(cm: map<string, CtxState>, sm: map<string, StacksState>, g: nat, key: string, ss: StacksState)
    requires Wired(cm, sm, g) && key in sm
    requires ss.subs.Valid() && ss.subs.Size() > 0 && ss.containerSubId == sm[key].containerSubId && ss.snapshot.Valid()
    ensures Wired(cm, sm[key := ss], g)
  {
    var sm' := sm[key := ss];
    forall k
      ensures StoreWired(cm, sm', g, k) && StacksWired(cm, sm', k)
    {
      assert StoreWired(cm, sm, g, k) && StacksWired(cm, sm, k);
      assert OwnerIn(sm', k) == OwnerIn(sm, k);
    }
  }

  /** Dropping one of several subscribers of a stacks store keeps the state wired and in step. */
  lemma StacksSubscriberDropped(cm: map<string, CtxState>, sm: map<string, StacksState>, g: nat, key: string, id: string)
    requires Wired(cm, sm, g) && Reflects(cm, sm) && key in sm
    requires sm[key].subs.Delete(id).Size() > 0
    ensures var ss := sm[key].(subs := sm[key].subs.Delete(id));
      Wired(cm, sm[key := ss], g) && Reflects(cm, sm[key := ss])
  {
    assert StacksWired(cm, sm, key) && ReflectsAt(cm, sm, key);
    var ss := sm[key].(subs := sm[key].subs.Delete(id));
    UpdateStacks(cm, sm, g, key, ss);
    UpdateStacksReflects(cm, sm, key, ss);
  }

  lemma UpdateStacksReflects(cm: map<string, CtxState>, sm: map<string, StacksState>, key: string, ss: StacksState)
    requires Reflects(cm, sm)
    requires key in cm && cm[key].snapshot.Valid() ==> SameCounts(Aggregate(cm[key].snapshot.Values()), ss.snapshot)
    ensures Reflects(cm, sm[key := ss])
  {
    var sm' := sm[key := ss];
    forall k
      ensures ReflectsAt(cm, sm', k)
    {
      assert ReflectsAt(cm, sm, k);
    }
  }

  /** After a poll changed the container snapshot of `key` and fed its stacks store, the stacks are in step. */
  lemma ReflectsAfterFeed(cm: map<string, CtxState>, sm: map<string, StacksState>, sm': map<string, StacksState>,
                          key: string, st: CtxState)
    requires Reflects(cm, sm)
    requires sm'.Keys == sm.Keys && forall k :: k in sm && k != key ==> sm'[k] == sm[k]
    requires key in sm' && st.snapshot.Valid() ==> SameCounts(Aggregate(st.snapshot.Values()), sm'[key].snapshot)
    ensures Reflects(cm[key := st], sm')
  {
    var cm' := cm[key := st];
    forall k
      ensures ReflectsAt(cm', sm', k)
    {
      assert ReflectsAt(cm, sm, k);
    }
  }

  /** A valid snapshot has the same counts as itself. */
  lemma SameCountsRefl(a: JsMap<string, StackInfo>)
    requires a.Valid()
    ensures SameCounts(a, a)
  {
  }

  /** The stacks snapshot after a feed agrees with the container snapshot it was fed. */
  lemma RefeedReflects(st: StacksState, snap: JsMap<string, PsItem>)
    requires st.subs.Valid() && st.snapshot.Valid() && snap.Valid()
    ensures var r := Refeed(st, snap).0;
      && SameCounts(Aggregate(snap.Values()), r.snapshot)
      && r.subs == st.subs && r.containerSubId == st.containerSubId && r.snapshot.Valid()
  {
    SameCountsRefl(Aggregate(snap.Values()));
  }

  /** Feeding a stacks store keeps the state wired. */
  lemma RefeedWired(cm: map<string, CtxState>, sm: map<string, StacksState>, g: nat, key: string)
    requires Wired(cm, sm, g) && key in sm
    ensures key in cm && cm[key].snapshot.Valid() && sm[key].subs.Valid() && sm[key].snapshot.Valid()
    ensures Wired(cm, sm[key := Refeed(sm[key], cm[key].snapshot).0], g)
  {
    assert StacksWired(cm, sm, key);
    assert StoreWired(cm, sm, g, key);
    RefeedReflects(sm[key], cm[key].snapshot);
    UpdateStacks(cm, sm, g, key, Refeed(sm[key], cm[key].snapshot).0);
  }

  /** A container snapshot that changed and was fed to its stacks store leaves the state wired and in step. */
  lemma FeedKeepsState(cm: map<string, CtxState>, cm': map<string, CtxState>, sm: map<string, StacksState>,
                       g: nat, key: string, st: CtxState)
    requires Wired(cm, sm, g) && Reflects(cm, sm) && Wired(cm', sm, g)
    requires cm' == cm[key := st] && st.snapshot.Valid()
    ensures Wired(cm', AfterFeed(sm, key, st.snapshot), g)
    ensures Reflects(cm', AfterFeed(sm, key, st.snapshot))
  {
    if key in sm {
      assert StacksWired(cm', sm, key);
      RefeedWired(cm', sm, g, key);
      RefeedReflects(sm[key], st.snapshot);
    }
    ReflectsAfterFeed(cm, sm, AfterFeed(sm, key, st.snapshot), key, st);
  }

  /** Ending a poll keeps the state wired and in step. */
  lemma SettleKeepsState(cm: map<string, CtxState>, sm: map<string, StacksState>, g: nat, key: string)
    requires Wired(cm, sm, g) && Reflects(cm, sm) && key in cm
    ensures var cm' := cm[key := cm[key].(polling := false)];
      Wired(cm', sm, g) && Reflects(cm', sm)
  {
    assert StoreWired(cm, sm, g, key) && StacksWired(cm, sm, key) && ReflectsAt(cm, sm, key);
    UpdateStore(cm, sm, g, key, cm[key].(polling := false));
    UpdateStoreReflects(cm, sm, key, cm[key].(polling := false));
  }

  /** The record of a store after the stacks feed is set under a fresh id. */
  lemma FeedAdded(cs: CtxState, g: nat, internalId: string)
    requires cs.subs.Valid() && cs.snapshot.Valid() && cs.gen < g
    requires FeedOwner(cs, None) && internalId !in cs.subs.vals
    ensures var cs' := cs.(subs := cs.subs.Set(internalId, StacksFeed));
      StoreOk(cs', g) && FeedOwner(cs', Some(internalId))
      && internalId in cs'.subs.vals && cs'.subs.vals[internalId] == StacksFeed
  {
    var cs' := cs.(subs := cs.subs.Set(internalId, StacksFeed));
    forall x | x in cs'.subs.vals && x != internalId
      ensures cs'.subs.vals[x] != StacksFeed
    {
      assert x in cs.subs.vals && cs'.subs.vals[x] == cs.subs.vals[x];
    }
  }

  /** A new stacks store, fed by the container store of its key, keeps the state wired and in step. */
  lemma AddStacksStore(cm: map<string, CtxState>, sm: map<string, StacksState>, g: nat, key: string,
                       cs: CtxState, internalId: string, id: string, token: nat)
    requires Wired(cm, sm, g) && Reflects(cm, sm) && key !in sm
    requires cs.subs.Valid() && cs.snapshot.Valid() && cs.gen < g
    requires key in cm ==> cs == cm[key]
    requires key !in cm ==> cs.subs.Size() == 0
    requires internalId !in cs.subs.vals
    ensures var cs' := cs.(subs := cs.subs.Set(internalId, StacksFeed));
      var ss := StacksState(Empty<string, nat>().Set(id, token), Aggregate(cs.snapshot.Values()), internalId);
      Wired(cm[key := cs'], sm[key := ss], g) && Reflects(cm[key := cs'], sm[key := ss])
  {
    var cs' := cs.(subs := cs.subs.Set(internalId, StacksFeed));
    var ss := StacksState(Empty<string, nat>().Set(id, token), Aggregate(cs.snapshot.Values()), internalId);
    AddStacksWired(cm, sm, g, key, cs, internalId, id, token, cs', ss, cm[key := cs'], sm[key := ss]);
    AddStacksReflects(cm, sm, key, cs, internalId, id, token);
  }

  lemma AddStacksWired(cm: map<string, CtxState>, sm: map<string, StacksState>, g: nat, key: string,
                       cs: CtxState, internalId: string, id: string, token: nat,
                       cs': CtxState, ss: StacksState, cm': map<string, CtxState>, sm': map<string, StacksState>)
    requires Wired(cm, sm, g) && key !in sm
    requires cs.subs.Valid() && cs.snapshot.Valid() && cs.gen < g
    requires key in cm ==> cs == cm[key]
    requires key !in cm ==> cs.subs.Size() == 0
    requires internalId !in cs.subs.vals
    requires cs' == cs.(subs := cs.subs.Set(internalId, StacksFeed))
    requires ss == StacksState(Empty<string, nat>().Set(id, token), Aggregate(cs.snapshot.Values()), internalId)
    requires cm' == cm[key := cs'] && sm' == sm[key := ss]
    ensures Wired(cm', sm', g)
  {
    assert StacksOk(ss, cs');
    AddFeedStores(cm, sm, g, key, cs, internalId, ss, cm', sm');
    AddFeedStacks(cm, sm, key, cs', ss, cm', sm');
  }

  /** The container stores are wired once the feed is set and the new stacks store names it. */
  lemma AddFeedStores(cm: map<string, CtxState>, sm: map<string, StacksState>, g: nat, key: string,
                      cs: CtxState, internalId: string, ss: StacksState,
                      cm': map<string, CtxState>, sm': map<string, StacksState>)
    requires Wired(cm, sm, g) && key !in sm
    requires cs.subs.Valid() && cs.snapshot.Valid() && cs.gen < g
    requires key in cm ==> cs == cm[key]
    requires key !in cm ==> cs.subs.Size() == 0
    requires internalId !in cs.subs.vals && ss.containerSubId == internalId
    requires cm' == cm[key := cs.(subs := cs.subs.Set(internalId, StacksFeed))] && sm' == sm[key := ss]
    ensures forall k :: k in cm' ==> RecordOk(cm'[k])
    ensures forall k :: StoreWired(cm', sm', g, k)
  {
    var cs' := cs.(subs := cs.subs.Set(internalId, StacksFeed));
    assert StoreWired(cm, sm, g, key);
    if key !in cm {
      SizeZeroIffEmpty(cs.subs);
    }
    FeedAdded(cs, g, internalId);
    forall k
      ensures StoreWired(cm', sm', g, k)
    {
      if k != key {
        StoreWiredFrame(cm, sm, cm', sm', g, k);
      }
    }
    forall k | k in cm'
      ensures RecordOk(cm'[k])
    {
      if k != key {
        assert RecordOk(cm[k]);
      }
    }
  }

  /** The stacks stores are wired once the new one is fed by the feed just set. */
  lemma AddFeedStacks(cm: map<string, CtxState>, sm: map<string, StacksState>, key: string,
                      cs': CtxState, ss: StacksState,
                      cm': map<string, CtxState>, sm': map<string, StacksState>)
    requires forall k :: StacksWired(cm, sm, k)
    requires forall k :: k in sm ==> sm[k].subs.Valid() && sm[k].snapshot.Valid()
    requires key !in sm
    requires StacksOk(ss, cs')
    requires cm' == cm[key := cs'] && sm' == sm[key := ss]
    ensures forall k :: k in sm' ==> sm'[k].subs.Valid() && sm'[k].snapshot.Valid()
    ensures forall k :: StacksWired(cm', sm', k)
  {
    forall k
      ensures StacksWired(cm', sm', k)
    {
      if k != key {
        StacksWiredFrame(cm, sm, cm', sm', k);
      }
    }
  }

  lemma AddStacksReflects(cm: map<string, CtxState>, sm: map<string, StacksState>, key: string,
                          cs: CtxState, internalId: string, id: string, token: nat)
    requires Reflects(cm, sm) && key !in sm
    requires cs.subs.Valid() && cs.snapshot.Valid()
    requires internalId !in cs.subs.vals
    ensures var cs' := cs.(subs := cs.subs.Set(internalId, StacksFeed));
      var ss := StacksState(Empty<string, nat>().Set(id, token), Aggregate(cs.snapshot.Values()), internalId);
      Reflects(cm[key := cs'], sm[key := ss])
  {
    var cs' := cs.(subs := cs.subs.Set(internalId, StacksFeed));
    var ss := StacksState(Empty<string, nat>().Set(id, token), Aggregate(cs.snapshot.Values()), internalId);
    var cm' := cm[key := cs'];
    var sm' := sm[key := ss];
    SameCountsRefl(ss.snapshot);
    forall k
      ensures ReflectsAt(cm', sm', k)
    {
      if k != key {
        ReflectsFrame(cm, sm, cm', sm', k);
      }
    }
  }

  /** Dropping a stacks store together with its feed keeps the state wired. */
  lemma RemoveStacksStore(cm: map<string, CtxState>, sm: map<string, StacksState>, g: nat, key: string)
    requires Wired(cm, sm, g) && Reflects(cm, sm) && key in sm
    ensures Wired(Detach(cm, key, sm[key].containerSubId), sm - {key}, g)
    ensures Reflects(Detach(cm, key, sm[key].containerSubId), sm - {key})
  {
    var cm' := Detach(cm, key, sm[key].containerSubId);
    var sm' := sm - {key};
    RemoveStacksWired(cm, sm, g, key, cm', sm');
    forall k
      ensures ReflectsAt(cm', sm', k)
    {
      if k != key {
        ReflectsFrame(cm, sm, cm', sm', k);
      }
    }
  }

  lemma RemoveStacksWired(cm: map<string, CtxState>, sm: map<string, StacksState>, g: nat, key: string,
                          cm': map<string, CtxState>, sm': map<string, StacksState>)
    requires Wired(cm, sm, g) && key in sm
    requires cm' == Detach(cm, key, sm[key].containerSubId) && sm' == sm - {key}
    ensures Wired(cm', sm', g)
  {
    assert StoreWired(cm, sm, g, key) && StacksWired(cm, sm, key);
    var internalId := sm[key].containerSubId;
    var subs := cm[key].subs.Delete(internalId);
    if subs.Size() != 0 {
      assert cm'[key] == cm[key].(subs := subs);
      forall x | x in subs.vals
        ensures subs.vals[x] != StacksFeed
      {
        assert x != internalId && subs.vals[x] == cm[key].subs.vals[x];
      }
      assert FeedOwner(cm'[key], OwnerIn(sm', key));
    }
    forall k
      ensures StoreWired(cm', sm', g, k) && StacksWired(cm', sm', k)
    {
      if k != key {
        StoreWiredFrame(cm, sm, cm', sm', g, k);
        StacksWiredFrame(cm, sm, cm', sm', k);
      }
    }
    forall k | k in cm'
      ensures RecordOk(cm'[k])
    {
      if k != key {
        assert RecordOk(cm[k]);
      }
    }
  }


  class Registry {
    /** `stores` of `containerStore.ts` */
    var containers: map<string, CtxState>
    /** `stores` of `stacksStore.ts` */
    var stacks: map<string, StacksState>
    /** Every subscriber call so far, in order. */
    var log: seq<Notice>
    /** The identity the next container store gets. */
    var nextGen: nat

    ghost predicate Valid()
      reads this
    {
      Wired(containers, stacks, nextGen) && Reflects(containers, stacks)
    }

    constructor ()
      ensures Valid() && containers == map[] && stacks == map[] && log == [] && nextGen == 0
    {
      containers := map[];
      stacks := map[];
      log := [];
      nextGen := 0;
    }

    /** `getContainersSnapshot` */
    function ContainersSnapshot(c: Context): (r: Option<JsMap<string, PsItem>>)
      reads this
      ensures r.Some? <==> KeyFor(c) in containers
      ensures r.Some? ==> r.value == containers[KeyFor(c)].snapshot
    {
      var key := KeyFor(c);
      if key in containers then Some(containers[key].snapshot) else None
    }

    /** `getStacksSnapshot` */
    function StacksSnapshot(c: Context): (r: Option<JsMap<string, StackInfo>>)
      reads this
      ensures r.Some? <==> KeyFor(c) in stacks
      ensures r.Some? ==> r.value == stacks[KeyFor(c)].snapshot
    {
      var key := KeyFor(c);
      if key in stacks then Some(stacks[key].snapshot) else None
    }

    /**
     * Whatever the poll results, a context's stacks snapshot lists the stacks
     * of its container snapshot with their counts.
     */
    lemma StacksFollowContainers(c: Context)
      requires Valid() && StacksSnapshot(c).Some?
      ensures ContainersSnapshot(c).Some?
      ensures var cs := ContainersSnapshot(c).value; var ss := StacksSnapshot(c).value;
        cs.Valid() && ss.Valid()
        && (forall n :: n in ss.vals <==> CountIn(cs.Values(), n) > 0)
        && (forall n :: n in ss.vals ==>
              ss.vals[n].total == CountIn(cs.Values(), n) && ss.vals[n].running == RunningIn(cs.Values(), n))
    {
      var key := KeyFor(c);
      assert StoreWired(containers, stacks, nextGen, key) && StacksWired(containers, stacks, key);
      assert ReflectsAt(containers, stacks, key);
      var cs := containers[key].snapshot;
      var ss := stacks[key].snapshot;
      SameCountsIff(Aggregate(cs.Values()), ss);
      forall n
        ensures n in ss.vals <==> CountIn(cs.Values(), n) > 0
        ensures n in ss.vals ==>
          ss.vals[n].total == CountIn(cs.Values(), n) && ss.vals[n].running == RunningIn(cs.Values(), n)
      {
        AggregateCounts(cs.Values(), n);
      }
    }

    /** The `stores.get(key)` of `subscribeContainers`, or a new record with the next identity when there is none. */
    method StoreFor(key: string, interval: nat) returns (st: CtxState)
      requires Valid()
      modifies this`nextGen
      ensures Valid()
      ensures key in containers ==> st == containers[key] && nextGen == old(nextGen)
      ensures key !in containers ==> st == NewStore(old(nextGen), interval) && nextGen == old(nextGen) + 1
      ensures st.subs.Valid() && st.snapshot.Valid() && st.gen < nextGen
    {
      if key in containers {
        assert StoreWired(containers, stacks, nextGen, key);
        st := containers[key];
      } else {
        st := NewStore(nextGen, interval);
        NextGen(containers, stacks, nextGen);
        nextGen := nextGen + 1;
      }
    }

    /**
     * `subscribeContainers(c, id, sub, intervalMs)` by an outside subscriber:
     * the store is made on first use (polling every `intervalMs`, 1500 by
     * default; later subscribers' periods are ignored), the subscriber is set
     * under `id`, and it is called at once when the snapshot is not empty.
     */
    method SubscribeContainers(c: Context, id: string, token: nat, intervalMs: Option<nat>)
      requires Valid()
      requires KeyFor(c) in stacks ==> id != stacks[KeyFor(c)].containerSubId
      modifies this
      ensures Valid()
      ensures var key := KeyFor(c);
        var st := if key in old(containers) then old(containers)[key]
                  else NewStore(old(nextGen), intervalMs.GetOr(DEFAULT_INTERVAL_MS));
        && containers == old(containers)[key := st.(subs := st.subs.Set(id, External(token)))]
        && log == old(log) + (if st.snapshot.Size() > 0 then [ContainersTo(token, st.snapshot)] else [])
      ensures nextGen == if KeyFor(c) in old(containers) then old(nextGen) else old(nextGen) + 1
      ensures stacks == old(stacks)
    {
      var key := KeyFor(c);
      assert StoreWired(containers, stacks, nextGen, key);
      var st := StoreFor(key, intervalMs.GetOr(DEFAULT_INTERVAL_MS));
      AddExternal(containers, stacks, nextGen, key, st, id, token);
      st := st.(subs := st.subs.Set(id, External(token)));
      containers := containers[key := st];
      if st.snapshot.Size() > 0 {
        log := log + [ContainersTo(token, st.snapshot)];
      }
    }

    /** `unsubscribeContainers(c, id)` by an outside subscriber: the last one to leave deletes the store and its timer. */
    method UnsubscribeContainers(c: Context, id: string)
      requires Valid()
      requires KeyFor(c) in stacks ==> id != stacks[KeyFor(c)].containerSubId
      modifies this
      ensures Valid()
      ensures containers == Detach(old(containers), KeyFor(c), id)
      ensures stacks == old(stacks) && log == old(log) && nextGen == old(nextGen)
    {
      var key := KeyFor(c);
      if key !in containers {
        return;
      }
      ContainerSubscriberDropped(containers, stacks, nextGen, key, id);
      var st := containers[key];
      var subs := st.subs.Delete(id);
      if subs.Size() == 0 {
        containers := containers - {key};
      } else {
        containers := containers[key := st.(subs := subs)];
      }
    }

    /**
     * `subscribeStacks(c, id, sub)`. On first use the stacks store subscribes
     * to the container store of the context under `internalId` (the random
     * `stacks-…` id) and starts from the aggregate of the container snapshot;
     * the container store's immediate call of the feed, if any, reaches no
     * stacks subscriber yet. Then the subscriber is set and called at once when
     * the stacks snapshot is not empty.
     */
    method SubscribeStacks(c: Context, id: string, token: nat, internalId: string)
      requires Valid()
      requires KeyFor(c) !in stacks && KeyFor(c) in containers ==> internalId !in containers[KeyFor(c)].subs.vals
      modifies this
      ensures Valid()
      ensures var key := KeyFor(c);
        key in old(stacks) ==>
          var st := old(stacks)[key];
          && stacks == old(stacks)[key := st.(subs := st.subs.Set(id, token))]
          && containers == old(containers) && nextGen == old(nextGen)
          && log == old(log) + (if st.snapshot.Size() > 0 then [StacksTo(token, st.snapshot)] else [])
      ensures var key := KeyFor(c);
        key !in old(stacks) ==>
          var cs := if key in old(containers) then old(containers)[key] else NewStore(old(nextGen), DEFAULT_INTERVAL_MS);
          var agg := Aggregate(cs.snapshot.Values());
          && containers == old(containers)[key := cs.(subs := cs.subs.Set(internalId, StacksFeed))]
          && stacks == old(stacks)[key := StacksState(Empty<string, nat>().Set(id, token), agg, internalId)]
          && nextGen == (if key in old(containers) then old(nextGen) else old(nextGen) + 1)
          && log == old(log) + (if agg.Size() > 0 then [StacksTo(token, agg)] else [])
    {
      var key := KeyFor(c);
      var st;
      if key in stacks {
        st := AddStacksSubscriber(key, id, token);
      } else {
        st := CreateStacksStore(key, id, token, internalId);
      }
      if st.snapshot.Size() > 0 {
        log := log + [StacksTo(token, st.snapshot)];
      }
    }

    /** `st.subs.set(id, sub)` on an existing stacks store. */
    method AddStacksSubscriber(key: string, id: string, token: nat) returns (st: StacksState)
      requires Valid() && key in stacks
      modifies this`stacks
      ensures Valid()
      ensures st == old(stacks)[key].(subs := old(stacks)[key].subs.Set(id, token))
      ensures stacks == old(stacks)[key := st]
    {
      assert StacksWired(containers, stacks, key) && ReflectsAt(containers, stacks, key);
      st := stacks[key];
      st := st.(subs := st.subs.Set(id, token));
      UpdateStacks(containers, stacks, nextGen, key, st);
      UpdateStacksReflects(containers, stacks, key, st);
      stacks := stacks[key := st];
    }

    /** The first `subscribeStacks` of a context: the stacks store, its feed and its first subscriber. */
    method CreateStacksStore(key: string, id: string, token: nat, internalId: string) returns (st: StacksState)
      requires Valid() && key !in stacks
      requires key in containers ==> internalId !in containers[key].subs.vals
      modifies this`stacks, this`containers, this`nextGen
      ensures Valid()
      ensures var cs := if key in old(containers) then old(containers)[key] else NewStore(old(nextGen), DEFAULT_INTERVAL_MS);
        && st == StacksState(Empty<string, nat>().Set(id, token), Aggregate(cs.snapshot.Values()), internalId)
        && containers == old(containers)[key := cs.(subs := cs.subs.Set(internalId, StacksFeed))]
        && stacks == old(stacks)[key := st]
        && nextGen == (if key in old(containers) then old(nextGen) else old(nextGen) + 1)
    {
      var cs := StoreFor(key, DEFAULT_INTERVAL_MS);
      var agg := AggregateStacks(cs.snapshot);
      AddStacksStore(containers, stacks, nextGen, key, cs, internalId, id, token);
      containers := containers[key := cs.(subs := cs.subs.Set(internalId, StacksFeed))];
      st := StacksState(Empty<string, nat>().Set(id, token), agg, internalId);
      stacks := stacks[key := st];
    }

    /**
     * `unsubscribeStacks(c, id)`: the last stacks subscriber to leave removes
     * the internal container subscription (and with it, if it was the last,
     * the container store) and deletes the stacks store.
     */
    method UnsubscribeStacks(c: Context, id: string)
      requires Valid()
      modifies this
      ensures Valid()
      ensures var key := KeyFor(c);
        key !in old(stacks) ==> stacks == old(stacks) && containers == old(containers)
      ensures var key := KeyFor(c);
        key in old(stacks) ==>
          var st := old(stacks)[key];
          var subs := st.subs.Delete(id);
          if subs.Size() == 0 then
            stacks == old(stacks) - {key} && containers == Detach(old(containers), key, st.containerSubId)
          else
            stacks == old(stacks)[key := st.(subs := subs)] && containers == old(containers)
      ensures log == old(log) && nextGen == old(nextGen)
    {
      var key := KeyFor(c);
      if key !in stacks {
        return;
      }
      var st := stacks[key];
      var subs := st.subs.Delete(id);
      if subs.Size() == 0 {
        DropStacksStore(key);
      } else {
        StacksSubscriberDropped(containers, stacks, nextGen, key, id);
        stacks := stacks[key := st.(subs := subs)];
      }
    }

    /** `unsubscribeContainers(ctx, st.containerSubId)` and `stores.delete(key)` of `unsubscribeStacks`. */
    method DropStacksStore(key: string)
      requires Valid() && key in stacks
      modifies this`stacks, this`containers
      ensures Valid()
      ensures stacks == old(stacks) - {key}
      ensures containers == Detach(old(containers), key, old(stacks)[key].containerSubId)
    {
      assert StacksWired(containers, stacks, key);
      RemoveStacksStore(containers, stacks, nextGen, key);
      containers := Detach(containers, key, stacks[key].containerSubId);
      stacks := stacks - {key};
    }

    /**
     * The synchronous part of `tick(key)`: nothing when the store is gone or
     * already polling; else it is marked polling and `listContainers(true, …)`
     * is to run on the returned context, for the store of the returned identity.
     */
    method TickStart(key: string) returns (poll: Option<(nat, Context)>)
      requires Valid()
      modifies this
      ensures Valid()
      ensures key !in old(containers) || old(containers)[key].polling ==> poll.None? && containers == old(containers)
      ensures key in old(containers) && !old(containers)[key].polling ==>
        && poll == Some((old(containers)[key].gen, ContextOfKey(key)))
        && containers == old(containers)[key := old(containers)[key].(polling := true)]
      ensures stacks == old(stacks) && log == old(log) && nextGen == old(nextGen)
    {
      if key !in containers || containers[key].polling {
        return None;
      }
      assert StoreWired(containers, stacks, nextGen, key) && StacksWired(containers, stacks, key);
      assert ReflectsAt(containers, stacks, key);
      var st := containers[key].(polling := true);
      UpdateStore(containers, stacks, nextGen, key, st);
      UpdateStoreReflects(containers, stacks, key, st);
      containers := containers[key := st];
      return Some((st.gen, ContextOfKey(key)));
    }

    /**
     * The rest of `tick`, once the listing of the store with identity `gen`
     * came back (`None` when it threw). A store deleted meanwhile is a
     * detached object nobody reads: nothing visible happens. Otherwise, when
     * the listing differs from the snapshot by the change test, it becomes the
     * snapshot and every subscriber is called with it in subscription order,
     * the stacks feed among them; in every case polling ends.
     */
    method TickFinish(key: string, gen: nat, result: Option<seq<PsItem>>)
      requires Valid()
      modifies this`containers, this`stacks, this`log
      ensures Valid()
      ensures !(key in old(containers) && old(containers)[key].gen == gen) ==>
        containers == old(containers) && stacks == old(stacks) && log == old(log)
      ensures key in old(containers) && old(containers)[key].gen == gen ==>
        var st := old(containers)[key];
        if result.Some? && Differs(ByName(result.value), st.snapshot) then
          var next := ByName(result.value);
          && containers == old(containers)[key := st.(snapshot := next, polling := false)]
          && stacks == AfterFeed(old(stacks), key, next)
          && log == old(log) + ContainerNotices(st.subs.order, st.subs.vals, next, FeedNotices(old(stacks), key, next))
        else
          containers == old(containers)[key := st.(polling := false)] && stacks == old(stacks) && log == old(log)
    {
      if key !in containers || containers[key].gen != gen {
        return;
      }
      var cm, sm, calls := ApplyListing(containers, stacks, nextGen, key, result);
      containers, stacks := cm, sm;
      log := log + calls;
    }
  }

  /**
   * The live store of `key` receives a listing: the new map of container
   * stores, the new map of stacks stores, and the subscriber calls made.
   */
  method ApplyListing(cm: map<string, CtxState>, sm: map<string, StacksState>, g: nat, key: string,
                      result: Option<seq<PsItem>>)
      returns (cm': map<string, CtxState>, sm': map<string, StacksState>, calls: seq<Notice>)
    requires Wired(cm, sm, g) && Reflects(cm, sm) && key in cm
    ensures Wired(cm', sm', g) && Reflects(cm', sm')
    ensures var st := cm[key];
      if result.Some? && Differs(ByName(result.value), st.snapshot) then
        var next := ByName(result.value);
        && cm' == cm[key := st.(snapshot := next, polling := false)]
        && sm' == AfterFeed(sm, key, next)
        && calls == ContainerNotices(st.subs.order, st.subs.vals, next, FeedNotices(sm, key, next))
      else
        cm' == cm[key := st.(polling := false)] && sm' == sm && calls == []
  {
    cm', sm', calls := cm, sm, [];
    if result.Some? {
      var next := IndexByName(result.value);
      var changed := DetectChange(next, cm[key].snapshot);
      if changed {
        cm', sm', calls := Publish(cm, sm, g, key, next);
      }
    }
    // finally { st.polling = false }
    SettleKeepsState(cm', sm', g, key);
    cm' := cm'[key := cm'[key].(polling := false)];
  }

  /** `st.snapshot = next`, then every subscriber of the store of `key` is called with it. */
  method Publish(cm: map<string, CtxState>, sm: map<string, StacksState>, g: nat, key: string,
                 next: JsMap<string, PsItem>)
      returns (cm': map<string, CtxState>, sm': map<string, StacksState>, calls: seq<Notice>)
    requires Wired(cm, sm, g) && Reflects(cm, sm) && key in cm && next.Valid()
    ensures Wired(cm', sm', g) && Reflects(cm', sm')
    ensures var st := cm[key];
      && cm' == cm[key := st.(snapshot := next)]
      && sm' == AfterFeed(sm, key, next)
      && calls == ContainerNotices(st.subs.order, st.subs.vals, next, FeedNotices(sm, key, next))
  {
    assert StoreWired(cm, sm, g, key) && StacksWired(cm, sm, key);
    var st := cm[key].(snapshot := next);
    UpdateStore(cm, sm, g, key, st);
    cm' := cm[key := st];
    assert StacksWired(cm', sm, key);
    sm', calls := NotifyContainers(st, sm, key);
    FeedKeepsState(cm, cm', sm, g, key, st);
  }

  /**
   * `for (const [, cb] of st.subs) cb(st.snapshot)` in `tick`: the stacks
   * stores after the fan-out of the container snapshot of `key`, and the
   * subscriber calls made, in order.
   */
  method NotifyContainers(cs: CtxState, sm: map<string, StacksState>, key: string)
      returns (sm': map<string, StacksState>, calls: seq<Notice>)
    requires RecordOk(cs) && FeedOwner(cs, OwnerIn(sm, key))
    requires key in sm ==> StacksOk(sm[key], cs)
    ensures sm' == AfterFeed(sm, key, cs.snapshot)
    ensures calls == ContainerNotices(cs.subs.order, cs.subs.vals, cs.snapshot, FeedNotices(sm, key, cs.snapshot))
  {
    var ids := cs.subs.order;
    ghost var feed := FeedNotices(sm, key, cs.snapshot);
    sm' := sm;
    calls := [];
    var i := 0;
    while i < |ids|
      invariant 0 <= i <= |ids|
      invariant sm' == if Fed(sm, key, ids[..i]) then AfterFeed(sm, key, cs.snapshot) else sm
      invariant calls == ContainerNotices(ids[..i], cs.subs.vals, cs.snapshot, feed)
    {
      var id := ids[i];
      FedStep(cs, sm, key, i);
      ContainerNoticesStep(ids, cs.subs.vals, cs.snapshot, feed, i);
      match cs.subs.vals[id] {
        case External(t) =>
          calls := calls + [ContainersTo(t, cs.snapshot)];
        case StacksFeed =>
          var st, fedCalls := FeedStacks(sm'[key], cs.snapshot);
          sm' := sm'[key := st];
          calls := calls + fedCalls;
      }
      i := i + 1;
    }
    assert ids[..i] == ids;
  }

  /** The stacks store of `key` has been fed once its feed is among the subscribers `done`. */
  ghost predicate Fed(sm: map<string, StacksState>, key: string, done: seq<string>) {
    key in sm && sm[key].containerSubId in done
  }

  /** Visiting the subscriber at `i` feeds the stacks store exactly when it is the feed, and only once. */
  lemma FedStep(cs: CtxState, sm: map<string, StacksState>, key: string, i: nat)
    requires RecordOk(cs) && FeedOwner(cs, OwnerIn(sm, key))
    requires key in sm ==> StacksOk(sm[key], cs)
    requires i < |cs.subs.order|
    ensures var ids := cs.subs.order;
      && !(cs.subs.vals[ids[i]].StacksFeed? && Fed(sm, key, ids[..i]))
      && (Fed(sm, key, ids[..i + 1]) <==> Fed(sm, key, ids[..i]) || cs.subs.vals[ids[i]].StacksFeed?)
  {
    var ids := cs.subs.order;
    assert ids[..i + 1] == ids[..i] + [ids[i]];
    if cs.subs.vals[ids[i]].StacksFeed? {
      assert OwnerIn(sm, key) == Some(ids[i]);
      assert ids[i] !in ids[..i];
    }
  }

  lemma ContainerNoticesStep(ids: seq<string>, subs: map<string, Callback>, payload: JsMap<string, PsItem>,
                             feed: seq<Notice>, i: nat)
    requires forall j :: 0 <= j < |ids| ==> ids[j] in subs
    requires i < |ids|
    ensures ContainerNotices(ids[..i + 1], subs, payload, feed)
      == ContainerNotices(ids[..i], subs, payload, feed)
         + match subs[ids[i]]
           case External(t) => [ContainersTo(t, payload)]
           case StacksFeed => feed
  {
    assert ids[..i + 1][..i] == ids[..i];
  }

  /** The stacks store's callback on a new container snapshot: its new record and the calls it makes. */
  method FeedStacks(st: StacksState, containers: JsMap<string, PsItem>) returns (st': StacksState, calls: seq<Notice>)
    requires st.subs.Valid() && containers.Valid()
    ensures (st', calls) == Refeed(st, containers)
  {
    var agg := AggregateStacks(containers);
    var eq := AreEqual(agg, st.snapshot);
    if eq {
      return st, [];
    }
    st' := st.(snapshot := agg);
    calls := StacksCalls(st.subs, agg);
  }

  /** `for (const [, cb] of st.subs) cb(st.snapshot)` in the stacks feed: the calls made, in order. */
  method StacksCalls(subs: JsMap<string, nat>, payload: JsMap<string, StackInfo>) returns (calls: seq<Notice>)
    requires subs.Valid()
    ensures calls == StacksNotices(subs.order, subs.vals, payload)
  {
    calls := [];
    var i := 0;
    while i < |subs.order|
      invariant 0 <= i <= |subs.order|
      invariant calls == StacksNotices(subs.order[..i], subs.vals, payload)
    {
      assert subs.order[..i + 1][..i] == subs.order[..i];
      calls := calls + [StacksTo(subs.vals[subs.order[i]], payload)];
      i := i + 1;
    }
    assert subs.order[..i] == subs.order;
  }
}
