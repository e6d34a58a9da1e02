/**
 * The pure parts of `containerStore.ts`: the store key of a context and the
 * change test a poll applies before it replaces the snapshot.
 */
module ContainerStore {
  import opened Wrappers
  import opened OrderedMaps
  import opened DockerCli

  /** The key under which the daemon of the default context is polled. */
  const LOCAL_KEY := "__local__"

  /** `keyFor`: the context's name, or `__local__` when it is absent or empty. */
  function KeyFor(c: Context): (k: string)
    ensures k != ""
  {
    if Named(c) then c.value else LOCAL_KEY
  }

  /** The context a poll of `key` lists: none for `__local__`, else the key itself. */
  function ContextOfKey(key: string): (c: Context)
    ensures c.None? <==> key == LOCAL_KEY
  {
    if key == LOCAL_KEY then None else Some(key)
  }

  /**
   * A poll lists the daemon of the context the store was made for, except for
   * a context literally named `__local__`, which shares the default's store
   * and is polled as the default daemon.
   */
  lemma PollsOwnContext(c: Context)
    ensures ContextOfKey(KeyFor(c)) == if Named(c) && c.value != LOCAL_KEY then c else None
  {
  }

  /** Every key in use maps back to itself. */
  lemma KeyOfPolledContext(key: string)
    requires key != ""
    ensures KeyFor(ContextOfKey(key)) == key
  {
  }

  /** The default context and one named `__local__` share a store. */
  lemma LocalNameCollides()
    ensures KeyFor(Some(LOCAL_KEY)) == KeyFor(None) && KeyFor(Some("")) == KeyFor(None)
  {
  }

  /** A name of `next` that `snap` lacks or holds with another state. */
  predicate StateChanged(next: JsMap<string, PsItem>, snap: JsMap<string, PsItem>, name: string) {
    name in next.vals && (name !in snap.vals || snap.vals[name].state != next.vals[name].state)
  }

  /** The change test of `tick`: another size, or a name of `next` that is new or changed state. */
  predicate Differs(next: JsMap<string, PsItem>, snap: JsMap<string, PsItem>) {
    next.Size() != snap.Size() || exists i :: 0 <= i < |next.order| && StateChanged(next, snap, next.order[i])
  }

  /** The test in `tick`, which stops at the first name that differs. */
  method DetectChange(next: JsMap<string, PsItem>, snap: JsMap<string, PsItem>) returns (changed: bool)
    requires next.Valid()
    ensures changed == Differs(next, snap)
  {
    if next.Size() != snap.Size() {
      return true;
    }
    changed := false;
    var i := 0;
    while i < |next.order|
      invariant 0 <= i <= |next.order|
      invariant forall j :: 0 <= j < i ==> !StateChanged(next, snap, next.order[j])
    {
      var name := next.order[i];
      var prev := snap.Get(name);
      if prev.None? || prev.value.state != next.vals[name].state {
        changed := true;
        break;
      }
      i := i + 1;
    }
  }

  /**
   * Two snapshots count as unchanged exactly when they hold the same names
   * with the same states: labels and order play no part.
   */
  lemma DiffersIff(next: JsMap<string, PsItem>, snap: JsMap<string, PsItem>)
    requires next.Valid() && snap.Valid()
    ensures !Differs(next, snap) <==>
      (next.vals.Keys == snap.vals.Keys && forall n :: n in next.vals ==> next.vals[n].state == snap.vals[n].state)
  {
    SizeIsKeyCount(next);
    SizeIsKeyCount(snap);
    if !Differs(next, snap) {
      forall n | n in next.vals
        ensures n in snap.vals && next.vals[n].state == snap.vals[n].state
      {
        var i :| 0 <= i < |next.order| && next.order[i] == n;
        assert !StateChanged(next, snap, next.order[i]);
      }
      SubsetSameSize(next.vals.Keys, snap.vals.Keys);
    }
  }
}
