/**
 * `contextHealth.ts`: one monitor per context, which pings the context every
 * second and tells its subscribers whether the daemon is up, but only when
 * the answer changes. A monitor starts with no answer, so its first ping
 * always reports. The interval timer is left to the caller: a tick is
 * `TickStart` (up to the `await` of the ping) followed by `TickFinish` with
 * the ping's answer, `None` when it threw.
 */
module ContextHealth {
  import opened Wrappers
  import opened OrderedMaps
  import opened DockerCli
  import opened ContainerStore

  /** A monitor: `gen` stands for the object's identity, `up` for the last answer (undefined at first). */
  datatype Monitor = Monitor(gen: nat, up: Option<bool>, subs: JsMap<string, nat>)

  /** One call of a subscriber with the answer passed to it. */
  datatype HealthNotice = HealthTo(token: nat, up: bool)

  /** The calls of the subscribers `ids`, in order, with `up`. */
  function HealthNotices(ids: seq<string>, subs: map<string, nat>, up: bool): (r: seq<HealthNotice>)
    requires forall i :: 0 <= i < |ids| ==> ids[i] in subs
    ensures |r| == |ids|
    ensures forall i :: 0 <= i < |ids| ==> r[i] == HealthTo(subs[ids[i]], up)
  {
    if ids == [] then [] else HealthNotices(ids[..|ids| - 1], subs, up) + [HealthTo(subs[ids[|ids| - 1]], up)]
  }

  /** What a ping's outcome reports: a ping that threw counts as down. */
  function Reported(probe: Option<bool>): bool {
    probe.GetOr(false)
  }

  /**
   * A monitor receiving the answer `up`: it always holds `up` afterwards, and
   * its subscribers hear of it, each once, exactly when it is a change.
   */
  function Observe(m: Monitor, up: bool): (r: (Monitor, seq<HealthNotice>))
    requires m.subs.Valid()
    ensures r.0 == m.(up := Some(up))
    ensures r.1 == [] <==> m.up == Some(up) || m.subs.Size() == 0
    ensures r.1 != [] ==> forall i :: 0 <= i < |r.1| ==> r.1[i].up == up
  {
    if m.up != Some(up) then (m.(up := Some(up)), HealthNotices(m.subs.order, m.subs.vals, up)) else (m, [])
  }

  /** The same answer twice reports at most once. */
  lemma ObserveSteady(m: Monitor, up: bool)
    requires m.subs.Valid()
    ensures Observe(Observe(m, up).0, up) == (Observe(m, up).0, [])
  {
  }

  /** A monitor with subscribers reports its first answer, whatever it is. */
  lemma FirstAnswerReports(m: Monitor, up: bool)
    requires m.subs.Valid() && m.subs.Size() > 0 && m.up.None?
    ensures |Observe(m, up).1| == m.subs.Size()
  {
  }

  /** Every monitor has subscribers and an identity below the next one handed out. */
  ghost predicate MonitorOk(m: Monitor, nextGen: nat) {
    m.subs.Valid() && m.subs.Size() > 0 && m.gen < nextGen
  }

  /** The module-level `monitors` map, with the calls of the subscribers in `log`. */
  class HealthMonitors {
    var monitors: map<string, Monitor>
    var log: seq<HealthNotice>
    var nextGen: nat

    ghost predicate Valid()
      reads this
    {
      forall k :: k in monitors ==> MonitorOk(monitors[k], nextGen)
    }

    constructor()
      ensures Valid() && monitors == map[] && log == []
    {
      monitors := map[];
      log := [];
      nextGen := 0;
    }

    /** `subscribeContextHealth`: the first subscriber creates the monitor; nobody is called yet. */
    method Subscribe(c: Context, id: string, token: nat)
      requires Valid()
      modifies this
      ensures Valid()
      ensures var key := KeyFor(c);
        var m := if key in old(monitors) then old(monitors)[key] else Monitor(old(nextGen), None, Empty());
        monitors == old(monitors)[key := m.(subs := m.subs.Set(id, token))]
      ensures log == old(log)
    {
      var key := KeyFor(c);
      var m;
      if key in monitors {
        m := monitors[key];
      } else {
        m := Monitor(nextGen, None, Empty());
        nextGen := nextGen + 1;
      }
      m := m.(subs := m.subs.Set(id, token));
      monitors := monitors[key := m];
      forall k | k in monitors
        ensures MonitorOk(monitors[k], nextGen)
      {
        if k != key {
          assert MonitorOk(old(monitors)[k], old(nextGen));
        }
      }
    }

    /** `unsubscribeContextHealth`: the id leaves, and a monitor left without subscribers is deleted. */
    method Unsubscribe(c: Context, id: string)
      requires Valid()
      modifies this`monitors
      ensures Valid()
      ensures var key := KeyFor(c);
        key !in old(monitors) ==> monitors == old(monitors)
      ensures var key := KeyFor(c);
        key in old(monitors) ==>
          var subs := old(monitors)[key].subs.Delete(id);
          monitors == if subs.Size() == 0 then old(monitors) - {key} else old(monitors)[key := old(monitors)[key].(subs := subs)]
    {
      var key := KeyFor(c);
      if key !in monitors {
        return;
      }
      assert MonitorOk(monitors[key], nextGen);
      var subs := monitors[key].subs.Delete(id);
      if subs.Size() == 0 {
        monitors := monitors - {key};
      } else {
        monitors := monitors[key := monitors[key].(subs := subs)];
      }
    }

    /**
     * The synchronous part of `tick(key)`: nothing without a monitor, else
     * the ping is to run on the monitor's own context, for the monitor of
     * the returned identity.
     */
    method TickStart(key: string) returns (probe: Option<(nat, Context)>)
      ensures probe.None? <==> key !in monitors
      ensures probe.Some? ==> probe.value.0 == monitors[key].gen && probe.value.1 == ContextOfKey(key)
      ensures probe.Some? && key != "" ==> KeyFor(probe.value.1) == key
    {
      if key !in monitors {
        return None;
      }
      if key != "" {
        KeyOfPolledContext(key);
      }
      return Some((monitors[key].gen, ContextOfKey(key)));
    }

    /**
     * The rest of `tick` once the ping of the monitor with identity `gen`
     * answered (`None`: it threw). A monitor deleted meanwhile has no
     * subscribers left: nothing visible happens.
     */
    method TickFinish(key: string, gen: nat, probe: Option<bool>)
      requires Valid()
      modifies this`monitors, this`log
      ensures Valid()
      ensures !(key in old(monitors) && old(monitors)[key].gen == gen) ==>
        monitors == old(monitors) && log == old(log)
      ensures key in old(monitors) && old(monitors)[key].gen == gen ==>
        var r := Observe(old(monitors)[key], Reported(probe));
        monitors == old(monitors)[key := r.0] && log == old(log) + r.1
    {
      if key !in monitors || monitors[key].gen != gen {
        return;
      }
      var m := monitors[key];
      assert MonitorOk(m, nextGen);
      match probe {
        case Some(up) =>
          if m.up != Some(up) {
            m := m.(up := Some(up));
            var calls := HealthCalls(m.subs, up);
            log := log + calls;
          }
        case None =>
          if m.up != Some(false) {
            m := m.(up := Some(false));
            var calls := HealthCalls(m.subs, false);
            log := log + calls;
          }
      }
      monitors := monitors[key := m];
      assert forall k :: k in old(monitors) ==> MonitorOk(old(monitors)[k], nextGen);
    }
  }

  /** `for (const [, fn] of m.subs) fn(up)`: the calls made, in order. */
  method HealthCalls(subs: JsMap<string, nat>, up: bool) returns (calls: seq<HealthNotice>)
    requires subs.Valid()
    ensures calls == HealthNotices(subs.order, subs.vals, up)
  {
    calls := [];
    var i := 0;
    while i < |subs.order|
      invariant 0 <= i <= |subs.order|
      invariant calls == HealthNotices(subs.order[..i], subs.vals, up)
    {
      assert subs.order[..i + 1][..i] == subs.order[..i];
      calls := calls + [HealthTo(subs.vals[subs.order[i]], up)];
      i := i + 1;
    }
    assert subs.order[..i] == subs.order;
  }
}
