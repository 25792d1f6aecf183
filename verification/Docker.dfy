/**
 scoped.go: the daemon as seen through the eight scoped operations, and `Recreate`,
 which composes them. A container is created once with a fixed description; only
 whether it exists and whether it runs change. Ids are never issued twice, names are
 unique among existing containers, and any operation may fail without effect.
 */
module Docker {
  import opened GoStrings

  type Id = string
  type Labels = map<string, string>

  /** The part of a container's configuration that is carried from one creation to the next. */
  datatype Config = Config(image: string, labels: Labels, rest: string)

  /** A container as created; the daemon may answer an inspection without the Config block. */
  datatype Container = Container(name: string, config: Option<Config>, host: string, networks: map<string, string>) {
    function Image(): string {
      if config.Some? then config.value.image else ""
    }

    function LabelsOf(): Labels {
      if config.Some? then config.value.labels else map[]
    }

    /** The description Recreate asks for: everything as before except the image. */
    function WithImage(ref: string): Container {
      if config.Some? then this.(config := Some(config.value.(image := ref))) else this
    }
  }

  /** `born`: every container ever created; `live`: those that still exist, and whether they run. */
  datatype Daemon = Daemon(born: map<Id, Container>, live: map<Id, bool>) {
    ghost predicate Consistent() {
      live.Keys <= born.Keys
      && forall i, j | i in live && j in live :: born[i].name == born[j].name ==> i == j
    }

    predicate NameFree(name: string) {
      forall i | i in live && i in born :: born[i].name != name
    }

    ghost predicate Holds(name: string) {
      exists i :: i in live && i in born && born[i].name == name
    }
  }

  // ---- Recreate as a protocol -----------------------------------------------

  /** The operation a call is about to perform; with `failed`, the one that ended it. */
  datatype Stage = Inspect | Pull | Stop | Remove | Create | Start | Done

  datatype Call = Call(target: Id, ref: string, stage: Stage, failed: bool, spec: Container, newId: Id) {
    predicate Finished() {
      failed || stage == Done
    }

    predicate Succeeded() {
      !failed && stage == Done
    }

    predicate PastInspect() {
      stage != Inspect
    }

    predicate PastStop() {
      stage in {Remove, Create, Start, Done}
    }

    predicate PastRemove() {
      stage in {Create, Start, Done}
    }

    predicate PastCreate() {
      stage in {Start, Done}
    }
  }

  function NewCall(target: Id, ref: string): Call {
    Call(target, ref, Inspect, false, Container("", None, "", map[]), "")
  }

  /**
   One daemon operation of one call. `ok` is whether the daemon grants it, `id` the id it
   would issue; an operation on a container that is gone, or under a taken name, fails anyway.
   */
  function Advance(d: Daemon, c: Call, ok: bool, id: Id): (Daemon, Call) {
    if c.Finished() then (d, c)
    else match c.stage
      case Inspect =>
        if ok && c.target in d.live && c.target in d.born && d.born[c.target].config.Some?
        then (d, c.(stage := Pull, spec := d.born[c.target].WithImage(c.ref)))
        else (d, c.(failed := true))
      case Pull =>
        if ok then (d, c.(stage := Stop)) else (d, c.(failed := true))
      case Stop =>
        if ok && c.target in d.live
        then (d.(live := d.live[c.target := false]), c.(stage := Remove))
        else (d, c.(failed := true))
      case Remove =>
        if ok && c.target in d.live
        then (d.(live := d.live - {c.target}), c.(stage := Create))
        else (d, c.(failed := true))
      case Create =>
        if ok && id !in d.born && id != "" && d.NameFree(c.spec.name)
        then (Daemon(d.born[id := c.spec], d.live[id := false]), c.(stage := Start, newId := id))
        else (d, c.(failed := true))
      case Start =>
        if ok && c.newId in d.live
        then (d.(live := d.live[c.newId := true]), c.(stage := Done))
        else (d, c.(failed := true))
      case Done => (d, c)
  }

  lemma AdvanceKeepsConsistent(d: Daemon, c: Call, ok: bool, id: Id)
    requires d.Consistent()
    ensures Advance(d, c, ok, id).0.Consistent()
    ensures forall i | i in d.born :: i in Advance(d, c, ok, id).0.born && Advance(d, c, ok, id).0.born[i] == d.born[i]
  {
  }

  /** What a call that has come so far knows about the daemon, whatever others did meanwhile. */
  ghost predicate CallSound(d: Daemon, c: Call) {
    && (c.PastInspect() ==>
          c.target in d.born && d.born[c.target].config.Some? && c.spec == d.born[c.target].WithImage(c.ref))
    && (c.PastRemove() ==> c.target !in d.live)
    && (c.PastCreate() ==> c.newId in d.born && d.born[c.newId] == c.spec)
  }

  /** Two calls never both removed the same container or were issued the same id. */
  ghost predicate NoRivals(a: Call, b: Call) {
    && !(a.target == b.target && a.PastRemove() && b.PastRemove())
    && !(a.newId == b.newId && a.PastCreate() && b.PastCreate())
  }

  /** A daemon and a call after the call's first `k` operations, run on its own. */
  function Solo(d: Daemon, c: Call, oks: seq<bool>, k: nat, id: Id): (Daemon, Call)
    requires k <= |oks|
  {
    if k == 0 then (d, c)
    else
      var (d1, c1) := Solo(d, c, oks, k - 1, id);
      Advance(d1, c1, oks[k - 1], id)
  }

  lemma {:induction false} SoloKeepsConsistent(d: Daemon, c: Call, oks: seq<bool>, k: nat, id: Id)
    requires d.Consistent() && k <= |oks|
    ensures Solo(d, c, oks, k, id).0.Consistent()
  {
    if k > 0 {
      SoloKeepsConsistent(d, c, oks, k - 1, id);
      var (d1, c1) := Solo(d, c, oks, k - 1, id);
      AdvanceKeepsConsistent(d1, c1, oks[k - 1], id);
    }
  }

  /** A refused operation ends the call: nothing happens after it. */
  lemma {:induction false} SoloStays(d: Daemon, c: Call, oks: seq<bool>, k: nat, n: nat, id: Id)
    requires k <= n <= |oks| && Solo(d, c, oks, k, id).1.Finished()
    ensures Solo(d, c, oks, n, id) == Solo(d, c, oks, k, id)
  {
    if k < n {
      SoloStays(d, c, oks, k, n - 1, id);
    }
  }

  // ---- The client -----------------------------------------------------------

  /** The scoped client. `grants` and `nextId` stand for what the daemon will answer. */
  class Client {
    var daemon: Daemon

    constructor (d: Daemon)
      ensures daemon == d
    {
      daemon := d;
    }

    method InspectContainer(id: Id, ok: bool) returns (info: Option<Container>)
      ensures info == if ok && id in daemon.live && id in daemon.born then Some(daemon.born[id]) else None
    {
      info := if ok && id in daemon.live && id in daemon.born then Some(daemon.born[id]) else None;
    }

    method StopContainer(id: Id, ok: bool) returns (done: bool)
      modifies this
      ensures done == (ok && id in old(daemon).live)
      ensures daemon == if done then old(daemon).(live := old(daemon).live[id := false]) else old(daemon)
    {
      done := ok && id in daemon.live;
      if done {
        daemon := daemon.(live := daemon.live[id := false]);
      }
    }

    method RemoveContainer(id: Id, ok: bool) returns (done: bool)
      modifies this
      ensures done == (ok && id in old(daemon).live)
      ensures daemon == if done then old(daemon).(live := old(daemon).live - {id}) else old(daemon)
    {
      done := ok && id in daemon.live;
      if done {
        daemon := daemon.(live := daemon.live - {id});
      }
    }

    method CreateContainer(spec: Container, ok: bool, id: Id) returns (done: bool)
      modifies this
      ensures done == (ok && id !in old(daemon).born && id != "" && old(daemon).NameFree(spec.name))
      ensures daemon ==
        if done then Daemon(old(daemon).born[id := spec], old(daemon).live[id := false]) else old(daemon)
    {
      done := ok && id !in daemon.born && id != "" && daemon.NameFree(spec.name);
      if done {
        daemon := Daemon(daemon.born[id := spec], daemon.live[id := false]);
      }
    }

    method StartContainer(id: Id, ok: bool) returns (done: bool)
      modifies this
      ensures done == (ok && id in old(daemon).live)
      ensures daemon == if done then old(daemon).(live := old(daemon).live[id := true]) else old(daemon)
    {
      done := ok && id in daemon.live;
      if done {
        daemon := daemon.(live := daemon.live[id := true]);
      }
    }

    /**
     Recreate with its early returns: `oks` are the daemon's answers in order, `id` the id
     it would issue. It is the protocol run alone, and it reports the new id only from
     creation on, together with an error when the start failed. The new container differs
     from the old one in its image alone; what is left behind on each failure is exact.
     */
    method Recreate(target: Id, ref: string, oks: seq<bool>, id: Id) returns (newId: Id, ok: bool)
      requires |oks| == 6
      modifies this
      ensures daemon == Solo(old(daemon), NewCall(target, ref), oks, 6, id).0
      ensures var c := Solo(old(daemon), NewCall(target, ref), oks, 6, id).1;
        c.Finished() && ok == c.Succeeded() && newId == c.newId
      ensures var d := old(daemon);
        ok <==>
          && (forall k | 0 <= k < 6 :: oks[k]) && target in d.live && target in d.born && d.born[target].config.Some?
          && id !in d.born && id != ""
          && (forall i | i in d.live && i in d.born && i != target :: d.born[i].name != d.born[target].name)
      ensures newId != "" ==>
        && newId == id && id in daemon.born && target in old(daemon).born
        && daemon == Daemon(old(daemon).born[id := daemon.born[id]], (old(daemon).live - {target})[id := ok])
        && var o, n := old(daemon).born[target], daemon.born[id];
          && n.name == o.name && n.host == o.host && n.networks == o.networks && o.config.Some? && n.config.Some?
          && n.config.value.image == ref
          && n.config.value.labels == o.config.value.labels && n.config.value.rest == o.config.value.rest
      ensures newId == "" ==>
        !ok && daemon.born == old(daemon).born && daemon.live ==
          if !oks[0] || !oks[1] || !oks[2] || target !in old(daemon).live || target !in old(daemon).born
             || old(daemon).born[target].config.None?
          then old(daemon).live
          else if !oks[3] then old(daemon).live[target := false] else old(daemon).live - {target}
    {
      ghost var d0, c := daemon, NewCall(target, ref);
      newId, ok := "", false;
      var info := InspectContainer(target, oks[0]);
      if info.None? || info.value.config.None? {
        SoloStays(d0, NewCall(target, ref), oks, 1, 6, id);
        return;
      }
      var spec := info.value.WithImage(ref);
      c := c.(stage := Pull, spec := spec);
      assert (daemon, c) == Solo(d0, NewCall(target, ref), oks, 1, id);

      if !oks[1] {  // the pull
        SoloStays(d0, NewCall(target, ref), oks, 2, 6, id);
        return;
      }
      c := c.(stage := Stop);
      assert (daemon, c) == Solo(d0, NewCall(target, ref), oks, 2, id);

      var stopped := StopContainer(target, oks[2]);
      if !stopped {
        SoloStays(d0, NewCall(target, ref), oks, 3, 6, id);
        return;
      }
      c := c.(stage := Remove);
      assert (daemon, c) == Solo(d0, NewCall(target, ref), oks, 3, id);

      var removed := RemoveContainer(target, oks[3]);
      if !removed {
        SoloStays(d0, NewCall(target, ref), oks, 4, 6, id);
        return;
      }
      c := c.(stage := Create);
      assert (daemon, c) == Solo(d0, NewCall(target, ref), oks, 4, id);

      var created := CreateContainer(spec, oks[4], id);
      if !created {
        SoloStays(d0, NewCall(target, ref), oks, 5, 6, id);
        return;
      }
      c := c.(stage := Start, newId := id);
      assert (daemon, c) == Solo(d0, NewCall(target, ref), oks, 5, id);

      newId := id;
      ok := StartContainer(newId, oks[5]);
    }
  }
}
