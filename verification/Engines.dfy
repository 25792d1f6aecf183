/**
 executor.go, rollback.go and watcher.go: the event handlers themselves, each run from
 start to end with nothing in between, over the mutable store, client and job registry.
 Their interleavings are the subject of ControlLoop and its companions; the effects on the
 store and the daemon are the same functions here and there.
 */
module Engines {
  import opened GoStrings
  import D = Docker
  import S = DigestStore
  import C = ControlLoop
  import J = DeployJobs
  import R = JobRegistry
  import ImageRefs
  import Semver

  method PushTracked(store: S.Store, cs: S.ContainerState, image: string, digest: string)
    requires store.Valid() && cs in store.objects
    modifies cs`digestHistory
    ensures store.Valid() && store.View() == old(store.View()).Push(cs, image, digest)
  {
    ghost var was := store.View();
    cs.PushDigest(image, digest);
    assert store.View().heap == was.Push(cs, image, digest).heap;
  }

  /** A whole Recreate call, by the daemon's answers and the id it would issue. */
  function Recreated(d: D.Daemon, target: string, ref: string, oks: seq<bool>, id: string): (D.Daemon, D.Call) {
    D.Solo(d, D.NewCall(target, ref), oks, |oks|, id)
  }

  // ---- The rollback engine --------------------------------------------------

  datatype Rollback = Panicked | Aborted | Failed | Restored(newId: string)

  datatype RollbackDone = RollbackDone(id: string, name: string, image: string, restored: string)

  /** The state moves to the new id, or is looked up once more under the old one, and gets the old digest. */
  method Restore(store: S.Store, m: C.Unhealthy, newId: string)
    requires store.Valid()
    modifies store`containers, store.objects
    ensures store.Valid()
    ensures store.View() ==
      if m.id in old(store.containers)
      then old(store.View()).Rekey(m.id, newId).Push(old(store.containers[m.id]), m.image, m.prev)
      else old(store.View())
  {
    var cs := store.Rekey(m.id, newId);
    if cs == null {
      cs := store.Get(m.id);
    }
    if cs != null {
      PushTracked(store, cs, m.image, m.prev);
    }
  }

  method HandleUnhealthy(store: S.Store, client: D.Client, m: C.Unhealthy, oks: seq<bool>, id: string)
    returns (r: Rollback, done: Option<RollbackDone>)
    requires store.Valid() && |oks| == 6
    modifies store`containers, store.objects, client
    ensures store.Valid()
    ensures r == Panicked <==> C.Fatal(m)
    ensures r == Aborted <==> !C.Fatal(m) && m.prev == ""
    ensures r == Panicked || r == Aborted ==> client.daemon == old(client.daemon)
    ensures var (d, c) := Recreated(old(client.daemon), m.id, m.image + "@" + m.prev, oks, id);
      r != Panicked && r != Aborted ==>
        client.daemon == d && r == if c.Succeeded() then Restored(c.newId) else Failed
    ensures store.View() ==
      if r.Restored? && m.id in old(store.containers)
      then old(store.View()).Rekey(m.id, r.newId).Push(old(store.containers[m.id]), m.image, m.prev)
      else old(store.View())
    ensures done == if r.Restored? then Some(RollbackDone(r.newId, m.name, m.image, m.prev)) else None
  {
    done := None;
    if |m.applied| < 16 {
      return Panicked, done;  // the log line slices sixteen characters
    }
    if m.prev == "" {
      return Aborted, done;
    }
    var newId, ok := client.Recreate(m.id, m.image + "@" + m.prev, oks, id);
    if !ok {
      return Failed, done;
    }
    Restore(store, m, newId);
    r, done := Restored(newId), Some(RollbackDone(newId, m.name, m.image, m.prev));
  }

  // ---- The executor ---------------------------------------------------------

  datatype Update = Unknown | Unwatched | Skipped(breaking: bool) | ApplyFailed | Updated(newId: string)

  /** What the executor tells the bus. Reasons and release notes are left out. */
  datatype Published =
    | UpdateSkipped(id: string, name: string, image: string, newDigest: string, breaking: bool)
    | UpdateApplied(a: C.Applied)

  /** A successful call reports a new id, which the daemon never leaves empty. */
  lemma {:induction false} SoloNewId(d: D.Daemon, c: D.Call, oks: seq<bool>, k: nat, id: string)
    requires k <= |oks| && !c.PastCreate()
    ensures D.Solo(d, c, oks, k, id).1.PastCreate() ==> D.Solo(d, c, oks, k, id).1.newId == id != ""
  {
    if k > 0 {
      SoloNewId(d, c, oks, k - 1, id);
    }
  }

  /** Compose or direct; only the direct path knows the new container's id. */
  method Apply(client: D.Client, u: C.Update, direct: bool, oks: seq<bool>, id: string, composeOk: bool)
    returns (newId: string, ok: bool)
    requires |oks| == 6
    modifies client
    ensures !direct ==> client.daemon == old(client.daemon) && newId == "" && ok == composeOk
    ensures var (d, c) := Recreated(old(client.daemon), u.id, ImageRefs.ImageRef(u.image, u.newDigest), oks, id);
      direct ==> client.daemon == d && ok == c.Succeeded() && newId == c.newId && (ok ==> newId != "")
  {
    if direct {
      SoloNewId(client.daemon, D.NewCall(u.id, ImageRefs.ImageRef(u.image, u.newDigest)), oks, 6, id);
      newId, ok := client.Recreate(u.id, ImageRefs.ImageRef(u.image, u.newDigest), oks, id);
    } else {
      newId, ok := "", composeOk;
    }
  }

  /** The state moves to the new id and gets the digest; if it is gone, the one looked up gets it. */
  method Commit(store: S.Store, cs: S.ContainerState, u: C.Update, newId: string)
    requires store.Valid() && cs in store.objects
    modifies store`containers, store.objects
    ensures store.Valid()
    ensures store.View() ==
      old(store.View()).Rekey(u.id, newId)
        .Push(if u.id in old(store.containers) then old(store.containers[u.id]) else cs, u.image, u.newDigest)
  {
    var moved := store.Rekey(u.id, newId);
    if moved == null {
      moved := cs;
    }
    PushTracked(store, moved, u.image, u.newDigest);
  }

  method RegisterJob(registry: R.Registry, job: J.DeployJob, ghost store: S.Store)
    requires registry.Valid() && store.Valid()
    modifies registry
    ensures store.Valid() && store.View() == old(store.View())
    ensures registry.Valid() && registry.View() == old(registry.View()).Register(job.id, job.containerName)
  {
    registry.Register(job);
  }

  method OpenJob(registry: R.Registry, jobId: string, u: C.Update, ghost store: S.Store) returns (job: J.DeployJob)
    requires registry.Valid() && store.Valid()
    modifies registry
    ensures store.Valid() && store.View() == old(store.View())
    ensures fresh(job) && job.Valid() && job.status == J.Running && job.id == jobId
    ensures registry.Valid() && registry.View() == old(registry.View()).Register(jobId, u.name)
  {
    ghost var view := store.View();
    job := new J.DeployJob(jobId, u.name, u.image, "poll");
    assert store.Valid() && store.View() == view;
    RegisterJob(registry, job, store);
    job.Transition(J.Running);
  }

  method CloseJob(registry: R.Registry, jobId: string, ghost store: S.Store)
    requires registry.Valid() && store.Valid()
    modifies registry
    ensures store.Valid() && store.View() == old(store.View())
    ensures registry.Valid() && registry.View() == old(registry.View()).Finish(jobId)
  {
    registry.Finish(jobId);
  }

  method Settle(job: J.DeployJob, ok: bool)
    requires job.Valid() && job.status == J.Running
    modifies job
    ensures job.Valid() && job.status == (if ok then J.Success else J.Failed) && job.chDone
  {
    job.Transition(if ok then J.Success else J.Failed);
  }

  /** Applying an update under a running job: only a success on the direct path touches the store. */
  method RunUpdate(store: S.Store, client: D.Client, job: J.DeployJob, cs: S.ContainerState, u: C.Update, direct: bool,
                   oks: seq<bool>, id: string, composeOk: bool)
    returns (r: Update)
    requires store.Valid() && job.Valid() && job.status == J.Running && |oks| == 6
    requires u.id in store.containers && store.containers[u.id] == cs && cs in store.objects
    modifies store`containers, store.objects, client, job
    ensures store.Valid() && (r.Updated? || r.ApplyFailed?)
    ensures job.chDone && job.status == if r.Updated? then J.Success else J.Failed
    ensures !direct ==> client.daemon == old(client.daemon) && r == if composeOk then Updated("") else ApplyFailed
    ensures var (d, c) := Recreated(old(client.daemon), u.id, ImageRefs.ImageRef(u.image, u.newDigest), oks, id);
      direct ==> client.daemon == d && r == if c.Succeeded() then Updated(c.newId) else ApplyFailed
    ensures direct && r.Updated? ==> r.newId != ""
    ensures store.View() ==
      if r.Updated? && r.newId != "" then old(store.View()).Rekey(u.id, r.newId).Push(cs, u.image, u.newDigest)
      else old(store.View())
  {
    ghost var view := store.View();
    var newId, ok := Apply(client, u, direct, oks, id, composeOk);
    assert store.Valid() && store.View() == view;
    Settle(job, ok);
    assert store.Valid() && store.View() == view;
    if ok && newId != "" {
      Commit(store, cs, u, newId);
    }
    r := if ok then Updated(newId) else ApplyFailed;
  }

  /** The part of handle after the decision: a job is registered, run and finished around the update. */
  method Deploy(store: S.Store, client: D.Client, registry: R.Registry, cs: S.ContainerState, u: C.Update, direct: bool,
                jobId: string, oks: seq<bool>, id: string, composeOk: bool)
    returns (r: Update, job: J.DeployJob)
    requires store.Valid() && registry.Valid() && |oks| == 6
    requires u.id in store.containers && store.containers[u.id] == cs && cs in store.objects
    modifies store`containers, store.objects, client, registry
    ensures store.Valid() && registry.Valid() && (r.Updated? || r.ApplyFailed?)
    ensures fresh(job) && job.chDone && job.status == if r.Updated? then J.Success else J.Failed
    ensures registry.View() == old(registry.View()).Register(jobId, u.name).Finish(jobId)
    ensures !direct ==> client.daemon == old(client.daemon) && r == if composeOk then Updated("") else ApplyFailed
    ensures var (d, c) := Recreated(old(client.daemon), u.id, ImageRefs.ImageRef(u.image, u.newDigest), oks, id);
      direct ==> client.daemon == d && r == if c.Succeeded() then Updated(c.newId) else ApplyFailed
    ensures store.View() ==
      if r.Updated? && r.newId != "" then old(store.View()).Rekey(u.id, r.newId).Push(cs, u.image, u.newDigest)
      else old(store.View())
  {
    job := OpenJob(registry, jobId, u, store);
    r := RunUpdate(store, client, job, cs, u, direct, oks, id, composeOk);
    assert registry.Valid();
    CloseJob(registry, jobId, store);
  }

  /** One update event, as the policy decides; an event for an untracked container does nothing. */
  method HandleUpdate(store: S.Store, client: D.Client, registry: R.Registry, u: C.Update,
                      jobId: string, oks: seq<bool>, id: string, composeOk: bool)
    returns (r: Update, job: J.DeployJob?, published: seq<Published>, ghost decision: Semver.Decision)
    requires store.Valid() && registry.Valid() && |oks| == 6
    modifies store`containers, store.objects, client, registry
    ensures store.Valid() && registry.Valid()
    ensures r == Unknown <==> u.id !in old(store.containers)
    ensures r != Unknown ==>
      decision == Semver.Decide(old(store.containers[u.id].labels), old(store.containers[u.id].image), u.image)
    ensures r != Unknown ==> (r == Unwatched <==> decision.Unwatched?) && (r.Skipped? <==> decision.Skip?)
    ensures r.Skipped? ==> r.breaking == decision.breaking
    ensures job == null <==> !r.Updated? && !r.ApplyFailed?
    ensures job == null ==>
      && store.View() == old(store.View()) && client.daemon == old(client.daemon)
      && registry.View() == old(registry.View())
    ensures job != null ==>
      && job.chDone && job.status == (if r.Updated? then J.Success else J.Failed)
      && registry.View() == old(registry.View()).Register(jobId, u.name).Finish(jobId)
    ensures job != null && decision.Compose? ==>
      client.daemon == old(client.daemon) && r == if composeOk then Updated("") else ApplyFailed
    ensures r == Unwatched <==>
      && u.id in old(store.containers)
      && var labels := old(store.containers[u.id].labels);
        "dockwatch.watch" in labels && labels["dockwatch.watch"] == "false"
    ensures job != null && decision.Direct? ==>
      var ref := if u.newDigest == "" then u.image else u.image + "@" + u.newDigest;
      var (d, c) := Recreated(old(client.daemon), u.id, ref, oks, id);
      client.daemon == d && r == if c.Succeeded() then Updated(c.newId) else ApplyFailed
    ensures store.View() ==
      if r.Updated? && r.newId != "" then
        old(store.View()).Rekey(u.id, r.newId).Push(old(store.containers[u.id]), u.image, u.newDigest)
      else old(store.View())
    ensures r.Skipped? ==> published == [UpdateSkipped(u.id, u.name, u.image, u.newDigest, r.breaking)]
    ensures r.Updated? ==> published == [UpdateApplied(C.Applied(r.newId, u.name, u.image, u.oldDigest, u.newDigest))]
    ensures !r.Skipped? && !r.Updated? ==> published == []
  {
    job, published, decision := null, [], Semver.Unwatched;
    var cs := store.Get(u.id);
    if cs == null {
      return Unknown, null, [], decision;
    }
    var decided := Semver.Decide(cs.labels, cs.image, u.image);
    Semver.OptOut(cs.labels, cs.image, u.image);
    decision := decided;
    if decided.Unwatched? {
      r := Unwatched;
    } else if decided.Skip? {
      r := Skipped(decided.breaking);
      published := [UpdateSkipped(u.id, u.name, u.image, u.newDigest, decided.breaking)];
    } else {
      r, job := Deploy(store, client, registry, cs, u, decided.Direct?, jobId, oks, id, composeOk);
      if r.Updated? {
        published := [UpdateApplied(C.Applied(r.newId, u.name, u.image, u.oldDigest, u.newDigest))];
      }
    }
  }

  // ---- The watcher ----------------------------------------------------------

  datatype Event = Started(id: string, image: string) | Destroyed(id: string) | Sick(id: string)

  /** A container event; `inspected` is the daemon's answer to the inspection on start. */
  method HandleContainerEvent(store: S.Store, ev: Event, inspected: Option<D.Container>)
    returns (unhealthy: seq<C.Unhealthy>)
    requires store.Valid()
    modifies store, store.objects
    ensures store.Valid()
    ensures ev.Started? && inspected.Some? ==>
      && ev.id in store.containers && unhealthy == []
      && store.View() == old(store.View()).Upsert(
           ev.id, inspected.value.name, C.ObservedImage(inspected.value, ev.image), inspected.value.LabelsOf(),
           store.containers[ev.id])
      && var cs, c := store.containers[ev.id], inspected.value;
        && cs.id == ev.id && cs.name == c.name
        && cs.image == (if ev.image != "" then ev.image else if c.config.Some? then c.config.value.image else "")
        && cs.labels == (if c.config.Some? then c.config.value.labels else map[])
        && cs.digestHistory == (if ev.id in old(store.containers) then old(store.containers[ev.id].digestHistory)
                                else [])
        && store.containers == old(store.containers)[ev.id := cs]
        && forall o | o in old(store.objects) && o != cs :: unchanged(o)
    ensures ev.Started? && inspected.None? ==> unhealthy == [] && store.View() == old(store.View())
    ensures ev.Destroyed? ==> unhealthy == [] && store.View() == old(store.View()).Remove(ev.id)
    ensures ev.Sick? ==>
      && store.View() == old(store.View())
      && unhealthy == (if ev.id !in old(store.containers) then [] else
           var cs := old(store.containers)[ev.id];
           var h := old(cs.digestHistory);
           [C.Unhealthy(ev.id, old(cs.name), old(cs.image),
                        if |h| == 0 then "" else h[0].digest, if |h| < 2 then "" else h[1].digest)])
  {
    unhealthy := [];
    match ev
    case Started(id, image) =>
      if inspected.Some? {
        var c := inspected.value;
        var _ := store.Upsert(id, c.name, if image == "" then c.Image() else image, c.LabelsOf());
      }
    case Destroyed(id) => store.Remove(id);
    case Sick(id) =>
      var cs := store.Get(id);
      if cs != null {
        unhealthy := [C.Unhealthy(cs.id, cs.name, cs.image, cs.CurrentDigest(), cs.PreviousDigest())];
      }
  }

  /** An image pulled on the host concerns whoever runs it at another digest. */
  predicate Concerned(s: S.State, image: string, digest: string) {
    ImageRefs.StripDigest(s.image) == image && (digest == "" || s.CurrentDigest() != digest)
  }

  /** Whoever runs it: the stored image is the pulled one, pinned to some digest or not. */
  lemma ConcernedMeans(s: S.State, image: string, digest: string)
    ensures Concerned(s, image, digest) <==>
      '@' !in image && (s.image == image || image + "@" <= s.image) && (digest == "" || s.CurrentDigest() != digest)
  {
    ImageRefs.StripsTo(s.image, image);
  }

  method HandleImagePull(store: S.Store, image: string, digest: string) returns (events: seq<C.Update>)
    requires store.Valid()
    ensures image == "" ==> events == []
    ensures image != "" ==> forall e :: e in events <==>
      exists o :: o in store.containers.Values && e == C.Update(o.id, o.name, image, o.CurrentDigest(), digest)
                  && '@' !in image && (o.image == image || image + "@" <= o.image)
                  && (digest == "" || o.CurrentDigest() != digest)
    ensures forall i, j | 0 <= i < j < |events| :: events[i].id != events[j].id
  {
    events := [];
    if image == "" {
      return;
    }
    var all := store.All();
    forall i, j | 0 <= i < j < |all| ensures all[i].id != all[j].id {
      assert all[i] in all && all[j] in all;
      S.Tracked(store, all[i]);
      S.Tracked(store, all[j]);
    }
    for i := 0 to |all|
      invariant forall e :: e in events <==>
        exists k :: 0 <= k < i && Concerned(all[k].Snapshot(), image, digest)
                    && e == C.Update(all[k].id, all[k].name, image, all[k].CurrentDigest(), digest)
      invariant forall e | e in events :: exists k :: 0 <= k < i && e.id == all[k].id
      invariant forall k, m | 0 <= k < m < |events| :: events[k].id != events[m].id
    {
      var cs := all[i];
      if ImageRefs.StripDigest(cs.image) != image || (digest != "" && cs.CurrentDigest() == digest) {
        continue;
      }
      events := events + [C.Update(cs.id, cs.name, image, cs.CurrentDigest(), digest)];
    }
    forall o | o in store.containers.Values
      ensures Concerned(o.Snapshot(), image, digest) <==>
        '@' !in image && (o.image == image || image + "@" <= o.image) && (digest == "" || o.CurrentDigest() != digest)
    {
      ConcernedMeans(o.Snapshot(), image, digest);
    }
  }
}
