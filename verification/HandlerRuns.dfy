/**
 One handler run from start to end with nobody in between. The control loop's single steps
 then add up to what the handler methods are proved to do: the recreation is the call run
 alone, and a success re-keys the state and pushes the digest.
 */
module HandlerRuns {
  import opened GoStrings
  import D = Docker
  import S = DigestStore
  import Semver
  import opened ControlLoop

  /** A handler's first `k` daemon operations, answered by `oks`. */
  function Operations(h: nat, oks: seq<bool>, k: nat, id: Id): seq<Action>
    requires k <= |oks|
  {
    if k == 0 then [] else Operations(h, oks, k - 1, id) + [Operate(h, oks[k - 1], id)]
  }

  /** Several operations of one handler in a row are its call run alone. */
  lemma {:induction false} SoloRun(w: World, h: nat, oks: seq<bool>, k: nat, id: Id)
    requires h < |w.handlers| && w.handlers[h].phase.Recreating? && k <= |oks|
    ensures var v := Run(w, Operations(h, oks, k, id));
      var (d, c) := D.Solo(w.daemon, w.handlers[h].call, oks, k, id);
      v == w.(daemon := d, handlers := w.handlers[h := w.handlers[h].(call := c)], origin := v.origin)
  {
    if k == 0 {
      assert w.handlers[h := w.handlers[h].(call := w.handlers[h].call)] == w.handlers;
    } else {
      SoloRun(w, h, oks, k - 1, id);
      RunLast(w, Operations(h, oks, k - 1, id), Operate(h, oks[k - 1], id));
    }
  }

  /** The bookkeeping after a recreation. Steps that do not apply change nothing. */
  function Bookkeeping(h: nat): seq<Action> {
    [Rekey(h), Refetch(h), Push(h), Announce(h)]
  }

  lemma RunBookkeeping(w: World, h: nat)
    ensures Run(w, Bookkeeping(h)) == Do(Do(Do(Do(w, Rekey(h)), Refetch(h)), Push(h)), Announce(h))
  {
    RunLast(w, [], Rekey(h));
    RunLast(w, [Rekey(h)], Refetch(h));
    RunLast(w, [Rekey(h), Refetch(h)], Push(h));
    RunLast(w, [Rekey(h), Refetch(h), Push(h)], Announce(h));
    assert [] + [Rekey(h)] == [Rekey(h)] && [Rekey(h)] + [Refetch(h)] == [Rekey(h), Refetch(h)];
    assert [Rekey(h), Refetch(h)] + [Push(h)] == [Rekey(h), Refetch(h), Push(h)];
    assert [Rekey(h), Refetch(h), Push(h)] + [Announce(h)] == Bookkeeping(h);
  }

  /** What a finished recreation leads to in the store, for a handler whose state is tracked or gone. */
  function Recorded(store: View, c: D.Call, image: string, digest: string, fallback: Option<Obj>): View {
    if !c.Succeeded() then store
    else if c.target in store.index then
      store.Rekey(c.target, c.newId).Push(store.index[c.target], image, digest)
    else if fallback.Some? then store.Push(fallback.value, image, digest)
    else store
  }

  /** What a finished recreation is announced with; a rollback's announcement has no reader here. */
  function Announcement(cause: Cause, c: D.Call): set<Applied> {
    if c.Succeeded() && cause.ByUpdate?
    then {Applied(c.newId, cause.u.name, cause.u.image, cause.u.oldDigest, cause.u.newDigest)} else {}
  }

  /** The first three bookkeeping steps after a success: everything but the announcement. */
  lemma BookkeepingPushes(w: World, h: nat)
    requires h < |w.handlers| && w.handlers[h].phase.Recreating? && w.handlers[h].call.Succeeded()
    requires w.store.index.Values <= w.store.heap.Keys
    ensures var hd := w.handlers[h];
      var v := Do(Do(Do(w, Rekey(h)), Refetch(h)), Push(h));
      && v.daemon == w.daemon && v.applied == w.applied && h < |v.handlers|
      && v.handlers[h] == hd.(phase := Announcing)
      && v.store == Recorded(w.store, hd.call, hd.cause.Image(), hd.cause.Digest(),
                             if hd.cause.ByUpdate? then Some(hd.cause.cs) else None)
  {
    var hd := w.handlers[h];
    var w1 := Do(w, Rekey(h));
    if hd.call.target in w.store.index {
      assert w.store.index[hd.call.target] in w.store.index.Values;
      assert w1.handlers[h] == hd.(phase := Pushing(w.store.index[hd.call.target]));
    }
    var w2 := Do(w1, Refetch(h));
    assert w2.store == w1.store;
  }

  lemma BookkeepingRecords(w: World, h: nat)
    requires h < |w.handlers| && w.handlers[h].phase.Recreating? && w.handlers[h].call.Finished()
    requires w.store.index.Values <= w.store.heap.Keys
    ensures var hd := w.handlers[h];
      var v := Run(w, Bookkeeping(h));
      && v.daemon == w.daemon
      && v.store == Recorded(w.store, hd.call, hd.cause.Image(), hd.cause.Digest(),
                             if hd.cause.ByUpdate? then Some(hd.cause.cs) else None)
      && v.applied == w.applied + Announcement(hd.cause, hd.call)
  {
    RunBookkeeping(w, h);
    if w.handlers[h].call.Succeeded() {
      BookkeepingPushes(w, h);
    } else {
      assert Do(w, Rekey(h)) == w && Do(w, Refetch(h)) == w && Do(w, Push(h)) == w && Do(w, Announce(h)) == w;
    }
  }

  function StageNumber(s: D.Stage): nat {
    match s
    case Inspect => 0
    case Pull => 1
    case Stop => 2
    case Remove => 3
    case Create => 4
    case Start => 5
    case Done => 6
  }

  /** Six answers are enough: by then the call has failed or gone through. */
  lemma {:induction false} SoloProgress(d: D.Daemon, c: D.Call, oks: seq<bool>, k: nat, id: Id)
    requires k <= |oks| && k <= 6 && StageNumber(c.stage) == 0 && !c.failed
    ensures var e := D.Solo(d, c, oks, k, id).1; e.target == c.target && (e.failed || StageNumber(e.stage) == k)
  {
    if k > 0 {
      SoloProgress(d, c, oks, k - 1, id);
    }
  }

  function Whole(g: nat, oks: seq<bool>, id: Id): seq<Action> {
    Operations(g, oks, |oks|, id) + Bookkeeping(g)
  }

  /** A handler that has just begun, run to its end. */
  lemma WholeRun(w: World, g: nat, oks: seq<bool>, id: Id)
    requires g < |w.handlers| && w.handlers[g].phase.Recreating? && |oks| == 6
    requires StageNumber(w.handlers[g].call.stage) == 0 && !w.handlers[g].call.failed
    requires w.store.index.Values <= w.store.heap.Keys
    ensures var hd := w.handlers[g];
      var (d, c) := D.Solo(w.daemon, hd.call, oks, |oks|, id);
      var v := Run(w, Whole(g, oks, id));
      && v.daemon == d && c.target == hd.call.target
      && v.store == Recorded(w.store, c, hd.cause.Image(), hd.cause.Digest(),
                             if hd.cause.ByUpdate? then Some(hd.cause.cs) else None)
      && v.applied == w.applied + Announcement(hd.cause, c)
  {
    SoloRun(w, g, oks, |oks|, id);
    SoloProgress(w.daemon, w.handlers[g].call, oks, |oks|, id);
    RunConcat(w, Operations(g, oks, |oks|, id), Bookkeeping(g));
    BookkeepingRecords(Run(w, Operations(g, oks, |oks|, id)), g);
  }

  /**
   The executor's handling of an event it decides to apply directly, as a run of single
   steps: exactly what `Engines.HandleUpdate` does to daemon and store.
   */
  lemma UpdateIsRun(w: World, u: Update, oks: seq<bool>, id: Id)
    requires u in w.updates && u.id in w.store.index && |oks| == 6 && w.store.index.Values <= w.store.heap.Keys
    requires w.store.index[u.id] in w.store.heap
    requires var s := w.store.heap[w.store.index[u.id]]; Semver.Decide(s.labels, s.image, u.image).Direct?
    ensures var cs := w.store.index[u.id];
      var ref := if u.newDigest == "" then u.image else u.image + "@" + u.newDigest;
      var (d, c) := D.Solo(w.daemon, D.NewCall(u.id, ref), oks, |oks|, id);
      var v := Run(Do(w, BeginUpdate(u)), Whole(|w.handlers|, oks, id));
      && v.daemon == d
      && v.store == (if c.Succeeded() then w.store.Rekey(u.id, c.newId).Push(cs, u.image, u.newDigest) else w.store)
      && v.applied == w.applied +
           if c.Succeeded() then {Applied(c.newId, u.name, u.image, u.oldDigest, u.newDigest)} else {}
  {
    WholeRun(Do(w, BeginUpdate(u)), |w.handlers|, oks, id);
  }

  /** The rollback engine's handling likewise: exactly what `Engines.HandleUnhealthy` does. */
  lemma RollbackIsRun(w: World, m: Unhealthy, oks: seq<bool>, id: Id)
    requires m in w.unhealthy && |m.applied| >= 16 && m.prev != "" && |oks| == 6
    requires w.store.index.Values <= w.store.heap.Keys
    ensures var (d, c) := D.Solo(w.daemon, D.NewCall(m.id, m.image + "@" + m.prev), oks, |oks|, id);
      var v := Run(Do(w, BeginRollback(m)), Whole(|w.handlers|, oks, id));
      && v.daemon == d
      && v.store == if c.Succeeded() && m.id in w.store.index
                    then w.store.Rekey(m.id, c.newId).Push(w.store.index[m.id], m.image, m.prev) else w.store
  {
    WholeRun(Do(w, BeginRollback(m)), |w.handlers|, oks, id);
  }

  /** Steps of a handler that does not exist change nothing. */
  lemma {:induction false} NobodyOperates(w: World, oks: seq<bool>, k: nat, id: Id)
    requires k <= |oks|
    ensures Run(w, Operations(|w.handlers|, oks, k, id)) == w
  {
    if k > 0 {
      NobodyOperates(w, oks, k - 1, id);
      RunLast(w, Operations(|w.handlers|, oks, k - 1, id), Operate(|w.handlers|, oks[k - 1], id));
    }
  }

  lemma NobodyRuns(w: World, oks: seq<bool>, id: Id)
    ensures Run(w, Whole(|w.handlers|, oks, id)) == w
  {
    NobodyOperates(w, oks, |oks|, id);
    RunConcat(w, Operations(|w.handlers|, oks, |oks|, id), Bookkeeping(|w.handlers|));
    RunBookkeeping(w, |w.handlers|);
  }

  /**
   An event that was never published, or that the executor does not apply directly, for an
   unknown container say, starts nothing: the same steps leave the whole world as it is.
   */
  lemma UpdateRefused(w: World, u: Update, oks: seq<bool>, id: Id)
    requires u in w.updates && u.id in w.store.index && w.store.index[u.id] in w.store.heap ==>
      var s := w.store.heap[w.store.index[u.id]]; !Semver.Decide(s.labels, s.image, u.image).Direct?
    ensures Run(Do(w, BeginUpdate(u)), Whole(|w.handlers|, oks, id)) == w
  {
    NobodyRuns(w, oks, id);
  }

  /** Nor does a message without a previous digest, or one at which the rollback engine panics. */
  lemma RollbackRefused(w: World, m: Unhealthy, oks: seq<bool>, id: Id)
    requires m in w.unhealthy ==> |m.applied| < 16 || m.prev == ""
    ensures Run(Do(w, BeginRollback(m)), Whole(|w.handlers|, oks, id)) == w
  {
    NobodyRuns(w, oks, id);
  }

  /**
   A rollback that found nothing to re-key looks the old id up once more: whatever state is
   tracked there by then gets the old digest, and without one the digest is dropped.
   */
  lemma LateLookup(w: World, h: nat)
    requires h < |w.handlers| && w.handlers[h].phase.Refetching? && w.store.index.Values <= w.store.heap.Keys
    ensures var hd := w.handlers[h];
      var v := Do(Do(w, Refetch(h)), Push(h));
      && v.handlers == w.handlers[h := hd.(phase := Announcing)] && v.daemon == w.daemon
      && v.store.index == w.store.index
      && forall o | o in w.store.heap ::
           && o in v.store.heap
           && v.store.heap[o] ==
                if hd.call.target in w.store.index && w.store.index[hd.call.target] == o
                then w.store.heap[o].Push(hd.cause.Image(), hd.cause.Digest()) else w.store.heap[o]
  {
    var hd := w.handlers[h];
    if hd.call.target in w.store.index {
      var o := w.store.index[hd.call.target];
      assert o in w.store.index.Values;
      assert Do(w, Refetch(h)) == w.(handlers := w.handlers[h := hd.(phase := Pushing(o))]);
    } else {
      assert Do(w, Refetch(h)) == w.(handlers := w.handlers[h := hd.(phase := Announcing)]);
    }
  }

  // ---- Undisturbed updates --------------------------------------------------

  const GRANTED := [true, true, true, true, true, true]

  /** With every operation granted Recreate goes through. */
  lemma AloneSucceeds(d: D.Daemon, target: Id, ref: string, id: Id)
    requires d.Consistent() && target in d.live && target in d.born && d.born[target].config.Some?
    requires id !in d.born && id != ""
    ensures var (e, c) := D.Solo(d, D.NewCall(target, ref), GRANTED, |GRANTED|, id);
      && c == D.Call(target, ref, D.Done, false, d.born[target].WithImage(ref), id)
      && e == D.Daemon(d.born[id := c.spec], (d.live - {target})[id := true])
      && c.spec.name == d.born[target].name && c.spec.host == d.born[target].host
      && c.spec.networks == d.born[target].networks
      && c.spec.config == Some(D.Config(ref, d.born[target].config.value.labels, d.born[target].config.value.rest))
  {
    var spec := d.born[target].WithImage(ref);
    var c := D.NewCall(target, ref);
    var c1 := c.(stage := D.Pull, spec := spec);
    var d3 := d.(live := d.live[target := false]);
    var d4 := d.(live := d.live - {target});
    var d5 := D.Daemon(d.born[id := spec], d4.live[id := false]);
    assert d3.live - {target} == d4.live;
    assert d4.NameFree(spec.name);
    assert D.Solo(d, c, GRANTED, 1, id) == (d, c1);
    assert D.Solo(d, c, GRANTED, 2, id) == (d, c1.(stage := D.Stop));
    assert D.Solo(d, c, GRANTED, 3, id) == (d3, c1.(stage := D.Remove));
    assert D.Solo(d, c, GRANTED, 4, id) == (d4, c1.(stage := D.Create));
    assert D.Solo(d, c, GRANTED, 5, id) == (d5, c1.(stage := D.Start, newId := id));
    assert d5.live[id := true] == d4.live[id := true];
  }

  lemma RunFirst(w: World, a: Action, rest: seq<Action>)
    ensures Run(w, [a] + rest) == Run(Do(w, a), rest)
  {
    assert ([a] + rest)[1..] == rest;
  }

  lemma RunTwo(w: World, a: Action, b: Action)
    ensures Run(w, [a, b]) == Do(Do(w, a), b)
  {
    assert [a, b][1..] == [b] && [b][1..] == [];
    assert Run(Do(w, a), [b]) == Run(Do(Do(w, a), b), []);
  }

  /** Handler `h` has re-keyed state `o` to the new container `y` and has not pushed yet. */
  ghost predicate AwaitsPush(w: World, h: nat, y: Id, o: Obj) {
    && h < |w.handlers| && w.handlers[h].phase == Pushing(o) && w.handlers[h].call.newId == y
    && y in w.store.index && w.store.index[y] == o
    && y in w.daemon.live && y in w.daemon.born && w.daemon.born[y].config.Some?
  }

  /** `x` exists, is tracked by `o`, and an event for its stored image would be applied directly. */
  ghost predicate Ready(w: World, x: Id, o: Obj) {
    && Sound(w) && w.store.index.Values <= w.store.heap.Keys
    && x in w.store.index && w.store.index[x] == o && o in w.store.heap
    && x in w.daemon.live && x in w.daemon.born && w.daemon.born[x].config.Some?
    && Direct(w.store.heap[o])
  }

  ghost predicate Direct(s: S.State) {
    Semver.Decide(s.labels, s.image, s.image).Direct?
  }

  /** An event that a new digest of the stored image was seen. */
  function Seen(w: World, x: Id, o: Obj, digest: string): Update
    requires o in w.store.heap
  {
    var s := w.store.heap[o];
    Update(x, s.name, s.image, s.CurrentDigest(), digest)
  }

  /** The update is detected and taken up. */
  lemma TakenUp(w: World, x: Id, o: Obj, digest: string)
    requires Ready(w, x, o)
    ensures var u := Seen(w, x, o, digest);
      var v := Run(w, [Detect(u), BeginUpdate(u)]);
      && v == w.(updates := w.updates + {u},
                 handlers := w.handlers + [Handler(ByUpdate(u, o), D.NewCall(x, ByUpdate(u, o).Ref()), Recreating)])
      && Sound(v)
  {
    var u := Seen(w, x, o, digest);
    RunTwo(w, Detect(u), BeginUpdate(u));
    RunSound(w, [Detect(u), BeginUpdate(u)]);
  }

  /** Steps of the executor, and no others. */
  predicate ExecutorStep(a: Action) {
    a.BeginUpdate? || a.Operate? || a.Rekey? || a.Push? || a.Announce?
  }

  predicate ExecutorRun(actions: seq<Action>) {
    forall i | 0 <= i < |actions| :: ExecutorStep(actions[i])
  }

  lemma {:induction false} OperationsAreSteps(h: nat, oks: seq<bool>, k: nat, id: Id)
    requires k <= |oks|
    ensures ExecutorRun(Operations(h, oks, k, id))
  {
    if k > 0 {
      OperationsAreSteps(h, oks, k - 1, id);
    }
  }

  /** One more step after a detected event's run. */
  lemma OneMore(w: World, d: Action, steps: seq<Action>, a: Action)
    ensures Run(w, [d] + (steps + [a])) == Do(Run(w, [d] + steps), a)
    ensures ExecutorRun(steps) && ExecutorStep(a) ==> ExecutorRun(steps + [a])
  {
    assert [d] + (steps + [a]) == ([d] + steps) + [a];
    RunLast(w, [d] + steps, a);
  }

  /** Detected, taken up, and the operations granted. */
  lemma BeginAndOperate(w: World, u: Update, operations: seq<Action>)
    ensures Run(w, [Detect(u)] + ([BeginUpdate(u)] + operations))
         == Run(Run(w, [Detect(u), BeginUpdate(u)]), operations)
  {
    assert [Detect(u)] + ([BeginUpdate(u)] + operations) == [Detect(u), BeginUpdate(u)] + operations;
    RunConcat(w, [Detect(u), BeginUpdate(u)], operations);
  }

  /** An update whose daemon operations are all granted: the container is recreated as `y`. */
  lemma Recreates(w: World, x: Id, o: Obj, digest: string, y: Id) returns (steps: seq<Action>, v: World)
    requires Ready(w, x, o) && y !in w.daemon.born && y != ""
    ensures v == Run(w, [Detect(Seen(w, x, o, digest))] + steps) && ExecutorRun(steps)
    ensures var h := |w.handlers|;
      && Sound(v) && v.store == w.store && |v.handlers| == h + 1
      && v.handlers[h].cause == ByUpdate(Seen(w, x, o, digest), o) && v.handlers[h].phase.Recreating?
      && v.handlers[h].call.Succeeded() && v.handlers[h].call.target == x && v.handlers[h].call.newId == y
      && y in v.daemon.live && y in v.daemon.born && v.daemon.born[y].config.Some?
      && v.daemon.born.Keys == w.daemon.born.Keys + {y}
  {
    var h := |w.handlers|;
    var u := Seen(w, x, o, digest);
    var operations := Operations(h, GRANTED, |GRANTED|, y);
    var begun := Run(w, [Detect(u), BeginUpdate(u)]);
    steps, v := [BeginUpdate(u)] + operations, Run(begun, operations);
    BeginAndOperate(w, u, operations);
    OperationsAreSteps(h, GRANTED, |GRANTED|, y);
    TakenUp(w, x, o, digest);
    AloneSucceeds(w.daemon, x, ByUpdate(u, o).Ref(), y);
    SoloRun(begun, h, GRANTED, |GRANTED|, y);
    RunSound(begun, operations);
  }

  /** The same up to the re-keying: the state is at `y`, the push still to come. */
  lemma HalfUpdate(w: World, x: Id, o: Obj, digest: string, y: Id) returns (steps: seq<Action>, v: World)
    requires Ready(w, x, o) && y !in w.daemon.born && y != "" && x != y
    ensures v == Run(w, [Detect(Seen(w, x, o, digest))] + steps) && ExecutorRun(steps)
    ensures var h := |w.handlers|;
      && Sound(v) && |v.handlers| == h + 1 && AwaitsPush(v, h, y, o)
      && v.handlers[h].cause.Image() == w.store.heap[o].image && v.handlers[h].cause.Digest() == digest
      && v.daemon.born.Keys == w.daemon.born.Keys + {y}
      && v.store == w.store.Rekey(x, y) && v.store.index.Values <= v.store.heap.Keys
      && v.store.heap[o] == w.store.heap[o].(id := y)
  {
    var before, u := Recreates(w, x, o, digest, y);
    steps := before + [Rekey(|w.handlers|)];
    v := Do(u, Rekey(|w.handlers|));
    OneMore(w, Detect(Seen(w, x, o, digest)), before, Rekey(|w.handlers|));
    HandleSound(u, Rekey(|w.handlers|), |w.handlers|);
  }

  /** What a state keeps when it is moved and pushed onto. */
  lemma StillDirect(s: S.State, t: S.State)
    requires Direct(s) && t.labels == s.labels && t.image == s.image
    ensures Direct(t)
  {
  }

  lemma PushReady(w: World, h: nat, y: Id, o: Obj, s: S.State)
    requires Sound(w) && AwaitsPush(w, h, y, o) && w.store.index.Values <= w.store.heap.Keys
    requires w.store.heap[o] == s.(id := y) && Direct(s)
    ensures var v := Do(w, Push(h));
      && Ready(v, y, o) && v.daemon == w.daemon
      && |v.handlers| == |w.handlers| && v.handlers[h].phase.Announcing?
      && v.store.heap[o] == s.(id := y).Push(w.handlers[h].cause.Image(), w.handlers[h].cause.Digest())
  {
    var v := Do(w, Push(h));
    HandleSound(w, Push(h), h);
    assert v.store == w.store.Push(o, w.handlers[h].cause.Image(), w.handlers[h].cause.Digest());
    StillDirect(s, v.store.heap[o]);
  }

  lemma ReadySame(w: World, v: World, y: Id, o: Obj)
    requires Ready(w, y, o) && Sound(v) && v.store == w.store && v.daemon == w.daemon
    ensures Ready(v, y, o)
  {
  }

  lemma AnnounceChanges(w: World, h: nat)
    requires h < |w.handlers|
    ensures var v := Do(w, Announce(h));
      && v == Handle(w, Announce(h), h) && v.daemon == w.daemon && v.store == w.store
      && |v.handlers| == |w.handlers|
      && (w.handlers[h].phase.Announcing? ==> v.handlers[h].phase.Ended?)
  {
  }

  /** Announcing leaves everything but the handler and the monitor's inbox as it is. */
  lemma AnnounceReady(w: World, h: nat, y: Id, o: Obj)
    requires Ready(w, y, o) && h < |w.handlers|
    ensures var v := Do(w, Announce(h));
      && Ready(v, y, o) && v.daemon == w.daemon && v.store == w.store && |v.handlers| == |w.handlers|
      && (w.handlers[h].phase.Announcing? ==> v.handlers[h].phase.Ended?)
  {
    HandleSound(w, Announce(h), h);
    AnnounceChanges(w, h);
    ReadySame(w, Do(w, Announce(h)), y, o);
  }

  /** And on to the push: the state is at `y` with the new digest in front. */
  lemma PushedUpdate(w: World, x: Id, o: Obj, digest: string, y: Id) returns (steps: seq<Action>, v: World)
    requires Ready(w, x, o) && y !in w.daemon.born && y != "" && x != y
    ensures v == Run(w, [Detect(Seen(w, x, o, digest))] + steps) && ExecutorRun(steps)
    ensures |v.handlers| == |w.handlers| + 1 && v.handlers[|w.handlers|].phase.Announcing?
    ensures Ready(v, y, o) && v.daemon.born.Keys == w.daemon.born.Keys + {y}
    ensures v.store.heap[o] == w.store.heap[o].(id := y).Push(w.store.heap[o].image, digest)
  {
    var before, u := HalfUpdate(w, x, o, digest, y);
    var h, first := |w.handlers|, Detect(Seen(w, x, o, digest));
    steps, v := before + [Push(h)], Do(u, Push(h));
    OneMore(w, first, before, Push(h));
    PushReady(u, h, y, o, w.store.heap[o]);
  }

  /** And to the end, announcement included: the executor is free for the next update. */
  lemma WholeUpdate(w: World, x: Id, o: Obj, digest: string, y: Id) returns (steps: seq<Action>, v: World)
    requires Ready(w, x, o) && y !in w.daemon.born && y != "" && x != y
    ensures v == Run(w, [Detect(Seen(w, x, o, digest))] + steps) && ExecutorRun(steps)
    ensures |v.handlers| == |w.handlers| + 1 && v.handlers[|w.handlers|].phase.Ended?
    ensures Ready(v, y, o) && v.daemon.born.Keys == w.daemon.born.Keys + {y}
    ensures v.store.heap[o] == w.store.heap[o].(id := y).Push(w.store.heap[o].image, digest)
  {
    var before, u := PushedUpdate(w, x, o, digest, y);
    var h := |w.handlers|;
    steps, v := before + [Announce(h)], Do(u, Announce(h));
    var first := Detect(Seen(w, x, o, digest));
    OneMore(w, first, before, Announce(h));
    AnnounceReady(u, h, y, o);
  }

  /** A start: one running container of an unversioned, unlabelled image. */
  function OneContainer(): World {
    World(S.StoreView(map["c" := 0], map[0 := S.State("c", "web", "app", map[], [])]),
          D.Daemon(map["c" := D.Container("web", Some(D.Config("app", map[], "")), "", map[])], map["c" := true]),
          [], {}, {}, {}, map["c" := "c"])
  }

  lemma UnlabelledIsDirect(s: S.State)
    requires s.labels == map[]
    ensures Direct(s)
  {
  }

  lemma OneContainerReady()
    ensures Init(OneContainer()) && Ready(OneContainer(), "c", 0)
  {
    var w := OneContainer();
    InitSound(w);
    UnlabelledIsDirect(w.store.heap[0]);
  }
}
