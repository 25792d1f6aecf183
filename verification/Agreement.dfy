/**
 Store and daemon agree on digests: what the store calls a container's current digest is
 what the container's image reference is pinned to. For any number of interleaved handlers
 this holds throughout a run, however pending pushes are then performed, if and only if
 every re-keying and seeding of the run was orderly: each push still to come onto the
 re-keyed state, the handler's own included, carries the digest the new container is pinned
 to, and a seeded container is pinned to the seeded digest.
 */
module Agreement {
  import S = DigestStore
  import ImageRefs
  import opened ControlLoop

  /** A push that will make the store agree about `id` is still to come. */
  ghost predicate Pending(w: World, id: Id, o: Obj) {
    exists g :: 0 <= g < |w.handlers| && w.handlers[g].phase == Pushing(o) && w.handlers[g].call.newId == id
  }

  ghost predicate Agrees(w: World, id: Id) {
    id in w.store.index && w.store.index[id] in w.store.heap && id in w.daemon.live && id in w.daemon.born ==>
      || Matches(w.store.heap[w.store.index[id]], ImageRefs.Pin(w.daemon.born[id].Image()))
      || Pending(w, id, w.store.index[id])
  }

  predicate Matches(s: S.State, pin: string) {
    s.history == [] || s.CurrentDigest() == pin
  }

  /** Wherever the object a handler is about to write can be found, the push is right there. */
  ghost predicate Harmless(w: World, h: Handler) {
    h.phase.Pushing? && h.phase.obj in w.store.heap ==>
      w.store.Orphan(h.phase.obj) || Suits(w, h, w.store.heap[h.phase.obj].id)
  }

  /** A container that is gone, or pinned to the digest the handler pushes. */
  ghost predicate Suits(w: World, h: Handler, id: Id) {
    id in w.daemon.live && id in w.daemon.born ==> ImageRefs.Pin(w.daemon.born[id].Image()) == h.cause.Digest()
  }

  ghost predicate Rival(w: World, i: nat) {
    i < |w.handlers| &&
    exists g :: 0 <= g < |w.handlers| && g != i && w.handlers[g].call.target == w.handlers[i].call.target
                && w.handlers[g].call.PastRemove()
  }

  /** The state the executor looked up stays where it was unless a rival recreated the container. */
  ghost predicate LookupPlace(w: World, i: nat) {
    i < |w.handlers| && w.handlers[i].cause.ByUpdate? && w.handlers[i].phase.Recreating?
    && w.handlers[i].cause.cs in w.store.heap ==>
      w.store.Orphan(w.handlers[i].cause.cs) || w.store.heap[w.handlers[i].cause.cs].id == w.handlers[i].call.target
      || Rival(w, i)
  }

  ghost predicate Inv(w: World) {
    && Sound(w)
    && (forall id {:trigger Agrees(w, id)} :: Agrees(w, id))
    && (forall i {:trigger Harmless(w, w.handlers[i])} | 0 <= i < |w.handlers| :: Harmless(w, w.handlers[i]))
    && (forall i {:trigger LookupPlace(w, i)} | 0 <= i < |w.handlers| :: LookupPlace(w, i))
  }

  /** Handler `h` is about to move a tracked state to a container that still exists. */
  ghost predicate Moves(w: World, h: nat) {
    && h < |w.handlers| && w.handlers[h].phase.Recreating? && w.handlers[h].call.Succeeded()
    && w.handlers[h].call.target in w.store.index && w.handlers[h].call.newId in w.daemon.live
  }

  /** The poller is about to seed the state of a container that exists and awaits no push of its own. */
  ghost predicate Seeds(w: World, id: Id, last: string) {
    && Seedable(w, id, last) && id in w.daemon.live && id in w.daemon.born
    && !Pending(w, id, w.store.index[id])
  }

  /**
   What a re-keying must find: the pushes to come, its own and others', suit the new container.
   What a seeding must find: the container is pinned to the seeded digest.
   */
  ghost predicate Orderly(w: World, a: Action) {
    && (a.Rekey? && Moves(w, a.h) ==> OrderlyMove(w, a.h))
    && (a.Seed? && Seeds(w, a.id, a.last) ==> ImageRefs.Pin(w.daemon.born[a.id].Image()) == a.last)
  }

  ghost predicate OrderlyMove(w: World, h: nat)
    requires Moves(w, h)
  {
    && Suits(w, w.handlers[h], w.handlers[h].call.newId)
    && forall g | 0 <= g < |w.handlers| && w.handlers[g].phase == Pushing(w.store.index[w.handlers[h].call.target]) ::
         Suits(w, w.handlers[g], w.handlers[h].call.newId)
  }

  ghost predicate OrderlyRun(w: World, actions: seq<Action>)
    decreases |actions|
  {
    actions != [] ==> Orderly(w, actions[0]) && OrderlyRun(Do(w, actions[0]), actions[1..])
  }

  // ---- Steps that leave handlers alone --------------------------------------

  /** From `w` to `v` no handler moved, no known state changed id or history, new states are blank. */
  ghost predicate Quiet(w: World, v: World) {
    && v.handlers == w.handlers && Later(w.daemon, v.daemon)
    && (forall o | o in w.store.heap ::
          && o in v.store.heap && v.store.heap[o].id == w.store.heap[o].id
          && v.store.heap[o].history == w.store.heap[o].history)
    && (forall id | id in v.store.index ::
          (id in w.store.index && v.store.index[id] == w.store.index[id])
          || (v.store.index[id] !in w.store.heap && v.store.index[id] in v.store.heap
              && v.store.heap[v.store.index[id]].history == []))
  }

  lemma QuietKeeps(w: World, v: World)
    requires Inv(w) && Sound(v) && Quiet(w, v)
    ensures Inv(v)
  {
    forall o | o in w.store.heap && w.store.Orphan(o) ensures v.store.Orphan(o) {
    }
    forall id ensures Agrees(v, id) {
      assert Agrees(w, id);
      if id in w.store.index && Pending(w, id, w.store.index[id]) {
        assert Pending(v, id, w.store.index[id]);
      }
    }
    forall i | 0 <= i < |v.handlers| ensures LookupPlace(v, i) && Harmless(v, v.handlers[i]) {
      assert LookupPlace(w, i) && Harmless(w, w.handlers[i]);
      assert HandlerOk(w.daemon, w.store.heap, w.handlers[i]);
      if Rival(w, i) {
        assert Rival(v, i);
      }
    }
  }

  // ---- Handler steps --------------------------------------------------------

  /** Handler `h` alone changed, and it neither is nor becomes a pusher; no call went back. */
  ghost predicate OneMoved(w: World, v: World, h: nat) {
    && h < |w.handlers| && |v.handlers| == |w.handlers| && v.handlers == w.handlers[h := v.handlers[h]]
    && v.handlers[h].cause == w.handlers[h].cause
    && v.handlers[h].call.target == w.handlers[h].call.target
    && (w.handlers[h].call.PastRemove() ==> v.handlers[h].call.PastRemove())
  }

  lemma RivalStays(w: World, v: World, h: nat, i: nat)
    requires OneMoved(w, v, h) && Rival(w, i)
    ensures Rival(v, i)
  {
    var g :| 0 <= g < |w.handlers| && g != i && w.handlers[g].call.target == w.handlers[i].call.target
             && w.handlers[g].call.PastRemove();
    assert v.handlers[g].call.target == v.handlers[i].call.target && v.handlers[g].call.PastRemove();
  }

  lemma PendingStays(w: World, v: World, h: nat, id: Id, o: Obj)
    requires OneMoved(w, v, h) && Pending(w, id, o)
    requires v.handlers[h].phase == w.handlers[h].phase == Pushing(o) ==> v.handlers[h].call == w.handlers[h].call
    requires w.handlers[h].phase == Pushing(o) ==> v.handlers[h].phase == Pushing(o)
    ensures Pending(v, id, o)
  {
    var g :| 0 <= g < |w.handlers| && w.handlers[g].phase == Pushing(o) && w.handlers[g].call.newId == id;
    assert v.handlers[g].phase == Pushing(o) && v.handlers[g].call.newId == id;
  }

  /** Steps of a handler that is not pushing, with the store untouched. */
  lemma SameStoreKeeps(w: World, v: World, h: nat)
    requires Inv(w) && Sound(v) && OneMoved(w, v, h) && v.store == w.store && Later(w.daemon, v.daemon)
    requires !w.handlers[h].phase.Pushing? && Harmless(v, v.handlers[h])
    requires v.handlers[h].phase.Recreating? ==> w.handlers[h].phase.Recreating?
    ensures Inv(v)
  {
    forall id ensures Agrees(v, id) {
      assert Agrees(w, id);
      if id in w.store.index && Pending(w, id, w.store.index[id]) {
        PendingStays(w, v, h, id, w.store.index[id]);
      }
    }
    forall i | 0 <= i < |v.handlers| ensures LookupPlace(v, i) && Harmless(v, v.handlers[i]) {
      assert LookupPlace(w, i) && Harmless(w, w.handlers[i]);
      if Rival(w, i) {
        RivalStays(w, v, h, i);
      }
    }
  }

  /** The executor's fallback finds its state orphaned or untouched: no rival got past Remove. */
  lemma FallbackPlace(w: World, h: nat)
    requires Inv(w) && h < |w.handlers| && w.handlers[h].phase.Recreating? && w.handlers[h].call.Succeeded()
    requires w.handlers[h].cause.ByUpdate?
    ensures
      || w.store.Orphan(w.handlers[h].cause.cs)
      || w.store.heap[w.handlers[h].cause.cs].id == w.handlers[h].call.target
  {
    assert LookupPlace(w, h);
    assert HandlerOk(w.daemon, w.store.heap, w.handlers[h]);
    forall g | 0 <= g < |w.handlers| && g != h && w.handlers[g].call.target == w.handlers[h].call.target
      ensures !w.handlers[g].call.PastRemove()
    {
      assert Apart(w.handlers[g], w.handlers[h]);
    }
  }

  lemma RekeyAgrees(w: World, h: nat, id: Id)
    requires Inv(w) && h < |w.handlers| && w.handlers[h].phase.Recreating? && w.handlers[h].call.Succeeded()
    requires w.handlers[h].call.target in w.store.index
    ensures Agrees(Rekeyed(w, h), id)
  {
    var v := Rekeyed(w, h);
    assert Agrees(w, id);
    if id == w.handlers[h].call.newId {
      assert v.handlers[h].phase == Pushing(v.store.index[id]) && v.handlers[h].call.newId == id;
      assert Pending(v, id, v.store.index[id]);
    } else if id in w.store.index && Pending(w, id, w.store.index[id]) {
      PendingStays(w, v, h, id, w.store.index[id]);
    }
  }

  lemma RekeyPlaces(w: World, h: nat, i: nat)
    requires Inv(w) && h < |w.handlers| && w.handlers[h].phase.Recreating? && w.handlers[h].call.Succeeded()
    requires w.handlers[h].call.target in w.store.index && Orderly(w, Rekey(h)) && i < |w.handlers|
    ensures Harmless(Rekeyed(w, h), Rekeyed(w, h).handlers[i]) && LookupPlace(Rekeyed(w, h), i)
  {
    var v := Rekeyed(w, h);
    var o := w.store.index[w.handlers[h].call.target];
    assert Harmless(w, w.handlers[i]) && LookupPlace(w, i);
    assert HandlerOk(w.daemon, w.store.heap, w.handlers[i]);
    forall p | p in w.store.heap && w.store.Orphan(p) ensures v.store.Orphan(p) {
    }
    if i != h && w.handlers[i].cause.ByUpdate? && w.handlers[i].phase.Recreating? {
      if w.handlers[i].cause.cs == o || Rival(w, i) {
        assert w.handlers[h].call.PastRemove();
        assert w.handlers[h].call.target == w.handlers[i].call.target ==> Rival(w, i);
        RivalStays(w, v, h, i);
      }
    }
  }

  lemma RekeyKeeps(w: World, h: nat)
    requires Inv(w) && h < |w.handlers| && Orderly(w, Rekey(h))
    ensures Inv(Rekeyed(w, h))
  {
    var v := Rekeyed(w, h);
    var hd := w.handlers[h];
    RekeySound(w, h);
    if hd.phase.Recreating? && hd.call.Succeeded() {
      if hd.call.target in w.store.index {
        forall id ensures Agrees(v, id) { RekeyAgrees(w, h, id); }
        forall i | 0 <= i < |v.handlers|
          ensures LookupPlace(v, i) && Harmless(v, v.handlers[i])
        {
          RekeyPlaces(w, h, i);
        }
      } else {
        if hd.cause.ByUpdate? { FallbackPlace(w, h); }
        SameStoreKeeps(w, v, h);
      }
    }
  }

  lemma PushAgrees(w: World, h: nat, id: Id)
    requires Inv(w) && h < |w.handlers| && w.handlers[h].phase.Pushing?
    ensures Agrees(PushedBy(w, h), id)
  {
    var v := PushedBy(w, h);
    var hd := w.handlers[h];
    var o := hd.phase.obj;
    assert Agrees(w, id) && Harmless(w, hd) && HandlerOk(w.daemon, w.store.heap, hd);
    if id in w.store.index && id in w.daemon.live {
      if w.store.index[id] == o {
        assert w.store.heap[o].id == id;
      } else if Pending(w, id, w.store.index[id]) {
        PendingStays(w, v, h, id, w.store.index[id]);
      }
    }
  }

  lemma PushKeeps(w: World, h: nat)
    requires Inv(w) && h < |w.handlers|
    ensures Inv(PushedBy(w, h))
  {
    var v := PushedBy(w, h);
    HandleSound(w, Push(h), h);
    if w.handlers[h].phase.Pushing? {
      forall id ensures Agrees(v, id) { PushAgrees(w, h, id); }
      forall p | w.store.Orphan(p) ensures v.store.Orphan(p) {
      }
      forall i | 0 <= i < |v.handlers| ensures LookupPlace(v, i) && Harmless(v, v.handlers[i]) {
        assert LookupPlace(w, i) && Harmless(w, w.handlers[i]);
        if Rival(w, i) {
          RivalStays(w, v, h, i);
        }
      }
    }
  }

  lemma OperateKeeps(w: World, h: nat, ok: bool, id: Id)
    requires Inv(w) && h < |w.handlers|
    ensures Inv(Operated(w, h, ok, id))
  {
    if w.handlers[h].phase.Recreating? {
      OperateSound(w, h, ok, id);
      AdvanceLater(w.daemon, w.handlers[h].call, ok, id);
      SameStoreKeeps(w, Operated(w, h, ok, id), h);
    }
  }

  lemma HandleKeeps(w: World, a: Action, h: nat)
    requires Inv(w) && h < |w.handlers| && (a.Rekey? ==> Orderly(w, Rekey(h)))
    ensures Inv(Handle(w, a, h))
  {
    HandleSound(w, a, h);
    match a {
      case Operate(_, ok, newId) => OperateKeeps(w, h, ok, newId);
      case Rekey(_) => RekeyKeeps(w, h);
      case Refetch(_) => if w.handlers[h].phase.Refetching? { SameStoreKeeps(w, Refetched(w, h), h); }
      case Push(_) => PushKeeps(w, h);
      case Announce(_) => if w.handlers[h].phase.Announcing? { SameStoreKeeps(w, Announced(w, h), h); }
      case _ =>
    }
  }

  lemma AppendPlaces(w: World, v: World, hd: Handler, i: nat)
    requires v == w.(handlers := w.handlers + [hd]) && i < |w.handlers|
    requires LookupPlace(w, i) && Harmless(w, w.handlers[i])
    ensures LookupPlace(v, i) && Harmless(v, v.handlers[i])
  {
    if Rival(w, i) {
      var g :| 0 <= g < |w.handlers| && g != i && w.handlers[g].call.target == w.handlers[i].call.target
               && w.handlers[g].call.PastRemove();
      assert v.handlers[g] == w.handlers[g] && v.handlers[i] == w.handlers[i];
    }
  }

  lemma AppendAgrees(w: World, v: World, hd: Handler, id: Id)
    requires v == w.(handlers := w.handlers + [hd]) && Agrees(w, id)
    ensures Agrees(v, id)
  {
    if id in w.store.index && Pending(w, id, w.store.index[id]) {
      var g :| 0 <= g < |w.handlers| && w.handlers[g].phase == Pushing(w.store.index[id])
               && w.handlers[g].call.newId == id;
      assert v.handlers[g] == w.handlers[g];
    }
  }

  lemma BeginKeeps(w: World, a: Action)
    requires Inv(w) && (a.BeginUpdate? || a.BeginRollback?) && Orderly(w, a)
    ensures Inv(Do(w, a))
  {
    var v := Do(w, a);
    BeginSound(w, a);
    if v != w {
      var hd := v.handlers[|w.handlers|];
      forall id ensures Agrees(v, id) {
        assert Agrees(w, id);
        AppendAgrees(w, v, hd, id);
      }
      forall i | 0 <= i < |v.handlers| ensures LookupPlace(v, i) && Harmless(v, v.handlers[i]) {
        if i < |w.handlers| {
          assert LookupPlace(w, i) && Harmless(w, w.handlers[i]);
          AppendPlaces(w, v, hd, i);
        }
      }
    }
  }

  predicate Passive(a: Action) {
    a.Started? || a.Detect? || a.Destroyed? || a.ReportedUnhealthy? || a.WatchFailed?
    || a.OutsideCreate? || a.OutsideRemove? || a.OutsideRun?
  }

  /** Start and destroy events, the only passive steps that change the store. */
  lemma WatcherIsQuiet(w: World, a: Action)
    requires Sound(w) && (a.Started? || a.Destroyed?)
    ensures Quiet(w, Do(w, a))
  {
  }

  lemma PassiveIsQuiet(w: World, a: Action)
    requires Sound(w) && Passive(a)
    ensures Quiet(w, Do(w, a))
  {
    if a.Started? || a.Destroyed? {
      WatcherIsQuiet(w, a);
    } else {
      assert Do(w, a).store == w.store && Do(w, a).handlers == w.handlers;
    }
  }

  /** A seeding suits the container it is about, and no other container shows it. */
  lemma SeedKeeps(w: World, id: Id, last: string)
    requires Inv(w) && Orderly(w, Seed(id, last))
    ensures Inv(Do(w, Seed(id, last)))
  {
    var v := Do(w, Seed(id, last));
    StepSound(w, Seed(id, last));
    if Seedable(w, id, last) {
      forall x ensures Agrees(v, x) {
        assert Agrees(w, x);
        if x in w.store.index && Pending(w, x, w.store.index[x]) {
          assert Pending(v, x, v.store.index[x]);
        }
      }
      SeedPlaces(w, id, last);
    }
  }

  lemma SeedPlaces(w: World, id: Id, last: string)
    requires Inv(w) && Seedable(w, id, last)
    ensures var v := SeedState(w, id, last);
      forall i | 0 <= i < |v.handlers| :: LookupPlace(v, i) && Harmless(v, v.handlers[i])
  {
    var v := SeedState(w, id, last);
    forall p | w.store.Orphan(p) ensures v.store.Orphan(p) {
    }
    forall i | 0 <= i < |v.handlers| ensures LookupPlace(v, i) && Harmless(v, v.handlers[i]) {
      assert LookupPlace(w, i) && Harmless(w, w.handlers[i]);
      if Rival(w, i) { assert Rival(v, i); }
    }
  }

  lemma StepKeeps(w: World, a: Action)
    requires Inv(w) && Orderly(w, a)
    ensures Inv(Do(w, a))
  {
    if Passive(a) {
      StepSound(w, a);
      PassiveIsQuiet(w, a);
      QuietKeeps(w, Do(w, a));
    } else if a.BeginUpdate? || a.BeginRollback? {
      BeginKeeps(w, a);
    } else if a.Seed? {
      SeedKeeps(w, a.id, a.last);
    } else if a.h < |w.handlers| {
      HandleKeeps(w, a, a.h);
    }
  }

  lemma {:induction false} RunKeeps(w: World, actions: seq<Action>)
    requires Inv(w) && OrderlyRun(w, actions)
    ensures Inv(Run(w, actions))
    decreases |actions|
  {
    if actions != [] {
      StepKeeps(w, actions[0]);
      RunKeeps(Do(w, actions[0]), actions[1..]);
    }
  }

  /**
   The store agrees with the daemon: after every orderly run of any number of interleaved
   executor, rollback and watcher steps, a tracked container that exists and has a history
   has, as its current digest, the digest its reference is pinned to, or a push of exactly
   that container's handler is still to come.
   */
  lemma StoreAgreesWithDaemon(w0: World, actions: seq<Action>, id: Id)
    requires Init(w0) && OrderlyRun(w0, actions)
    ensures Sound(Run(w0, actions)) && Agrees(Run(w0, actions), id)
  {
    RunKeeps(w0, actions);
    assert Agrees(Run(w0, actions), id);
  }

  /** When no push of the container's own handler is to come, agreement is exact. */
  lemma AgreementAtRest(w0: World, actions: seq<Action>, id: Id)
    requires Init(w0) && OrderlyRun(w0, actions)
    requires var w := Run(w0, actions);
      && id in w.store.index && id in w.daemon.live && w.store.index[id] in w.store.heap
      && w.store.heap[w.store.index[id]].history != [] && !Pending(w, id, w.store.index[id])
    ensures var w := Run(w0, actions);
      id in w.daemon.born && w.store.heap[w.store.index[id]].CurrentDigest() == ImageRefs.Pin(w.daemon.born[id].Image())
  {
    StoreAgreesWithDaemon(w0, actions, id);
  }

  // ---- Exactly when ---------------------------------------------------------

  /** A handler's own push suits its new container exactly when the event's image was not pinned already. */
  lemma OwnPushSuits(w: World, h: Handler)
    requires HandlerOk(w.daemon, w.store.heap, h) && h.call.PastCreate() && h.call.newId in w.daemon.live
    ensures Suits(w, h, h.call.newId) <==>
      '@' !in h.cause.Image() || (h.cause.Digest() == "" && ImageRefs.Pin(h.cause.Image()) == "")
  {
    ImageRefs.PinIsDigest(h.cause.Image(), h.cause.Digest());
    assert w.daemon.born[h.call.newId].Image() == h.call.ref;
  }

  /** Some pending pushes performed, in the order given. */
  function Pushes(order: seq<nat>): seq<Action> {
    seq(|order|, i requires 0 <= i < |order| => Push(order[i]))
  }

  /** However the pushes to come are performed from here, nothing disagrees. */
  ghost predicate Settles(w: World) {
    forall order, id {:trigger Agrees(Run(w, Pushes(order)), id)} :: Agrees(Run(w, Pushes(order)), id)
  }

  ghost predicate SettlesThroughout(w: World, actions: seq<Action>)
    decreases |actions|
  {
    Settles(w) && (actions != [] ==> SettlesThroughout(Do(w, actions[0]), actions[1..]))
  }

  lemma {:induction false} PushesKeep(w: World, order: seq<nat>)
    requires Inv(w)
    ensures Inv(Run(w, Pushes(order)))
    decreases |order|
  {
    if order != [] {
      assert Pushes(order)[1..] == Pushes(order[1..]);
      StepKeeps(w, Push(order[0]));
      PushesKeep(Do(w, Push(order[0])), order[1..]);
    }
  }

  lemma InvSettles(w: World)
    requires Inv(w)
    ensures Settles(w)
  {
    forall order, id ensures Agrees(Run(w, Pushes(order)), id) {
      PushesKeep(w, order);
    }
  }

  /** The last push onto the state of a live container decides; with no other push to come it must be right. */
  lemma PushDecides(w: World, g: nat, z: Id)
    requires g < |w.handlers| && w.handlers[g].phase.Pushing? && w.handlers[g].phase.obj in w.store.heap
    requires z in w.store.index && w.store.index[z] == w.handlers[g].phase.obj
    requires z in w.daemon.live && z in w.daemon.born
    requires forall k | 0 <= k < |w.handlers| && k != g && w.handlers[k].phase == w.handlers[g].phase ::
      w.handlers[k].call.newId != z
    ensures Agrees(Do(w, Push(g)), z) <==> Suits(w, w.handlers[g], z)
  {
    var v := PushedBy(w, g);
    var o := w.handlers[g].phase.obj;
    var c := w.handlers[g].cause;
    assert v.store == w.store.Push(o, c.Image(), c.Digest());
    assert v.store.heap[o].CurrentDigest() == c.Digest() && v.store.heap[o].history != [];
    forall k | 0 <= k < |v.handlers| && v.handlers[k].phase == Pushing(o) ensures v.handlers[k].call.newId != z {
      assert k != g && v.handlers[k] == w.handlers[k];
    }
    assert !Pending(v, z, o);
  }

  /** The re-keying's own push: the new container is tracked, alive, and nobody else pushes for it. */
  lemma OwnPushDecides(w: World, h: nat)
    requires Sound(w) && Moves(w, h)
    ensures var v := Do(w, Rekey(h));
      Agrees(Do(v, Push(h)), w.handlers[h].call.newId) <==> Suits(w, w.handlers[h], w.handlers[h].call.newId)
  {
    var v := Do(w, Rekey(h));
    var z := w.handlers[h].call.newId;
    assert HandlerOk(w.daemon, w.store.heap, w.handlers[h]);
    forall k | 0 <= k < |v.handlers| && k != h && v.handlers[k].phase == v.handlers[h].phase
      ensures v.handlers[k].call.newId != z
    {
      assert HandlerOk(w.daemon, w.store.heap, w.handlers[k]) && Apart(w.handlers[k], w.handlers[h]);
    }
    PushDecides(v, h, z);
  }

  /**
   The race, exactly: a handler re-keys a state onto which another one still has to push, and
   both push, the late one last. Store and daemon agree about the new container if and only
   if the late digest is the one it is pinned to.
   */
  lemma LatePushDecides(w: World, h: nat, g: nat)
    requires Sound(w) && Moves(w, h) && g < |w.handlers| && g != h
    requires w.handlers[g].phase == Pushing(w.store.index[w.handlers[h].call.target])
    ensures var v := Do(Do(w, Rekey(h)), Push(h));
      Agrees(Do(v, Push(g)), w.handlers[h].call.newId) <==> Suits(w, w.handlers[g], w.handlers[h].call.newId)
  {
    var z, o := w.handlers[h].call.newId, w.store.index[w.handlers[h].call.target];
    var u := Do(w, Rekey(h));
    var v := Do(u, Push(h));
    assert HandlerOk(w.daemon, w.store.heap, w.handlers[h]);
    assert u.handlers == w.handlers[h := w.handlers[h].(phase := Pushing(o))];
    assert v.handlers == w.handlers[h := w.handlers[h].(phase := Announcing)];
    forall k | 0 <= k < |v.handlers| && v.handlers[k].phase == Pushing(o) ensures v.handlers[k].call.newId != z {
      assert HandlerOk(w.daemon, w.store.heap, w.handlers[k]) && Apart(w.handlers[k], w.handlers[h]);
    }
    PushDecides(v, g, z);
  }

  lemma RunPushes(w: World, h: nat, g: nat)
    ensures Run(w, Pushes([h])) == Do(w, Push(h)) && Run(w, Pushes([h, g])) == Do(Do(w, Push(h)), Push(g))
  {
    assert Pushes([h]) == [] + [Push(h)] && Pushes([h, g]) == [Push(h)] + [Push(g)];
    RunLast(w, [], Push(h));
    RunLast(w, [Push(h)], Push(g));
  }

  /** After a re-keying that was not orderly some order of the pushes to come ends in disagreement. */
  lemma MoveUnsettles(w: World, h: nat)
    requires Sound(w) && !Orderly(w, Rekey(h))
    ensures !Settles(Do(w, Rekey(h)))
  {
    var v := Do(w, Rekey(h));
    var z := w.handlers[h].call.newId;
    if !Suits(w, w.handlers[h], z) {
      OwnPushDecides(w, h);
      RunPushes(v, h, h);
      assert !Agrees(Run(v, Pushes([h])), z);
    } else {
      var g :| 0 <= g < |w.handlers| && w.handlers[g].phase == Pushing(w.store.index[w.handlers[h].call.target])
               && !Suits(w, w.handlers[g], z);
      LatePushDecides(w, h, g);
      RunPushes(v, h, g);
      assert !Agrees(Run(v, Pushes([h, g])), z);
    }
  }

  /** A seeding decides at once whether store and daemon agree about its container. */
  lemma SeedDecides(w: World, id: Id, last: string)
    requires Seeds(w, id, last)
    ensures Agrees(Do(w, Seed(id, last)), id) <==> ImageRefs.Pin(w.daemon.born[id].Image()) == last
  {
    var r := w.store.index[id];
    var v := Do(w, Seed(id, last));
    assert v.store.heap[r].CurrentDigest() == last;
    assert Pending(v, id, r) <==> Pending(w, id, r);
  }

  lemma DisorderUnsettles(w: World, a: Action)
    requires Sound(w) && !Orderly(w, a)
    ensures !Settles(Do(w, a))
  {
    if a.Rekey? {
      MoveUnsettles(w, a.h);
    } else {
      SeedDecides(w, a.id, a.last);
      assert Run(Do(w, a), Pushes([])) == Do(w, a);
      assert !Agrees(Run(Do(w, a), Pushes([])), a.id);
    }
  }

  lemma {:induction false} SettlesExactly(w: World, actions: seq<Action>)
    requires Inv(w)
    ensures SettlesThroughout(w, actions) <==> OrderlyRun(w, actions)
    decreases |actions|
  {
    InvSettles(w);
    if actions != [] {
      if Orderly(w, actions[0]) {
        StepKeeps(w, actions[0]);
        SettlesExactly(Do(w, actions[0]), actions[1..]);
      } else {
        DisorderUnsettles(w, actions[0]);
      }
    }
  }

  /**
   Agreement, exactly: over every run from the start, store and daemon agree in every state
   and whichever way the pushes to come are performed, if and only if every re-keying and
   every seeding of the run was orderly.
   */
  lemma AgreementExactly(w0: World, actions: seq<Action>)
    requires Init(w0)
    ensures SettlesThroughout(w0, actions) <==> OrderlyRun(w0, actions)
  {
    InitSound(w0);
    SettlesExactly(w0, actions);
  }
}
