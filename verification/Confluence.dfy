/**
 One handler's bookkeeping among everything else. After a recreation of container `x` as `y`
 the handler re-keys the state and pushes onto it; meanwhile the watcher sees `x` destroyed
 and `y` started, and anything may happen to other containers. Every interleaving ends with
 `x` untracked, and what became of the digest history depends on one thing only: whether
 the re-keying came before the destroy event. This holds of the executor, which falls back
 on the state it looked up, and of the rollback engine, which looks the old id up again.
 */
module Confluence {
  import D = Docker
  import S = DigestStore
  import opened ControlLoop

  predicate HandlerStep(a: Action) {
    a.Operate? || a.Rekey? || a.Refetch? || a.Push? || a.Announce?
  }

  // ---- Everybody else -------------------------------------------------------

  /**
   Either a step of handler `g` itself, or one that leaves its containers and its state `o`
   alone. The watcher may handle the destroy event of the old container and the start event of
   the new one whenever they come; it does not see the old container start again afterwards.
   */
  predicate Minds(w: World, a: Action, g: nat, o: Obj) {
    g < |w.handlers| &&
    var c := w.handlers[g].call;
    match a
    case Started(x, _, _) => x == c.target ==> x in w.store.index
    case Destroyed(x) => !(c.PastCreate() && x == c.newId)
    case Seed(x, _) => x != c.target && !(c.PastCreate() && x == c.newId)
    case OutsideRemove(x) => !(c.PastCreate() && x == c.newId)
    case Operate(h, _, _) =>
      h < |w.handlers| && h != g ==> !(c.PastCreate() && w.handlers[h].call.target == c.newId)
    case Rekey(h) => h < |w.handlers| && h != g ==> !Touches(w.handlers[h].call, c)
    case Push(h) =>
      h < |w.handlers| && h != g ==>
        w.handlers[h].phase != Pushing(o)
        && (c.PastCreate() && c.newId in w.store.index ==> w.handlers[h].phase != Pushing(w.store.index[c.newId]))
    case _ => true
  }

  /** A call between containers of which one is the other call's old or new one. */
  predicate Touches(d: D.Call, c: D.Call) {
    d.target == c.target || d.newId == c.target || (c.PastCreate() && (d.target == c.newId || d.newId == c.newId))
  }

  predicate MindfulRun(w: World, actions: seq<Action>, g: nat, o: Obj)
    decreases |actions|
  {
    actions != [] ==> Minds(w, actions[0], g, o) && MindfulRun(Do(w, actions[0]), actions[1..], g, o)
  }

  // ---- What the watcher did meanwhile ---------------------------------------

  /**
   `lost`: the old container's destroy event was handled before the re-keying; `seen`: the
   new container's start event was handled.
   */
  datatype Notes = Notes(lost: bool, seen: bool)

  function Noted(w: World, n: Notes, a: Action, g: nat): Notes {
    if g < |w.handlers| then
      var hd := w.handlers[g];
      Notes(n.lost || (hd.phase.Recreating? && a == Destroyed(hd.call.target)),
            n.seen || (a.Started? && hd.call.PastCreate() && a.id == hd.call.newId && a.id in Do(w, a).store.index))
    else n
  }

  function NotesOf(w: World, n: Notes, actions: seq<Action>, g: nat): Notes
    decreases |actions|
  {
    if actions == [] then n else NotesOf(Do(w, actions[0]), Noted(w, n, actions[0], g), actions[1..], g)
  }

  // ---- How far the handler has come -----------------------------------------

  /** The daemon's half, which no watcher event can disturb. */
  ghost predicate Alive(w: World, g: nat, c: Cause) {
    && g < |w.handlers| && w.handlers[g].cause == c
    && (w.handlers[g].call.PastCreate() ==> w.handlers[g].call.newId in w.daemon.live)
  }

  /** The state is still tracked where the handler will look, or already where it put it. */
  ghost predicate Kept(store: View, hd: Handler, o: Obj, h0: seq<S.DigestEntry>) {
    && !hd.phase.Refetching? && o in store.heap
    && var home := if hd.phase.Recreating? then hd.call.target else hd.call.newId;
    && home in store.index && store.index[home] == o
    && store.heap[o].history == (if hd.phase.Recreating? || hd.phase.Pushing? then h0
                                 else S.Pushed(h0, S.DigestEntry(hd.cause.Digest(), hd.cause.Image())))
  }

  /** The new container, as long as the handler has not put the state there: blank, tracked once seen. */
  ghost predicate Blank(store: View, call: D.Call, seen: bool) {
    if call.PastCreate() then
      && (call.newId in store.index <==> seen)
      && (seen ==> store.index[call.newId] in store.heap && store.heap[store.index[call.newId]].history == [])
    else !seen
  }

  /** The state is out of reach for good. */
  ghost predicate Gone(store: View, o: Obj) {
    o in store.heap && store.Orphan(o)
  }

  ghost predicate Tracking(store: View, hd: Handler, o: Obj, h0: seq<S.DigestEntry>, n: Notes) {
    && (hd.cause.ByUpdate? ==> hd.cause.cs == o) && (hd.phase.Pushing? ==> hd.phase.obj == o)
    && (n.lost || !hd.phase.Recreating? ==> hd.call.target !in store.index)
    && (n.lost || hd.phase.Recreating? ==> Blank(store, hd.call, n.seen))
    && (if n.lost then Gone(store, o) else Kept(store, hd, o, h0))
  }

  ghost predicate Told(hd: Handler, applied: set<Applied>) {
    hd.phase.Ended? && hd.cause.ByUpdate? ==>
      var u := hd.cause.u;
      Applied(hd.call.newId, u.name, u.image, u.oldDigest, u.newDigest) in applied
  }

  ghost predicate Progress(w: World, g: nat, c: Cause, o: Obj, h0: seq<S.DigestEntry>, n: Notes) {
    Alive(w, g, c) && Tracking(w.store, w.handlers[g], o, h0, n) && Told(w.handlers[g], w.applied)
  }

  // ---- Steps of others ------------------------------------------------------

  lemma OthersHandler(w: World, a: Action, g: nat)
    requires g < |w.handlers| && (HandlerStep(a) ==> a.h != g)
    ensures g < |Do(w, a).handlers| && Do(w, a).handlers[g] == w.handlers[g]
    ensures w.applied <= Do(w, a).applied
  {
  }

  lemma AdvanceSpares(d: D.Daemon, c: D.Call, ok: bool, newId: Id, id: Id)
    requires id in d.live && c.target != id
    ensures id in D.Advance(d, c, ok, newId).0.live
  {
  }

  lemma OthersDaemon(w: World, a: Action, g: nat, o: Obj)
    requires g < |w.handlers| && Minds(w, a, g, o) && (HandlerStep(a) ==> a.h != g)
    requires w.handlers[g].call.PastCreate() && w.handlers[g].call.newId in w.daemon.live
    ensures w.handlers[g].call.newId in Do(w, a).daemon.live
  {
    if a.Operate? {
      if a.h < |w.handlers| {
        AdvanceSpares(w.daemon, w.handlers[a.h].call, a.ok, a.newId, w.handlers[g].call.newId);
      }
    } else {
      assert !(a.OutsideCreate? || a.OutsideRemove? || a.OutsideRun?) ==> Do(w, a).daemon == w.daemon;
    }
  }

  /** Only re-keying, pushing, seeding and the watcher's start and destroy write the store. */
  lemma Unwritten(w: World, a: Action)
    requires !(a.Rekey? || a.Push? || a.Started? || a.Destroyed? || a.Seed?)
    ensures Do(w, a).store == w.store
  {
  }

  lemma StartTracks(w: World, x: Id, image: string, obj: Obj, g: nat, o: Obj, h0: seq<S.DigestEntry>, n: Notes)
    requires Sound(w) && g < |w.handlers| && Tracking(w.store, w.handlers[g], o, h0, n)
    requires Minds(w, Started(x, image, obj), g, o)
    ensures Tracking(WatchStart(w, x, image, obj).store, w.handlers[g], o, h0, Noted(w, n, Started(x, image, obj), g))
  {
  }

  lemma DestroyTracks(w: World, x: Id, g: nat, o: Obj, h0: seq<S.DigestEntry>, n: Notes)
    requires Sound(w) && g < |w.handlers| && Tracking(w.store, w.handlers[g], o, h0, n)
    requires Minds(w, Destroyed(x), g, o)
    ensures Tracking(w.store.Remove(x), w.handlers[g], o, h0, Noted(w, n, Destroyed(x), g))
  {
  }

  lemma RekeyTracks(store: View, d: D.Call, hd: Handler, o: Obj, h0: seq<S.DigestEntry>, n: Notes)
    requires store.WellKeyed() && Tracking(store, hd, o, h0, n) && !Touches(d, hd.call)
    requires !hd.phase.Recreating? ==> hd.call.PastCreate()
    ensures Tracking(store.Rekey(d.target, d.newId), hd, o, h0, n)
  {
  }

  lemma PushTracks(store: View, p: Obj, image: string, digest: string, hd: Handler, o: Obj, h0: seq<S.DigestEntry>,
                   n: Notes)
    requires Tracking(store, hd, o, h0, n) && p != o
    requires hd.call.PastCreate() && hd.call.newId in store.index ==> p != store.index[hd.call.newId]
    ensures Tracking(store.Push(p, image, digest), hd, o, h0, n)
  {
  }

  lemma OthersRekey(w: World, h: nat, g: nat, o: Obj, h0: seq<S.DigestEntry>, n: Notes)
    requires Sound(w) && g < |w.handlers| && Tracking(w.store, w.handlers[g], o, h0, n) && h < |w.handlers|
    requires !Touches(w.handlers[h].call, w.handlers[g].call)
    ensures Tracking(Rekeyed(w, h).store, w.handlers[g], o, h0, n)
  {
    assert HandlerOk(w.daemon, w.store.heap, w.handlers[g]);
    RekeyTracks(w.store, w.handlers[h].call, w.handlers[g], o, h0, n);
  }

  lemma OthersPush(w: World, h: nat, g: nat, o: Obj, h0: seq<S.DigestEntry>, n: Notes)
    requires g < |w.handlers| && Tracking(w.store, w.handlers[g], o, h0, n) && h < |w.handlers| && h != g
    requires Minds(w, Push(h), g, o)
    ensures Tracking(PushedBy(w, h).store, w.handlers[g], o, h0, n)
  {
    if w.handlers[h].phase.Pushing? {
      PushTracks(w.store, w.handlers[h].phase.obj, w.handlers[h].cause.Image(), w.handlers[h].cause.Digest(),
                 w.handlers[g], o, h0, n);
    }
  }

  lemma SeedTracks(w: World, x: Id, last: string, g: nat, o: Obj, h0: seq<S.DigestEntry>, n: Notes)
    requires Sound(w) && g < |w.handlers| && Tracking(w.store, w.handlers[g], o, h0, n)
    requires Minds(w, Seed(x, last), g, o)
    ensures Tracking(SeedState(w, x, last).store, w.handlers[g], o, h0, n)
  {
    assert HandlerOk(w.daemon, w.store.heap, w.handlers[g]);
    if SeedState(w, x, last) != w {
      PushTracks(w.store, w.store.index[x], w.store.heap[w.store.index[x]].image, last, w.handlers[g], o, h0, n);
    }
  }

  lemma NotNoted(w: World, n: Notes, a: Action, g: nat)
    requires !a.Started? && !a.Destroyed?
    ensures Noted(w, n, a, g) == n
  {
  }

  lemma WatcherTracks(w: World, a: Action, g: nat, o: Obj, h0: seq<S.DigestEntry>, n: Notes)
    requires Sound(w) && g < |w.handlers| && Tracking(w.store, w.handlers[g], o, h0, n) && Minds(w, a, g, o)
    requires a.Started? || a.Destroyed?
    ensures Tracking(Do(w, a).store, w.handlers[g], o, h0, Noted(w, n, a, g))
  {
    if a.Started? {
      StartTracks(w, a.id, a.image, a.obj, g, o, h0, n);
    } else {
      DestroyTracks(w, a.id, g, o, h0, n);
    }
  }

  lemma OthersTrack(w: World, a: Action, g: nat, o: Obj, h0: seq<S.DigestEntry>, n: Notes)
    requires Sound(w) && g < |w.handlers| && Tracking(w.store, w.handlers[g], o, h0, n) && Minds(w, a, g, o)
    requires HandlerStep(a) ==> a.h != g
    ensures Tracking(Do(w, a).store, w.handlers[g], o, h0, Noted(w, n, a, g))
  {
    if a.Started? || a.Destroyed? {
      WatcherTracks(w, a, g, o, h0, n);
    } else {
      NotNoted(w, n, a, g);
      if a.Rekey? && a.h < |w.handlers| {
        OthersRekey(w, a.h, g, o, h0, n);
      } else if a.Push? && a.h < |w.handlers| {
        OthersPush(w, a.h, g, o, h0, n);
      } else if a.Seed? {
        SeedTracks(w, a.id, a.last, g, o, h0, n);
      } else {
        Unmoved(w, a);
      }
    }
  }

  lemma Unmoved(w: World, a: Action)
    requires !a.Started? && !a.Destroyed? && !a.Seed? && (a.Rekey? || a.Push? ==> a.h >= |w.handlers|)
    ensures Do(w, a).store == w.store
  {
    if !a.Rekey? && !a.Push? {
      Unwritten(w, a);
    }
  }

  lemma OthersProgress(w: World, a: Action, g: nat, c: Cause, o: Obj, h0: seq<S.DigestEntry>, n: Notes)
    requires Sound(w) && Progress(w, g, c, o, h0, n) && Minds(w, a, g, o) && (HandlerStep(a) ==> a.h != g)
    ensures Progress(Do(w, a), g, c, o, h0, Noted(w, n, a, g))
  {
    OthersHandler(w, a, g);
    OthersTrack(w, a, g, o, h0, n);
    if w.handlers[g].call.PastCreate() {
      OthersDaemon(w, a, g, o);
    }
  }

  // ---- The handler's own steps ----------------------------------------------

  lemma OwnOperate(w: World, g: nat, ok: bool, id: Id, c: Cause, o: Obj, h0: seq<S.DigestEntry>, n: Notes)
    requires Sound(w) && Progress(w, g, c, o, h0, n)
    ensures Progress(Do(w, Operate(g, ok, id)), g, c, o, h0, n)
  {
    assert HandlerOk(w.daemon, w.store.heap, w.handlers[g]);
  }

  lemma OwnRekey(w: World, g: nat, c: Cause, o: Obj, h0: seq<S.DigestEntry>, n: Notes)
    requires Sound(w) && Progress(w, g, c, o, h0, n)
    ensures Progress(Do(w, Rekey(g)), g, c, o, h0, n)
  {
    assert HandlerOk(w.daemon, w.store.heap, w.handlers[g]);
  }

  lemma OwnRefetch(w: World, g: nat, c: Cause, o: Obj, h0: seq<S.DigestEntry>, n: Notes)
    requires Sound(w) && Progress(w, g, c, o, h0, n)
    ensures Progress(Do(w, Refetch(g)), g, c, o, h0, n)
  {
    assert HandlerOk(w.daemon, w.store.heap, w.handlers[g]);
  }

  lemma OwnPush(w: World, g: nat, c: Cause, o: Obj, h0: seq<S.DigestEntry>, n: Notes)
    requires Sound(w) && Progress(w, g, c, o, h0, n)
    ensures Progress(Do(w, Push(g)), g, c, o, h0, n)
  {
    assert HandlerOk(w.daemon, w.store.heap, w.handlers[g]);
  }

  lemma OwnAnnounce(w: World, g: nat, c: Cause, o: Obj, h0: seq<S.DigestEntry>, n: Notes)
    requires Progress(w, g, c, o, h0, n)
    ensures Progress(Do(w, Announce(g)), g, c, o, h0, n)
  {
  }

  lemma OwnProgress(w: World, a: Action, g: nat, c: Cause, o: Obj, h0: seq<S.DigestEntry>, n: Notes)
    requires Sound(w) && Progress(w, g, c, o, h0, n) && HandlerStep(a) && a.h == g
    ensures Progress(Do(w, a), g, c, o, h0, n)
  {
    match a {
      case Operate(_, ok, id) => OwnOperate(w, g, ok, id, c, o, h0, n);
      case Rekey(_) => OwnRekey(w, g, c, o, h0, n);
      case Refetch(_) => OwnRefetch(w, g, c, o, h0, n);
      case Push(_) => OwnPush(w, g, c, o, h0, n);
      case Announce(_) => OwnAnnounce(w, g, c, o, h0, n);
    }
  }

  lemma StepProgress(w: World, a: Action, g: nat, c: Cause, o: Obj, h0: seq<S.DigestEntry>, n: Notes)
    requires Sound(w) && Progress(w, g, c, o, h0, n) && Minds(w, a, g, o)
    ensures Progress(Do(w, a), g, c, o, h0, Noted(w, n, a, g))
  {
    if HandlerStep(a) && a.h == g {
      NotNoted(w, n, a, g);
      OwnProgress(w, a, g, c, o, h0, n);
    } else {
      OthersProgress(w, a, g, c, o, h0, n);
    }
  }

  lemma {:induction false} ProgressRun(w: World, actions: seq<Action>, g: nat, c: Cause, o: Obj,
                                       h0: seq<S.DigestEntry>, n: Notes)
    requires Sound(w) && Progress(w, g, c, o, h0, n) && MindfulRun(w, actions, g, o)
    ensures Sound(Run(w, actions)) && Progress(Run(w, actions), g, c, o, h0, NotesOf(w, n, actions, g))
    decreases |actions|
  {
    if actions != [] {
      StepSound(w, actions[0]);
      StepProgress(w, actions[0], g, c, o, h0, n);
      ProgressRun(Do(w, actions[0]), actions[1..], g, c, o, h0, Noted(w, n, actions[0], g));
    }
  }

  // ---- Confluence -----------------------------------------------------------

  /** Handler `g` has just begun: its container is tracked by `o`, for the executor the state it looked up. */
  ghost predicate Begun(w: World, g: nat, o: Obj) {
    && Sound(w) && g < |w.handlers| && w.handlers[g].phase.Recreating? && !w.handlers[g].call.PastCreate()
    && w.handlers[g].call.target in w.store.index && w.store.index[w.handlers[g].call.target] == o && o in w.store.heap
    && (w.handlers[g].cause.ByUpdate? ==> w.handlers[g].cause.cs == o)
  }

  predicate Over(hd: Handler) {
    hd.phase.Announcing? || hd.phase.Ended?
  }

  /**
   Whatever the interleaving and whatever happens to other containers, when a handler's
   bookkeeping is over its new container exists as requested and the old id is untracked.
   If the re-keying preceded the destroy event the new container is tracked with the old
   history and the new digest in front; otherwise that history is out of reach, and the new
   container is tracked, with no history, exactly if its start event was handled.
   */
  lemma EventsConfluent(w: World, actions: seq<Action>, g: nat, o: Obj)
    requires Begun(w, g, o) && MindfulRun(w, actions, g, o)
    requires g < |Run(w, actions).handlers| && Over(Run(w, actions).handlers[g])
    ensures var v, n := Run(w, actions), NotesOf(w, Notes(false, false), actions, g);
      var c, x, y := v.handlers[g].cause, v.handlers[g].call.target, v.handlers[g].call.newId;
      && c == w.handlers[g].cause && x == w.handlers[g].call.target
      && y in v.daemon.live && y in v.daemon.born && v.daemon.born[y].Image() == c.Ref()
      && x !in v.store.index
      && (!n.lost ==>
            && y in v.store.index && v.store.index[y] == o && o in v.store.heap
            && v.store.heap[o].history == S.Pushed(w.store.heap[o].history, S.DigestEntry(c.Digest(), c.Image())))
      && (n.lost ==> v.store.Orphan(o) && (y in v.store.index <==> n.seen)
                     && (n.seen ==> v.store.index[y] in v.store.heap && v.store.heap[v.store.index[y]].history == []))
  {
    var hd := w.handlers[g];
    var h0 := w.store.heap[o].history;
    assert HandlerOk(w.daemon, w.store.heap, hd);
    assert Progress(w, g, hd.cause, o, h0, Notes(false, false));
    ProgressRun(w, actions, g, hd.cause, o, h0, Notes(false, false));
    var v := Run(w, actions);
    assert HandlerOk(v.daemon, v.store.heap, v.handlers[g]);
    assert v.handlers[g].call.target == hd.cause.Target() == hd.call.target;
  }
}
