/**
 The update and rollback control loop: executor, rollback engine, watcher and health
 monitor as handlers whose single steps interleave in any order over one store and one
 daemon. Any number of handlers may run at once. Published events are remembered for
 good: a handler may take an event late, twice or never, which covers the lossy queues
 of the bus.
 */
module ControlLoop {
  import D = Docker
  import S = DigestStore
  import Semver
  import ImageRefs

  type Id = string
  type Obj = nat
  type View = S.StoreView<Obj>

  datatype Update = Update(id: Id, name: string, image: string, oldDigest: string, newDigest: string)
  datatype Unhealthy = Unhealthy(id: Id, name: string, image: string, applied: string, prev: string)
  datatype Applied = Applied(id: Id, name: string, image: string, oldDigest: string, newDigest: string)

  /** What a handler is working on; the executor also holds on to the state it looked up. */
  datatype Cause = ByUpdate(u: Update, cs: Obj) | ByRollback(m: Unhealthy) {
    function Image(): string {
      if ByUpdate? then u.image else m.image
    }

    function Digest(): string {
      if ByUpdate? then u.newDigest else m.prev
    }

    function Target(): Id {
      if ByUpdate? then u.id else m.id
    }

    function Ref(): string {
      if ByUpdate? then ImageRefs.ImageRef(u.image, u.newDigest) else m.image + "@" + m.prev
    }
  }

  /** The bookkeeping that follows a recreation, one lock at a time. */
  datatype Phase = Recreating | Refetching | Pushing(obj: Obj) | Announcing | Ended

  datatype Handler = Handler(cause: Cause, call: D.Call, phase: Phase)

  datatype World = World(
    store: View,
    daemon: D.Daemon,
    handlers: seq<Handler>,
    updates: set<Update>,
    unhealthy: set<Unhealthy>,
    applied: set<Applied>,
    origin: map<Id, Id>)  // which first container each container descends from

  datatype Action =
    | Detect(u: Update)                                 // poller, webhook or image pull
    | BeginUpdate(u: Update)                            // executor takes an event
    | BeginRollback(m: Unhealthy)                       // rollback engine takes an event
    | Operate(h: nat, ok: bool, newId: Id)              // next daemon operation of a handler
    | Rekey(h: nat)
    | Refetch(h: nat)
    | Push(h: nat)
    | Announce(h: nat)
    | Started(id: Id, image: string, obj: Obj)          // watcher: container start
    | Destroyed(id: Id)                                 // watcher: container destroy
    | ReportedUnhealthy(id: Id)                         // watcher: health_status unhealthy
    | WatchFailed(a: Applied)                           // health monitor within the grace window
    | Seed(id: Id, last: string)                        // poller: a configured service without history
    | OutsideCreate(id: Id, c: D.Container)             // someone else's docker commands
    | OutsideRemove(id: Id)
    | OutsideRun(id: Id, running: bool)

  // ---- Effects --------------------------------------------------------------

  /** executor.handle up to the point where it calls Recreate. */
  function TakeUpdate(w: World, u: Update): World {
    if u in w.updates && u.id in w.store.index && w.store.index[u.id] in w.store.heap then
      var cs := w.store.index[u.id];
      var s := w.store.heap[cs];
      if Semver.Decide(s.labels, s.image, u.image).Direct? then
        w.(handlers := w.handlers + [Handler(ByUpdate(u, cs), D.NewCall(u.id, ByUpdate(u, cs).Ref()), Recreating)])
      else w
    else w
  }

  /** A message at which the rollback engine panics: it slices sixteen characters off the applied digest. */
  predicate Fatal(m: Unhealthy) {
    |m.applied| < 16
  }

  /** rollback.handle up to Recreate. A panic ends the program, and with it the run. */
  function TakeRollback(w: World, m: Unhealthy): World {
    if m in w.unhealthy && !Fatal(m) && m.prev != ""
    then w.(handlers := w.handlers + [Handler(ByRollback(m), D.NewCall(m.id, ByRollback(m).Ref()), Recreating)])
    else w
  }

  function Operated(w: World, h: nat, ok: bool, newId: Id): World
    requires h < |w.handlers|
  {
    var hd := w.handlers[h];
    if hd.phase.Recreating? then
      var (d, c) := D.Advance(w.daemon, hd.call, ok, newId);
      w.(daemon := d,
         handlers := w.handlers[h := hd.(call := c)],
         origin := if hd.call.target in w.origin && d.born != w.daemon.born
                   then w.origin[newId := w.origin[hd.call.target]] else w.origin)
    else w
  }

  /** Moves the state to the new id. The executor falls back on the state it started from. */
  function Rekeyed(w: World, h: nat): World
    requires h < |w.handlers|
  {
    var hd := w.handlers[h];
    var oldId := hd.call.target;
    if hd.phase.Recreating? && hd.call.Succeeded() then
      if oldId in w.store.index && w.store.index[oldId] in w.store.heap then
        w.(store := w.store.Rekey(oldId, hd.call.newId),
           handlers := w.handlers[h := hd.(phase := Pushing(w.store.index[oldId]))])
      else if hd.cause.ByUpdate? then
        w.(handlers := w.handlers[h := hd.(phase := Pushing(hd.cause.cs))])
      else
        w.(handlers := w.handlers[h := hd.(phase := Refetching)])
    else w
  }

  /** The rollback engine looks the old id up once more. */
  function Refetched(w: World, h: nat): World
    requires h < |w.handlers|
  {
    var hd := w.handlers[h];
    if hd.phase.Refetching? then
      w.(handlers := w.handlers[h := hd.(phase :=
        if hd.call.target in w.store.index then Pushing(w.store.index[hd.call.target]) else Announcing)])
    else w
  }

  function PushedBy(w: World, h: nat): World
    requires h < |w.handlers|
  {
    var hd := w.handlers[h];
    if hd.phase.Pushing? then
      w.(store := w.store.Push(hd.phase.obj, hd.cause.Image(), hd.cause.Digest()),
         handlers := w.handlers[h := hd.(phase := Announcing)])
    else w
  }

  function Announced(w: World, h: nat): World
    requires h < |w.handlers|
  {
    var hd := w.handlers[h];
    if hd.phase.Announcing? then
      var done := w.(handlers := w.handlers[h := hd.(phase := Ended)]);
      if hd.cause.ByUpdate? then
        var u := hd.cause.u;
        done.(applied := w.applied + {Applied(hd.call.newId, u.name, u.image, u.oldDigest, u.newDigest)})
      else done
    else w
  }

  /** What the watcher reads for a start event: the event's image, or the inspected one. */
  function ObservedImage(c: D.Container, image: string): string {
    if image == "" then c.Image() else image
  }

  function WatchStart(w: World, id: Id, image: string, obj: Obj): World {
    if id in w.daemon.born && (image == "" || image == w.daemon.born[id].Image())
       && (id in w.store.index || obj !in w.store.heap) then
      var c := w.daemon.born[id];
      w.(store := w.store.Upsert(id, c.name, ObservedImage(c, image), c.LabelsOf(), obj))
    else w
  }

  function WatchUnhealthy(w: World, id: Id): World {
    if id in w.store.index && w.store.index[id] in w.store.heap then
      var s := w.store.heap[w.store.index[id]];
      w.(unhealthy := w.unhealthy + {Unhealthy(s.id, s.name, s.image, s.CurrentDigest(), s.PreviousDigest())})
    else w
  }

  /** The health monitor reads the previous digest only when it reports. */
  function ReportFailure(w: World, a: Applied): World {
    if a in w.applied && a.id != "" then
      var prev := if a.id in w.store.index && w.store.index[a.id] in w.store.heap
                  then w.store.heap[w.store.index[a.id]].PreviousDigest() else "";
      w.(unhealthy := w.unhealthy + {Unhealthy(a.id, a.name, a.image, a.newDigest, prev)})
    else w
  }

  /** The poller fills an empty history with the digest the service was last checked to have. */
  predicate Seedable(w: World, id: Id, last: string) {
    && id in w.store.index && w.store.index[id] in w.store.heap && last != ""
    && w.store.heap[w.store.index[id]].CurrentDigest() == ""
  }

  function SeedState(w: World, id: Id, last: string): World {
    if Seedable(w, id, last) then
      w.(store := w.store.Push(w.store.index[id], w.store.heap[w.store.index[id]].image, last))
    else w
  }

  function Outside(w: World, a: Action): World {
    match a
    case OutsideCreate(id, c) =>
      if id !in w.daemon.born && id != "" && w.daemon.NameFree(c.name)
      then w.(daemon := D.Daemon(w.daemon.born[id := c], w.daemon.live[id := false]), origin := w.origin[id := id])
      else w
    case OutsideRemove(id) => w.(daemon := w.daemon.(live := w.daemon.live - {id}))
    case OutsideRun(id, running) =>
      if id in w.daemon.live then w.(daemon := w.daemon.(live := w.daemon.live[id := running])) else w
    case _ => w
  }

  function Handle(w: World, a: Action, h: nat): World
    requires h < |w.handlers|
  {
    match a
    case Operate(_, ok, newId) => Operated(w, h, ok, newId)
    case Rekey(_) => Rekeyed(w, h)
    case Refetch(_) => Refetched(w, h)
    case Push(_) => PushedBy(w, h)
    case Announce(_) => Announced(w, h)
    case _ => w
  }

  /** One step of the system; an action that is not possible changes nothing. */
  function Do(w: World, a: Action): World {
    match a
    case Detect(u) => w.(updates := w.updates + {u})
    case BeginUpdate(u) => TakeUpdate(w, u)
    case BeginRollback(m) => TakeRollback(w, m)
    case Started(id, image, obj) => WatchStart(w, id, image, obj)
    case Destroyed(id) => w.(store := w.store.Remove(id))
    case ReportedUnhealthy(id) => WatchUnhealthy(w, id)
    case WatchFailed(x) => ReportFailure(w, x)
    case Seed(id, last) => SeedState(w, id, last)
    case OutsideCreate(_, _) => Outside(w, a)
    case OutsideRemove(_) => Outside(w, a)
    case OutsideRun(_, _) => Outside(w, a)
    case _ => if a.h < |w.handlers| then Handle(w, a, a.h) else w
  }

  function Run(w: World, actions: seq<Action>): World
    decreases |actions|
  {
    if actions == [] then w else Run(Do(w, actions[0]), actions[1..])
  }

  lemma {:induction false} RunConcat(w: World, a: seq<Action>, b: seq<Action>)
    ensures Run(w, a + b) == Run(Run(w, a), b)
    decreases |a|
  {
    if a == [] {
      assert a + b == b;
    } else {
      assert (a + b)[0] == a[0] && (a + b)[1..] == a[1..] + b;
      RunConcat(Do(w, a[0]), a[1..], b);
    }
  }

  lemma RunLast(w: World, actions: seq<Action>, a: Action)
    ensures Run(w, actions + [a]) == Do(Run(w, actions), a)
  {
    RunConcat(w, actions, [a]);
    assert Run(Run(w, actions), [a]) == Run(Do(Run(w, actions), a), []) by { assert [a][1..] == []; }
  }

  /**
   When the watcher's unhealthy report is fatal: exactly when the tracked container's current
   digest is shorter than sixteen characters. Every container without history is such a
   container, and all of them are when the program has just started.
   */
  lemma FatalReport(w: World, id: Id)
    requires id in w.store.index && w.store.index[id] in w.store.heap
    ensures var s := w.store.heap[w.store.index[id]];
      var current := if |s.history| == 0 then "" else s.history[0].digest;
      var m := Unhealthy(s.id, s.name, s.image, current, if |s.history| < 2 then "" else s.history[1].digest);
      && Do(w, ReportedUnhealthy(id)) == w.(unhealthy := w.unhealthy + {m})
      && (Fatal(m) <==> |current| < 16) && (s.history == [] ==> Fatal(m))
  {
  }

  /**
   The health monitor's report is fatal exactly when the applied digest is shorter than sixteen
   characters, as after an update event that carried none.
   */
  lemma FatalMonitorReport(w: World, a: Applied)
    requires a in w.applied && a.id != ""
    ensures var tracked := a.id in w.store.index && w.store.index[a.id] in w.store.heap;
      var h := if tracked then w.store.heap[w.store.index[a.id]].history else [];
      var m := Unhealthy(a.id, a.name, a.image, a.newDigest, if |h| < 2 then "" else h[1].digest);
      && Do(w, WatchFailed(a)) == w.(unhealthy := w.unhealthy + {m})
      && (Fatal(m) <==> |a.newDigest| < 16)
  {
  }

  lemma FatalAtStart(w: World, id: Id)
    requires Init(w) && id in w.store.index
    ensures exists m :: m in Do(w, ReportedUnhealthy(id)).unhealthy && m.id == id && Fatal(m)
  {
    FatalReport(w, id);
    var s := w.store.heap[w.store.index[id]];
    var m := Unhealthy(s.id, s.name, s.image, s.CurrentDigest(), s.PreviousDigest());
    assert m in Do(w, ReportedUnhealthy(id)).unhealthy;
  }

  /**
   After a start event the state tracked under the id, new or old, describes the container as
   the daemon holds it: name, image and labels are overwritten, only the history is kept; all
   other states and the rest of the world stay as they are.
   */
  lemma StartRecords(w: World, id: Id, image: string, obj: Obj)
    requires Sound(w) && id in w.daemon.born && (id in w.store.index || obj !in w.store.heap)
    requires var c := w.daemon.born[id].config; image == "" || (c.Some? && image == c.value.image)
    ensures var v := Do(w, Started(id, image, obj));
      && v == w.(store := v.store) && id in v.store.index && v.store.index[id] in v.store.heap
      && v.store.index == w.store.index[id := if id in w.store.index then w.store.index[id] else obj]
      && (forall o | o in w.store.heap && o != v.store.index[id] ::
            o in v.store.heap && v.store.heap[o] == w.store.heap[o])
    ensures var v := Do(w, Started(id, image, obj));
      var s, c := v.store.heap[v.store.index[id]], w.daemon.born[id];
      && s.id == id && s.name == c.name
      && s.image == (if c.config.Some? then c.config.value.image else "")
      && s.labels == (if c.config.Some? then c.config.value.labels else map[])
      && s.history == if id in w.store.index then w.store.heap[w.store.index[id]].history else []
  {
    assert id in w.store.index ==> w.store.heap[w.store.index[id]].id == id;
  }

  // ---- What every step keeps ------------------------------------------------

  ghost predicate HandlerOk(d: D.Daemon, heap: map<Obj, S.State>, h: Handler) {
    && h.call.ref == h.cause.Ref() && h.call.target == h.cause.Target()
    && (h.cause.ByUpdate? ==> h.cause.cs in heap)
    && (h.cause.ByRollback? ==> h.cause.m.prev != "")
    && D.CallSound(d, h.call)
    && (!h.phase.Recreating? ==> h.call.Succeeded())
    && (h.phase.Pushing? ==> h.phase.obj in heap)
  }

  ghost predicate Apart(g: Handler, h: Handler) {
    D.NoRivals(g.call, h.call)
  }

  ghost predicate AllOk(w: World) {
    forall i | 0 <= i < |w.handlers| :: HandlerOk(w.daemon, w.store.heap, w.handlers[i])
  }

  ghost predicate AllApart(handlers: seq<Handler>) {
    forall i, j | 0 <= i < |handlers| && 0 <= j < |handlers| && i != j :: Apart(handlers[i], handlers[j])
  }

  ghost predicate Sound(w: World) {
    && w.daemon.Consistent()
    && w.store.WellKeyed() && w.store.index.Keys <= w.daemon.born.Keys
    && AllOk(w) && AllApart(w.handlers)
  }

  /** The start: the store seeded from the daemon, nobody at work. */
  ghost predicate Init(w: World) {
    && w.daemon.Consistent() && w.store.WellKeyed() && w.store.index.Keys <= w.daemon.born.Keys
    && w.handlers == [] && w.unhealthy == {} && w.applied == {}
    && (forall id | id in w.store.index :: w.store.heap[w.store.index[id]].history == [])
  }

  /** Nothing a step does to the daemon takes a description back or revives a container. */
  ghost predicate Later(d: D.Daemon, e: D.Daemon) {
    && (forall i | i in d.born :: i in e.born && e.born[i] == d.born[i])
    && (forall i | i in d.born && i in e.live :: i in d.live)
  }

  lemma AdvanceLater(d: D.Daemon, c: D.Call, ok: bool, id: Id)
    requires d.Consistent()
    ensures var e := D.Advance(d, c, ok, id).0; Later(d, e) && e.Consistent()
  {
  }

  lemma OkLater(d: D.Daemon, e: D.Daemon, heap: map<Obj, S.State>, heap': map<Obj, S.State>, h: Handler)
    requires HandlerOk(d, heap, h) && Later(d, e) && heap.Keys <= heap'.Keys
    ensures HandlerOk(e, heap', h)
  {
  }

  lemma OperateOk(d: D.Daemon, heap: map<Obj, S.State>, h: Handler, ok: bool, id: Id)
    requires d.Consistent() && HandlerOk(d, heap, h) && h.phase.Recreating?
    ensures var (e, c) := D.Advance(d, h.call, ok, id); HandlerOk(e, heap, h.(call := c))
  {
  }

  lemma OperateApart(d: D.Daemon, heap: map<Obj, S.State>, h: Handler, g: Handler, ok: bool, id: Id)
    requires HandlerOk(d, heap, h) && HandlerOk(d, heap, g) && Apart(g, h)
    ensures Apart(g, h.(call := D.Advance(d, h.call, ok, id).1))
  {
  }

  lemma ApartSymmetric(g: Handler, h: Handler)
    ensures Apart(g, h) <==> Apart(h, g)
  {
  }

  lemma OperateSound(w: World, h: nat, ok: bool, id: Id)
    requires Sound(w) && h < |w.handlers| && w.handlers[h].phase.Recreating?
    ensures Sound(Operated(w, h, ok, id))
  {
    var v := Operated(w, h, ok, id);
    var hd := w.handlers[h];
    AdvanceLater(w.daemon, hd.call, ok, id);
    OperateOk(w.daemon, w.store.heap, hd, ok, id);
    forall i | 0 <= i < |v.handlers| && i != h
      ensures HandlerOk(v.daemon, v.store.heap, v.handlers[i]) && Apart(v.handlers[i], v.handlers[h])
      ensures Apart(v.handlers[h], v.handlers[i])
    {
      OkLater(w.daemon, v.daemon, w.store.heap, v.store.heap, w.handlers[i]);
      assert Apart(w.handlers[i], hd);
      OperateApart(w.daemon, w.store.heap, hd, w.handlers[i], ok, id);
      ApartSymmetric(v.handlers[i], v.handlers[h]);
    }
    assert AllApart(v.handlers) by {
      forall i, j | 0 <= i < |v.handlers| && 0 <= j < |v.handlers| && i != j
        ensures Apart(v.handlers[i], v.handlers[j])
      {
        assert i != h && j != h ==> Apart(w.handlers[i], w.handlers[j]);
      }
    }
  }

  /** A step that touches neither calls nor, for any handler, what it relies on. */
  lemma SameCallsSound(w: World, v: World)
    requires Sound(w) && v.daemon.Consistent() && Later(w.daemon, v.daemon)
    requires v.store.WellKeyed() && v.store.index.Keys <= v.daemon.born.Keys && w.store.heap.Keys <= v.store.heap.Keys
    requires |v.handlers| == |w.handlers|
    requires forall i | 0 <= i < |w.handlers| ::
      v.handlers[i].call == w.handlers[i].call && v.handlers[i].cause == w.handlers[i].cause
      && (v.handlers[i].phase == w.handlers[i].phase
          || (w.handlers[i].call.Succeeded()
              && (v.handlers[i].phase.Pushing? ==> v.handlers[i].phase.obj in v.store.heap)))
    ensures Sound(v)
  {
    forall i | 0 <= i < |v.handlers| ensures HandlerOk(v.daemon, v.store.heap, v.handlers[i]) {
      OkLater(w.daemon, v.daemon, w.store.heap, v.store.heap, w.handlers[i]);
    }
    forall i, j | 0 <= i < |v.handlers| && 0 <= j < |v.handlers| && i != j ensures Apart(v.handlers[i], v.handlers[j]) {
      assert Apart(w.handlers[i], w.handlers[j]);
    }
  }

  lemma NewHandlerSound(w: World, v: World, hd: Handler)
    requires Sound(w) && v == w.(handlers := w.handlers + [hd])
    requires hd.call == D.NewCall(hd.cause.Target(), hd.cause.Ref()) && hd.phase.Recreating?
    requires hd.cause.ByUpdate? ==> hd.cause.cs in w.store.heap
    requires hd.cause.ByRollback? ==> hd.cause.m.prev != ""
    ensures Sound(v)
  {
    forall i | 0 <= i < |v.handlers| ensures HandlerOk(v.daemon, v.store.heap, v.handlers[i]) {
      assert i < |w.handlers| ==> v.handlers[i] == w.handlers[i];
    }
    forall i, j | 0 <= i < |v.handlers| && 0 <= j < |v.handlers| && i != j ensures Apart(v.handlers[i], v.handlers[j]) {
      assert i < |w.handlers| && j < |w.handlers| ==> Apart(w.handlers[i], w.handlers[j]);
    }
  }

  lemma RekeySound(w: World, h: nat)
    requires Sound(w) && h < |w.handlers|
    ensures Sound(Rekeyed(w, h))
  {
    var v := Rekeyed(w, h);
    var hd := w.handlers[h];
    assert HandlerOk(w.daemon, w.store.heap, hd);
    S.StepKeepsWellKeyed(w.store, S.Op.Rekey(hd.call.target, hd.call.newId));
    SameCallsSound(w, v);
  }

  lemma StartSound(w: World, id: Id, image: string, obj: Obj)
    requires Sound(w)
    ensures Sound(WatchStart(w, id, image, obj))
  {
    var v := WatchStart(w, id, image, obj);
    if v != w {
      var c := w.daemon.born[id];
      S.StepKeepsWellKeyed(w.store, S.Op.Upsert(id, c.name, ObservedImage(c, image), c.LabelsOf(), obj));
    }
    SameCallsSound(w, v);
  }

  lemma BeginSound(w: World, a: Action)
    requires Sound(w) && (a.BeginUpdate? || a.BeginRollback?)
    ensures Sound(Do(w, a))
  {
    var v := Do(w, a);
    if v != w {
      NewHandlerSound(w, v, v.handlers[|w.handlers|]);
    }
  }

  lemma BookkeepingSound(w: World, a: Action, h: nat)
    requires Sound(w) && h < |w.handlers| && (a.Refetch? || a.Push? || a.Announce?)
    ensures Sound(Handle(w, a, h))
  {
    assert HandlerOk(w.daemon, w.store.heap, w.handlers[h]);
    SameCallsSound(w, Handle(w, a, h));
  }

  lemma HandleSound(w: World, a: Action, h: nat)
    requires Sound(w) && h < |w.handlers|
    ensures Sound(Handle(w, a, h))
  {
    match a {
      case Operate(_, ok, newId) => if w.handlers[h].phase.Recreating? { OperateSound(w, h, ok, newId); }
      case Rekey(_) => RekeySound(w, h);
      case Refetch(_) => BookkeepingSound(w, a, h);
      case Push(_) => BookkeepingSound(w, a, h);
      case Announce(_) => BookkeepingSound(w, a, h);
      case _ =>
    }
  }

  lemma OutsideSound(w: World, a: Action)
    requires Sound(w)
    ensures Sound(Outside(w, a))
  {
    SameCallsSound(w, Outside(w, a));
  }

  /** Steps that touch no handler: events, reports and seeding. */
  lemma EventSound(w: World, a: Action)
    requires Sound(w) && (a.Detect? || a.Destroyed? || a.ReportedUnhealthy? || a.WatchFailed? || a.Seed?)
    ensures Sound(Do(w, a))
  {
    SameCallsSound(w, Do(w, a));
  }

  lemma StepSound(w: World, a: Action)
    requires Sound(w)
    ensures Sound(Do(w, a))
  {
    match a {
      case BeginUpdate(_) => BeginSound(w, a);
      case BeginRollback(_) => BeginSound(w, a);
      case Started(id, image, obj) => StartSound(w, id, image, obj);
      case Detect(_) => EventSound(w, a);
      case Destroyed(_) => EventSound(w, a);
      case ReportedUnhealthy(_) => EventSound(w, a);
      case WatchFailed(_) => EventSound(w, a);
      case Seed(_, _) => EventSound(w, a);
      case OutsideCreate(_, _) => OutsideSound(w, a);
      case OutsideRemove(_) => OutsideSound(w, a);
      case OutsideRun(_, _) => OutsideSound(w, a);
      case _ => if a.h < |w.handlers| { HandleSound(w, a, a.h); }
    }
  }

  lemma InitSound(w: World)
    requires Init(w)
    ensures Sound(w)
  {
  }

  /** In every state of every run, for every number of handlers. */
  lemma {:induction false} RunSound(w: World, actions: seq<Action>)
    requires Sound(w)
    ensures Sound(Run(w, actions))
    decreases |actions|
  {
    if actions != [] {
      StepSound(w, actions[0]);
      RunSound(Do(w, actions[0]), actions[1..]);
    }
  }
}
