/**
 A whole rollback story in the control loop: an update moves a container from digest A
 to digest B, the health monitor reports it, the rollback engine restores it, and in
 the end the daemon is back at A, whatever everybody else did in between to other
 containers and however the handlers' steps interleave with the watcher's. The store is
 back at A exactly if the rollback's re-keying came before the destroy event.
 */
module RollbackRun {
  import opened GoStrings
  import D = Docker
  import S = DigestStore
  import ImageRefs
  import opened ControlLoop
  import opened Confluence

  // ---- Actions that leave one container alone -------------------------------

  /** `a` does not write what the store holds for `id`, whose state is `o`, except on a start event. */
  predicate SparesStore(w: World, a: Action, id: Id, o: Obj) {
    match a
    case Destroyed(x) => x != id
    case Seed(x, _) => x != id
    case Rekey(h) => h < |w.handlers| ==> w.handlers[h].call.target != id && w.handlers[h].call.newId != id
    case Push(h) => h < |w.handlers| ==> w.handlers[h].phase != Pushing(o)
    case _ => true
  }

  /** `a` neither removes nor replaces container `id`. */
  predicate SparesDaemon(w: World, a: Action, id: Id) {
    match a
    case OutsideRemove(x) => x != id
    case Operate(h, _, _) => h < |w.handlers| ==> w.handlers[h].call.target != id
    case _ => true
  }

  predicate Spares(w: World, a: Action, id: Id, o: Obj) {
    SparesStore(w, a, id, o) && SparesDaemon(w, a, id)
  }

  predicate SparingRun(w: World, actions: seq<Action>, id: Id, o: Obj)
    decreases |actions|
  {
    actions != [] ==> Spares(w, actions[0], id, o) && SparingRun(Do(w, actions[0]), actions[1..], id, o)
  }

  /** `id` exists, is tracked by `o`, and `o` has this history. */
  ghost predicate At(w: World, id: Id, o: Obj, history: seq<S.DigestEntry>) {
    && id in w.daemon.live && id in w.daemon.born && w.daemon.born[id].config.Some?
    && id in w.store.index && w.store.index[id] == o && o in w.store.heap && w.store.heap[o].history == history
  }

  lemma SparedStore(w: World, a: Action, id: Id, o: Obj, history: seq<S.DigestEntry>)
    requires Sound(w) && SparesStore(w, a, id, o)
    requires id in w.store.index && w.store.index[id] == o && o in w.store.heap && w.store.heap[o].history == history
    ensures var v := Do(w, a);
      id in v.store.index && v.store.index[id] == o && o in v.store.heap && v.store.heap[o].history == history
  {
    if a.Rekey? {
      SparedRekey(w, a.h, id, o);
    } else if !(a.Push? || a.Started? || a.Destroyed? || a.Seed?) {
      Unwritten(w, a);
    }
  }

  lemma SparedRekey(w: World, h: nat, id: Id, o: Obj)
    requires Sound(w) && SparesStore(w, Rekey(h), id, o)
    requires id in w.store.index && w.store.index[id] == o && o in w.store.heap
    ensures var v := Do(w, Rekey(h));
      id in v.store.index && v.store.index[id] == o && o in v.store.heap && v.store.heap[o] == w.store.heap[o]
  {
    if h < |w.handlers| {
      var target := w.handlers[h].call.target;
      assert target in w.store.index ==> w.store.index[target] != o;
    }
  }

  lemma SparedDaemon(w: World, a: Action, id: Id)
    requires Sound(w) && id in w.daemon.born && SparesDaemon(w, a, id)
    ensures var v := Do(w, a);
      id in v.daemon.born && v.daemon.born[id] == w.daemon.born[id] && (id in w.daemon.live ==> id in v.daemon.live)
  {
    if a.Operate? {
      if a.h < |w.handlers| { AdvanceKeeps(w.daemon, w.handlers[a.h].call, a.ok, a.newId, id); }
    } else {
      assert !(a.OutsideCreate? || a.OutsideRemove? || a.OutsideRun?) ==> Do(w, a).daemon == w.daemon;
    }
  }

  lemma AdvanceKeeps(d: D.Daemon, c: D.Call, ok: bool, newId: Id, id: Id)
    requires id in d.born && c.target != id
    ensures var e := D.Advance(d, c, ok, newId).0;
      id in e.born && e.born[id] == d.born[id] && (id in d.live ==> id in e.live)
  {
  }

  lemma {:induction false} SparedRun(w: World, actions: seq<Action>, id: Id, o: Obj, history: seq<S.DigestEntry>)
    requires Sound(w) && SparingRun(w, actions, id, o) && At(w, id, o, history)
    ensures Sound(Run(w, actions)) && At(Run(w, actions), id, o, history)
    ensures Run(w, actions).daemon.born[id] == w.daemon.born[id]
    ensures w.unhealthy <= Run(w, actions).unhealthy && w.applied <= Run(w, actions).applied
    decreases |actions|
  {
    if actions != [] {
      StepSound(w, actions[0]);
      SparedStore(w, actions[0], id, o, history);
      SparedDaemon(w, actions[0], id);
      MessagesStay(w, actions[0]);
      SparedRun(Do(w, actions[0]), actions[1..], id, o, history);
    }
  }

  lemma MessagesStay(w: World, a: Action)
    ensures w.unhealthy <= Do(w, a).unhealthy && w.applied <= Do(w, a).applied
  {
  }

  // ---- The story ------------------------------------------------------------

  /** What the executor announces for its handler `h`. */
  function Announcement(w: World, h: nat): Applied
    requires h < |w.handlers| && w.handlers[h].cause.ByUpdate?
  {
    var u := w.handlers[h].cause.u;
    Applied(w.handlers[h].call.newId, u.name, u.image, u.oldDigest, u.newDigest)
  }

  /** What the health monitor publishes for an applied update of a container with previous digest `prev`. */
  function Report(a: Applied, prev: string): Unhealthy {
    Unhealthy(a.id, a.name, a.image, a.newDigest, prev)
  }

  /** An executor handler that had just begun has run to its end among others. */
  ghost predicate Updates(w: World, actions: seq<Action>, h: nat, o: Obj) {
    && Begun(w, h, o) && w.handlers[h].cause.ByUpdate? && MindfulRun(w, actions, h, o)
    && h < |Run(w, actions).handlers| && Run(w, actions).handlers[h].phase.Ended?
    && Run(w, actions).handlers[h].cause == w.handlers[h].cause
  }

  lemma UpdateEnds(w: World, actions: seq<Action>, h: nat, o: Obj)
    requires Updates(w, actions, h, o)
    ensures var v := Run(w, actions);
      && Sound(v) && v.handlers[h].cause == w.handlers[h].cause && Announcement(v, h) in v.applied
      && v.handlers[h].call.newId in v.daemon.born && v.daemon.born[v.handlers[h].call.newId].config.Some?
  {
    var hd := w.handlers[h];
    assert HandlerOk(w.daemon, w.store.heap, hd);
    assert Progress(w, h, hd.cause, o, w.store.heap[o].history, Notes(false, false));
    ProgressRun(w, actions, h, hd.cause, o, w.store.heap[o].history, Notes(false, false));
    var v := Run(w, actions);
    assert HandlerOk(v.daemon, v.store.heap, v.handlers[h]);
  }

  /**
   However its bookkeeping interleaves with others: if its re-keying came before the destroy
   event, then after an update the new digest is current, the old one previous, and the
   monitor is told.
   */
  lemma UpdateLands(w: World, actions: seq<Action>, h: nat, o: Obj)
    requires Updates(w, actions, h, o) && w.store.heap[o].history != []
    requires !NotesOf(w, Notes(false, false), actions, h).lost
    ensures var v := Run(w, actions);
      && Sound(v) && v.handlers[h].cause == w.handlers[h].cause && Announcement(v, h) in v.applied
      && At(v, Announcement(v, h).id, o, v.store.heap[o].history)
      && v.store.heap[o].CurrentDigest() == Announcement(v, h).newDigest
      && v.store.heap[o].PreviousDigest() == w.store.heap[o].CurrentDigest()
  {
    UpdateEnds(w, actions, h, o);
    EventsConfluent(w, actions, h, o);
    var c := w.handlers[h].cause;
    PushedTwice(w.store.heap[o].history, S.DigestEntry(c.Digest(), c.Image()));
  }

  lemma PushedTwice(history: seq<S.DigestEntry>, e: S.DigestEntry)
    requires history != []
    ensures |S.Pushed(history, e)| >= 2 && S.Pushed(history, e)[0] == e && S.Pushed(history, e)[1] == history[0]
  {
  }

  lemma ReportIs(w: World, a: Applied, o: Obj, history: seq<S.DigestEntry>)
    requires Sound(w) && a in w.applied && a.id != "" && At(w, a.id, o, history)
    ensures var v := Do(w, WatchFailed(a));
      Sound(v) && At(v, a.id, o, history) && Report(a, w.store.heap[o].PreviousDigest()) in v.unhealthy
  {
    StepSound(w, WatchFailed(a));
  }

  /**
   If instead the update's destroy event came first and the start event followed, the
   container has no history left: whenever the monitor reports it, there is no previous
   digest. The rollback engine panics at the report exactly when the applied digest is shorter
   than sixteen characters, and otherwise takes no action at all.
   */
  lemma LostUpdateCannotRollBack(w: World, update: seq<Action>, h: nat, o: Obj, before: seq<Action>)
    requires Updates(w, update, h, o) && NotesOf(w, Notes(false, false), update, h) == Notes(true, true)
    requires var v := Run(w, update);
      Announcement(v, h).id != "" && Announcement(v, h).id in v.store.index
      && SparingRun(v, before, Announcement(v, h).id, v.store.index[Announcement(v, h).id])
    ensures var a := Announcement(Run(w, update), h);
      var r := Do(Run(Run(w, update), before), WatchFailed(a));
      && Report(a, "") in r.unhealthy && (Fatal(Report(a, "")) <==> |a.newDigest| < 16)
      && (!Fatal(Report(a, "")) ==> Do(r, BeginRollback(Report(a, ""))) == r)
  {
    var v := Run(w, update);
    var a := Announcement(v, h);
    UpdateEnds(w, update, h, o);
    EventsConfluent(w, update, h, o);
    SparedRun(v, before, a.id, v.store.index[a.id], []);
    ReportIs(Run(v, before), a, v.store.index[a.id], []);
  }

  /** From the end of the update to the monitor's report and on to the moment before the rollback. */
  lemma UntilReport(w1: World, a: Applied, o: Obj, digestA: string, before: seq<Action>, w2: World,
                    between: seq<Action>, w3: World)
    requires Sound(w1) && a in w1.applied && a.id != "" && o in w1.store.heap
    requires At(w1, a.id, o, w1.store.heap[o].history)
    requires w1.store.heap[o].PreviousDigest() == digestA
    requires SparingRun(w1, before, a.id, o) && w2 == Do(Run(w1, before), WatchFailed(a))
    requires SparingRun(w2, between, a.id, o) && w3 == Run(w2, between)
    ensures Sound(w3) && Report(a, digestA) in w3.unhealthy
    ensures a.id in w3.store.index && w3.store.index[a.id] == o && o in w3.store.heap
  {
    var history := w1.store.heap[o].history;
    SparedRun(w1, before, a.id, o, history);
    ReportIs(Run(w1, before), a, o, history);
    SparedRun(w2, between, a.id, o, history);
  }

  lemma RollbackBegins(w: World, m: Unhealthy, o: Obj)
    requires Sound(w) && m in w.unhealthy && |m.applied| >= 16 && m.prev != ""
    requires m.id in w.store.index && w.store.index[m.id] == o && o in w.store.heap
    ensures var v := Do(w, BeginRollback(m));
      && Begun(v, |w.handlers|, o) && |v.handlers| == |w.handlers| + 1
      && v.handlers[|w.handlers|].cause == ByRollback(m)
  {
    BeginSound(w, BeginRollback(m));
  }

  /**
   From the start of a rollback to its end: the daemon runs the previous digest in any case,
   and the store calls it current if and only if the re-keying preceded the destroy event.
   */
  lemma RollbackEnds(w: World, m: Unhealthy, o: Obj, during: seq<Action>, end: World)
    requires Sound(w) && m in w.unhealthy && |m.applied| >= 16 && m.prev != "" && '@' !in m.image
    requires m.id in w.store.index && w.store.index[m.id] == o && o in w.store.heap
    requires MindfulRun(Do(w, BeginRollback(m)), during, |w.handlers|, o)
    requires end == Run(Do(w, BeginRollback(m)), during) && |w.handlers| < |end.handlers|
    requires Over(end.handlers[|w.handlers|])
    ensures var z := end.handlers[|w.handlers|].call.newId;
      && z in end.daemon.live && z in end.daemon.born && ImageRefs.Pin(end.daemon.born[z].Image()) == m.prev
      && (IsCurrent(end, z, m.prev)
          <==> !NotesOf(Do(w, BeginRollback(m)), Notes(false, false), during, |w.handlers|).lost)
  {
    RollbackBegins(w, m, o);
    EventsConfluent(Do(w, BeginRollback(m)), during, |w.handlers|, o);
    ImageRefs.PinIsDigest(m.image, m.prev);
  }

  ghost predicate IsCurrent(w: World, id: Id, digest: string) {
    && id in w.store.index && w.store.index[id] in w.store.heap
    && w.store.heap[w.store.index[id]].CurrentDigest() == digest
  }

  /**
   Update from A to B, unhealthy, restore. The executor takes an event for a container at A
   (`w0`) and, among others, finishes with its re-keying before the destroy event (`w1`); a
   run spares the new container and the monitor reports it (`w2`); another such run (`w3`);
   the rollback engine takes the report (`w4`) and, among others, finishes (`end`). Then a
   container pinned to A exists under the rollback's new id, and the store has A as its
   current digest if and only if the rollback's re-keying preceded the destroy event.
   */
  lemma RestoresOldDigest(w0: World, update: seq<Action>, h: nat, o: Obj, w1: World, before: seq<Action>, w2: World,
                          between: seq<Action>, w3: World, during: seq<Action>, end: World)
    requires Updates(w0, update, h, o) && w0.store.heap[o].CurrentDigest() != "" && w1 == Run(w0, update)
    requires !NotesOf(w0, Notes(false, false), update, h).lost
    requires var a := Announcement(w1, h);
      && a.id != "" && |a.newDigest| >= 16 && '@' !in a.image
      && SparingRun(w1, before, a.id, o) && w2 == Do(Run(w1, before), WatchFailed(a))
      && SparingRun(w2, between, a.id, o) && w3 == Run(w2, between)
    requires var w4 := Do(w3, BeginRollback(Report(Announcement(w1, h), w0.store.heap[o].CurrentDigest())));
      && MindfulRun(w4, during, |w3.handlers|, o) && end == Run(w4, during)
      && |w3.handlers| < |end.handlers| && Over(end.handlers[|w3.handlers|])
    ensures var m := Report(Announcement(w1, h), w0.store.heap[o].CurrentDigest());
      var z := end.handlers[|w3.handlers|].call.newId;
      && z in end.daemon.live && z in end.daemon.born && ImageRefs.Pin(end.daemon.born[z].Image()) == m.prev
      && (IsCurrent(end, z, m.prev)
          <==> !NotesOf(Do(w3, BeginRollback(m)), Notes(false, false), during, |w3.handlers|).lost)
  {
    var digestA := w0.store.heap[o].CurrentDigest();
    UpdateLands(w0, update, h, o);
    var a := Announcement(w1, h);
    UntilReport(w1, a, o, digestA, before, w2, between, w3);
    RollbackEnds(w3, Report(a, digestA), o, during, end);
  }
}
