/**
 The race that the agreement theorem's condition excludes, as a run: re-keying and pushing
 are two critical sections, and when a rollback fits between them the late push lands on
 the wrong container for good. From every start with a tracked container that may be
 updated, two updates and half a third lead there.
 */
module Races {
  import opened GoStrings
  import D = Docker
  import S = DigestStore
  import ImageRefs
  import opened ControlLoop
  import Agreement
  import opened HandlerRuns

  // ---- The race -------------------------------------------------------------

  /** The message the watcher publishes when the daemon reports `y` unhealthy. */
  function Complaint(s: S.State): Unhealthy {
    Unhealthy(s.id, s.name, s.image, s.CurrentDigest(), s.PreviousDigest())
  }

  /** A rollback of the complaint from start to finish with nobody in between. */
  function QuickRollback(w: World, m: Unhealthy, z: Id): seq<Action> {
    [BeginRollback(m)] + Operations(|w.handlers|, GRANTED, |GRANTED|, z) + [Rekey(|w.handlers|), Push(|w.handlers|)]
  }

  /** What the race needs of a world where a rollback of `m` can start. */
  ghost predicate CanRollBack(w: World, m: Unhealthy, o: Obj, z: Id) {
    && w.daemon.Consistent() && m in w.unhealthy && |m.applied| >= 16 && m.prev != ""
    && m.id in w.store.index && w.store.index[m.id] == o && o in w.store.heap
    && m.id in w.daemon.live && m.id in w.daemon.born && w.daemon.born[m.id].config.Some?
    && z !in w.daemon.born && z != ""
  }

  /** The rollback's call, finished. */
  function DoneCall(w: World, m: Unhealthy, z: Id): D.Call
    requires m.id in w.daemon.born
  {
    var ref := ByRollback(m).Ref();
    D.Call(m.id, ref, D.Done, false, w.daemon.born[m.id].WithImage(ref), z)
  }

  lemma QuickRecreation(w: World, m: Unhealthy, o: Obj, z: Id)
    requires CanRollBack(w, m, o, z)
    ensures var g := |w.handlers|;
      var v := Run(Do(w, BeginRollback(m)), Operations(g, GRANTED, |GRANTED|, z));
      && v.store == w.store && v.handlers == w.handlers + [Handler(ByRollback(m), DoneCall(w, m, z), Recreating)]
      && z in v.daemon.live && z in v.daemon.born
      && v.daemon.born[z] == w.daemon.born[m.id].WithImage(ByRollback(m).Ref())
  {
    var g := |w.handlers|;
    var c := D.NewCall(m.id, ByRollback(m).Ref());
    var w1 := Do(w, BeginRollback(m));
    assert w1.handlers == w.handlers + [Handler(ByRollback(m), c, Recreating)];
    AloneSucceeds(w.daemon, m.id, c.ref, z);
    SoloRun(w1, g, GRANTED, |GRANTED|, z);
  }

  lemma QuickSettling(w: World, v: World, m: Unhealthy, o: Obj, z: Id)
    requires CanRollBack(w, m, o, z) && v.store == w.store
    requires v.handlers == w.handlers + [Handler(ByRollback(m), DoneCall(w, m, z), Recreating)]
    ensures var g := |w.handlers|;
      var e := Do(Do(v, Rekey(g)), Push(g));
      && e.handlers == w.handlers + [Handler(ByRollback(m), DoneCall(w, m, z), Announcing)] && e.daemon == v.daemon
      && z in e.store.index && e.store.index[z] == o && o in e.store.heap
  {
    var g := |w.handlers|;
    var r := Do(v, Rekey(g));
    assert r.handlers == w.handlers + [Handler(ByRollback(m), DoneCall(w, m, z), Pushing(o))];
  }

  lemma QuickRollbackRuns(w: World, m: Unhealthy, o: Obj, z: Id)
    requires CanRollBack(w, m, o, z)
    ensures var v := Run(w, QuickRollback(w, m, z));
      && v.handlers == w.handlers + [Handler(ByRollback(m), DoneCall(w, m, z), Announcing)]
      && z in v.store.index && v.store.index[z] == o && o in v.store.heap
      && z in v.daemon.live && z in v.daemon.born && v.daemon.born[z].Image() == m.image + "@" + m.prev
  {
    var g := |w.handlers|;
    var w1 := Do(w, BeginRollback(m));
    QuickRecreation(w, m, o, z);
    QuickSettling(w, Run(w1, Operations(g, GRANTED, |GRANTED|, z)), m, o, z);
    RunTwo(Run(w1, Operations(g, GRANTED, |GRANTED|, z)), Rekey(g), Push(g));
    RunConcat(w1, Operations(g, GRANTED, |GRANTED|, z), [Rekey(g), Push(g)]);
    RunFirst(w, BeginRollback(m), Operations(g, GRANTED, |GRANTED|, z) + [Rekey(g), Push(g)]);
    assert QuickRollback(w, m, z) == [BeginRollback(m)] + (Operations(g, GRANTED, |GRANTED|, z) + [Rekey(g), Push(g)]);
  }

  /**
   The guard is needed in every such state: if a handler still has to push onto a
   container's state, whose current digest is long enough and whose previous digest is
   another than the one to be pushed, then an unhealthy report, a rollback that re-keys the
   same state, and only then the late push leave a live, tracked container whose current
   digest is not the one it is pinned to, with no push to come that would mend it.
   */
  lemma UnguardedRekeyBreaks(w: World, h: nat, y: Id, o: Obj, z: Id)
    requires Sound(w) && AwaitsPush(w, h, y, o) && z !in w.daemon.born && z != ""
    requires var s := w.store.heap[o];
      && |s.CurrentDigest()| >= 16 && s.PreviousDigest() != ""
      && s.PreviousDigest() != w.handlers[h].cause.Digest() && '@' !in s.image
    ensures var w1 := Do(w, ReportedUnhealthy(y));
      var w2 := Run(w1, QuickRollback(w1, Complaint(w.store.heap[o]), z));
      !Agreement.Agrees(Do(w2, Push(h)), z)
  {
    var s := w.store.heap[o];
    var m := Complaint(s);
    var w1 := Do(w, ReportedUnhealthy(y));
    assert w1 == w.(unhealthy := w.unhealthy + {m});
    assert CanRollBack(w1, m, o, z);
    QuickRollbackRuns(w1, m, o, z);
    var w2 := Run(w1, QuickRollback(w1, m, z));
    forall g | 0 <= g < |w.handlers| && w.handlers[g].phase == Pushing(o) ensures w.handlers[g].call.newId != z {
      assert HandlerOk(w.daemon, w.store.heap, w.handlers[g]);
    }
    ImageRefs.PinIsDigest(s.image, m.prev);
    LatePush(w2, h, o, z);
  }

  /** A push of another digest than the pinned one, with no further push for that container to come. */
  lemma LatePush(w: World, h: nat, o: Obj, z: Id)
    requires h < |w.handlers| && w.handlers[h].phase == Pushing(o)
    requires z in w.store.index && w.store.index[z] == o && o in w.store.heap && z in w.daemon.live
    requires z in w.daemon.born
    requires w.handlers[h].cause.Digest() != ImageRefs.Pin(w.daemon.born[z].Image())
    requires forall g | 0 <= g < |w.handlers| && w.handlers[g].phase == Pushing(o) :: w.handlers[g].call.newId != z
    ensures !Agreement.Agrees(Do(w, Push(h)), z)
  {
    var v := PushedBy(w, h);
    var c := w.handlers[h].cause;
    assert v.store == w.store.Push(o, c.Image(), c.Digest()) && v.daemon == w.daemon;
    var s := w.store.heap[o].Push(c.Image(), c.Digest());
    assert v.store.heap[o] == s && s.history != [] && s.CurrentDigest() == c.Digest();
    assert !Agreement.Matches(s, ImageRefs.Pin(w.daemon.born[z].Image()));
    forall g | 0 <= g < |v.handlers| && v.handlers[g].phase == Pushing(o) ensures v.handlers[g].call.newId != z {
      assert v.handlers[g] == w.handlers[g];
    }
  }

  // ---- The race is reachable ------------------------------------------------

  lemma TwoPushed(s: S.State, y1: Id, y2: Id, d1: string, d2: string)
    requires s.history == []
    ensures var t := s.(id := y1).Push(s.image, d1).(id := y2).Push(s.image, d2);
      t.image == s.image && t.CurrentDigest() == d2 && t.PreviousDigest() == d1
  {
  }

  /** An update after an update: the first digest is previous, the second current. */
  lemma SecondUpdate(w: World, x: Id, o: Obj, s: S.State, d1: string, d2: string, y: Id)
    returns (a: seq<Action>, v: World)
    requires Ready(w, x, o) && s.history == [] && w.store.heap[o] == s.(id := x).Push(s.image, d1)
    requires y !in w.daemon.born && y != "" && y != x
    ensures v == Run(w, a) && Ready(v, y, o) && v.daemon.born.Keys == w.daemon.born.Keys + {y}
    ensures v.store.heap[o].image == s.image && v.store.heap[o].id == y
    ensures v.store.heap[o].CurrentDigest() == d2 && v.store.heap[o].PreviousDigest() == d1
  {
    var steps, u := WholeUpdate(w, x, o, d2, y);
    a, v := [Detect(Seen(w, x, o, d2))] + steps, u;
    TwoPushed(s, x, y, d1, d2);
  }

  lemma TwoUpdates(w: World, x: Id, o: Obj, d1: string, d2: string, y1: Id, y2: Id)
    returns (a: seq<Action>, v: World)
    requires Ready(w, x, o) && w.store.heap[o].history == []
    requires y1 !in w.daemon.born && y2 !in w.daemon.born && y1 != "" && y2 != "" && y1 != y2
    ensures v == Run(w, a)
    ensures Ready(v, y2, o) && v.daemon.born.Keys == w.daemon.born.Keys + {y1, y2}
    ensures v.store.heap[o].image == w.store.heap[o].image && v.store.heap[o].id == y2
    ensures v.store.heap[o].CurrentDigest() == d2 && v.store.heap[o].PreviousDigest() == d1
  {
    var steps, w1 := WholeUpdate(w, x, o, d1, y1);
    var first := [Detect(Seen(w, x, o, d1))] + steps;
    var second, w2 := SecondUpdate(w1, y1, o, w.store.heap[o], d1, d2, y2);
    a, v := first + second, w2;
    RunConcat(w, first, second);
  }

  lemma RaceActions(w: World, h: nat, y: Id, o: Obj, z: Id) returns (a: seq<Action>)
    requires o in w.store.heap
    ensures var w1 := Do(w, ReportedUnhealthy(y));
      Run(w, a) == Do(Run(w1, QuickRollback(w1, Complaint(w.store.heap[o]), z)), Push(h))
  {
    var w1 := Do(w, ReportedUnhealthy(y));
    var q := QuickRollback(w1, Complaint(w.store.heap[o]), z);
    a := [ReportedUnhealthy(y)] + (q + [Push(h)]);
    RunFirst(w, ReportedUnhealthy(y), q + [Push(h)]);
    RunLast(w1, q, Push(h));
  }

  /** From a pending push the race runs by itself. */
  lemma RaceEnds(w: World, h: nat, y: Id, o: Obj, z: Id) returns (a: seq<Action>)
    requires Sound(w) && AwaitsPush(w, h, y, o) && z !in w.daemon.born && z != ""
    requires var s := w.store.heap[o];
      && |s.CurrentDigest()| >= 16 && s.PreviousDigest() != ""
      && s.PreviousDigest() != w.handlers[h].cause.Digest() && '@' !in s.image
    ensures !Agreement.Agrees(Run(w, a), z)
  {
    UnguardedRekeyBreaks(w, h, y, o, z);
    a := RaceActions(w, h, y, o, z);
  }

  /** Half an update of a container with two digests on record, then the race. */
  lemma RaceFromReady(w: World, x: Id, o: Obj, digest: string, y: Id, z: Id) returns (a: seq<Action>)
    requires Ready(w, x, o) && '@' !in w.store.heap[o].image && digest != w.store.heap[o].PreviousDigest()
    requires |w.store.heap[o].CurrentDigest()| >= 16 && w.store.heap[o].PreviousDigest() != ""
    requires y !in w.daemon.born && z !in w.daemon.born && y != "" && z != "" && y != z
    ensures !Agreement.Agrees(Run(w, a), z)
  {
    var steps, v := HalfUpdate(w, x, o, digest, y);
    var b := [Detect(Seen(w, x, o, digest))] + steps;
    var c := RaceEnds(v, |w.handlers|, y, o, z);
    a := b + c;
    RunConcat(w, b, c);
  }

  lemma RaceAfter(w0: World, b: seq<Action>, w: World, x: Id, o: Obj, digest: string, y: Id, z: Id)
    returns (a: seq<Action>)
    requires w == Run(w0, b) && Ready(w, x, o) && '@' !in w.store.heap[o].image
    requires digest != w.store.heap[o].PreviousDigest()
    requires |w.store.heap[o].CurrentDigest()| >= 16 && w.store.heap[o].PreviousDigest() != ""
    requires y !in w.daemon.born && z !in w.daemon.born && y != "" && z != "" && y != z
    ensures !Agreement.Agrees(Run(w0, a), z)
  {
    var c := RaceFromReady(w, x, o, digest, y, z);
    a := b + c;
    RunConcat(w0, b, c);
  }

  lemma RaceFromBlank(w: World, x: Id, o: Obj, d1: string, d2: string, d3: string, y1: Id, y2: Id, y3: Id, z: Id)
    returns (a: seq<Action>)
    requires Ready(w, x, o) && w.store.heap[o].history == [] && '@' !in w.store.heap[o].image
    requires d1 != "" && d1 != d3 && |d2| >= 16
    requires y1 !in w.daemon.born && y2 !in w.daemon.born && y3 !in w.daemon.born && z !in w.daemon.born
    requires y1 != "" && y2 != "" && y3 != "" && z != ""
    requires y1 != y2 && y1 != y3 && y1 != z && y2 != y3 && y2 != z && y3 != z
    ensures !Agreement.Agrees(Run(w, a), z)
  {
    var b, v := TwoUpdates(w, x, o, d1, d2, y1, y2);
    a := RaceAfter(w, b, v, y2, o, d3, y3, z);
  }

  ghost predicate Unused(w: World, ids: seq<Id>) {
    (forall i | 0 <= i < |ids| :: ids[i] !in w.daemon.born && ids[i] != "")
    && forall i, j | 0 <= i < j < |ids| :: ids[i] != ids[j]
  }

  /**
   From every start with a tracked, running, directly updatable container and for every three
   digests, the first unlike the third: there is a run of the program after which a live,
   tracked container's current digest is not the one it is pinned to, with no push to come.
   */
  lemma RaceFromStart(w0: World, x: Id, o: Obj, d1: string, d2: string, d3: string, ids: seq<Id>)
    returns (a: seq<Action>)
    requires Init(w0) && Ready(w0, x, o) && '@' !in w0.store.heap[o].image
    requires d1 != "" && d1 != d3 && |d2| >= 16 && |ids| == 4 && Unused(w0, ids)
    ensures !Agreement.Agrees(Run(w0, a), ids[3])
  {
    a := RaceFromBlank(w0, x, o, d1, d2, d3, ids[0], ids[1], ids[2], ids[3]);
  }

  const DIGEST := "0123456789abcdef"

  lemma FourIds()
    ensures Unused(OneContainer(), ["1", "2", "3", "4"])
  {
  }

  /** So there is such a run: the unconditional agreement claim is false of the program. */
  lemma AgreementFails() returns (a: seq<Action>)
    ensures Init(OneContainer()) && !Agreement.Agrees(Run(OneContainer(), a), "4")
  {
    OneContainerReady();
    FourIds();
    var w, d3 := OneContainer(), "";
    a := RaceFromStart(w, "c", 0, DIGEST, DIGEST, d3, ["1", "2", "3", "4"]);
  }
}
