/**
 Versions stay confined: through every run of direct updates, rollbacks, watcher events
 and outside commands, a container line that started with a version and is labelled
 `minor` keeps its major, one labelled `patch` its major and minor, in the daemon and in
 the store, if and only if no event without a version tag is applied to it directly. The
 store's image may lag behind the daemon's, since re-keying does not refresh it.
 */
module Confinement {
  import opened GoStrings
  import D = Docker
  import Semver
  import opened ControlLoop

  /**
   What it means for an image to stay in line: `inLine(labels, first, now)` for a line that
   began with image `first`. The invariant is proved for every such rule that pinning respects;
   versions are one.
   */
  datatype Rule = Rule(inLine: (D.Labels, string, string) -> bool)

  /** Every image is in its own line, and pinning does not leave it. */
  ghost predicate Respected(r: Rule) {
    && (forall l, x :: r.inLine(l, x, x))
    && (forall l, x, c: Cause {:trigger r.inLine(l, x, c.Ref())} ::
          (c.ByRollback? ==> c.m.prev != "") && r.inLine(l, x, c.Image()) ==> r.inLine(l, x, c.Ref()))
  }

  predicate InLine(r: Rule, w: World, origin: Id, image: string) {
    origin in w.daemon.born && w.daemon.born[origin].config.Some? ==>
      r.inLine(w.daemon.born[origin].LabelsOf(), w.daemon.born[origin].Image(), image)
  }

  /** `image` fits the line that container `id` belongs to. */
  ghost predicate Fits(r: Rule, w: World, id: Id, image: string) {
    id in w.origin && id in w.daemon.born && InLine(r, w, w.origin[id], image)
  }

  ghost predicate BornOk(r: Rule, w: World, id: Id) {
    id in w.daemon.born ==>
      && id in w.origin && w.origin[id] in w.daemon.born
      && w.daemon.born[id].LabelsOf() == w.daemon.born[w.origin[id]].LabelsOf()
      && w.daemon.born[id].config.Some? == w.daemon.born[w.origin[id]].config.Some?
      && Fits(r, w, id, w.daemon.born[id].Image())
  }

  ghost predicate TrackedOk(r: Rule, w: World, id: Id) {
    id in w.store.index && w.store.index[id] in w.store.heap && id in w.daemon.born ==>
      var s := w.store.heap[w.store.index[id]];
      s.labels == w.daemon.born[id].LabelsOf() && Fits(r, w, id, s.image)
  }

  ghost predicate WorkOk(r: Rule, w: World, h: Handler) {
    && Fits(r, w, h.call.target, h.cause.Image())
    && (h.call.PastCreate() ==>
          h.call.newId in w.origin && h.call.target in w.origin && w.origin[h.call.newId] == w.origin[h.call.target])
  }

  ghost predicate Confined(r: Rule, w: World) {
    Sound(w) && InLines(r, w)
  }

  /** All that exists, is tracked, worked on or announced belongs to its container's line. */
  ghost predicate InLines(r: Rule, w: World) {
    && w.origin.Keys == w.daemon.born.Keys
    && (forall id {:trigger BornOk(r, w, id)} :: BornOk(r, w, id))
    && (forall id {:trigger TrackedOk(r, w, id)} :: TrackedOk(r, w, id))
    && (forall i | 0 <= i < |w.handlers| :: WorkOk(r, w, w.handlers[i]))
    && (forall a | a in w.applied :: Fits(r, w, a.id, a.image))
    && (forall m | m in w.unhealthy :: Fits(r, w, m.id, m.image))
  }

  /** The start: every container is its own origin and the store shows what the daemon has. */
  ghost predicate FreshStart(w: World) {
    && Init(w) && w.origin == (map id | id in w.daemon.born :: id)
    && (forall id | id in w.store.index ::
          var s := w.store.heap[w.store.index[id]];
          s.labels == w.daemon.born[id].LabelsOf() && s.image == w.daemon.born[id].Image())
  }

  /** An update that is taken up leads nowhere outside its container's line. */
  ghost predicate Stays(r: Rule, w: World, a: Action) {
    a.BeginUpdate? && TakeUpdate(w, a.u) != w ==> Fits(r, w, a.u.id, a.u.image)
  }

  ghost predicate StaysRun(r: Rule, w: World, actions: seq<Action>)
    decreases |actions|
  {
    actions != [] ==> Stays(r, w, actions[0]) && StaysRun(r, Do(w, actions[0]), actions[1..])
  }

  lemma InitConfined(r: Rule, w: World)
    requires Respected(r) && FreshStart(w)
    ensures Confined(r, w)
  {
    InitSound(w);
    forall id ensures BornOk(r, w, id) {
    }
    forall id ensures TrackedOk(r, w, id) {
      assert BornOk(r, w, id);
    }
  }

  // ---- Steps ----------------------------------------------------------------

  /** Lines only grow: what fitted still fits. */
  ghost predicate LinesGrow(w: World, v: World) {
    && (forall i | i in w.daemon.born :: i in v.daemon.born && v.daemon.born[i] == w.daemon.born[i])
    && (forall i | i in w.origin :: i in v.origin && v.origin[i] == w.origin[i])
  }

  lemma FitsStays(r: Rule, w: World, v: World, id: Id, image: string)
    requires LinesGrow(w, v) && Fits(r, w, id, image) && BornOk(r, w, id)
    ensures Fits(r, v, id, image)
  {
  }

  lemma BornStays(r: Rule, w: World, v: World, id: Id)
    requires LinesGrow(w, v) && id in w.daemon.born && BornOk(r, w, id)
    ensures BornOk(r, v, id)
  {
    FitsStays(r, w, v, id, w.daemon.born[id].Image());
  }

  lemma WorkStays(r: Rule, w: World, v: World, h: Handler)
    requires LinesGrow(w, v) && WorkOk(r, w, h) && BornOk(r, w, h.call.target)
    ensures WorkOk(r, v, h)
  {
    FitsStays(r, w, v, h.call.target, h.cause.Image());
  }

  /** A container created with the requested image belongs to its predecessor's line. */
  lemma CreatedFits(r: Rule, w: World, h: Handler)
    requires Respected(r) && WorkOk(r, w, h) && HandlerOk(w.daemon, w.store.heap, h)
    requires BornOk(r, w, h.call.target) && h.call.PastInspect()
    ensures InLine(r, w, w.origin[h.call.target], h.call.spec.Image())
    ensures h.call.spec.LabelsOf() == w.daemon.born[h.call.target].LabelsOf() && h.call.spec.config.Some?
  {
    assert h.call.spec.Image() == h.cause.Ref();
  }

  lemma OperateConfined(r: Rule, w: World, h: nat, ok: bool, id: Id)
    requires Respected(r) && Confined(r, w) && h < |w.handlers| && w.handlers[h].phase.Recreating?
    ensures InLines(r, Operated(w, h, ok, id))
  {
    var v := Operated(w, h, ok, id);
    var hd := w.handlers[h];
    AdvanceLater(w.daemon, hd.call, ok, id);
    assert WorkOk(r, w, hd) && HandlerOk(w.daemon, w.store.heap, hd) && BornOk(r, w, hd.call.target);
    OperateLines(r, w, h, ok, id);
    forall x ensures BornOk(r, v, x) {
      assert BornOk(r, w, x);
      if x in w.daemon.born { BornStays(r, w, v, x); }
    }
    forall x ensures TrackedOk(r, v, x) {
      assert TrackedOk(r, w, x) && BornOk(r, w, x);
    }
    RestStays(r, w, v);
    forall i | 0 <= i < |v.handlers| ensures WorkOk(r, v, v.handlers[i]) {
      assert BornOk(r, w, w.handlers[i].call.target) && WorkOk(r, w, w.handlers[i]);
      WorkStays(r, w, v, w.handlers[i]);
    }
  }

  lemma OperateLines(r: Rule, w: World, h: nat, ok: bool, id: Id)
    requires Respected(r) && Sound(w) && w.origin.Keys == w.daemon.born.Keys && h < |w.handlers|
    requires w.handlers[h].phase.Recreating?
    requires WorkOk(r, w, w.handlers[h]) && BornOk(r, w, w.handlers[h].call.target)
    ensures var v := Operated(w, h, ok, id);
      && LinesGrow(w, v) && v.origin.Keys == v.daemon.born.Keys && WorkOk(r, v, v.handlers[h])
      && forall x | x in v.daemon.born && x !in w.daemon.born :: BornOk(r, v, x)
  {
    var v := Operated(w, h, ok, id);
    var hd := w.handlers[h];
    assert HandlerOk(w.daemon, w.store.heap, hd);
    AdvanceBorn(w.daemon, hd.call, ok, id);
    if v.daemon.born != w.daemon.born {
      CreatedFits(r, w, hd);
      assert v.origin == w.origin[id := w.origin[hd.call.target]];
    } else {
      assert v.origin == w.origin;
    }
  }

  /** An operation describes at most one new container, the one asked for. */
  lemma AdvanceBorn(d: D.Daemon, c: D.Call, ok: bool, id: Id)
    ensures var (e, c') := D.Advance(d, c, ok, id);
      && c'.target == c.target
      && (e.born == d.born ==> c'.newId == c.newId && (c'.PastCreate() ==> c.PastCreate()))
      && (e.born != d.born ==> e.born == d.born[id := c.spec] && id !in d.born && c.PastInspect() && c'.newId == id)
  {
  }

  /** Messages fit as before when no message was added. */
  lemma RestStays(r: Rule, w: World, v: World)
    requires InLines(r, w) && LinesGrow(w, v) && v.applied == w.applied && v.unhealthy == w.unhealthy
    ensures forall a | a in v.applied :: Fits(r, v, a.id, a.image)
    ensures forall m | m in v.unhealthy :: Fits(r, v, m.id, m.image)
  {
    forall a | a in v.applied ensures Fits(r, v, a.id, a.image) {
      assert BornOk(r, w, a.id);
      FitsStays(r, w, v, a.id, a.image);
    }
    forall m | m in v.unhealthy ensures Fits(r, v, m.id, m.image) {
      assert BornOk(r, w, m.id);
      FitsStays(r, w, v, m.id, m.image);
    }
  }

  /** Steps that leave the daemon's descriptions, lines and calls alone. */
  lemma SameLinesConfined(r: Rule, w: World, v: World)
    requires InLines(r, w) && v.daemon.born == w.daemon.born && v.origin == w.origin
    requires |v.handlers| == |w.handlers|
    requires forall i | 0 <= i < |w.handlers| ::
      v.handlers[i].call == w.handlers[i].call && v.handlers[i].cause == w.handlers[i].cause
    requires forall id {:trigger TrackedOk(r, v, id)} :: TrackedOk(r, v, id)
    requires forall a | a in v.applied :: Fits(r, w, a.id, a.image)
    requires forall m | m in v.unhealthy :: Fits(r, w, m.id, m.image)
    ensures InLines(r, v)
  {
    forall id ensures BornOk(r, v, id) {
      assert BornOk(r, w, id);
    }
    forall i | 0 <= i < |v.handlers| ensures WorkOk(r, v, v.handlers[i]) {
      assert WorkOk(r, w, w.handlers[i]);
    }
  }

  lemma BeginConfined(r: Rule, w: World, a: Action)
    requires Confined(r, w) && (a.BeginUpdate? || a.BeginRollback?) && Stays(r, w, a)
    ensures InLines(r, Do(w, a))
  {
    var v := Do(w, a);
    if v != w {
      BegunConfined(r, w, v, v.handlers[|w.handlers|]);
    }
  }

  lemma BegunConfined(r: Rule, w: World, v: World, hd: Handler)
    requires InLines(r, w) && WorkOk(r, w, hd) && v == w.(handlers := w.handlers + [hd])
    ensures InLines(r, v)
  {
    forall id ensures BornOk(r, v, id) && TrackedOk(r, v, id) {
      assert BornOk(r, w, id) && TrackedOk(r, w, id);
    }
    forall i | 0 <= i < |v.handlers| ensures WorkOk(r, v, v.handlers[i]) {
      assert i < |w.handlers| ==> v.handlers[i] == w.handlers[i] && WorkOk(r, w, w.handlers[i]);
    }
  }

  /** An update taken up that does not stay is itself outside its line. */
  lemma BeginStrays(r: Rule, w: World, a: Action)
    requires !Stays(r, w, a)
    ensures !InLines(r, Do(w, a))
  {
    var v := Do(w, a);
    assert v.handlers[|w.handlers|].cause.Image() == a.u.image && v.handlers[|w.handlers|].call.target == a.u.id;
    assert !WorkOk(r, v, v.handlers[|w.handlers|]);
  }

  lemma RekeyConfined(r: Rule, w: World, h: nat)
    requires Confined(r, w) && h < |w.handlers|
    ensures InLines(r, Rekeyed(w, h))
  {
    var v := Rekeyed(w, h);
    var hd := w.handlers[h];
    assert WorkOk(r, w, hd) && HandlerOk(w.daemon, w.store.heap, hd);
    forall id ensures TrackedOk(r, v, id) {
      assert TrackedOk(r, w, id) && TrackedOk(r, w, hd.call.target) && BornOk(r, w, hd.call.target);
      RekeyTracked(r, w, h, id);
    }
    SameLinesConfined(r, w, v);
  }

  lemma RekeyTracked(r: Rule, w: World, h: nat, id: Id)
    requires h < |w.handlers| && w.store.WellKeyed() && WorkOk(r, w, w.handlers[h])
    requires HandlerOk(w.daemon, w.store.heap, w.handlers[h]) && TrackedOk(r, w, id)
    requires TrackedOk(r, w, w.handlers[h].call.target) && BornOk(r, w, w.handlers[h].call.target)
    ensures TrackedOk(r, Rekeyed(w, h), id)
  {
  }

  lemma HandleConfined(r: Rule, w: World, a: Action, h: nat)
    requires Respected(r) && Confined(r, w) && h < |w.handlers|
    ensures InLines(r, Handle(w, a, h))
  {
    var v := Handle(w, a, h);
    assert WorkOk(r, w, w.handlers[h]) && HandlerOk(w.daemon, w.store.heap, w.handlers[h]);
    match a {
      case Operate(_, ok, newId) => if w.handlers[h].phase.Recreating? { OperateConfined(r, w, h, ok, newId); }
      case Rekey(_) => RekeyConfined(r, w, h);
      case Announce(_) =>
        AnnounceFits(r, w, h);
        SameTracked(r, w, v);
        SameLinesConfined(r, w, v);
      case Refetch(_) => RefetchConfined(r, w, h);
      case Push(_) => PushConfined(r, w, h);
      case _ =>
    }
  }

  lemma RefetchConfined(r: Rule, w: World, h: nat)
    requires InLines(r, w) && h < |w.handlers|
    ensures InLines(r, Refetched(w, h))
  {
    SameTracked(r, w, Refetched(w, h));
    SameLinesConfined(r, w, Refetched(w, h));
  }

  lemma PushConfined(r: Rule, w: World, h: nat)
    requires InLines(r, w) && h < |w.handlers|
    ensures InLines(r, PushedBy(w, h))
  {
    SameTracked(r, w, PushedBy(w, h));
    SameLinesConfined(r, w, PushedBy(w, h));
  }

  /** What the executor announces belongs to the new container's line. */
  lemma AnnounceFits(r: Rule, w: World, h: nat)
    requires Confined(r, w) && h < |w.handlers|
    ensures forall a | a in Announced(w, h).applied :: Fits(r, w, a.id, a.image)
  {
    assert WorkOk(r, w, w.handlers[h]) && HandlerOk(w.daemon, w.store.heap, w.handlers[h]);
  }

  lemma SameTracked(r: Rule, w: World, v: World)
    requires InLines(r, w) && v.daemon.born == w.daemon.born && v.origin == w.origin && v.store.index == w.store.index
    requires forall o | o in v.store.heap ::
      && o in w.store.heap && v.store.heap[o].labels == w.store.heap[o].labels
      && v.store.heap[o].image == w.store.heap[o].image
    ensures forall id {:trigger TrackedOk(r, v, id)} :: TrackedOk(r, v, id)
  {
    forall id ensures TrackedOk(r, v, id) {
      assert TrackedOk(r, w, id);
    }
  }

  lemma WatcherConfined(r: Rule, w: World, a: Action)
    requires InLines(r, w) && w.store.WellKeyed() && (a.Started? || a.Destroyed?)
    ensures InLines(r, Do(w, a))
  {
    var v := Do(w, a);
    forall id ensures TrackedOk(r, v, id) {
      assert TrackedOk(r, w, id);
      if a.Started? {
        assert BornOk(r, w, a.id);
        StartTracked(r, w, a.id, a.image, a.obj, id);
      }
    }
    SameLinesConfined(r, w, v);
  }

  lemma StartTracked(r: Rule, w: World, x: Id, image: string, obj: Obj, id: Id)
    requires w.store.WellKeyed() && TrackedOk(r, w, id) && BornOk(r, w, x)
    ensures TrackedOk(r, WatchStart(w, x, image, obj), id)
  {
  }

  lemma ReportConfined(r: Rule, w: World, a: Action)
    requires Confined(r, w) && (a.ReportedUnhealthy? || a.WatchFailed? || a.Detect? || a.Seed?)
    ensures InLines(r, Do(w, a))
  {
    var v := Do(w, a);
    if a.ReportedUnhealthy? {
      assert TrackedOk(r, w, a.id);
    }
    SameTracked(r, w, v);
    SameLinesConfined(r, w, v);
  }

  lemma OutsideConfined(r: Rule, w: World, a: Action)
    requires Respected(r) && Confined(r, w) && (a.OutsideCreate? || a.OutsideRemove? || a.OutsideRun?)
    ensures InLines(r, Do(w, a))
  {
    var v := Do(w, a);
    assert LinesGrow(w, v);
    forall id ensures BornOk(r, v, id) && TrackedOk(r, v, id) {
      assert BornOk(r, w, id) && TrackedOk(r, w, id);
      if id in w.daemon.born { BornStays(r, w, v, id); }
    }
    RestStays(r, w, v);
    forall i | 0 <= i < |v.handlers| ensures WorkOk(r, v, v.handlers[i]) {
      assert WorkOk(r, w, w.handlers[i]) && BornOk(r, w, w.handlers[i].call.target);
      WorkStays(r, w, v, w.handlers[i]);
    }
  }

  lemma StepConfined(r: Rule, w: World, a: Action)
    requires Respected(r) && Confined(r, w) && Stays(r, w, a)
    ensures Confined(r, Do(w, a))
  {
    StepSound(w, a);
    if a.BeginUpdate? || a.BeginRollback? {
      BeginConfined(r, w, a);
    } else if a.Started? || a.Destroyed? {
      WatcherConfined(r, w, a);
    } else if a.ReportedUnhealthy? || a.WatchFailed? || a.Detect? || a.Seed? {
      ReportConfined(r, w, a);
    } else if a.OutsideCreate? || a.OutsideRemove? || a.OutsideRun? {
      OutsideConfined(r, w, a);
    } else if a.h < |w.handlers| {
      HandleConfined(r, w, a, a.h);
    }
  }

  lemma {:induction false} RunConfined(r: Rule, w: World, actions: seq<Action>)
    requires Respected(r) && Confined(r, w) && StaysRun(r, w, actions)
    ensures Confined(r, Run(w, actions))
    decreases |actions|
  {
    if actions != [] {
      StepConfined(r, w, actions[0]);
      RunConfined(r, Do(w, actions[0]), actions[1..]);
    }
  }

  // ---- Versions -------------------------------------------------------------

  /** `now` is where a line that began at `first` may be under a strategy. */
  predicate Keeps(strategy: Semver.Strategy, first: Option<Semver.Version>, now: Option<Semver.Version>) {
    Bound(strategy, first) ==>
      now.Some? && now.value.major == first.value.major && (strategy.Patch? ==> now.value.minor == first.value.minor)
  }

  /** Lines that are held to the version they began with. */
  predicate Bound(strategy: Semver.Strategy, first: Option<Semver.Version>) {
    (strategy.Minor? || strategy.Patch?) && first.Some?
  }

  predicate KeepsVersion(labels: D.Labels, first: string, now: string) {
    Keeps(Semver.StrategyFromLabels(labels), Semver.VersionOf(first), Semver.VersionOf(now))
  }

  function Versions(): Rule {
    Rule((labels, first, now) => KeepsVersion(labels, first, now))
  }

  /** Pinning an image does not change its version. */
  lemma RefVersion(c: Cause)
    requires c.ByRollback? ==> c.m.prev != ""
    ensures Semver.VersionOf(c.Ref()) == Semver.VersionOf(c.Image())
  {
    if c.ByUpdate? {
      Semver.PinKeepsVersion(c.u.image, c.u.newDigest);
    } else {
      Semver.PinKeepsVersion(c.m.image, c.m.prev);
    }
  }

  /**
   A direct update keeps the line, because the compared versions were in it, exactly unless the
   line is bound and the event's tag is no version.
   */
  lemma DirectFits(strategy: Semver.Strategy, watched: bool, managed: bool, auto: bool,
                   first: Option<Semver.Version>, stored: Option<Semver.Version>, next: Option<Semver.Version>)
    requires Keeps(strategy, first, stored)
    requires Semver.DecideAs(strategy, watched, managed, auto, stored, next).Direct?
    ensures Keeps(strategy, first, next) <==> !(Bound(strategy, first) && next.None?)
  {
  }

  lemma VersionsRespected()
    ensures Respected(Versions())
  {
    var r := Versions();
    forall l, x, c: Cause | (c.ByRollback? ==> c.m.prev != "") && r.inLine(l, x, c.Image())
      ensures r.inLine(l, x, c.Ref())
    {
      RefVersion(c);
    }
  }

  /** An event without a version tag is applied directly to a bound line. */
  ghost predicate StraysFrom(w: World, u: Update, first: D.Container) {
    && first.config.Some? && Bound(Semver.StrategyFromLabels(first.LabelsOf()), Semver.VersionOf(first.Image()))
    && Semver.VersionOf(u.image).None?
  }

  ghost predicate Strays(w: World, a: Action) {
    && a.BeginUpdate? && TakeUpdate(w, a.u) != w
    && a.u.id in w.origin && w.origin[a.u.id] in w.daemon.born && StraysFrom(w, a.u, w.daemon.born[w.origin[a.u.id]])
  }

  ghost predicate NeverStrays(w: World, actions: seq<Action>)
    decreases |actions|
  {
    actions != [] ==> !Strays(w, actions[0]) && NeverStrays(Do(w, actions[0]), actions[1..])
  }

  /** The guard at a taken update: exactly the unversioned events of bound lines do not stay. */
  lemma StaysExactly(w: World, a: Action)
    requires Confined(Versions(), w)
    ensures Stays(Versions(), w, a) <==> !Strays(w, a)
  {
    var r := Versions();
    if a.BeginUpdate? && TakeUpdate(w, a.u) != w {
      var s := w.store.heap[w.store.index[a.u.id]];
      assert TrackedOk(r, w, a.u.id) && BornOk(r, w, a.u.id);
      var first := w.daemon.born[w.origin[a.u.id]];
      if first.config.Some? {
        assert r.inLine(first.LabelsOf(), first.Image(), s.image);
        LineDecides(first.LabelsOf(), first.Image(), s.image, a.u.image);
      }
    }
  }

  lemma LineDecides(labels: D.Labels, first: string, stored: string, image: string)
    requires KeepsVersion(labels, first, stored) && Semver.Decide(labels, stored, image).Direct?
    ensures KeepsVersion(labels, first, image)
       <==> !(Bound(Semver.StrategyFromLabels(labels), Semver.VersionOf(first)) && Semver.VersionOf(image).None?)
  {
    DirectFits(Semver.StrategyFromLabels(labels), Semver.WatchEnabled(labels), Semver.ComposeManaged(labels),
               Semver.ComposeAuto(labels), Semver.VersionOf(first), Semver.VersionOf(stored), Semver.VersionOf(image));
  }

  ghost predicate ConfinedThroughout(w: World, actions: seq<Action>)
    decreases |actions|
  {
    InLines(Versions(), w) && (actions != [] ==> ConfinedThroughout(Do(w, actions[0]), actions[1..]))
  }

  lemma {:induction false} ConfinedAlong(w: World, actions: seq<Action>)
    requires Confined(Versions(), w)
    ensures ConfinedThroughout(w, actions) <==> NeverStrays(w, actions)
    ensures NeverStrays(w, actions) ==> StaysRun(Versions(), w, actions)
    decreases |actions|
  {
    if actions != [] {
      StaysExactly(w, actions[0]);
      if Stays(Versions(), w, actions[0]) {
        VersionsRespected();
        StepConfined(Versions(), w, actions[0]);
        ConfinedAlong(Do(w, actions[0]), actions[1..]);
      } else {
        BeginStrays(Versions(), w, actions[0]);
      }
    }
  }

  /**
   Confinement, exactly: over every run, all that exists, is tracked, worked on or announced
   keeps its line's version in every state if and only if no event without a version tag is
   ever applied directly to a line that is labelled `minor` or `patch` and began with a version.
   */
  lemma ConfinedExactly(w0: World, actions: seq<Action>)
    requires FreshStart(w0)
    ensures ConfinedThroughout(w0, actions) <==> NeverStrays(w0, actions)
  {
    VersionsRespected();
    InitConfined(Versions(), w0);
    ConfinedAlong(w0, actions);
  }

  /**
   What that means: whatever container exists or ever existed, and whatever image the store
   shows for it, its version keeps the major (under `minor`), or the major and minor (under
   `patch`), of the first container of its line, whose labels it shares.
   */
  lemma VersionsConfined(w0: World, actions: seq<Action>, id: Id)
    requires FreshStart(w0) && NeverStrays(w0, actions) && id in Run(w0, actions).daemon.born
    ensures var w := Run(w0, actions);
      && id in w.origin && w.origin[id] in w.daemon.born
      && var first := w.daemon.born[w.origin[id]];
      && w.daemon.born[id].LabelsOf() == first.LabelsOf()
      && (first.config.Some? ==>
            && KeepsVersion(first.LabelsOf(), first.Image(), w.daemon.born[id].Image())
            && (id in w.store.index && w.store.index[id] in w.store.heap ==>
                  KeepsVersion(first.LabelsOf(), first.Image(), w.store.heap[w.store.index[id]].image)))
  {
    var r := Versions();
    VersionsRespected();
    InitConfined(r, w0);
    ConfinedAlong(w0, actions);
    RunConfined(r, w0, actions);
    assert BornOk(r, Run(w0, actions), id) && TrackedOk(r, Run(w0, actions), id);
  }

  /** When every handled event carries a version tag, nothing strays. */
  lemma {:induction false} VersionedNeverStrays(w: World, actions: seq<Action>)
    requires forall i | 0 <= i < |actions| :: actions[i].BeginUpdate? ==> Semver.VersionOf(actions[i].u.image).Some?
    ensures NeverStrays(w, actions)
    decreases |actions|
  {
    if actions != [] {
      assert actions[0].BeginUpdate? ==> Semver.VersionOf(actions[0].u.image).Some?;
      VersionedNeverStrays(Do(w, actions[0]), actions[1..]);
    }
  }

  /**
   A watched container outside compose whose label says `minor` is updated directly exactly
   when the majors agree or one of the two tags is no version, so a single unversioned event
   takes the line anywhere.
   */
  lemma DirectUnderMinorExactly(labels: Semver.Labels, stored: string, image: string)
    requires Semver.StrategyFromLabels(labels).Minor? && Semver.WatchEnabled(labels) && !Semver.ComposeManaged(labels)
    ensures Semver.Decide(labels, stored, image).Direct? <==>
      (Semver.VersionOf(stored).None? || Semver.VersionOf(image).None?
       || Semver.VersionOf(stored).value.major == Semver.VersionOf(image).value.major)
  {
  }

  /** Under `patch` likewise, with the minors agreeing too. */
  lemma DirectUnderPatchExactly(labels: Semver.Labels, stored: string, image: string)
    requires Semver.StrategyFromLabels(labels).Patch? && Semver.WatchEnabled(labels) && !Semver.ComposeManaged(labels)
    ensures Semver.Decide(labels, stored, image).Direct? <==>
      (Semver.VersionOf(stored).None? || Semver.VersionOf(image).None?
       || (Semver.VersionOf(stored).value.major == Semver.VersionOf(image).value.major
           && Semver.VersionOf(stored).value.minor == Semver.VersionOf(image).value.minor))
  {
  }
}
