/**
 Polling converges. The registry's answer for an image stays fixed; the poller compares
 and publishes in one step; the executor works through whatever events are queued, in any
 order and as often as they were duplicated; the watcher handles the destroy and start
 events of the executor's recreations whenever they come. Then each container line is
 deployed successfully at most once, whatever executor and watcher go on to do, if and only
 if no poll published for a directly updatable recreation whose digest was not recorded on
 the state that tracks it: a push was to come, or the re-keying came after the destroy event.
 */
module Convergence {
  import Semver
  import S = DigestStore
  import D = Docker
  import ImageRefs
  import opened ControlLoop
  import opened HandlerRuns
  import opened Confluence

  /** What the poller publishes for the container tracked under `id`. */
  function Polled(w: World, id: Id, answer: string -> string): Update
    requires id in w.store.index && w.store.index[id] in w.store.heap
  {
    var s := w.store.heap[w.store.index[id]];
    Update(id, s.name, s.image, s.CurrentDigest(), answer(s.image))
  }

  /** The poller publishes only a digest that differs from the current one. */
  ghost predicate Publishes(w: World, u: Update, answer: string -> string) {
    u.id in w.store.index && w.store.index[u.id] in w.store.heap
    && u == Polled(w, u.id, answer) && u.newDigest != u.oldDigest
  }

  // ---- The registry ---------------------------------------------------------

  /** References that differ at most in the digest they are pinned to. */
  predicate SameText(a: string, b: string) {
    ImageRefs.StripDigest(a) == ImageRefs.StripDigest(b)
  }

  /** A registry is asked by host, name and tag, and it never answers with an empty digest. */
  ghost predicate Answers(answer: string -> string) {
    && (forall a, b {:trigger SameText(a, b)} | SameText(a, b) :: answer(a) == answer(b))
    && forall a :: answer(a) != ""
  }

  /** Whatever a registry holds, its answers are like that. */
  lemma RegistryAnswers(content: ImageRefs.Parsed -> string)
    requires forall p :: content(p) != ""
    ensures Answers((image: string) => content(ImageRefs.ParseImageRef(image)))
  {
    forall a, b | SameText(a, b) ensures content(ImageRefs.ParseImageRef(a)) == content(ImageRefs.ParseImageRef(b)) {
      SameParse(a, b);
    }
  }

  lemma SameParse(a: string, b: string)
    requires SameText(a, b)
    ensures ImageRefs.ParseImageRef(a) == ImageRefs.ParseImageRef(b)
  {
  }

  /**
   What the proof sees of images and states: the registry's answer, the reference without its
   pin, and whether a state would be updated directly for its own image.
   */
  datatype Lens = Lens(answer: string -> string, text: string -> string, direct: S.State -> bool)

  function LensOf(answer: string -> string): Lens {
    Lens(answer, (image: string) => ImageRefs.StripDigest(image),
         (s: S.State) => Semver.Decide(s.labels, s.image, s.image).Direct?)
  }

  ghost predicate AnswersByText(l: Lens) {
    forall a, b {:trigger l.answer(a), l.answer(b)} | l.text(a) == l.text(b) :: l.answer(a) == l.answer(b)
  }

  ghost predicate PinsHidden(l: Lens) {
    forall image, digest {:trigger l.text(ImageRefs.ImageRef(image, digest))} ::
      l.text(ImageRefs.ImageRef(image, digest)) == l.text(image)
  }

  /** Decisions see no pins: for a state and an event with the texts of another state's image. */
  ghost predicate DecidesByText(l: Lens) {
    forall s: S.State, t: S.State, image: string {:trigger Semver.Decide(s.labels, s.image, image), l.direct(t)} |
      s.labels == t.labels && l.text(s.image) == l.text(t.image) && l.text(image) == l.text(t.image) ::
      Semver.Decide(s.labels, s.image, image).Direct? <==> l.direct(t)
  }

  ghost predicate Clear(l: Lens) {
    AnswersByText(l) && PinsHidden(l) && DecidesByText(l)
  }

  lemma SameDecision(labels: D.Labels, a: string, b: string, c: string, d: string)
    requires SameText(a, c) && SameText(b, d)
    ensures Semver.Decide(labels, a, b) == Semver.Decide(labels, c, d)
  {
    SameTag(a, c);
    SameTag(b, d);
  }

  lemma SameTag(a: string, b: string)
    requires SameText(a, b)
    ensures ImageRefs.ImageTag(a) == ImageRefs.ImageTag(b)
  {
  }

  lemma LensIsClear(answer: string -> string)
    requires Answers(answer)
    ensures Clear(LensOf(answer))
  {
    var l := LensOf(answer);
    forall a, b | l.text(a) == l.text(b) ensures l.answer(a) == l.answer(b) {
      assert SameText(a, b);
    }
    forall image, digest ensures l.text(ImageRefs.ImageRef(image, digest)) == l.text(image) {
      ImageRefs.StripPinned(image, digest);
    }
    forall s: S.State, t: S.State, image: string |
      s.labels == t.labels && l.text(s.image) == l.text(t.image) && l.text(image) == l.text(t.image)
      ensures Semver.Decide(s.labels, s.image, image).Direct? <==> l.direct(t)
    {
      SameDecision(s.labels, s.image, image, t.image, t.image);
    }
  }

  // ---- What happens ---------------------------------------------------------

  /** Handler `g` has recreated a container as `id`. */
  ghost predicate Recreation(w: World, g: nat, id: Id) {
    g < |w.handlers| && w.handlers[g].call.Succeeded() && w.handlers[g].call.newId == id
  }

  ghost predicate Removal(w: World, g: nat, id: Id) {
    g < |w.handlers| && w.handlers[g].call.PastRemove() && w.handlers[g].call.target == id
  }

  /** Polls, executor steps, and the watcher's events for containers removed and started by the executor. */
  ghost predicate Allowed(w: World, a: Action, answer: string -> string) {
    match a
    case Detect(u) => Publishes(w, u, answer)
    case Destroyed(x) => exists g: nat :: Removal(w, g, x)
    case Started(y, _, _) => exists g: nat :: Recreation(w, g, y)
    case _ => ExecutorStep(a)
  }

  ghost predicate AllowedRun(w: World, actions: seq<Action>, answer: string -> string)
    decreases |actions|
  {
    actions != [] ==> Allowed(w, actions[0], answer) && AllowedRun(Do(w, actions[0]), actions[1..], answer)
  }

  predicate Settled(h: Handler) {
    h.phase.Announcing? || h.phase.Ended?
  }

  /** A recreation whose digest is not, or not yet, recorded on the state that tracks the container. */
  ghost predicate UnrecordedBy(w: World, g: nat, id: Id) {
    && Recreation(w, g, id) && id in w.store.index
    && !(Settled(w.handlers[g]) && w.handlers[g].cause.ByUpdate? && w.store.index[id] == w.handlers[g].cause.cs)
  }

  ghost predicate Unrecorded(w: World, id: Id) {
    exists g: nat :: UnrecordedBy(w, g, id)
  }

  /** A publishing poll finds no such recreation, or an image the executor would not apply directly. */
  ghost predicate Calm(w: World, a: Action) {
    a.Detect? && Unrecorded(w, a.u.id) && w.store.index[a.u.id] in w.store.heap ==>
      !Direct(w.store.heap[w.store.index[a.u.id]])
  }

  ghost predicate CalmRun(w: World, actions: seq<Action>)
    decreases |actions|
  {
    actions != [] ==> Calm(w, actions[0]) && CalmRun(Do(w, actions[0]), actions[1..])
  }

  /** The start: containers tracked as the daemon describes them, no event and no handler yet. */
  ghost predicate Start(w: World) {
    && Sound(w) && w.handlers == [] && w.updates == {}
    && forall id | id in w.store.index :: AsDescribed(w, id)
  }

  ghost predicate AsDescribed(w: World, id: Id) {
    && id in w.store.index && w.store.index[id] in w.store.heap && id in w.daemon.born
    && w.store.heap[w.store.index[id]].labels == w.daemon.born[id].LabelsOf()
    && w.store.heap[w.store.index[id]].image == w.daemon.born[id].Image()
  }

  // ---- Invariant ------------------------------------------------------------

  /** The same container line: labels never change, images only in their pins. */
  ghost predicate SameLine(l: Lens, s: S.State, t: S.State) {
    s.labels == t.labels && l.text(s.image) == l.text(t.image)
  }

  /** States of one line are updated directly, or not, alike. */
  lemma SameDirect(l: Lens, s: S.State, t: S.State)
    requires DecidesByText(l) && SameLine(l, s, t)
    ensures Direct(s) <==> l.direct(t)
  {
  }

  /** An event is about an original container and carries the registry's digest for its image. */
  ghost predicate EventOk(w0: World, u: Update, l: Lens) {
    && u.id in w0.store.index && w0.store.index[u.id] in w0.store.heap
    && l.text(u.image) == l.text(w0.store.heap[w0.store.index[u.id]].image)
    && u.newDigest == l.answer(w0.store.heap[w0.store.index[u.id]].image)
  }

  /** An event about a recreated container whose image the executor would not apply directly. */
  ghost predicate InertBy(w0: World, w: World, u: Update, k: nat, l: Lens) {
    && Recreation(w, k, u.id) && w.handlers[k].cause.ByUpdate? && w.handlers[k].cause.cs in w0.store.heap
    && l.text(u.image) == l.text(w0.store.heap[w.handlers[k].cause.cs].image)
    && !l.direct(w0.store.heap[w.handlers[k].cause.cs])
  }

  ghost predicate Inert(w0: World, w: World, u: Update, l: Lens) {
    exists k: nat :: InertBy(w0, w, u, k, l)
  }

  ghost predicate HandlerAt(w0: World, w: World, h: Handler, l: Lens) {
    && h.cause.ByUpdate? && EventOk(w0, h.cause.u, l) && h.cause.cs == w0.store.index[h.cause.u.id]
    && h.call.target == h.cause.u.id && !h.phase.Refetching?
    && (h.call.PastCreate() ==> h.call.newId !in w0.daemon.born && h.call.newId in w.daemon.live)
    && (h.phase.Pushing? ==> h.phase.obj == h.cause.cs)
    && (!h.phase.Recreating? ==> h.call.Succeeded() && h.call.target !in w.store.index)
    && (Settled(h) ==> h.cause.cs in w.store.heap && w.store.heap[h.cause.cs].CurrentDigest() == h.cause.u.newDigest)
  }

  /** What tracks a recreated container: the state its handler moved there, or a blank one. */
  ghost predicate TracksFor(w0: World, w: World, h: nat, id: Id, l: Lens) {
    && Recreation(w, h, id) && w.handlers[h].cause.ByUpdate? && w.handlers[h].cause.cs in w0.store.heap
    && id in w.store.index && w.store.index[id] in w.store.heap
    && var s := w.store.heap[w.store.index[id]];
    && SameLine(l, s, w0.store.heap[w.handlers[h].cause.cs])
    && ((w.store.index[id] == w.handlers[h].cause.cs && !w.handlers[h].phase.Recreating?)
        || (w.store.index[id] !in w0.store.heap && s.history == []))
  }

  /** An original id is where it was; other ids are handlers' work. */
  ghost predicate IndexAt(w0: World, w: World, id: Id, l: Lens) {
    id in w.store.index ==>
      if id in w0.store.index then w.store.index[id] == w0.store.index[id]
      else exists h: nat :: TracksFor(w0, w, h, id, l)
  }

  ghost predicate Inv(w0: World, w: World, l: Lens) {
    Sound(w) && Converging(w0, w, l)
  }

  /** What is known of the start and stays so. */
  ghost predicate Origins(w0: World, w: World, l: Lens) {
    && w0.store.WellKeyed() && w0.store.index.Keys <= w0.daemon.born.Keys
    && (forall id | id in w0.store.index :: AsDescribed(w0, id))
    && (forall i | i in w0.daemon.born :: i in w.daemon.born && w.daemon.born[i] == w0.daemon.born[i])
    && (forall o | o in w0.store.heap :: o in w.store.heap && SameLine(l, w.store.heap[o], w0.store.heap[o]))
  }

  ghost predicate Converging(w0: World, w: World, l: Lens) {
    && Origins(w0, w, l)
    && (forall u | u in w.updates :: EventOk(w0, u, l) || Inert(w0, w, u, l))
    && (forall h | 0 <= h < |w.handlers| :: HandlerAt(w0, w, w.handlers[h], l))
    && (forall id {:trigger IndexAt(w0, w, id, l)} :: IndexAt(w0, w, id, l))
  }

  lemma StartInv(w: World, l: Lens)
    requires Start(w)
    ensures Inv(w, w, l)
  {
  }

  // ---- What every step keeps ------------------------------------------------

  /** Successful calls stay as they are. */
  ghost predicate Grown(w: World, v: World) {
    |w.handlers| <= |v.handlers|
    && forall h | 0 <= h < |w.handlers| && w.handlers[h].call.Succeeded() ::
         && v.handlers[h].call == w.handlers[h].call && v.handlers[h].cause == w.handlers[h].cause
         && (!w.handlers[h].phase.Recreating? ==> !v.handlers[h].phase.Recreating?)
  }

  lemma InertStays(w0: World, w: World, v: World, u: Update, l: Lens)
    requires Inert(w0, w, u, l) && Grown(w, v)
    ensures Inert(w0, v, u, l)
  {
    var k: nat :| InertBy(w0, w, u, k, l);
    assert InertBy(w0, v, u, k, l);
  }

  lemma UpdatesStay(w0: World, w: World, v: World, l: Lens)
    requires forall u | u in w.updates :: EventOk(w0, u, l) || Inert(w0, w, u, l)
    requires v.updates == w.updates && Grown(w, v)
    ensures forall u | u in v.updates :: EventOk(w0, u, l) || Inert(w0, v, u, l)
  {
    forall u | u in v.updates ensures EventOk(w0, u, l) || Inert(w0, v, u, l) {
      if Inert(w0, w, u, l) { InertStays(w0, w, v, u, l); }
    }
  }

  /** An id whose tracking did not change is tracked as before. */
  lemma IndexStays(w0: World, w: World, v: World, id: Id, l: Lens)
    requires IndexAt(w0, w, id, l) && Grown(w, v)
    requires id in v.store.index ==> id in w.store.index && v.store.index[id] == w.store.index[id]
    requires id in v.store.index && w.store.index[id] in w.store.heap ==>
      var o := w.store.index[id];
      && o in v.store.heap && SameLine(l, v.store.heap[o], w.store.heap[o])
      && (o !in w0.store.heap ==> v.store.heap[o].history == w.store.heap[o].history)
    ensures IndexAt(w0, v, id, l)
  {
    if id in v.store.index && id !in w0.store.index {
      var h: nat :| TracksFor(w0, w, h, id, l);
      assert TracksFor(w0, v, h, id, l);
    }
  }

  lemma SameIndex(w0: World, w: World, v: World, l: Lens)
    requires Grown(w, v) && v.store == w.store
    requires forall id {:trigger IndexAt(w0, w, id, l)} :: IndexAt(w0, w, id, l)
    ensures forall id {:trigger IndexAt(w0, v, id, l)} :: IndexAt(w0, v, id, l)
  {
    forall id ensures IndexAt(w0, v, id, l) {
      assert IndexAt(w0, w, id, l);
      IndexStays(w0, w, v, id, l);
    }
  }

  /** A published event is about an original container, or inert: recorded ones already have the digest. */
  lemma DetectedOk(w0: World, w: World, u: Update, l: Lens)
    requires AnswersByText(l) && DecidesByText(l) && Converging(w0, w, l) && Publishes(w, u, l.answer)
    requires Calm(w, Detect(u))
    ensures EventOk(w0, u, l) || Inert(w0, w, u, l)
  {
    assert IndexAt(w0, w, u.id, l);
    if u.id !in w0.store.index {
      var h: nat :| TracksFor(w0, w, h, u.id, l);
      var hd, s := w.handlers[h], w.store.heap[w.store.index[u.id]];
      assert HandlerAt(w0, w, hd, l);
      assert l.answer(s.image) == l.answer(w0.store.heap[hd.cause.cs].image);
      assert UnrecordedBy(w, h, u.id);
      SameDirect(l, s, w0.store.heap[hd.cause.cs]);
      assert InertBy(w0, w, u, h, l);
    }
  }

  lemma DetectKeeps(w0: World, w: World, u: Update, l: Lens)
    requires AnswersByText(l) && DecidesByText(l) && Converging(w0, w, l) && Publishes(w, u, l.answer)
    requires Calm(w, Detect(u))
    ensures Converging(w0, Do(w, Detect(u)), l)
  {
    var v := Do(w, Detect(u));
    DetectedOk(w0, w, u, l);
    forall e | e in v.updates ensures EventOk(w0, e, l) || Inert(w0, v, e, l) {
      if Inert(w0, w, e, l) { InertStays(w0, w, v, e, l); }
    }
    forall h | 0 <= h < |v.handlers| ensures HandlerAt(w0, v, v.handlers[h], l) {
      assert HandlerAt(w0, w, w.handlers[h], l);
    }
    SameIndex(w0, w, v, l);
  }

  lemma NotTaken(w: World, u: Update)
    requires u.id in w.store.index && w.store.index[u.id] in w.store.heap
    requires var s := w.store.heap[w.store.index[u.id]]; !Semver.Decide(s.labels, s.image, u.image).Direct?
    ensures Do(w, BeginUpdate(u)) == w
  {
  }

  /** The handler that recreated a container is the only one that did. */
  lemma OneRecreation(w: World, g: nat, h: nat, id: Id)
    requires Sound(w) && Recreation(w, g, id) && Recreation(w, h, id)
    ensures g == h
  {
    assert g != h ==> Apart(w.handlers[g], w.handlers[h]);
  }

  /** An inert event is not acted upon. */
  lemma InertIgnored(w0: World, w: World, u: Update, l: Lens)
    requires DecidesByText(l) && Inv(w0, w, l) && Inert(w0, w, u, l)
    ensures Do(w, BeginUpdate(u)) == w
  {
    var k: nat :| InertBy(w0, w, u, k, l);
    assert HandlerAt(w0, w, w.handlers[k], l) && IndexAt(w0, w, u.id, l);
    if u.id in w.store.index {
      var h: nat :| TracksFor(w0, w, h, u.id, l);
      OneRecreation(w, h, k, u.id);
      var s, t := w.store.heap[w.store.index[u.id]], w0.store.heap[w.handlers[k].cause.cs];
      NotTaken(w, u);
    }
  }

  lemma BeginKeeps(w0: World, w: World, u: Update, l: Lens)
    requires DecidesByText(l) && Inv(w0, w, l)
    ensures Converging(w0, Do(w, BeginUpdate(u)), l)
  {
    var v := Do(w, BeginUpdate(u));
    if v != w {
      if Inert(w0, w, u, l) { InertIgnored(w0, w, u, l); }
      assert EventOk(w0, u, l) && IndexAt(w0, w, u.id, l);
      BegunKeeps(w0, w, v, u, l);
    }
  }

  lemma BegunKeeps(w0: World, w: World, v: World, u: Update, l: Lens)
    requires Converging(w0, w, l) && EventOk(w0, u, l) && IndexAt(w0, w, u.id, l) && u.id in w.store.index
    requires var c := ByUpdate(u, w.store.index[u.id]);
      v == w.(handlers := w.handlers + [Handler(c, D.NewCall(u.id, c.Ref()), Recreating)])
    ensures Converging(w0, v, l)
  {
    UpdatesStay(w0, w, v, l);
    forall h | 0 <= h < |v.handlers| ensures HandlerAt(w0, v, v.handlers[h], l) {
      assert h < |w.handlers| ==> v.handlers[h] == w.handlers[h] && HandlerAt(w0, w, w.handlers[h], l);
    }
    SameIndex(w0, w, v, l);
  }

  lemma CreatesFresh(d: D.Daemon, c: D.Call, ok: bool, id: Id)
    ensures var (d', c') := D.Advance(d, c, ok, id);
      && c'.target == c.target
      && (c'.PastCreate() ==> (c.PastCreate() && c'.newId == c.newId) || (c'.newId !in d.born && c'.newId in d'.live))
      && (forall x | x in d.live && x != c.target :: x in d'.live)
      && (c.Succeeded() ==> c' == c)
  {
  }

  lemma OperateHandler(w0: World, w: World, h: nat, ok: bool, newId: Id, i: nat, l: Lens)
    requires h < |w.handlers| && i < |w.handlers| && w.handlers[h].phase.Recreating? && Origins(w0, w, l)
    requires HandlerAt(w0, w, w.handlers[i], l) && HandlerAt(w0, w, w.handlers[h], l)
    ensures HandlerAt(w0, Operated(w, h, ok, newId), Operated(w, h, ok, newId).handlers[i], l)
  {
    CreatesFresh(w.daemon, w.handlers[h].call, ok, newId);
  }

  /** What an operation leaves alone, and that finished calls stay as they are. */
  lemma OperateGrows(w: World, h: nat, ok: bool, newId: Id)
    requires w.daemon.Consistent() && h < |w.handlers| && w.handlers[h].phase.Recreating?
    ensures var v := Operated(w, h, ok, newId);
      Grown(w, v) && v.store == w.store && v.updates == w.updates && |v.handlers| == |w.handlers|
  {
    AdvanceLater(w.daemon, w.handlers[h].call, ok, newId);
    CreatesFresh(w.daemon, w.handlers[h].call, ok, newId);
  }

  lemma OperateOrigins(w0: World, w: World, h: nat, ok: bool, newId: Id, l: Lens)
    requires Origins(w0, w, l) && w.daemon.Consistent() && h < |w.handlers| && w.handlers[h].phase.Recreating?
    requires HandlerAt(w0, w, w.handlers[h], l)
    ensures Origins(w0, Operated(w, h, ok, newId), l)
  {
    AdvanceLater(w.daemon, w.handlers[h].call, ok, newId);
    CreatesFresh(w.daemon, w.handlers[h].call, ok, newId);
  }

  lemma OperateKeeps(w0: World, w: World, h: nat, ok: bool, newId: Id, l: Lens)
    requires Converging(w0, w, l) && w.daemon.Consistent() && h < |w.handlers|
    ensures Converging(w0, Operated(w, h, ok, newId), l)
  {
    var v := Operated(w, h, ok, newId);
    if w.handlers[h].phase.Recreating? {
      OperateGrows(w, h, ok, newId);
      OperateOrigins(w0, w, h, ok, newId, l);
      UpdatesStay(w0, w, v, l);
      forall i | 0 <= i < |v.handlers| ensures HandlerAt(w0, v, v.handlers[i], l) {
        assert HandlerAt(w0, w, w.handlers[i], l) && HandlerAt(w0, w, w.handlers[h], l);
        OperateHandler(w0, w, h, ok, newId, i, l);
      }
      SameIndex(w0, w, v, l);
    }
  }

  /** The two ways a re-keying goes: the state moves, or the handler falls back on it. */
  lemma RekeyWays(w0: World, w: World, h: nat, l: Lens)
    requires h < |w.handlers| && w.store.WellKeyed() && HandlerAt(w0, w, w.handlers[h], l)
    requires IndexAt(w0, w, w.handlers[h].call.target, l)
    requires w.handlers[h].phase.Recreating? && w.handlers[h].call.Succeeded()
    ensures var v, hd := Rekeyed(w, h), w.handlers[h];
      && v == w.(store := v.store, handlers := w.handlers[h := hd.(phase := Pushing(hd.cause.cs))])
      && v.store == (if hd.call.target in w.store.index then w.store.Rekey(hd.call.target, hd.call.newId) else w.store)
      && (hd.call.target in w.store.index ==> w.store.index[hd.call.target] == hd.cause.cs)
  {
  }

  lemma RekeyHandler(w0: World, w: World, h: nat, i: nat, l: Lens)
    requires h < |w.handlers| && i < |w.handlers| && Origins(w0, w, l) && w.store.WellKeyed()
    requires HandlerAt(w0, w, w.handlers[h], l) && HandlerAt(w0, w, w.handlers[i], l)
    requires IndexAt(w0, w, w.handlers[h].call.target, l)
    requires w.handlers[h].phase.Recreating? && w.handlers[h].call.Succeeded()
    ensures HandlerAt(w0, Rekeyed(w, h), Rekeyed(w, h).handlers[i], l)
  {
    RekeyWays(w0, w, h, l);
    assert w.handlers[i].call.target != w.handlers[h].call.newId;
  }

  lemma RekeyIndex(w0: World, w: World, h: nat, id: Id, l: Lens)
    requires h < |w.handlers| && Origins(w0, w, l) && IndexAt(w0, w, id, l)
    requires IndexAt(w0, w, w.handlers[h].call.target, l)
    requires HandlerAt(w0, w, w.handlers[h], l)
    requires w.handlers[h].phase.Recreating? && w.handlers[h].call.Succeeded()
    ensures IndexAt(w0, Rekeyed(w, h), id, l)
  {
    var v, hd := Rekeyed(w, h), w.handlers[h];
    if id == hd.call.newId && hd.call.target in w.store.index {
      assert TracksFor(w0, v, h, id, l);
    } else {
      IndexStays(w0, w, v, id, l);
    }
  }

  lemma RekeyKeeps(w0: World, w: World, h: nat, l: Lens)
    requires Converging(w0, w, l) && w.store.WellKeyed() && h < |w.handlers|
    ensures Converging(w0, Rekeyed(w, h), l)
  {
    var v := Rekeyed(w, h);
    if w.handlers[h].phase.Recreating? && w.handlers[h].call.Succeeded() {
      assert HandlerAt(w0, w, w.handlers[h], l) && IndexAt(w0, w, w.handlers[h].call.target, l);
      UpdatesStay(w0, w, v, l);
      forall i | 0 <= i < |v.handlers| ensures HandlerAt(w0, v, v.handlers[i], l) {
        assert HandlerAt(w0, w, w.handlers[i], l);
        RekeyHandler(w0, w, h, i, l);
      }
      forall id ensures IndexAt(w0, v, id, l) {
        assert IndexAt(w0, w, id, l);
        RekeyIndex(w0, w, h, id, l);
      }
    }
  }

  lemma PushHandler(w0: World, w: World, h: nat, i: nat, l: Lens)
    requires h < |w.handlers| && i < |w.handlers| && w.handlers[h].phase.Pushing? && Origins(w0, w, l)
    requires HandlerAt(w0, w, w.handlers[h], l) && HandlerAt(w0, w, w.handlers[i], l)
    requires i != h ==> Apart(w.handlers[i], w.handlers[h])
    ensures HandlerAt(w0, PushedBy(w, h), PushedBy(w, h).handlers[i], l)
  {
    var hd, other := w.handlers[h], w.handlers[i];
    if other.cause.cs == hd.cause.cs {
      assert w0.store.heap[hd.cause.cs].id == hd.cause.u.id == other.cause.u.id;
    }
  }

  lemma PushKeeps(w0: World, w: World, h: nat, l: Lens)
    requires Inv(w0, w, l) && h < |w.handlers|
    ensures Converging(w0, PushedBy(w, h), l)
  {
    if w.handlers[h].phase.Pushing? {
      forall i | 0 <= i < |w.handlers| ensures HandlerAt(w0, PushedBy(w, h), PushedBy(w, h).handlers[i], l) {
        assert HandlerAt(w0, w, w.handlers[i], l) && HandlerAt(w0, w, w.handlers[h], l);
        assert i != h ==> Apart(w.handlers[i], w.handlers[h]);
        PushHandler(w0, w, h, i, l);
      }
      PushedConverges(w0, w, h, l);
    }
  }

  lemma PushedOrigins(w0: World, w: World, h: nat, l: Lens)
    requires Origins(w0, w, l) && h < |w.handlers|
    ensures Origins(w0, PushedBy(w, h), l)
  {
  }

  lemma PushedIndex(w0: World, w: World, h: nat, l: Lens)
    requires h < |w.handlers| && w.handlers[h].phase.Pushing? && HandlerAt(w0, w, w.handlers[h], l)
    requires forall id {:trigger IndexAt(w0, w, id, l)} :: IndexAt(w0, w, id, l)
    ensures forall id {:trigger IndexAt(w0, PushedBy(w, h), id, l)} :: IndexAt(w0, PushedBy(w, h), id, l)
  {
    forall id ensures IndexAt(w0, PushedBy(w, h), id, l) {
      assert IndexAt(w0, w, id, l);
      IndexStays(w0, w, PushedBy(w, h), id, l);
    }
  }

  lemma PushedConverges(w0: World, w: World, h: nat, l: Lens)
    requires Converging(w0, w, l) && h < |w.handlers| && w.handlers[h].phase.Pushing?
    requires forall i | 0 <= i < |w.handlers| :: HandlerAt(w0, PushedBy(w, h), PushedBy(w, h).handlers[i], l)
    ensures Converging(w0, PushedBy(w, h), l)
  {
    var v := PushedBy(w, h);
    PushedOrigins(w0, w, h, l);
    assert HandlerAt(w0, w, w.handlers[h], l);
    UpdatesStay(w0, w, v, l);
    PushedIndex(w0, w, h, l);
  }

  lemma AnnounceHandler(w0: World, w: World, h: nat, i: nat, l: Lens)
    requires h < |w.handlers| && i < |w.handlers| && HandlerAt(w0, w, w.handlers[i], l)
    ensures HandlerAt(w0, Announced(w, h), Announced(w, h).handlers[i], l)
  {
  }

  lemma AnnounceKeeps(w0: World, w: World, h: nat, l: Lens)
    requires Converging(w0, w, l) && h < |w.handlers|
    ensures Converging(w0, Announced(w, h), l)
  {
    var v := Announced(w, h);
    assert v.store == w.store && v.updates == w.updates && v.daemon == w.daemon && |v.handlers| == |w.handlers|;
    UpdatesStay(w0, w, v, l);
    forall i | 0 <= i < |v.handlers| ensures HandlerAt(w0, v, v.handlers[i], l) {
      assert HandlerAt(w0, w, w.handlers[i], l);
      AnnounceHandler(w0, w, h, i, l);
    }
    SameIndex(w0, w, v, l);
  }

  lemma DestroyKeeps(w0: World, w: World, x: Id, l: Lens)
    requires Converging(w0, w, l)
    ensures Converging(w0, Do(w, Destroyed(x)), l)
  {
    var v := Do(w, Destroyed(x));
    UpdatesStay(w0, w, v, l);
    forall i | 0 <= i < |v.handlers| ensures HandlerAt(w0, v, v.handlers[i], l) {
      assert HandlerAt(w0, w, w.handlers[i], l);
    }
    forall id ensures IndexAt(w0, v, id, l) {
      assert IndexAt(w0, w, id, l);
      IndexStays(w0, w, v, id, l);
    }
  }

  /** A recreated container is described like the original, pin aside. */
  lemma NewLine(w0: World, w: World, h: nat, l: Lens)
    requires PinsHidden(l) && Origins(w0, w, l) && h < |w.handlers| && HandlerAt(w0, w, w.handlers[h], l)
    requires HandlerOk(w.daemon, w.store.heap, w.handlers[h]) && w.handlers[h].call.Succeeded()
    ensures var c, t := w.daemon.born[w.handlers[h].call.newId], w0.store.heap[w.handlers[h].cause.cs];
      c.LabelsOf() == t.labels && l.text(c.Image()) == l.text(t.image)
  {
    var hd := w.handlers[h];
    assert AsDescribed(w0, hd.call.target);
    assert w.daemon.born[hd.call.newId].Image() == ImageRefs.ImageRef(hd.cause.u.image, hd.cause.u.newDigest);
  }

  /** The state that tracks a recreated container, before a start event of it is handled. */
  lemma StartedAt(w0: World, w: World, g: nat, l: Lens)
    requires PinsHidden(l) && Inv(w0, w, l) && g < |w.handlers| && w.handlers[g].call.Succeeded()
    ensures var hd, y := w.handlers[g], w.handlers[g].call.newId;
      && HandlerAt(w0, w, hd, l) && y in w.daemon.born
      && w.daemon.born[y].LabelsOf() == w0.store.heap[hd.cause.cs].labels
      && l.text(w.daemon.born[y].Image()) == l.text(w0.store.heap[hd.cause.cs].image)
      && (y in w.store.index ==> TracksFor(w0, w, g, y, l))
  {
    var y := w.handlers[g].call.newId;
    assert HandlerAt(w0, w, w.handlers[g], l) && HandlerOk(w.daemon, w.store.heap, w.handlers[g]);
    NewLine(w0, w, g, l);
    assert IndexAt(w0, w, y, l);
    if y in w.store.index {
      var h: nat :| TracksFor(w0, w, h, y, l);
      OneRecreation(w, g, h, y);
    }
  }

  lemma StartIndex(w0: World, w: World, g: nat, image: string, obj: Obj, id: Id, l: Lens)
    requires PinsHidden(l) && Inv(w0, w, l) && g < |w.handlers| && w.handlers[g].call.Succeeded()
    ensures IndexAt(w0, WatchStart(w, w.handlers[g].call.newId, image, obj), id, l)
  {
    StartedAt(w0, w, g, l);
    assert IndexAt(w0, w, id, l);
    StartedIndex(w0, w, g, image, obj, id, l);
  }

  lemma StartedIndex(w0: World, w: World, g: nat, image: string, obj: Obj, id: Id, l: Lens)
    requires Origins(w0, w, l) && w.store.WellKeyed() && IndexAt(w0, w, id, l)
    requires g < |w.handlers| && w.handlers[g].call.Succeeded() && HandlerAt(w0, w, w.handlers[g], l)
    requires var hd, y := w.handlers[g], w.handlers[g].call.newId;
      && y in w.daemon.born && w.daemon.born[y].LabelsOf() == w0.store.heap[hd.cause.cs].labels
      && l.text(w.daemon.born[y].Image()) == l.text(w0.store.heap[hd.cause.cs].image)
      && (y in w.store.index ==> TracksFor(w0, w, g, y, l))
    ensures IndexAt(w0, WatchStart(w, w.handlers[g].call.newId, image, obj), id, l)
  {
    var y := w.handlers[g].call.newId;
    var v := WatchStart(w, y, image, obj);
    if v != w && id == y {
      assert TracksFor(w0, v, g, y, l);
    } else {
      IndexStays(w0, w, v, id, l);
    }
  }

  lemma StartOrigins(w0: World, w: World, g: nat, image: string, obj: Obj, l: Lens)
    requires PinsHidden(l) && Inv(w0, w, l) && g < |w.handlers| && w.handlers[g].call.Succeeded()
    ensures Origins(w0, WatchStart(w, w.handlers[g].call.newId, image, obj), l)
  {
    StartedAt(w0, w, g, l);
  }

  lemma StartHandler(w0: World, w: World, y: Id, image: string, obj: Obj, i: nat, l: Lens)
    requires i < |w.handlers| && HandlerAt(w0, w, w.handlers[i], l) && Origins(w0, w, l) && y !in w0.daemon.born
    ensures HandlerAt(w0, WatchStart(w, y, image, obj), w.handlers[i], l)
  {
  }

  lemma StartKeeps(w0: World, w: World, g: nat, image: string, obj: Obj, l: Lens)
    requires PinsHidden(l) && Inv(w0, w, l) && g < |w.handlers| && w.handlers[g].call.Succeeded()
    ensures Converging(w0, WatchStart(w, w.handlers[g].call.newId, image, obj), l)
  {
    var y := w.handlers[g].call.newId;
    var v := WatchStart(w, y, image, obj);
    StartOrigins(w0, w, g, image, obj, l);
    assert HandlerAt(w0, w, w.handlers[g], l);
    UpdatesStay(w0, w, v, l);
    forall i | 0 <= i < |v.handlers| ensures HandlerAt(w0, v, v.handlers[i], l) {
      assert HandlerAt(w0, w, w.handlers[i], l);
      StartHandler(w0, w, y, image, obj, i, l);
    }
    forall id ensures IndexAt(w0, v, id, l) {
      StartIndex(w0, w, g, image, obj, id, l);
    }
  }

  lemma StepKeeps(w0: World, w: World, a: Action, l: Lens)
    requires Clear(l) && Inv(w0, w, l) && Allowed(w, a, l.answer) && Calm(w, a)
    ensures Inv(w0, Do(w, a), l)
  {
    StepSound(w, a);
    if a.Detect? {
      DetectKeeps(w0, w, a.u, l);
    } else if a.BeginUpdate? {
      BeginKeeps(w0, w, a.u, l);
    } else if a.Destroyed? {
      DestroyKeeps(w0, w, a.id, l);
    } else if a.Started? {
      var g: nat :| Recreation(w, g, a.id);
      StartKeeps(w0, w, g, a.image, a.obj, l);
      assert Do(w, a) == WatchStart(w, a.id, a.image, a.obj);
    } else if a.h < |w.handlers| {
      StepOfHandler(w0, w, a, l);
    }
  }

  lemma OperateStep(w0: World, w: World, h: nat, ok: bool, id: Id, l: Lens)
    requires Inv(w0, w, l) && h < |w.handlers|
    ensures Converging(w0, Do(w, Operate(h, ok, id)), l)
  {
    OperateKeeps(w0, w, h, ok, id, l);
    assert Do(w, Operate(h, ok, id)) == Operated(w, h, ok, id);
  }

  lemma BookkeepingStep(w0: World, w: World, a: Action, l: Lens)
    requires Inv(w0, w, l) && (a.Rekey? || a.Push? || a.Announce?) && a.h < |w.handlers|
    ensures Converging(w0, Handle(w, a, a.h), l)
  {
    if a.Rekey? {
      RekeyKeeps(w0, w, a.h, l);
    } else if a.Push? {
      PushKeeps(w0, w, a.h, l);
    } else {
      AnnounceKeeps(w0, w, a.h, l);
    }
  }

  lemma StepOfHandler(w0: World, w: World, a: Action, l: Lens)
    requires Inv(w0, w, l) && (a.Operate? || a.Rekey? || a.Push? || a.Announce?) && a.h < |w.handlers|
    ensures Converging(w0, Do(w, a), l)
  {
    if a.Operate? {
      OperateStep(w0, w, a.h, a.ok, a.newId, l);
    } else {
      BookkeepingStep(w0, w, a, l);
      assert Do(w, a) == Handle(w, a, a.h);
    }
  }

  lemma {:induction false} RunKeeps(w0: World, w: World, actions: seq<Action>, l: Lens)
    requires Clear(l) && Inv(w0, w, l) && AllowedRun(w, actions, l.answer) && CalmRun(w, actions)
    ensures Inv(w0, Run(w, actions), l)
    decreases |actions|
  {
    if actions != [] {
      StepKeeps(w0, w, actions[0], l);
      RunKeeps(w0, Do(w, actions[0]), actions[1..], l);
    }
  }

  // ---- Convergence ----------------------------------------------------------

  /** No two deployments succeeded on one container, or on a container and its successor. */
  ghost predicate Once(w: World) {
    forall g, h | 0 <= g < |w.handlers| && 0 <= h < |w.handlers| && g != h
                  && w.handlers[g].call.Succeeded() && w.handlers[h].call.Succeeded() ::
      w.handlers[g].call.target != w.handlers[h].call.target && w.handlers[g].call.newId != w.handlers[h].call.target
  }

  lemma InvOnce(w0: World, w: World, l: Lens)
    requires Inv(w0, w, l)
    ensures Once(w)
  {
    forall g, h | 0 <= g < |w.handlers| && 0 <= h < |w.handlers| && g != h
      && w.handlers[g].call.Succeeded() && w.handlers[h].call.Succeeded()
      ensures w.handlers[g].call.target != w.handlers[h].call.target
      ensures w.handlers[g].call.newId != w.handlers[h].call.target
    {
      assert Apart(w.handlers[g], w.handlers[h]);
      assert HandlerAt(w0, w, w.handlers[g], l) && HandlerAt(w0, w, w.handlers[h], l);
    }
  }

  lemma CalmInv(w0: World, actions: seq<Action>, answer: string -> string)
    requires Answers(answer) && Start(w0) && AllowedRun(w0, actions, answer) && CalmRun(w0, actions)
    ensures Inv(w0, Run(w0, actions), LensOf(answer))
  {
    LensIsClear(answer);
    StartInv(w0, LensOf(answer));
    RunKeeps(w0, w0, actions, LensOf(answer));
  }

  /**
   At most one successful deployment per container line, in every state of every calm run;
   and whatever events are about recreated containers, taking them changes nothing.
   */
  lemma AtMostOneDeployment(w0: World, actions: seq<Action>, answer: string -> string)
    requires Answers(answer) && Start(w0) && AllowedRun(w0, actions, answer) && CalmRun(w0, actions)
    ensures var w := Run(w0, actions);
      && Once(w)
      && (forall h | 0 <= h < |w.handlers| :: w.handlers[h].call.target in w0.store.index)
      && (forall u | u in w.updates && u.id !in w0.store.index :: Do(w, BeginUpdate(u)) == w)
  {
    var l := LensOf(answer);
    CalmInv(w0, actions, answer);
    var w := Run(w0, actions);
    InvOnce(w0, w, l);
    forall h | 0 <= h < |w.handlers| ensures w.handlers[h].call.target in w0.store.index {
      assert HandlerAt(w0, w, w.handlers[h], l);
    }
    LensIsClear(answer);
    forall u | u in w.updates && u.id !in w0.store.index ensures Do(w, BeginUpdate(u)) == w {
      InertIgnored(w0, w, u, l);
    }
  }

  // ---- Afterwards -----------------------------------------------------------

  /** Where handler `h`'s state is, given whether the old container's destroy event came before its re-keying. */
  ghost predicate Whereabouts(w: World, h: nat, lost: bool) {
    if h >= |w.handlers| then !lost else StateAt(w.store.index, w.daemon.live.Keys, w.handlers[h], lost)
  }

  ghost predicate StateAt(index: map<Id, Obj>, live: set<Id>, hd: Handler, lost: bool) {
    hd.cause.ByUpdate? &&
    if hd.phase.Recreating? then
      && (lost ==> hd.call.target !in index)
      && (!lost && (hd.call.PastRemove() || hd.call.target in live) ==> hd.call.target in index)
    else
      (hd.call.newId in index && index[hd.call.newId] == hd.cause.cs) <==> !lost
  }

  lemma BeginWhereabouts(w: World, u: Update, h: nat, lost: bool)
    requires Whereabouts(w, h, lost)
    ensures Whereabouts(Do(w, BeginUpdate(u)), h, lost)
  {
  }

  lemma AdvanceStateAt(d: D.Daemon, hd: Handler, index: map<Id, Obj>, ok: bool, id: Id, lost: bool)
    requires StateAt(index, d.live.Keys, hd, lost) && hd.phase.Recreating?
    requires hd.call.target in d.born
    ensures var (e, c) := D.Advance(d, hd.call, ok, id); StateAt(index, e.live.Keys, hd.(call := c), lost)
  {
  }

  lemma OthersStateAt(d: D.Daemon, c: D.Call, hd: Handler, index: map<Id, Obj>, ok: bool, id: Id, lost: bool)
    requires StateAt(index, d.live.Keys, hd, lost) && hd.call.target in d.born
    ensures StateAt(index, D.Advance(d, c, ok, id).0.live.Keys, hd, lost)
  {
  }

  lemma OperateWhereabouts(w: World, k: nat, ok: bool, id: Id, h: nat, lost: bool)
    requires k < |w.handlers| && Whereabouts(w, h, lost)
    requires h < |w.handlers| ==> w.handlers[h].call.target in w.daemon.born
    ensures Whereabouts(Operated(w, k, ok, id), h, lost)
  {
    if h < |w.handlers| && w.handlers[k].phase.Recreating? {
      if h == k {
        AdvanceStateAt(w.daemon, w.handlers[h], w.store.index, ok, id, lost);
      } else {
        OthersStateAt(w.daemon, w.handlers[k].call, w.handlers[h], w.store.index, ok, id, lost);
      }
    }
  }

  lemma DestroyWhereabouts(w: World, x: Id, h: nat, n: Notes)
    requires Whereabouts(w, h, n.lost)
    requires h < |w.handlers| && !w.handlers[h].phase.Recreating? ==> x != w.handlers[h].call.newId
    ensures Whereabouts(Do(w, Destroyed(x)), h, Noted(w, n, Destroyed(x), h).lost)
  {
  }

  lemma StartWhereabouts(w: World, y: Id, image: string, obj: Obj, h: nat, n: Notes)
    requires Whereabouts(w, h, n.lost) && (h < |w.handlers| ==> w.handlers[h].call.target != y)
    requires h < |w.handlers| && w.handlers[h].cause.ByUpdate? ==> w.handlers[h].cause.cs in w.store.heap
    ensures Whereabouts(Do(w, Started(y, image, obj)), h, Noted(w, n, Started(y, image, obj), h).lost)
  {
  }

  /** Before its re-keying a recreated container is not tracked by the handler's state. */
  lemma BlankBefore(w0: World, w: World, k: nat, l: Lens)
    requires Inv(w0, w, l) && k < |w.handlers| && w.handlers[k].phase.Recreating? && w.handlers[k].call.Succeeded()
    ensures var y := w.handlers[k].call.newId;
      w.handlers[k].cause.ByUpdate? && (y in w.store.index ==> w.store.index[y] != w.handlers[k].cause.cs)
  {
    var y := w.handlers[k].call.newId;
    assert HandlerAt(w0, w, w.handlers[k], l) && IndexAt(w0, w, y, l);
    if y in w.store.index {
      var h: nat :| TracksFor(w0, w, h, y, l);
      OneRecreation(w, h, k, y);
    }
  }

  lemma RekeyWhereabouts(w0: World, w: World, k: nat, h: nat, lost: bool, l: Lens)
    requires Inv(w0, w, l) && k < |w.handlers| && h < |w.handlers| && Whereabouts(w, h, lost)
    requires w.handlers[k].phase.Recreating? && w.handlers[k].call.Succeeded()
    ensures Whereabouts(Rekeyed(w, k), h, lost)
  {
    var hd, kd := w.handlers[h], w.handlers[k];
    assert HandlerAt(w0, w, hd, l) && HandlerAt(w0, w, kd, l) && IndexAt(w0, w, kd.call.target, l);
    assert HandlerOk(w.daemon, w.store.heap, kd);
    RekeyWays(w0, w, k, l);
    if h == k {
      BlankBefore(w0, w, k, l);
      MovesOwn(w.store.index, w.daemon.live.Keys, kd, lost);
    } else {
      assert Apart(hd, kd);
      MovesOther(w.store.index, w.daemon.live.Keys, hd, kd, lost);
    }
  }

  lemma MovesOwn(index: map<Id, Obj>, live: set<Id>, hd: Handler, lost: bool)
    requires StateAt(index, live, hd, lost) && hd.phase.Recreating? && hd.call.PastRemove()
    requires hd.call.target in index ==> index[hd.call.target] == hd.cause.cs
    requires hd.call.newId in index ==> index[hd.call.newId] != hd.cause.cs
    ensures var after :=
        if hd.call.target in index then (index - {hd.call.target})[hd.call.newId := hd.cause.cs] else index;
      StateAt(after, live, hd.(phase := Pushing(hd.cause.cs)), lost)
  {
  }

  lemma MovesOther(index: map<Id, Obj>, live: set<Id>, hd: Handler, kd: Handler, lost: bool)
    requires StateAt(index, live, hd, lost) && kd.cause.ByUpdate?
    requires kd.call.target !in live && kd.call.PastRemove() && kd.call.PastCreate() && Apart(hd, kd)
    requires hd.call.target != kd.call.newId
    requires !hd.phase.Recreating? ==> hd.call.PastCreate() && hd.call.newId != kd.call.target
    ensures var after :=
        if kd.call.target in index then (index - {kd.call.target})[kd.call.newId := kd.cause.cs] else index;
      StateAt(after, live, hd, lost)
  {
  }

  lemma StepWhereabouts(w0: World, w: World, a: Action, h: nat, n: Notes, l: Lens)
    requires Inv(w0, w, l) && Allowed(w, a, l.answer) && Whereabouts(w, h, n.lost)
    ensures Whereabouts(Do(w, a), h, Noted(w, n, a, h).lost)
  {
    if h < |w.handlers| {
      assert HandlerAt(w0, w, w.handlers[h], l) && HandlerOk(w.daemon, w.store.heap, w.handlers[h]);
    }
    if a.Destroyed? {
      var g: nat :| Removal(w, g, a.id);
      assert HandlerAt(w0, w, w.handlers[g], l);
      DestroyWhereabouts(w, a.id, h, n);
    } else if a.Started? {
      var g: nat :| Recreation(w, g, a.id);
      assert HandlerAt(w0, w, w.handlers[g], l);
      StartWhereabouts(w, a.id, a.image, a.obj, h, n);
    } else {
      NotNoted(w, n, a, h);
      if a.BeginUpdate? {
        BeginWhereabouts(w, a.u, h, n.lost);
      } else if !a.Detect? && a.h < |w.handlers| {
        HandlerWhereabouts(w0, w, a, h, n.lost, l);
      }
    }
  }

  /** Pushing and announcing move no state. */
  lemma SettleWhereabouts(w: World, a: Action, h: nat, lost: bool)
    requires Whereabouts(w, h, lost) && (a.Push? || a.Announce?) && a.h < |w.handlers|
    ensures Whereabouts(Do(w, a), h, lost)
  {
    var v := Do(w, a);
    assert v.store.index == w.store.index && v.daemon == w.daemon && |v.handlers| == |w.handlers|;
    if h < |w.handlers| {
      assert v.handlers[h].call == w.handlers[h].call && v.handlers[h].cause == w.handlers[h].cause;
      assert v.handlers[h].phase.Recreating? <==> w.handlers[h].phase.Recreating?;
    }
  }

  lemma HandlerWhereabouts(w0: World, w: World, a: Action, h: nat, lost: bool, l: Lens)
    requires Inv(w0, w, l) && Whereabouts(w, h, lost) && (a.Operate? || a.Rekey? || a.Push? || a.Announce?)
    requires a.h < |w.handlers| && (h < |w.handlers| ==> w.handlers[h].call.target in w.daemon.born)
    ensures Whereabouts(Do(w, a), h, lost)
  {
    if a.Operate? {
      OperateWhereabouts(w, a.h, a.ok, a.newId, h, lost);
      assert Do(w, a) == Operated(w, a.h, a.ok, a.newId);
    } else if a.Rekey? {
      RekeyedWhereabouts(w0, w, a.h, h, lost, l);
      assert Do(w, a) == Rekeyed(w, a.h);
    } else {
      SettleWhereabouts(w, a, h, lost);
    }
  }

  lemma RekeyedWhereabouts(w0: World, w: World, k: nat, h: nat, lost: bool, l: Lens)
    requires Inv(w0, w, l) && k < |w.handlers| && Whereabouts(w, h, lost)
    ensures Whereabouts(Rekeyed(w, k), h, lost)
  {
    if h < |w.handlers| && w.handlers[k].phase.Recreating? && w.handlers[k].call.Succeeded() {
      RekeyWhereabouts(w0, w, k, h, lost, l);
    } else {
      assert |Rekeyed(w, k).handlers| == |w.handlers|;
    }
  }

  lemma {:induction false} RunWhereabouts(w0: World, w: World, actions: seq<Action>, h: nat, n: Notes, l: Lens)
    requires Clear(l) && Inv(w0, w, l) && AllowedRun(w, actions, l.answer) && CalmRun(w, actions)
    requires Whereabouts(w, h, n.lost)
    ensures Inv(w0, Run(w, actions), l) && Whereabouts(Run(w, actions), h, NotesOf(w, n, actions, h).lost)
    decreases |actions|
  {
    if actions != [] {
      StepKeeps(w0, w, actions[0], l);
      StepWhereabouts(w0, w, actions[0], h, n, l);
      RunWhereabouts(w0, Do(w, actions[0]), actions[1..], h, Noted(w, n, actions[0], h), l);
    }
  }

  /**
   After a settled deployment, in every calm run: the old id is gone from the store, and taking
   any leftover event addressed to it changes nothing at all. A poll of the new container
   publishes nothing if and only if the re-keying preceded the destroy event; otherwise it
   publishes as soon as the start event has made the container tracked again.
   */
  lemma QuietAfterwards(w0: World, actions: seq<Action>, answer: string -> string, h: nat, u: Update)
    requires Answers(answer) && Start(w0) && AllowedRun(w0, actions, answer) && CalmRun(w0, actions)
    requires h < |Run(w0, actions).handlers| && Settled(Run(w0, actions).handlers[h])
    requires u.id == Run(w0, actions).handlers[h].call.target
    ensures var w, lost := Run(w0, actions), NotesOf(w0, Notes(false, false), actions, h).lost;
      var y := w.handlers[h].call.newId;
      && u.id !in w.store.index && Do(w, BeginUpdate(u)) == w
      && (!lost ==> y in w.store.index)
      && (y in w.store.index ==> ((exists e: Update :: e.id == y && Publishes(w, e, answer)) <==> lost))
  {
    var l := LensOf(answer);
    CalmWhereabouts(w0, actions, answer, h);
    LensIsClear(answer);
    QuietState(w0, Run(w0, actions), h, NotesOf(w0, Notes(false, false), actions, h).lost, u, l);
  }

  /**
   What a calm poll avoids, told by the run: a tracked recreation is unrecorded if and only if
   its push is still to come or its re-keying came after the destroy event.
   */
  lemma UnrecordedMeans(w0: World, actions: seq<Action>, answer: string -> string, h: nat)
    requires Answers(answer) && Start(w0) && AllowedRun(w0, actions, answer) && CalmRun(w0, actions)
    requires h < |Run(w0, actions).handlers| && Run(w0, actions).handlers[h].call.Succeeded()
    requires Run(w0, actions).handlers[h].call.newId in Run(w0, actions).store.index
    ensures var w, lost := Run(w0, actions), NotesOf(w0, Notes(false, false), actions, h).lost;
      Unrecorded(w, w.handlers[h].call.newId) <==> !Settled(w.handlers[h]) || lost
  {
    CalmWhereabouts(w0, actions, answer, h);
    UnrecordedState(w0, Run(w0, actions), h, NotesOf(w0, Notes(false, false), actions, h).lost, LensOf(answer));
  }

  lemma UnrecordedState(w0: World, w: World, h: nat, lost: bool, l: Lens)
    requires Inv(w0, w, l) && Whereabouts(w, h, lost) && h < |w.handlers| && w.handlers[h].call.Succeeded()
    requires w.handlers[h].call.newId in w.store.index
    ensures Unrecorded(w, w.handlers[h].call.newId) <==> !Settled(w.handlers[h]) || lost
  {
    OnlyBy(w, h);
  }

  lemma CalmWhereabouts(w0: World, actions: seq<Action>, answer: string -> string, h: nat)
    requires Answers(answer) && Start(w0) && AllowedRun(w0, actions, answer) && CalmRun(w0, actions)
    ensures Inv(w0, Run(w0, actions), LensOf(answer))
    ensures Whereabouts(Run(w0, actions), h, NotesOf(w0, Notes(false, false), actions, h).lost)
  {
    LensIsClear(answer);
    StartInv(w0, LensOf(answer));
    assert Whereabouts(w0, h, false);
    RunWhereabouts(w0, w0, actions, h, Notes(false, false), LensOf(answer));
  }

  lemma OnlyBy(w: World, h: nat)
    requires Sound(w) && h < |w.handlers| && w.handlers[h].call.Succeeded()
    ensures Unrecorded(w, w.handlers[h].call.newId) <==> UnrecordedBy(w, h, w.handlers[h].call.newId)
  {
    var y := w.handlers[h].call.newId;
    if Unrecorded(w, y) {
      var g: nat :| UnrecordedBy(w, g, y);
      OneRecreation(w, g, h, y);
    }
  }

  lemma QuietState(w0: World, w: World, h: nat, lost: bool, u: Update, l: Lens)
    requires AnswersByText(l) && Inv(w0, w, l) && h < |w.handlers| && Settled(w.handlers[h]) && Whereabouts(w, h, lost)
    requires u.id == w.handlers[h].call.target && forall a :: l.answer(a) != ""
    ensures var y := w.handlers[h].call.newId;
      && u.id !in w.store.index && Do(w, BeginUpdate(u)) == w
      && (!lost ==> y in w.store.index)
      && (y in w.store.index ==> ((exists e: Update :: e.id == y && Publishes(w, e, l.answer)) <==> lost))
  {
    assert HandlerAt(w0, w, w.handlers[h], l);
    if w.handlers[h].call.newId in w.store.index {
      PolledAfterwards(w0, w, h, l);
    }
  }

  /** What a poll of a settled recreation finds. */
  lemma PolledAfterwards(w0: World, w: World, h: nat, l: Lens)
    requires AnswersByText(l) && Inv(w0, w, l) && h < |w.handlers| && Settled(w.handlers[h])
    requires w.handlers[h].call.newId in w.store.index && forall a :: l.answer(a) != ""
    ensures var y := w.handlers[h].call.newId;
      (exists e: Update :: e.id == y && Publishes(w, e, l.answer))
      <==> !(w.handlers[h].cause.ByUpdate? && w.store.index[y] == w.handlers[h].cause.cs)
  {
    var hd := w.handlers[h];
    var y := hd.call.newId;
    assert HandlerAt(w0, w, hd, l) && IndexAt(w0, w, y, l);
    var g: nat :| TracksFor(w0, w, g, y, l);
    OneRecreation(w, g, h, y);
    var s := w.store.heap[w.store.index[y]];
    assert l.answer(s.image) == l.answer(w0.store.heap[hd.cause.cs].image);
    assert Publishes(w, Polled(w, y, l.answer), l.answer) <==> l.answer(s.image) != s.CurrentDigest();
  }

  // ---- Exactly when ---------------------------------------------------------

  predicate Pollless(actions: seq<Action>) {
    forall i | 0 <= i < |actions| :: !actions[i].Detect?
  }

  /** Whatever executor and watcher do about the events published so far, no line is deployed twice. */
  ghost predicate OnceFrom(w: World, answer: string -> string) {
    forall more {:trigger Once(Run(w, more))} | Pollless(more) && AllowedRun(w, more, answer) :: Once(Run(w, more))
  }

  ghost predicate OnceThroughout(w: World, actions: seq<Action>, answer: string -> string)
    decreases |actions|
  {
    OnceFrom(w, answer) && (actions != [] ==> OnceThroughout(Do(w, actions[0]), actions[1..], answer))
  }

  lemma {:induction false} PolllessIsCalm(w: World, more: seq<Action>)
    requires Pollless(more)
    ensures CalmRun(w, more)
    decreases |more|
  {
    if more != [] {
      assert !more[0].Detect?;
      PolllessIsCalm(Do(w, more[0]), more[1..]);
    }
  }

  lemma {:induction false} ExecutorsAllowed(w: World, more: seq<Action>, answer: string -> string)
    requires ExecutorRun(more)
    ensures AllowedRun(w, more, answer) && Pollless(more)
    decreases |more|
  {
    if more != [] {
      assert ExecutorStep(more[0]);
      ExecutorsAllowed(Do(w, more[0]), more[1..], answer);
    }
  }

  lemma InvOnceFrom(w0: World, w: World, l: Lens)
    requires Clear(l) && Inv(w0, w, l)
    ensures OnceFrom(w, l.answer)
  {
    forall more | Pollless(more) && AllowedRun(w, more, l.answer) ensures Once(Run(w, more)) {
      PolllessIsCalm(w, more);
      RunKeeps(w0, w, more, l);
      InvOnce(w0, Run(w, more), l);
    }
  }

  /** Finitely many ids leave one unused. */
  lemma LongerThanAll(s: set<Id>) returns (n: nat)
    ensures forall x | x in s :: |x| < n
  {
    n := 1;
    var left := s;
    while left != {}
      invariant left <= s && forall z | z in s && z !in left :: |z| < n
      decreases |left|
    {
      var x :| x in left;
      left, n := left - {x}, if |x| < n then n else |x| + 1;
    }
  }

  lemma UnusedId(s: set<Id>) returns (id: Id)
    ensures id !in s && id != ""
  {
    var n := LongerThanAll(s + {""});
    id := seq(n, _ => 'x');
  }

  lemma UnusedObj(s: set<Obj>) returns (o: Obj)
    ensures o !in s
  {
    o := 0;
    var left := s;
    while left != {}
      invariant left <= s && forall z | z in s && z !in left :: z < o
      decreases |left|
    {
      var x :| x in left;
      left, o := left - {x}, if x < o then o else x + 1;
    }
  }

  /** An event for a live container, taken up and granted everything, succeeds on that container. */
  lemma TakenAndGranted(w: World, u: Update, y: Id) returns (more: seq<Action>)
    requires w.daemon.Consistent() && u in w.updates && u.id in w.store.index && w.store.index[u.id] in w.store.heap
    requires u.image == w.store.heap[w.store.index[u.id]].image && Direct(w.store.heap[w.store.index[u.id]])
    requires u.id in w.daemon.live && u.id in w.daemon.born && w.daemon.born[u.id].config.Some?
    requires y !in w.daemon.born && y != ""
    ensures ExecutorRun(more)
    ensures var v, n := Run(w, more), |w.handlers|;
      && |v.handlers| == n + 1 && (forall i | 0 <= i < n :: v.handlers[i] == w.handlers[i])
      && v.handlers[n].call.Succeeded() && v.handlers[n].call.target == u.id
  {
    var n := |w.handlers|;
    var begun := Do(w, BeginUpdate(u));
    var c := ByUpdate(u, w.store.index[u.id]);
    assert begun == w.(handlers := w.handlers + [Handler(c, D.NewCall(u.id, c.Ref()), Recreating)]);
    var operations := Operations(n, GRANTED, |GRANTED|, y);
    more := [BeginUpdate(u)] + operations;
    OperationsAreSteps(n, GRANTED, |GRANTED|, y);
    AloneSucceeds(w.daemon, u.id, c.Ref(), y);
    SoloRun(begun, n, GRANTED, |GRANTED|, y);
    RunFirst(w, BeginUpdate(u), operations);
  }

  lemma TwiceOnLine(w: World, g: nat, h: nat)
    requires g < h < |w.handlers| && w.handlers[g].call.Succeeded() && w.handlers[h].call.Succeeded()
    requires w.handlers[g].call.newId == w.handlers[h].call.target
    ensures !Once(w)
  {
  }

  /** A poll that was not calm lets the executor deploy the line a second time. */
  lemma UncalmRedeploys(w0: World, w: World, u: Update, l: Lens) returns (more: seq<Action>)
    requires Inv(w0, w, l) && Publishes(w, u, l.answer) && !Calm(w, Detect(u))
    ensures ExecutorRun(more) && !Once(Run(Do(w, Detect(u)), more))
  {
    var g: nat :| UnrecordedBy(w, g, u.id);
    assert HandlerAt(w0, w, w.handlers[g], l) && HandlerOk(w.daemon, w.store.heap, w.handlers[g]);
    var y := UnusedId(w.daemon.born.Keys);
    more := TakenAndGranted(Do(w, Detect(u)), u, y);
    TwiceOnLine(Run(Do(w, Detect(u)), more), g, |w.handlers|);
  }

  lemma {:induction false} OnceExactly(w0: World, w: World, actions: seq<Action>, l: Lens)
    requires Clear(l) && Inv(w0, w, l) && AllowedRun(w, actions, l.answer)
    ensures OnceThroughout(w, actions, l.answer) <==> CalmRun(w, actions)
    decreases |actions|
  {
    InvOnceFrom(w0, w, l);
    if actions != [] {
      var a := actions[0];
      if Calm(w, a) {
        StepKeeps(w0, w, a, l);
        OnceExactly(w0, Do(w, a), actions[1..], l);
      } else {
        var more := UncalmRedeploys(w0, w, a.u, l);
        ExecutorsAllowed(Do(w, a), more, l.answer);
        assert !OnceFrom(Do(w, a), l.answer);
      }
    }
  }

  /**
   Convergence, exactly: over every run of polls, executor steps and the watcher's events for
   what the executor removed and started, each container line is deployed at most once in every
   state, whatever executor and watcher go on to do, if and only if every publishing poll of the
   run was calm.
   */
  lemma DeploymentsExactly(w0: World, actions: seq<Action>, answer: string -> string)
    requires Answers(answer) && Start(w0) && AllowedRun(w0, actions, answer)
    ensures OnceThroughout(w0, actions, answer) <==> CalmRun(w0, actions)
  {
    LensIsClear(answer);
    StartInv(w0, LensOf(answer));
    OnceExactly(w0, w0, actions, LensOf(answer));
  }

  // ---- Such runs exist ------------------------------------------------------

  lemma AllowedFirst(w: World, a: Action, rest: seq<Action>, answer: string -> string)
    requires Allowed(w, a, answer) && AllowedRun(Do(w, a), rest, answer)
    ensures AllowedRun(w, [a] + rest, answer)
  {
    assert ([a] + rest)[1..] == rest;
  }

  lemma {:induction false} AllowedConcat(w: World, a: seq<Action>, b: seq<Action>, answer: string -> string)
    requires AllowedRun(w, a, answer) && AllowedRun(Run(w, a), b, answer)
    ensures AllowedRun(w, a + b, answer)
    decreases |a|
  {
    if a == [] {
      assert a + b == b;
    } else {
      assert (a + b)[0] == a[0] && (a + b)[1..] == a[1..] + b;
      AllowedConcat(Do(w, a[0]), a[1..], b, answer);
    }
  }

  lemma {:induction false} CalmConcat(w: World, a: seq<Action>, b: seq<Action>)
    requires CalmRun(w, a) && CalmRun(Run(w, a), b)
    ensures CalmRun(w, a + b)
    decreases |a|
  {
    if a == [] {
      assert a + b == b;
    } else {
      assert (a + b)[0] == a[0] && (a + b)[1..] == a[1..] + b;
      CalmConcat(Do(w, a[0]), a[1..], b);
    }
  }

  /** A start from which an update is due: a tracked, running, directly updatable container behind the registry. */
  ghost predicate Due(w: World, x: Id, o: Obj, answer: string -> string) {
    Start(w) && Ready(w, x, o) && w.store.heap[o].CurrentDigest() != answer(w.store.heap[o].image)
  }

  /** The first update of a due container is polled, taken up and recreated, calmly. */
  lemma FirstUpdate(w0: World, x: Id, o: Obj, answer: string -> string, steps: seq<Action>)
    requires Due(w0, x, o, answer) && ExecutorRun(steps)
    ensures var first := [Detect(Seen(w0, x, o, answer(w0.store.heap[o].image)))] + steps;
      AllowedRun(w0, first, answer) && CalmRun(w0, first)
  {
    var u := Seen(w0, x, o, answer(w0.store.heap[o].image));
    assert w0.store.heap[o].id == x && u == Polled(w0, x, answer) && Publishes(w0, u, answer);
    ExecutorsAllowed(Do(w0, Detect(u)), steps, answer);
    AllowedFirst(w0, Detect(u), steps, answer);
    PolllessIsCalm(Do(w0, Detect(u)), steps);
    assert ([Detect(u)] + steps)[1..] == steps;
  }

  /** A calm run, a poll that is not, and what the executor then does: the line is deployed twice. */
  lemma PollRedeploys(w0: World, before: seq<Action>, e: Update, answer: string -> string) returns (after: seq<Action>)
    requires Answers(answer) && Start(w0) && AllowedRun(w0, before, answer) && CalmRun(w0, before)
    requires Publishes(Run(w0, before), e, answer) && !Calm(Run(w0, before), Detect(e))
    ensures AllowedRun(w0, before + ([Detect(e)] + after), answer) && !Once(Run(w0, before + ([Detect(e)] + after)))
  {
    var w := Run(w0, before);
    CalmInv(w0, before, answer);
    after := UncalmRedeploys(w0, w, e, LensOf(answer));
    ExecutorsAllowed(Do(w, Detect(e)), after, answer);
    AllowedFirst(w, Detect(e), after, answer);
    AllowedConcat(w0, before, [Detect(e)] + after, answer);
    RunFirst(w, Detect(e), after);
    RunConcat(w0, before, [Detect(e)] + after);
  }

  /**
   From every start where an update is due there is a run in which a poll falls between the
   re-keying and the push, and the line is deployed twice.
   */
  lemma EarlyPollRedeploys(w0: World, x: Id, o: Obj, answer: string -> string) returns (actions: seq<Action>)
    requires Answers(answer) && Due(w0, x, o, answer)
    ensures AllowedRun(w0, actions, answer) && !Once(Run(w0, actions))
  {
    var y := UnusedId(w0.daemon.born.Keys);
    var digest := answer(w0.store.heap[o].image);
    var steps, w := HalfUpdate(w0, x, o, digest, y);
    var before := [Detect(Seen(w0, x, o, digest))] + steps;
    FirstUpdate(w0, x, o, answer, steps);
    var e := Polled(w, y, answer);
    EarlyPoll(w0, w, x, o, y, answer);
    var after := PollRedeploys(w0, before, e, answer);
    actions := before + ([Detect(e)] + after);
  }

  /** A poll while the push of a re-keyed state is to come. */
  lemma EarlyPoll(w0: World, w: World, x: Id, o: Obj, y: Id, answer: string -> string)
    requires Due(w0, x, o, answer) && Sound(w) && |w.handlers| == 1 && AwaitsPush(w, 0, y, o)
    requires w.store.heap[o] == w0.store.heap[o].(id := y)
    ensures Publishes(w, Polled(w, y, answer), answer) && !Calm(w, Detect(Polled(w, y, answer)))
  {
    assert HandlerOk(w.daemon, w.store.heap, w.handlers[0]);
    assert UnrecordedBy(w, 0, y);
    StillDirect(w0.store.heap[o], w.store.heap[o]);
  }

  /** The watcher handles both events of a recreation before the handler's re-keying. */
  function EventsFirst(h: nat, x: Id, y: Id, obj: Obj): seq<Action> {
    [Destroyed(x), Started(y, "", obj), Rekey(h), Push(h), Announce(h)]
  }

  lemma EventsFirstRuns(w: World, h: nat, x: Id, o: Obj, y: Id, obj: Obj, answer: string -> string)
    returns (v: World)
    requires h < |w.handlers| && w.handlers[h].phase.Recreating? && w.handlers[h].call.Succeeded()
    requires w.handlers[h].cause.ByUpdate? && w.handlers[h].cause.cs == o
    requires w.handlers[h].call.target == x && w.handlers[h].call.newId == y && x != y
    requires o in w.store.heap && obj !in w.store.heap && y in w.daemon.born && y !in w.store.index
    ensures v == Run(w, EventsFirst(h, x, y, obj))
    ensures AllowedRun(w, EventsFirst(h, x, y, obj), answer) && Pollless(EventsFirst(h, x, y, obj))
    ensures |v.handlers| == |w.handlers|
    ensures forall i | 0 <= i < |w.handlers| && i != h :: v.handlers[i] == w.handlers[i]
    ensures v.handlers[h] == w.handlers[h].(phase := Ended) && v.daemon == w.daemon
    ensures y in v.store.index && v.store.index[y] == obj && obj in v.store.heap && v.store.heap[obj].history == []
  {
    var w1 := Do(w, Destroyed(x));
    var w2 := Do(w1, Started(y, "", obj));
    var w3 := Do(w2, Rekey(h));
    var w4 := Do(w3, Push(h));
    v := Do(w4, Announce(h));
    assert Removal(w, h, x) && Recreation(w1, h, y);
    assert x !in w2.store.index && w2.store.index[y] == obj && w2.store.heap[obj].history == [];
    assert w3.handlers[h] == w.handlers[h].(phase := Pushing(o)) && w3.store == w2.store;
    assert w4.store == w2.store.Push(o, w.handlers[h].cause.Image(), w.handlers[h].cause.Digest());
    FiveSteps(w, Destroyed(x), Started(y, "", obj), Rekey(h), Push(h), Announce(h), answer);
  }

  lemma AllowedCons(w: World, a: Action, rest: seq<Action>, answer: string -> string)
    ensures AllowedRun(w, [a] + rest, answer) <==> Allowed(w, a, answer) && AllowedRun(Do(w, a), rest, answer)
    ensures Run(w, [a] + rest) == Run(Do(w, a), rest)
  {
    assert ([a] + rest)[1..] == rest;
  }

  lemma FiveSteps(w: World, a: Action, b: Action, c: Action, d: Action, e: Action, answer: string -> string)
    ensures Run(w, [a, b, c, d, e]) == Do(Do(Do(Do(Do(w, a), b), c), d), e)
    ensures AllowedRun(w, [a, b, c, d, e], answer) <==>
      && Allowed(w, a, answer) && Allowed(Do(w, a), b, answer) && Allowed(Do(Do(w, a), b), c, answer)
      && Allowed(Do(Do(Do(w, a), b), c), d, answer) && Allowed(Do(Do(Do(Do(w, a), b), c), d), e, answer)
  {
    var w1 := Do(w, a);
    var w2 := Do(w1, b);
    var w3 := Do(w2, c);
    var w4 := Do(w3, d);
    assert [a, b, c, d, e] == [a] + [b, c, d, e] && [b, c, d, e] == [b] + [c, d, e];
    assert [c, d, e] == [c] + [d, e] && [d, e] == [d] + [e] && [e] == [e] + [];
    AllowedCons(w, a, [b, c, d, e], answer);
    AllowedCons(w1, b, [c, d, e], answer);
    AllowedCons(w2, c, [d, e], answer);
    AllowedCons(w3, d, [e], answer);
    AllowedCons(w4, e, [], answer);
  }

  /**
   From every start where an update is due there is also a run with no poll during the update:
   the watcher handles destroy and start before the re-keying, every handler comes to its end,
   and the next poll publishes for the recreated container, which is then deployed again.
   */
  lemma LostRekeyRedeploys(w0: World, x: Id, o: Obj, answer: string -> string)
    returns (before: seq<Action>, e: Update, after: seq<Action>)
    requires Answers(answer) && Due(w0, x, o, answer)
    ensures AllowedRun(w0, before + ([Detect(e)] + after), answer)
    ensures var w := Run(w0, before);
      && |w.handlers| == 1 && w.handlers[0].phase.Ended? && w.handlers[0].call.Succeeded()
      && e.id == w.handlers[0].call.newId && Publishes(w, e, answer)
    ensures !Once(Run(w0, before + ([Detect(e)] + after)))
  {
    var y := UnusedId(w0.daemon.born.Keys);
    var obj := UnusedObj(w0.store.heap.Keys);
    var digest := answer(w0.store.heap[o].image);
    var steps, v := Recreates(w0, x, o, digest, y);
    var first, events := [Detect(Seen(w0, x, o, digest))] + steps, EventsFirst(0, x, y, obj);
    FirstUpdate(w0, x, o, answer, steps);
    var w := EventsFirstRuns(v, 0, x, o, y, obj, answer);
    before := first + events;
    RunConcat(w0, first, events);
    AllowedConcat(w0, first, events, answer);
    PolllessIsCalm(v, events);
    CalmConcat(w0, first, events);
    e := Polled(w, y, answer);
    UncalmAfter(w0, w, before, o, y, answer);
    after := PollRedeploys(w0, before, e, answer);
  }

  /** The blank state of the recreated container is as directly updatable as the old one was. */
  lemma DirectAfter(w0: World, w: World, before: seq<Action>, o: Obj, y: Id, answer: string -> string)
    requires Answers(answer) && Start(w0) && AllowedRun(w0, before, answer) && CalmRun(w0, before)
    requires w == Run(w0, before) && |w.handlers| == 1 && Recreation(w, 0, y)
    requires w.handlers[0].cause.ByUpdate? && w.handlers[0].cause.cs == o
    requires o in w0.store.heap && Direct(w0.store.heap[o]) && y in w.store.index
    ensures w.store.index[y] in w.store.heap && Direct(w.store.heap[w.store.index[y]])
  {
    LensDecides(answer);
    CalmInv(w0, before, answer);
    LensDirect(answer, w0.store.heap[o]);
    StillDirectAs(w0, w, o, y, LensOf(answer));
  }

  lemma UncalmAfter(w0: World, w: World, before: seq<Action>, o: Obj, y: Id, answer: string -> string)
    requires Answers(answer) && Start(w0) && AllowedRun(w0, before, answer) && CalmRun(w0, before)
    requires w == Run(w0, before) && |w.handlers| == 1 && Recreation(w, 0, y)
    requires w.handlers[0].cause.ByUpdate? && w.handlers[0].cause.cs == o
    requires o in w0.store.heap && Direct(w0.store.heap[o])
    requires y in w.store.index && w.store.index[y] != o && w.store.index[y] in w.store.heap
    ensures !Calm(w, Detect(Polled(w, y, answer)))
  {
    DirectAfter(w0, w, before, o, y, answer);
    assert UnrecordedBy(w, 0, y);
  }

  lemma LensDecides(answer: string -> string)
    requires Answers(answer)
    ensures DecidesByText(LensOf(answer))
  {
    LensIsClear(answer);
  }

  lemma LensDirect(answer: string -> string, s: S.State)
    ensures LensOf(answer).direct(s) <==> Direct(s)
  {
  }

  lemma StillDirectAs(w0: World, w: World, o: Obj, y: Id, l: Lens)
    requires DecidesByText(l) && Inv(w0, w, l) && |w.handlers| == 1 && Recreation(w, 0, y)
    requires w.handlers[0].cause.ByUpdate? && w.handlers[0].cause.cs == o && o in w0.store.heap && y in w.store.index
    requires l.direct(w0.store.heap[o])
    ensures w.store.index[y] in w.store.heap && Direct(w.store.heap[w.store.index[y]])
  {
    assert HandlerAt(w0, w, w.handlers[0], l) && IndexAt(w0, w, y, l);
    var h: nat :| TracksFor(w0, w, h, y, l);
    SameDirect(l, w.store.heap[w.store.index[y]], w0.store.heap[o]);
  }

  const NEWER: string -> string := image => "B"

  lemma RedeployBoth(w0: World, x: Id, o: Obj, answer: string -> string) returns (early: seq<Action>, late: seq<Action>)
    requires Answers(answer) && Due(w0, x, o, answer)
    ensures AllowedRun(w0, early, answer) && !Once(Run(w0, early))
    ensures AllowedRun(w0, late, answer) && !Once(Run(w0, late))
  {
    early := EarlyPollRedeploys(w0, x, o, answer);
    var before, e, after := LostRekeyRedeploys(w0, x, o, answer);
    late := before + ([Detect(e)] + after);
  }

  lemma OneDue()
    ensures Due(OneContainer(), "c", 0, NEWER) && Answers(NEWER)
  {
    OneContainerReady();
    var w := OneContainer();
    assert w.store.index.Keys == {"c"} && AsDescribed(w, "c");
  }

  /** So there are such runs: the unconditional claim is false of the program, on either schedule. */
  lemma ConvergenceFails() returns (w0: World, early: seq<Action>, late: seq<Action>)
    ensures w0 == OneContainer() && Start(w0) && Answers(NEWER)
    ensures AllowedRun(w0, early, NEWER) && !Once(Run(w0, early))
    ensures AllowedRun(w0, late, NEWER) && !Once(Run(w0, late))
  {
    OneDue();
    w0 := OneContainer();
    early, late := RedeployBoth(w0, "c", 0, NEWER);
  }
}
