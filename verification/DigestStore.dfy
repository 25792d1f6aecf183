/**
 store.go: the in-memory table of container states. A state is a mutable object; the
 table maps container ids to such objects. `StoreView` is the value of a whole store,
 generic in how objects are named: the class below names them by reference, the
 interleaved control loop by number.
 */
module DigestStore {

  const DIGEST_HISTORY_SIZE := 5

  type Labels = map<string, string>

  datatype DigestEntry = DigestEntry(digest: string, image: string)

  /** Most recent first, oldest entries dropped beyond the limit. */
  function Pushed(history: seq<DigestEntry>, e: DigestEntry): seq<DigestEntry> {
    var longer := [e] + history;
    if |longer| > DIGEST_HISTORY_SIZE then longer[..DIGEST_HISTORY_SIZE] else longer
  }

  datatype State = State(id: string, name: string, image: string, labels: Labels, history: seq<DigestEntry>) {
    function CurrentDigest(): string {
      if |history| == 0 then "" else history[0].digest
    }

    function PreviousDigest(): string {
      if |history| < 2 then "" else history[1].digest
    }

    function Push(image: string, digest: string): State {
      this.(history := Pushed(history, DigestEntry(digest, image)))
    }
  }

  datatype StoreView<R(==)> = StoreView(index: map<string, R>, heap: map<R, State>) {

    /** Every key is its state's own id. In particular no two keys share an object. */
    ghost predicate WellKeyed() {
      forall id | id in index :: index[id] in heap && heap[index[id]].id == id
    }

    /** An object that no key leads to: its owner may still write it, no reader finds it. */
    ghost predicate Orphan(r: R) {
      forall id | id in index :: index[id] != r
    }

    function Upsert(id: string, name: string, image: string, labels: Labels, obj: R): StoreView<R> {
      if id in index then
        if index[id] in heap
        then this.(heap := heap[index[id] := heap[index[id]].(name := name, image := image, labels := labels)])
        else this
      else
        StoreView(index[id := obj], heap[obj := State(id, name, image, labels, [])])
    }

    function Rekey(oldId: string, newId: string): StoreView<R> {
      if oldId in index && index[oldId] in heap then
        var r := index[oldId];
        StoreView((index - {oldId})[newId := r], heap[r := heap[r].(id := newId)])
      else this
    }

    function Remove(id: string): StoreView<R> {
      this.(index := index - {id})
    }

    function Push(r: R, image: string, digest: string): StoreView<R> {
      if r in heap then this.(heap := heap[r := heap[r].Push(image, digest)]) else this
    }
  }

  // ---- Runs of store operations ---------------------------------------------

  datatype Op<R> =
    | Upsert(id: string, name: string, image: string, labels: Labels, obj: R)
    | Rekey(oldId: string, newId: string)
    | Remove(id: string)
    | Push(r: R, image: string, digest: string)

  /** A new state is a new object, and only existing objects are written. */
  ghost predicate Possible<R>(v: StoreView<R>, op: Op<R>) {
    match op
    case Upsert(id, _, _, _, obj) => id !in v.index ==> obj !in v.heap
    case Push(r, _, _) => r in v.heap
    case _ => true
  }

  function Apply<R(==)>(v: StoreView<R>, op: Op<R>): StoreView<R> {
    match op
    case Upsert(id, name, image, labels, obj) => v.Upsert(id, name, image, labels, obj)
    case Rekey(o, n) => v.Rekey(o, n)
    case Remove(id) => v.Remove(id)
    case Push(r, image, digest) => v.Push(r, image, digest)
  }

  ghost predicate PossibleRun<R>(v: StoreView<R>, ops: seq<Op<R>>)
    decreases |ops|
  {
    ops != [] ==> Possible(v, ops[0]) && PossibleRun(Apply(v, ops[0]), ops[1..])
  }

  function Run<R(==)>(v: StoreView<R>, ops: seq<Op<R>>): StoreView<R>
    decreases |ops|
  {
    if ops == [] then v else Run(Apply(v, ops[0]), ops[1..])
  }

  lemma StepKeepsWellKeyed<R>(v: StoreView<R>, op: Op<R>)
    requires v.WellKeyed() && Possible(v, op)
    ensures Apply(v, op).WellKeyed()
  {
  }

  /** Over every run each key stays its state's id, so no two keys ever share a state. */
  lemma {:induction false} RunKeepsWellKeyed<R>(v: StoreView<R>, ops: seq<Op<R>>)
    requires v.WellKeyed() && PossibleRun(v, ops)
    ensures Run(v, ops).WellKeyed()
    ensures forall a, b | a in Run(v, ops).index && b in Run(v, ops).index ::
      Run(v, ops).index[a] == Run(v, ops).index[b] ==> a == b
    decreases |ops|
  {
    if ops != [] {
      StepKeepsWellKeyed(v, ops[0]);
      RunKeepsWellKeyed(Apply(v, ops[0]), ops[1..]);
    }
  }

  /** What one operation adds to the log of an object. */
  function Logged<R(==)>(op: Op<R>, r: R): seq<DigestEntry> {
    if op.Push? && op.r == r then [DigestEntry(op.digest, op.image)] else []
  }

  /** Everything ever pushed onto an object, oldest first, whatever keys it had meanwhile. */
  function PushLog<R(==)>(ops: seq<Op<R>>, r: R): seq<DigestEntry> {
    if ops == [] then [] else Logged(ops[0], r) + PushLog(ops[1..], r)
  }

  /** `h` lists the newest entries of `log`, newest first, as many as the limit allows. */
  predicate Newest(h: seq<DigestEntry>, log: seq<DigestEntry>) {
    |h| == (if |log| < DIGEST_HISTORY_SIZE then |log| else DIGEST_HISTORY_SIZE)
    && forall i | 0 <= i < |h| :: h[i] == log[|log| - 1 - i]
  }

  lemma PushedIsNewest(h: seq<DigestEntry>, log: seq<DigestEntry>, e: DigestEntry)
    requires Newest(h, log)
    ensures Newest(Pushed(h, e), log + [e])
  {
  }

  lemma StepFollowsLog<R>(v: StoreView<R>, op: Op<R>, r: R, log: seq<DigestEntry>)
    requires Possible(v, op) && r in v.heap && Newest(v.heap[r].history, log)
    requires op.Upsert? && op.id !in v.index ==> op.obj != r
    ensures r in Apply(v, op).heap && Newest(Apply(v, op).heap[r].history, log + Logged(op, r))
  {
    if op.Push? && op.r == r {
      PushedIsNewest(v.heap[r].history, log, DigestEntry(op.digest, op.image));
    } else {
      assert log + Logged(op, r) == log;
      assert Apply(v, op).heap[r].history == v.heap[r].history;
    }
  }

  lemma LogUnfolds<R>(ops: seq<Op<R>>, r: R, log: seq<DigestEntry>)
    ensures log + PushLog(ops, r) ==
      if ops == [] then log else (log + Logged(ops[0], r)) + PushLog(ops[1..], r)
  {
  }

  lemma {:induction false} HistoryFollowsLog<R>(v: StoreView<R>, ops: seq<Op<R>>, r: R, log: seq<DigestEntry>)
    requires v.WellKeyed() && PossibleRun(v, ops)
    requires r in v.heap && Newest(v.heap[r].history, log)
    ensures r in Run(v, ops).heap && Newest(Run(v, ops).heap[r].history, log + PushLog(ops, r))
    decreases |ops|
  {
    LogUnfolds(ops, r, log);
    if ops != [] {
      StepKeepsWellKeyed(v, ops[0]);
      StepFollowsLog(v, ops[0], r, log);
      HistoryFollowsLog(Apply(v, ops[0]), ops[1..], r, log + Logged(ops[0], r));
    }
  }

  /** What a state that follows a log answers. */
  lemma NewestReads(s: State, log: seq<DigestEntry>)
    requires Newest(s.history, log)
    ensures |s.history| == (if |log| < 5 then |log| else 5)
    ensures s.CurrentDigest() == (if |log| == 0 then "" else log[|log| - 1].digest)
    ensures s.PreviousDigest() == (if |log| < 2 then "" else log[|log| - 2].digest)
  {
  }

  /**
   A container first tracked at the start of a run, re-keyed any number of times: its
   history is the newest five entries of everything pushed onto it since, its current digest
   the last one pushed and its previous digest the one pushed before that.
   */
  lemma HistoryIsBoundedLog<R>(v: StoreView<R>, id: string, name: string, image: string, labels: Labels,
                               obj: R, ops: seq<Op<R>>)
    requires v.WellKeyed() && id !in v.index && obj !in v.heap
    requires PossibleRun(v.Upsert(id, name, image, labels, obj), ops)
    ensures var end := Run(v.Upsert(id, name, image, labels, obj), ops);
      var log := PushLog(ops, obj);
      && obj in end.heap && Newest(end.heap[obj].history, log)
      && |end.heap[obj].history| == (if |log| < 5 then |log| else 5)
      && end.heap[obj].CurrentDigest() == (if |log| == 0 then "" else log[|log| - 1].digest)
      && end.heap[obj].PreviousDigest() == (if |log| < 2 then "" else log[|log| - 2].digest)
  {
    var v1 := v.Upsert(id, name, image, labels, obj);
    assert Newest(v1.heap[obj].history, []);
    HistoryFollowsLog(v1, ops, obj, []);
    assert [] + PushLog(ops, obj) == PushLog(ops, obj);
    NewestReads(Run(v1, ops).heap[obj], PushLog(ops, obj));
  }

  /**
   A rollback pushes the current previous digest: the two newest digests swap. Two
   rollbacks in a row put both back.
   */
  lemma RollbackSwaps(s: State, image: string, image2: string)
    requires |s.history| >= 2
    ensures var once := s.Push(image, s.PreviousDigest());
      var twice := once.Push(image2, once.PreviousDigest());
      && once.CurrentDigest() == s.PreviousDigest() && once.PreviousDigest() == s.CurrentDigest()
      && twice.CurrentDigest() == s.CurrentDigest() && twice.PreviousDigest() == s.PreviousDigest()
  {
  }

  // ---- The mutable store ----------------------------------------------------

  class ContainerState {
    var id: string
    var name: string
    var image: string
    var labels: Labels
    var digestHistory: seq<DigestEntry>

    constructor (id: string, name: string, image: string, labels: Labels)
      ensures Snapshot() == State(id, name, image, labels, [])
      ensures this.id == id && this.name == name && this.image == image && this.labels == labels
      ensures digestHistory == []
    {
      this.id, this.name, this.image, this.labels, digestHistory := id, name, image, labels, [];
    }

    function Snapshot(): State
      reads this
    {
      State(id, name, image, labels, digestHistory)
    }

    function CurrentDigest(): (d: string)
      reads this
      ensures d == Snapshot().CurrentDigest()
    {
      if |digestHistory| == 0 then "" else digestHistory[0].digest
    }

    function PreviousDigest(): (d: string)
      reads this
      ensures d == Snapshot().PreviousDigest()
    {
      if |digestHistory| < 2 then "" else digestHistory[1].digest
    }

    method PushDigest(image: string, digest: string)
      modifies this`digestHistory
      ensures Snapshot() == old(Snapshot()).Push(image, digest)
      ensures CurrentDigest() == digest && PreviousDigest() == old(CurrentDigest())
      ensures |digestHistory| == (if |old(digestHistory)| < 5 then |old(digestHistory)| + 1 else 5)
      ensures digestHistory[0] == DigestEntry(digest, image)
      ensures forall k | 1 <= k < |digestHistory| :: digestHistory[k] == old(digestHistory)[k - 1]
    {
      digestHistory := [DigestEntry(digest, image)] + digestHistory;
      if |digestHistory| > DIGEST_HISTORY_SIZE {
        digestHistory := digestHistory[..DIGEST_HISTORY_SIZE];
      }
    }
  }

  class Store {
    var containers: map<string, ContainerState>
    ghost var objects: set<ContainerState>  // every state object this store ever made

    ghost predicate Valid()
      reads this, objects
    {
      containers.Values <= objects && View().WellKeyed()
    }

    ghost function View(): StoreView<ContainerState>
      reads this, objects
    {
      StoreView(containers, map o | o in objects :: o.Snapshot())
    }

    constructor ()
      ensures Valid() && containers == map[] && objects == {}
    {
      containers, objects := map[], {};
    }

    method Upsert(id: string, name: string, image: string, labels: Labels) returns (cs: ContainerState)
      requires Valid()
      modifies this, objects
      ensures Valid() && id in containers && containers[id] == cs
      ensures id in old(containers) ==> cs == old(containers[id]) && objects == old(objects)
      ensures id !in old(containers) ==> fresh(cs) && objects == old(objects) + {cs}
      ensures View() == old(View()).Upsert(id, name, image, labels, cs)
      ensures cs.id == id && cs.name == name && cs.image == image && cs.labels == labels
      ensures cs.digestHistory == if id in old(containers) then old(containers[id].digestHistory) else []
      ensures containers == old(containers)[id := cs]
      ensures forall o | o in old(objects) && o != cs :: unchanged(o)
    {
      if id !in containers {
        cs := new ContainerState(id, name, image, labels);
        containers := containers[id := cs];
        objects := objects + {cs};
      } else {
        cs := containers[id];
        assert cs in containers.Values && View().heap[cs].id == id;
        cs.name, cs.image, cs.labels := name, image, labels;
      }
      assert View().heap == old(View()).Upsert(id, name, image, labels, cs).heap;
    }

    method Get(id: string) returns (cs: ContainerState?)
      requires Valid()
      ensures (cs == null) == (id !in containers)
      ensures cs != null ==> cs == containers[id] && cs in objects && cs.id == id
    {
      if id in containers {
        cs := containers[id];
        assert cs in containers.Values;
        assert View().heap[cs].id == id;
      } else {
        cs := null;
      }
    }

    method Rekey(oldId: string, newId: string) returns (cs: ContainerState?)
      requires Valid()
      modifies this`containers, objects
      ensures Valid() && (cs == null) == (oldId !in old(containers))
      ensures cs != null ==> cs == old(containers[oldId]) && cs in objects
      ensures cs != null ==> newId in containers && containers[newId] == cs
      ensures View() == old(View()).Rekey(oldId, newId)
      ensures cs == null ==> containers == old(containers) && objects == old(objects)
      ensures cs != null ==>
        && containers == (old(containers) - {oldId})[newId := cs] && cs.id == newId
        && cs.name == old(containers[oldId].name) && cs.image == old(containers[oldId].image)
        && cs.labels == old(containers[oldId].labels)
        && cs.digestHistory == old(containers[oldId].digestHistory)
      ensures forall o | o in objects && o != cs :: unchanged(o)
    {
      if oldId !in containers {
        return null;
      }
      cs := containers[oldId];
      assert cs in containers.Values;
      ghost var was := View();
      containers := containers - {oldId};
      cs.id := newId;
      containers := containers[newId := cs];
      assert View().heap == was.Rekey(oldId, newId).heap;
      StepKeepsWellKeyed(was, Op.Rekey(oldId, newId));
    }

    method Remove(id: string)
      requires Valid()
      modifies this`containers
      ensures Valid() && View() == old(View()).Remove(id)
      ensures containers == old(containers) - {id}
    {
      containers := containers - {id};
    }

    /** Some tracked container of that name; which one, if several share it, is left open. */
    method GetByName(name: string) returns (cs: ContainerState?)
      requires Valid()
      ensures cs == null ==> forall o | o in containers.Values :: o.name != name
      ensures cs != null ==> cs in containers.Values && cs in objects && cs.name == name
    {
      var all := All();
      for i := 0 to |all|
        invariant forall k | 0 <= k < i :: all[k].name != name
      {
        if all[i].name == name {
          assert all[i] in all;
          return all[i];
        }
      }
      cs := null;
    }

    /** A snapshot of the tracked states, in an order the runtime is free to choose. */
    method All() returns (out: seq<ContainerState>)
      requires Valid()
      ensures forall o :: o in out <==> o in containers.Values
      ensures forall i, j | 0 <= i < j < |out| :: out[i] != out[j]
    {
      out := [];
      var left := containers.Keys;
      while left != {}
        invariant left <= containers.Keys
        invariant forall o :: o in out <==> o in containers.Values && o.id !in left
        invariant forall i, j | 0 <= i < j < |out| :: out[i] != out[j]
        decreases |left|
      {
        var k :| k in left;
        assert View().heap[containers[k]].id == k;
        out := out + [containers[k]];
        left := left - {k};
      }
    }
  }

  /** A tracked object is the one found under its own id. */
  lemma Tracked(store: Store, o: ContainerState)
    requires store.Valid() && o in store.containers.Values
    ensures o.id in store.containers && store.containers[o.id] == o
    ensures o in store.View().heap && store.View().heap[o] == o.Snapshot()
  {
    var id :| id in store.containers && store.containers[id] == o;
    assert store.View().heap[store.View().index[id]].id == id;
  }
}
