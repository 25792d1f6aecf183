/**
 Any number of Recreate calls, the executor's and the rollback engine's together, with
 their daemon operations interleaved in any order and refused at any point.
 */
module RecreatePool {
  import opened Docker

  datatype Pool = Pool(d: Daemon, calls: seq<Call>)

  datatype Action = Begin(target: Id, ref: string) | Step(i: nat, ok: bool, id: Id)

  function Next(p: Pool, a: Action): Pool {
    match a
    case Begin(target, ref) => p.(calls := p.calls + [NewCall(target, ref)])
    case Step(i, ok, id) =>
      if i < |p.calls| then
        var (d, c) := Advance(p.d, p.calls[i], ok, id);
        Pool(d, p.calls[i := c])
      else p
  }

  function Run(p: Pool, actions: seq<Action>): Pool
    decreases |actions|
  {
    if actions == [] then p else Run(Next(p, actions[0]), actions[1..])
  }

  // ---- The invariant --------------------------------------------------------

  /** What an id created before or during the run can still be. */
  ghost predicate Active(d0: Daemon, id: Id) {
    id in d0.live || id !in d0.born
  }

  /** Daemon side: descriptions are never rewritten and dead containers stay dead. */
  ghost predicate DaemonOk(d0: Daemon, d: Daemon) {
    && d.Consistent() && d0.live.Keys <= d0.born.Keys
    && (forall i | i in d0.born :: i in d.born && d.born[i] == d0.born[i])
    && (forall i | i in d.live :: Active(d0, i))
  }

  /** What one call has done so far. */
  ghost predicate CallOk(d0: Daemon, d: Daemon, c: Call) {
    && CallSound(d, c)
    && (c.PastInspect() ==> Active(d0, c.target))
    && (c.PastCreate() ==> c.newId !in d0.born && c.newId != "")
    && (!c.PastCreate() ==> c.newId == "")
    && (c.stage == Create ==> d.NameFree(c.spec.name))
    && (c.failed ==> c.stage != Done)
  }

  /** Two calls never both removed the same container, issued the same id or hold the same name. */
  ghost predicate Apart(a: Call, b: Call) {
    && NoRivals(a, b)
    && !(a.stage == Create && b.stage == Create && a.spec.name == b.spec.name)
  }

  ghost predicate RemovedBy(calls: seq<Call>, id: Id) {
    exists k :: 0 <= k < |calls| && calls[k].target == id && calls[k].PastRemove()
  }

  ghost predicate StoppedBy(calls: seq<Call>, id: Id) {
    exists k :: 0 <= k < |calls| && calls[k].target == id && calls[k].PastStop()
  }

  ghost predicate InFlight(calls: seq<Call>, name: string) {
    exists k :: 0 <= k < |calls| && calls[k].stage == Create && calls[k].spec.name == name
  }

  /** Containers vanish only through a call's Remove, and stop or start only through calls. */
  ghost predicate OriginalOk(d0: Daemon, p: Pool, i: Id) {
    if i in p.d.live then (i in d0.live && p.d.live[i] == d0.live[i]) || StoppedBy(p.calls, i)
    else RemovedBy(p.calls, i)
  }

  ghost predicate CreatedOk(p: Pool, c: Call) {
    if c.newId in p.d.live then p.d.live[c.newId] == (c.stage == Done) || StoppedBy(p.calls, c.newId)
    else RemovedBy(p.calls, c.newId)
  }

  ghost predicate Accounted(d0: Daemon, p: Pool) {
    && (forall i | i in d0.live :: OriginalOk(d0, p, i))
    && (forall k | 0 <= k < |p.calls| && p.calls[k].PastCreate() :: CreatedOk(p, p.calls[k]))
  }

  /** A name held at the start is held by one container, or by one call between Remove and Create. */
  ghost predicate NamesKept(d0: Daemon, p: Pool) {
    forall n :: d0.Holds(n) <==> p.d.Holds(n) || InFlight(p.calls, n)
  }

  /** The two descriptions agree on everything a recreation must carry over; only the image may differ. */
  ghost predicate SameButImage(a: Container, b: Container) {
    && a.name == b.name && a.host == b.host && a.networks == b.networks
    && (a.config.Some? <==> b.config.Some?)
    && (a.config.Some? && b.config.Some? ==>
          a.config.value.labels == b.config.value.labels && a.config.value.rest == b.config.value.rest)
  }

  /** Every container is one of the original ones up to its image. */
  ghost predicate BasesKept(d0: Daemon, d: Daemon) {
    forall i {:trigger BasedOn(d0, d.born[i])} | i in d.born && Active(d0, i) :: BasedOn(d0, d.born[i])
  }

  ghost predicate BasedOn(d0: Daemon, c: Container) {
    exists o :: o in d0.live && o in d0.born && SameButImage(d0.born[o], c)
  }

  ghost predicate Inv(d0: Daemon, p: Pool) {
    && DaemonOk(d0, p.d)
    && (forall k | 0 <= k < |p.calls| :: CallOk(d0, p.d, p.calls[k]))
    && (forall j, k | 0 <= j < k < |p.calls| :: Apart(p.calls[j], p.calls[k]))
    && Accounted(d0, p)
    && NamesKept(d0, p)
    && BasesKept(d0, p.d)
  }

  // ---- Each step keeps it ---------------------------------------------------

  lemma StepDaemon(d0: Daemon, d: Daemon, c: Call, ok: bool, id: Id)
    requires DaemonOk(d0, d) && CallOk(d0, d, c)
    ensures DaemonOk(d0, Advance(d, c, ok, id).0)
  {
  }

  lemma StepCall(d0: Daemon, d: Daemon, c: Call, ok: bool, id: Id)
    requires DaemonOk(d0, d) && CallOk(d0, d, c)
    ensures CallOk(d0, Advance(d, c, ok, id).0, Advance(d, c, ok, id).1)
  {
  }

  /** A call not taking the step is still right about the daemon afterwards. */
  lemma StepOther(d0: Daemon, d: Daemon, c: Call, ok: bool, id: Id, other: Call)
    requires DaemonOk(d0, d) && CallOk(d0, d, c) && CallOk(d0, d, other) && Apart(c, other) && Apart(other, c)
    ensures CallOk(d0, Advance(d, c, ok, id).0, other)
    ensures Apart(Advance(d, c, ok, id).1, other) && Apart(other, Advance(d, c, ok, id).1)
  {
  }

  /** What a witness call had passed it still has after any step. */
  lemma WitnessesStay(calls: seq<Call>, i: nat, d: Daemon, ok: bool, id: Id, x: Id)
    requires i < |calls|
    ensures var after := calls[i := Advance(d, calls[i], ok, id).1];
      && (RemovedBy(calls, x) ==> RemovedBy(after, x))
      && (StoppedBy(calls, x) ==> StoppedBy(after, x))
  {
    var after := calls[i := Advance(d, calls[i], ok, id).1];
    if RemovedBy(calls, x) {
      var k :| 0 <= k < |calls| && calls[k].target == x && calls[k].PastRemove();
      assert after[k].target == x && after[k].PastRemove();
    }
    if StoppedBy(calls, x) {
      var k :| 0 <= k < |calls| && calls[k].target == x && calls[k].PastStop();
      assert after[k].target == x && after[k].PastStop();
    }
  }

  /** How one operation changes the daemon, seen from one container. */
  lemma AdvanceSeen(d: Daemon, c: Call, ok: bool, id: Id, x: Id)
    requires x in d.born
    ensures var (d', c') := Advance(d, c, ok, id);
      && c'.target == c.target
      && (x !in d.live ==> x !in d'.live)
      && (x in d.live && x !in d'.live ==> x == c.target && c'.PastRemove())
      && (x in d.live && x in d'.live && d.live[x] != d'.live[x] ==>
            (x == c.target && c'.PastStop()) || (x == c.newId && c.stage == Start && c'.stage == Done && d'.live[x]))
  {
  }

  lemma MoverIsWitness(p: Pool, i: nat, ok: bool, id: Id)
    requires i < |p.calls|
    ensures var q := Next(p, Step(i, ok, id));
      && (q.calls[i].PastStop() ==> StoppedBy(q.calls, q.calls[i].target))
      && (q.calls[i].PastRemove() ==> RemovedBy(q.calls, q.calls[i].target))
  {
    var q := Next(p, Step(i, ok, id));
    assert q.calls[i].target == q.calls[i].target;
  }

  lemma StepOriginal(d0: Daemon, p: Pool, i: nat, ok: bool, id: Id, x: Id)
    requires i < |p.calls| && x in p.d.born && OriginalOk(d0, p, x)
    requires p.calls[i].stage == Start ==> p.calls[i].newId != x
    ensures OriginalOk(d0, Next(p, Step(i, ok, id)), x)
  {
    AdvanceSeen(p.d, p.calls[i], ok, id, x);
    MoverIsWitness(p, i, ok, id);
    WitnessesStay(p.calls, i, p.d, ok, id, x);
  }

  lemma StepCreated(p: Pool, i: nat, ok: bool, id: Id, k: nat)
    requires i < |p.calls| && k < |p.calls|
    requires p.calls[k].PastCreate() ==> CreatedOk(p, p.calls[k]) && p.calls[k].newId in p.d.born
    requires k != i && p.calls[k].PastCreate() && p.calls[i].PastCreate() ==> p.calls[k].newId != p.calls[i].newId
    requires Next(p, Step(i, ok, id)).calls[k].PastCreate()
    ensures CreatedOk(Next(p, Step(i, ok, id)), Next(p, Step(i, ok, id)).calls[k])
  {
    if p.calls[k].PastCreate() {
      var x := p.calls[k].newId;
      AdvanceSeen(p.d, p.calls[i], ok, id, x);
      MoverIsWitness(p, i, ok, id);
      WitnessesStay(p.calls, i, p.d, ok, id, x);
    }
  }

  lemma StepAccounted(d0: Daemon, p: Pool, i: nat, ok: bool, id: Id)
    requires Inv(d0, p) && i < |p.calls|
    ensures Accounted(d0, Next(p, Step(i, ok, id)))
  {
    var q := Next(p, Step(i, ok, id));
    assert CallOk(d0, p.d, p.calls[i]);
    forall x | x in d0.live ensures OriginalOk(d0, q, x) {
      StepOriginal(d0, p, i, ok, id, x);
    }
    forall k | 0 <= k < |q.calls| && q.calls[k].PastCreate() ensures CreatedOk(q, q.calls[k]) {
      assert CallOk(d0, p.d, p.calls[k]);
      assert k != i ==> Apart(p.calls[if k < i then k else i], p.calls[if k < i then i else k]);
      StepCreated(p, i, ok, id, k);
    }
  }

  lemma StepNames(d0: Daemon, p: Pool, i: nat, ok: bool, id: Id)
    requires Inv(d0, p) && i < |p.calls|
    ensures NamesKept(d0, Next(p, Step(i, ok, id)))
  {
    var q := Next(p, Step(i, ok, id));
    assert CallOk(d0, p.d, p.calls[i]);
    forall n ensures d0.Holds(n) <==> q.d.Holds(n) || InFlight(q.calls, n) {
      NameForth(p, i, ok, id, n);
      NameBack(p, i, ok, id, n);
    }
  }

  /** A call about to remove knows the name it will hold. */
  predicate KnowsName(d: Daemon, c: Call) {
    c.stage == Remove ==> c.target in d.born && c.spec.name == d.born[c.target].name
  }

  lemma NameForth(p: Pool, i: nat, ok: bool, id: Id, n: string)
    requires i < |p.calls| && p.d.Consistent() && KnowsName(p.d, p.calls[i])
    ensures var q := Next(p, Step(i, ok, id));
      p.d.Holds(n) || InFlight(p.calls, n) ==> q.d.Holds(n) || InFlight(q.calls, n)
  {
    var q := Next(p, Step(i, ok, id));
    if p.d.Holds(n) {
      var x :| x in p.d.live && x in p.d.born && p.d.born[x].name == n;
      if x in q.d.live {
        assert q.d.born[x].name == n;
      } else {
        assert q.calls[i].stage == Create && q.calls[i].spec.name == n;
      }
    } else if InFlight(p.calls, n) {
      var k :| 0 <= k < |p.calls| && p.calls[k].stage == Create && p.calls[k].spec.name == n;
      if q.calls[k].stage == Create {
        assert q.calls[k].spec.name == n;
      } else {
        assert id in q.d.live && q.d.born[id].name == n;
      }
    }
  }

  lemma NameBack(p: Pool, i: nat, ok: bool, id: Id, n: string)
    requires i < |p.calls| && p.d.Consistent() && KnowsName(p.d, p.calls[i])
    ensures var q := Next(p, Step(i, ok, id));
      q.d.Holds(n) || InFlight(q.calls, n) ==> p.d.Holds(n) || InFlight(p.calls, n)
  {
    var q := Next(p, Step(i, ok, id));
    if q.d.Holds(n) {
      var x :| x in q.d.live && x in q.d.born && q.d.born[x].name == n;
      if x in p.d.live {
        assert p.d.born[x].name == n;
      } else {
        assert p.calls[i].stage == Create && p.calls[i].spec.name == n;
      }
    } else if InFlight(q.calls, n) {
      var k :| 0 <= k < |q.calls| && q.calls[k].stage == Create && q.calls[k].spec.name == n;
      if p.calls[k].stage == Create {
        assert p.calls[k].spec.name == n;
      } else {
        assert p.calls[i].target in p.d.live && p.d.born[p.calls[i].target].name == n;
      }
    }
  }

  lemma BasedSame(d0: Daemon, a: Container, b: Container)
    requires BasedOn(d0, a) && SameButImage(a, b)
    ensures BasedOn(d0, b)
  {
    var o :| o in d0.live && o in d0.born && SameButImage(d0.born[o], a);
    assert SameButImage(d0.born[o], b);
  }

  lemma StepBases(d0: Daemon, d: Daemon, c: Call, ok: bool, id: Id)
    requires CallOk(d0, d, c) && BasesKept(d0, d)
    ensures BasesKept(d0, Advance(d, c, ok, id).0)
  {
    var d' := Advance(d, c, ok, id).0;
    if d'.born != d.born {
      assert d'.born == d.born[id := c.spec];
      BasedSame(d0, d.born[c.target], c.spec);
    }
  }

  lemma BeginWitnesses(calls: seq<Call>, c: Call, x: string)
    requires c.stage == Inspect
    ensures (RemovedBy(calls, x) ==> RemovedBy(calls + [c], x)) && (StoppedBy(calls, x) ==> StoppedBy(calls + [c], x))
    ensures InFlight(calls, x) <==> InFlight(calls + [c], x)
  {
    var after := calls + [c];
    if RemovedBy(calls, x) {
      var k :| 0 <= k < |calls| && calls[k].target == x && calls[k].PastRemove();
      assert after[k].target == x;
    }
    if StoppedBy(calls, x) {
      var k :| 0 <= k < |calls| && calls[k].target == x && calls[k].PastStop();
      assert after[k].target == x;
    }
    if InFlight(calls, x) {
      var k :| 0 <= k < |calls| && calls[k].stage == Create && calls[k].spec.name == x;
      assert after[k].stage == Create;
    }
  }

  lemma BeginKeeps(d0: Daemon, p: Pool, target: Id, ref: string)
    requires Inv(d0, p)
    ensures Inv(d0, Next(p, Begin(target, ref)))
  {
    var c := NewCall(target, ref);
    var q := Next(p, Begin(target, ref));
    assert q == Pool(p.d, p.calls + [c]);
    forall x
      ensures (RemovedBy(p.calls, x) ==> RemovedBy(q.calls, x)) && (StoppedBy(p.calls, x) ==> StoppedBy(q.calls, x))
                  && (InFlight(p.calls, x) <==> InFlight(q.calls, x)) {
      BeginWitnesses(p.calls, c, x);
    }
    assert Accounted(d0, q) by {
      forall x | x in d0.live ensures OriginalOk(d0, q, x) {
        assert OriginalOk(d0, p, x);
      }
      forall k | 0 <= k < |q.calls| && q.calls[k].PastCreate() ensures CreatedOk(q, q.calls[k]) {
        assert CreatedOk(p, p.calls[k]);
      }
    }
  }

  lemma StepKeeps(d0: Daemon, p: Pool, i: nat, ok: bool, id: Id)
    requires Inv(d0, p) && i < |p.calls|
    ensures Inv(d0, Next(p, Step(i, ok, id)))
  {
    var q := Next(p, Step(i, ok, id));
    StepDaemon(d0, p.d, p.calls[i], ok, id);
    StepCall(d0, p.d, p.calls[i], ok, id);
    forall k | 0 <= k < |q.calls| && k != i
      ensures CallOk(d0, q.d, q.calls[k]) && Apart(q.calls[k], q.calls[i]) && Apart(q.calls[i], q.calls[k])
    {
      assert Apart(p.calls[if k < i then k else i], p.calls[if k < i then i else k]);
      StepOther(d0, p.d, p.calls[i], ok, id, p.calls[k]);
    }
    StepAccounted(d0, p, i, ok, id);
    StepNames(d0, p, i, ok, id);
    StepBases(d0, p.d, p.calls[i], ok, id);
  }

  lemma {:induction false} RunKeeps(d0: Daemon, p: Pool, actions: seq<Action>)
    requires Inv(d0, p)
    ensures Inv(d0, Run(p, actions))
    decreases |actions|
  {
    if actions != [] {
      match actions[0] {
        case Begin(target, ref) => BeginKeeps(d0, p, target, ref);
        case Step(i, ok, id) => if i < |p.calls| { StepKeeps(d0, p, i, ok, id); }
      }
      RunKeeps(d0, Next(p, actions[0]), actions[1..]);
    }
  }

  ghost predicate Reachable(d0: Daemon, p: Pool) {
    d0.Consistent() && exists actions :: p == Run(Pool(d0, []), actions)
  }

  lemma InitInv(d0: Daemon)
    requires d0.Consistent()
    ensures Inv(d0, Pool(d0, [])) && CreatedOnly(d0, Pool(d0, []))
  {
    assert DaemonOk(d0, d0);
    assert Accounted(d0, Pool(d0, []));
    InitNames(d0);
    InitBases(d0);
  }

  lemma InitNames(d0: Daemon)
    ensures NamesKept(d0, Pool(d0, []))
  {
    assert forall n :: !InFlight([], n);
  }

  lemma InitBases(d0: Daemon)
    requires d0.live.Keys <= d0.born.Keys
    ensures BasesKept(d0, d0)
  {
    forall i | i in d0.born && Active(d0, i) ensures BasedOn(d0, d0.born[i]) {
      assert i in d0.live && SameButImage(d0.born[i], d0.born[i]);
    }
  }

  lemma ReachableInv(d0: Daemon, p: Pool)
    requires Reachable(d0, p)
    ensures Inv(d0, p) && CreatedOnly(d0, p)
  {
    var actions :| p == Run(Pool(d0, []), actions);
    InitInv(d0);
    RunKeeps(d0, Pool(d0, []), actions);
    OnlyCreated(d0, Pool(d0, []), actions);
  }

  // ---- What it gives --------------------------------------------------------

  /**
   Whatever the interleaving and whatever fails: of the calls on one container at most one
   gets past Remove, so at most one succeeds; no two containers ever share a name; and a
   container no call was made on is exactly as it was.
   */
  lemma AtMostOneRemoves(d0: Daemon, p: Pool)
    requires Reachable(d0, p)
    ensures p.d.Consistent()
    ensures forall j, k | 0 <= j < k < |p.calls| && p.calls[j].target == p.calls[k].target ::
      !(p.calls[j].PastRemove() && p.calls[k].PastRemove()) && !(p.calls[j].Succeeded() && p.calls[k].Succeeded())
    ensures forall id | id in d0.live && (forall k | 0 <= k < |p.calls| :: p.calls[k].target != id) ::
      id in p.d.live && id in p.d.born && p.d.live[id] == d0.live[id] && p.d.born[id] == d0.born[id]
  {
    ReachableInv(d0, p);
    forall j, k | 0 <= j < k < |p.calls| && p.calls[j].target == p.calls[k].target
      ensures !(p.calls[j].PastRemove() && p.calls[k].PastRemove())
    {
      assert Apart(p.calls[j], p.calls[k]);
    }
    forall id | id in d0.live && (forall k | 0 <= k < |p.calls| :: p.calls[k].target != id)
      ensures id in p.d.live && id in p.d.born && p.d.live[id] == d0.live[id] && p.d.born[id] == d0.born[id]
    {
      assert OriginalOk(d0, p, id);
    }
  }

  /**
   Conservation of names: at every moment each original name is held by exactly one
   container or by exactly one call that removed its container and has not created the new
   one; no other name appears. So a name is absent for good only if some Create failed
   after a successful Remove.
   */
  lemma NamesConserved(d0: Daemon, p: Pool, n: string)
    requires Reachable(d0, p)
    ensures d0.Holds(n) <==> p.d.Holds(n) || InFlight(p.calls, n)
    ensures !(p.d.Holds(n) && InFlight(p.calls, n))
    ensures forall j, k | 0 <= j < k < |p.calls| && p.calls[j].stage == Create && p.calls[k].stage == Create ::
      p.calls[j].spec.name != p.calls[k].spec.name
  {
    ReachableInv(d0, p);
    forall j, k | 0 <= j < k < |p.calls| && p.calls[j].stage == Create && p.calls[k].stage == Create
      ensures p.calls[j].spec.name != p.calls[k].spec.name
    {
      assert Apart(p.calls[j], p.calls[k]);
    }
    if InFlight(p.calls, n) {
      var k :| 0 <= k < |p.calls| && p.calls[k].stage == Create && p.calls[k].spec.name == n;
      assert CallOk(d0, p.d, p.calls[k]);
    }
  }

  /**
   A successful call's container carries the requested image and, apart from it, everything
   the recreated one had: name, labels, the rest of its configuration, host configuration and
   networks. An original container had all of that too, however many recreations lie between.
   Until a later call on the new id it exists and runs.
   */
  lemma SuccessLeaves(d0: Daemon, p: Pool, k: nat)
    requires Reachable(d0, p) && k < |p.calls| && p.calls[k].Succeeded()
    ensures var c := p.calls[k];
      && c.target !in p.d.live && c.newId !in d0.born
      && c.newId in p.d.born && c.target in p.d.born
      && var o, n := p.d.born[c.target], p.d.born[c.newId];
        && n.name == o.name && n.host == o.host && n.networks == o.networks && o.config.Some? && n.config.Some?
        && n.config.value.image == c.ref
        && n.config.value.labels == o.config.value.labels && n.config.value.rest == o.config.value.rest
    ensures var n := p.d.born[p.calls[k].newId];
      exists first :: first in d0.live && first in d0.born
        && var o := d0.born[first];
          && n.name == o.name && n.host == o.host && n.networks == o.networks && o.config.Some? && n.config.Some?
          && n.config.value.labels == o.config.value.labels && n.config.value.rest == o.config.value.rest
    ensures (forall j | 0 <= j < |p.calls| :: p.calls[j].target != p.calls[k].newId) ==>
      p.calls[k].newId in p.d.live && p.d.live[p.calls[k].newId]
  {
    ReachableInv(d0, p);
    var c := p.calls[k];
    assert CallOk(d0, p.d, c) && CreatedOk(p, c);
    assert Active(d0, c.newId);
    assert BasedOn(d0, p.d.born[c.newId]);
    var first :| first in d0.live && first in d0.born && SameButImage(d0.born[first], p.d.born[c.newId]);
    assert d0.born[first].name == p.d.born[c.newId].name;
  }

  /** What a call that removed the container has led to once it is finished. */
  ghost predicate Outcome(d0: Daemon, p: Pool, c: Call) {
    if c.stage == Create then
      p.d.live.Keys == d0.live.Keys - {c.target} && !p.d.Holds(c.spec.name)
    else
      && c.newId in p.d.live && c.newId in p.d.born && p.d.live[c.newId] == c.Succeeded()
      && p.d.live.Keys == d0.live.Keys - {c.target} + {c.newId}
      && c.target in d0.born
      && var o, n := d0.born[c.target], p.d.born[c.newId];
        && n.name == o.name && n.host == o.host && n.networks == o.networks && o.config.Some? && n.config.Some?
        && n.config.value.image == c.ref
        && n.config.value.labels == o.config.value.labels && n.config.value.rest == o.config.value.rest
  }

  /**
   All calls on one container, all finished: either nobody removed it and the same
   containers exist as before; or exactly one call did, and that call succeeded, or failed
   to create (the name is gone), or failed to start (the new container exists, stopped).
   */
  lemma OneTargetOutcome(d0: Daemon, p: Pool, target: Id)
    requires Reachable(d0, p) && target in d0.live
    requires forall k | 0 <= k < |p.calls| :: p.calls[k].target == target && p.calls[k].Finished()
    ensures if target in p.d.live then
        p.d.live.Keys == d0.live.Keys && forall k | 0 <= k < |p.calls| :: !p.calls[k].PastRemove()
      else
        exists k :: 0 <= k < |p.calls| && p.calls[k].PastRemove() && Outcome(d0, p, p.calls[k])
                    && forall j | 0 <= j < |p.calls| && j != k :: !p.calls[j].PastRemove()
  {
    ReachableInv(d0, p);
    forall k | 0 <= k < |p.calls|
      ensures CallOk(d0, p.d, p.calls[k]) && (p.calls[k].PastCreate() ==> p.calls[k].newId != target)
    {
    }
    assert forall i | i in d0.live :: OriginalOk(d0, p, i);
    if target !in p.d.live {
      var k :| 0 <= k < |p.calls| && p.calls[k].target == target && p.calls[k].PastRemove();
      forall j | 0 <= j < |p.calls| && j != k ensures !p.calls[j].PastRemove() {
        assert Apart(p.calls[if j < k then j else k], p.calls[if j < k then k else j]);
      }
      RemoverOutcome(d0, p, k);
    }
  }

  lemma RemoverOutcome(d0: Daemon, p: Pool, k: nat)
    requires d0.Consistent() && Inv(d0, p) && CreatedOnly(d0, p) && k < |p.calls| && p.calls[k].PastRemove()
    requires p.calls[k].Finished()
    requires p.calls[k].target in d0.live
    requires forall j | 0 <= j < |p.calls| ::
      p.calls[j].target == p.calls[k].target && (j != k ==> !p.calls[j].PastRemove())
    ensures Outcome(d0, p, p.calls[k])
  {
    var c := p.calls[k];
    assert CallOk(d0, p.d, c);
    forall i | i in d0.live && i != c.target ensures i in p.d.live {
      assert OriginalOk(d0, p, i);
    }
    if c.stage != Create {
      assert CreatedOk(p, c);
      assert c.newId != c.target;
      assert !RemovedBy(p.calls, c.newId) && !StoppedBy(p.calls, c.newId);
    }
  }

  /** Every live container is an original or was created by one of the calls. */
  ghost predicate CreatedOnly(d0: Daemon, p: Pool) {
    forall i | i in p.d.live && i !in d0.live :: CreatedBy(p.calls, i)
  }

  ghost predicate CreatedBy(calls: seq<Call>, id: Id) {
    exists k :: 0 <= k < |calls| && calls[k].PastCreate() && calls[k].newId == id
  }

  lemma {:induction false} OnlyCreated(d0: Daemon, p: Pool, actions: seq<Action>)
    requires CreatedOnly(d0, p)
    ensures CreatedOnly(d0, Run(p, actions))
    decreases |actions|
  {
    if actions != [] {
      var q := Next(p, actions[0]);
      forall i | i in q.d.live && i !in d0.live ensures CreatedBy(q.calls, i) {
        if i in p.d.live {
          var k :| 0 <= k < |p.calls| && p.calls[k].PastCreate() && p.calls[k].newId == i;
          assert q.calls[k].PastCreate() && q.calls[k].newId == i;
        } else {
          assert q.calls[actions[0].i].PastCreate() && q.calls[actions[0].i].newId == i;
        }
      }
      OnlyCreated(d0, q, actions[1..]);
    }
  }
}
