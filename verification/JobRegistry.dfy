/**
 registry.go: the table of deploy jobs and the index of containers with a job under way.
 `Register` overwrites and `Finish` deletes by container name, so the index is the set of
 unfinished jobs only for callers who keep to a discipline; it is stated here exactly.
 */
module JobRegistry {
  import opened GoStrings
  import DeployJobs

  type Id = string
  type Name = string

  /** `owner`: the container of each job ever registered; `active`: the job under way for a container. */
  datatype Table = Table(owner: map<Id, Name>, active: map<Name, Id>) {
    function Register(id: Id, name: Name): Table {
      Table(owner[id := name], active[name := id])
    }

    function Finish(id: Id): Table {
      if id in owner then this.(active := active - {owner[id]}) else this
    }

    /** The index holds exactly the jobs of `open`, each under its own container. */
    ghost predicate Exact(open: set<Id>) {
      && open <= owner.Keys && active.Values == open
      && forall n | n in active :: active[n] in owner && owner[active[n]] == n
    }
  }

  datatype Op = Register(id: Id, name: Name) | Finish(id: Id)

  function Apply(t: Table, op: Op): Table {
    match op
    case Register(id, name) => t.Register(id, name)
    case Finish(id) => t.Finish(id)
  }

  /** The registered unfinished jobs, by what was called alone. */
  function Opened(open: set<Id>, op: Op): set<Id> {
    match op
    case Register(id, _) => open + {id}
    case Finish(id) => open - {id}
  }

  /**
   What a caller can check beforehand: a container gets a job only while it has none, and
   a job is finished only while no other job of its container is under way.
   */
  predicate Guarded(t: Table, op: Op) {
    match op
    case Register(_, name) => name !in t.active
    case Finish(id) => id in t.owner && t.owner[id] in t.active ==> t.active[t.owner[id]] == id
  }

  ghost predicate NewId(t: Table, op: Op) {
    op.Register? ==> op.id !in t.owner
  }

  lemma RegisterExactly(t: Table, open: set<Id>, id: Id, name: Name)
    requires t.Exact(open) && id !in t.owner
    ensures t.Register(id, name).Exact(open + {id}) <==> name !in t.active
  {
    var u := t.Register(id, name);
    if name in t.active {
      var was := t.active[name];
      assert was in t.active.Values && was in open + {id};
      forall n | n in u.active ensures u.active[n] != was {
        assert n != name ==> t.active[n] == u.active[n] && t.owner[t.active[n]] == n;
      }
      assert was !in u.active.Values;
    } else {
      forall n | n in u.active ensures u.active[n] in open + {id} && u.owner[u.active[n]] == n {
        assert n != name ==> t.active[n] in t.active.Values;
      }
      forall j | j in open + {id} ensures j in u.active.Values {
        if j in open {
          var n :| n in t.active && t.active[n] == j;
          assert u.active[n] == j;
        } else {
          assert u.active[name] == j;
        }
      }
    }
  }

  lemma FinishExactly(t: Table, open: set<Id>, id: Id)
    requires t.Exact(open)
    ensures t.Finish(id).Exact(open - {id}) <==> Guarded(t, Op.Finish(id))
  {
    var u := t.Finish(id);
    if id in t.owner {
      var name := t.owner[id];
      if Guarded(t, Op.Finish(id)) {
        forall j | j in open - {id} ensures j in u.active.Values {
          var n :| n in t.active && t.active[n] == j;
          assert u.active[n] == j;
        }
        forall n | n in u.active ensures u.active[n] in open - {id} {
          assert u.active[n] == t.active[n] && t.active[n] in t.active.Values;
          assert t.owner[t.active[n]] == n;
        }
      } else {
        var other := t.active[name];
        assert other in t.active.Values && other in open - {id};
        forall n | n in u.active ensures u.active[n] != other {
          assert t.owner[t.active[n]] == n;
        }
        assert other !in u.active.Values;
      }
    } else {
      assert open - {id} == open;
    }
  }

  /** A call keeps the index exact if and only if its caller kept the guard. */
  lemma StepExactly(t: Table, open: set<Id>, op: Op)
    requires t.Exact(open) && NewId(t, op)
    ensures Apply(t, op).Exact(Opened(open, op)) <==> Guarded(t, op)
  {
    match op
    case Register(id, name) => RegisterExactly(t, open, id, name);
    case Finish(id) => FinishExactly(t, open, id);
  }

  ghost predicate NewIds(t: Table, ops: seq<Op>)
    decreases |ops|
  {
    ops != [] ==> NewId(t, ops[0]) && NewIds(Apply(t, ops[0]), ops[1..])
  }

  ghost predicate Disciplined(t: Table, ops: seq<Op>)
    decreases |ops|
  {
    ops != [] ==> Guarded(t, ops[0]) && Disciplined(Apply(t, ops[0]), ops[1..])
  }

  ghost predicate ExactThroughout(t: Table, open: set<Id>, ops: seq<Op>)
    decreases |ops|
  {
    t.Exact(open) && (ops != [] ==> ExactThroughout(Apply(t, ops[0]), Opened(open, ops[0]), ops[1..]))
  }

  /** Over every run: the index is exact in every state exactly when every call was guarded. */
  lemma {:induction false} RunExactly(t: Table, open: set<Id>, ops: seq<Op>)
    requires t.Exact(open) && NewIds(t, ops)
    ensures ExactThroughout(t, open, ops) <==> Disciplined(t, ops)
    decreases |ops|
  {
    if ops != [] {
      StepExactly(t, open, ops[0]);
      if Guarded(t, ops[0]) {
        RunExactly(Apply(t, ops[0]), Opened(open, ops[0]), ops[1..]);
      }
    }
  }

  /** What exactness gives: one open job per container, found by its name, and their number. */
  lemma {:induction false} ExactMeans(t: Table, open: set<Id>)
    requires t.Exact(open)
    ensures |t.active| == |open|
    ensures forall a, b | a in open && b in open :: t.owner[a] == t.owner[b] ==> a == b
    ensures forall n :: n in t.active <==> exists j :: j in open && t.owner[j] == n
    decreases |open|
  {
    assert forall j | j in open :: t.active[t.owner[j]] == j;
    if t.active != map[] {
      var n :| n in t.active;
      var j := t.active[n];
      var smaller := t.(active := t.active - {n});
      FinishExactly(t, open, j);
      assert t.Finish(j) == smaller && j in t.active.Values;
      ExactMeans(smaller, open - {j});
      assert |t.active.Keys - {n}| == |t.active| - 1 && smaller.active.Keys == t.active.Keys - {n};
    } else {
      assert open == {};
    }
  }

  // ---- The program's own callers --------------------------------------------

  /**
   Who calls the registry: the one executor goroutine brackets each update, the webhook
   registers a job under the pushed image's name and nobody ever finishes that one.
   */
  datatype Caller = UpdateStarts(id: Id, name: Name) | UpdateEnds | WebhookPush(id: Id, image: Name)

  datatype Program = Program(table: Table, updating: Option<Id>, pushed: set<Name>) {
    function UnderUpdate(): set<Name> {
      if updating.Some? && updating.value in table.owner then {table.owner[updating.value]} else {}
    }
  }

  function Act(p: Program, c: Caller): Program {
    match c
    case UpdateStarts(id, name) =>
      if p.updating.None? && ':' !in name then p.(table := p.table.Register(id, name), updating := Some(id)) else p
    case UpdateEnds =>
      if p.updating.Some? then p.(table := p.table.Finish(p.updating.value), updating := None) else p
    case WebhookPush(id, image) =>
      if ':' in image then p.(table := p.table.Register(id, image), pushed := p.pushed + {image}) else p
  }

  ghost predicate NewIdsUsed(p: Program, calls: seq<Caller>)
    decreases |calls|
  {
    calls != [] ==>
      (!calls[0].UpdateEnds? ==> calls[0].id !in p.table.owner) && NewIdsUsed(Act(p, calls[0]), calls[1..])
  }

  function ActAll(p: Program, calls: seq<Caller>): Program
    decreases |calls|
  {
    if calls == [] then p else ActAll(Act(p, calls[0]), calls[1..])
  }

  /** Image names hold a colon, container names never do. */
  ghost predicate Leaky(p: Program) {
    && (p.updating.Some? ==> p.updating.value in p.table.owner && ':' !in p.table.owner[p.updating.value])
    && (forall n | n in p.pushed :: ':' in n)
    && p.table.active.Keys == p.pushed + p.UnderUpdate()
  }

  lemma LeakyStep(p: Program, c: Caller)
    requires Leaky(p) && (!c.UpdateEnds? ==> c.id !in p.table.owner)
    ensures Leaky(Act(p, c)) && p.pushed <= Act(p, c).pushed
  {
  }

  /**
   In every state of the program the number of active deploys is the number of distinct
   images ever pushed by webhook, plus one during an update: no pushed image is taken out.
   */
  lemma {:induction false} WebhookJobsLeak(p: Program, calls: seq<Caller>)
    requires Leaky(p) && NewIdsUsed(p, calls)
    ensures var end := ActAll(p, calls);
      && end.table.active.Keys == end.pushed + end.UnderUpdate() && p.pushed <= end.pushed
      && |end.table.active| == |end.pushed| + (if end.updating.Some? then 1 else 0)
    decreases |calls|
  {
    if calls == [] {
      assert |p.table.active.Keys| == |p.pushed| + |p.UnderUpdate()|;
    } else {
      LeakyStep(p, calls[0]);
      WebhookJobsLeak(Act(p, calls[0]), calls[1..]);
    }
  }

  // ---- The mutable registry -------------------------------------------------

  class Registry {
    var jobs: map<Id, DeployJobs.DeployJob>
    var byContainer: map<Name, Id>

    ghost predicate Valid()
      reads this
    {
      forall id | id in jobs :: jobs[id].id == id
    }

    ghost function View(): Table
      reads this
    {
      Table(map id | id in jobs :: jobs[id].containerName, byContainer)
    }

    constructor ()
      ensures Valid() && View() == Table(map[], map[])
    {
      jobs, byContainer := map[], map[];
    }

    /** The source's error result is always nil. */
    method Register(j: DeployJobs.DeployJob)
      requires Valid()
      modifies this
      ensures Valid() && View() == old(View()).Register(j.id, j.containerName)
      ensures jobs == old(jobs)[j.id := j] && byContainer == old(byContainer)[j.containerName := j.id]
    {
      jobs := jobs[j.id := j];
      byContainer := byContainer[j.containerName := j.id];
    }

    method Get(id: Id) returns (j: DeployJobs.DeployJob?)
      requires Valid()
      ensures (j == null) == (id !in jobs) && (j != null ==> j == jobs[id] && j.id == id)
    {
      j := if id in jobs then jobs[id] else null;
    }

    method IsRunning(name: Name) returns (running: bool)
      requires Valid()
      ensures running == (name in byContainer)
      ensures forall open | View().Exact(open) :: running <==> exists id :: id in open && jobs[id].containerName == name
    {
      running := name in byContainer;
      forall open | View().Exact(open) ensures running <==> exists id :: id in open && jobs[id].containerName == name {
        ExactMeans(View(), open);
      }
    }

    method Finish(id: Id)
      requires Valid()
      modifies this
      ensures Valid() && View() == old(View()).Finish(id) && jobs == old(jobs)
      ensures byContainer == if id in jobs then old(byContainer) - {jobs[id].containerName} else old(byContainer)
    {
      if id in jobs {
        byContainer := byContainer - {jobs[id].containerName};
      }
    }

    method ActiveCount() returns (n: nat)
      requires Valid()
      ensures forall open | View().Exact(open) :: n == |open|
      ensures n == |byContainer|
    {
      n := |byContainer|;
      forall open | View().Exact(open) ensures n == |open| {
        ExactMeans(View(), open);
      }
    }
  }
}
