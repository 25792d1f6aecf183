/**
 poller.go: registry checks. A sweep covers the containers no service is configured for;
 configured services are checked one by one, no more often than their interval. The
 registry's answers and the clock are parameters.
 */
module Poller {
  import opened GoStrings
  import S = DigestStore
  import ImageRefs
  import C = ControlLoop
  import Agreement
  import Convergence

  datatype Service = Service(name: string, image: string, mode: string, interval: nat, lastDigest: string)

  // ---- Comparing ------------------------------------------------------------

  /** An empty history is seeded from the last digest the service was checked to have. */
  function Seeded(s: S.State, last: string): S.State {
    if s.CurrentDigest() == "" && last != "" then s.Push(s.image, last) else s
  }

  function LastOf(svc: Option<Service>): string {
    if svc.Some? then svc.value.lastDigest else ""
  }

  function Announces(s: S.State, digest: string): seq<C.Update> {
    if digest == s.CurrentDigest() then []
    else [C.Update(s.id, s.name, s.image, s.CurrentDigest(), digest)]
  }

  /** The event's old digest is the one the store calls current afterwards. */
  method CompareAndPublish(cs: S.ContainerState, svc: Option<Service>, digest: string) returns (events: seq<C.Update>)
    modifies cs`digestHistory
    ensures cs.Snapshot() == Seeded(old(cs.Snapshot()), LastOf(svc))
    ensures events == Announces(cs.Snapshot(), digest)
    ensures var was := old(cs.digestHistory);
      var first := if |was| == 0 then "" else was[0].digest;
      var last := if svc.Some? then svc.value.lastDigest else "";
      var current := if first == "" && last != "" then last else first;
      && events == (if digest == current then [] else [C.Update(cs.id, cs.name, cs.image, current, digest)])
      && (first != "" || last == "" ==> cs.digestHistory == was)
      && (first == "" && last != "" ==>
            cs.digestHistory == ([S.DigestEntry(last, cs.image)] + was)[..if |was| < 5 then |was| + 1 else 5])
  {
    var current := cs.CurrentDigest();
    if current == "" && svc.Some? && svc.value.lastDigest != "" {
      current := svc.value.lastDigest;
      cs.PushDigest(cs.image, current);
    }
    if digest == current {
      return [];
    }
    events := [C.Update(cs.id, cs.name, cs.image, current, digest)];
  }

  /**
   One check of a configured service; `answer` is the registry's reply, if it gave one, and
   `recorded` the service's last digest afterwards. What is compared with is the one from before.
   */
  method CheckService(store: S.Store, svc: Service, answer: Option<string>)
    returns (events: seq<C.Update>, recorded: string, ghost checked: S.ContainerState?)
    requires store.Valid()
    modifies store.objects
    ensures store.Valid() && store.containers == old(store.containers)
    ensures recorded == if answer.Some? then answer.value else svc.lastDigest
    ensures checked == null ==> events == [] && store.View() == old(store.View())
    ensures checked == null ==> answer.None? || forall o | o in store.containers.Values :: o.name != svc.name
    ensures checked != null ==>
      && checked in store.containers.Values && checked.name == svc.name && answer.Some?
      && checked.Snapshot() == Seeded(old(checked.Snapshot()), svc.lastDigest)
      && events == Announces(checked.Snapshot(), answer.value)
    ensures forall o | o in store.objects && o != checked :: o.Snapshot() == old(o.Snapshot())
  {
    events, recorded, checked := [], svc.lastDigest, null;
    if answer.None? {
      return;
    }
    recorded := answer.value;
    var cs := store.GetByName(svc.name);
    if cs == null {
      return;
    }
    checked := cs;
    ghost var was := store.View();
    events := CompareAndPublish(cs, Some(svc), answer.value);
    assert forall o | o in store.objects :: store.View().heap[o].id == was.heap[o].id;
  }

  /** Seeding happens once, and what it puts first is what comparing goes by. */
  lemma SeedOnce(s: S.State, last: string, again: string)
    ensures last != "" ==> Seeded(Seeded(s, last), again) == Seeded(s, last)
    ensures Seeded(s, last).CurrentDigest() == if s.CurrentDigest() == "" then last else s.CurrentDigest()
    ensures s.CurrentDigest() != "" ==> Seeded(s, last) == s
  {
  }

  // ---- One service over time ------------------------------------------------

  /** What checks see and leave behind: the stored state and the service's last digest. */
  datatype Watched = Watched(state: S.State, last: string, published: seq<string>)

  /** checkService: the last digest is recorded first, but compared with is the one from before. */
  function Check(w: Watched, digest: string): Watched {
    var s := Seeded(w.state, w.last);
    Watched(s, digest, if Announces(s, digest) == [] then w.published else w.published + [digest])
  }

  function Checks(w: Watched, digests: seq<string>): Watched {
    if digests == [] then w else Check(Checks(w, digests[..|digests| - 1]), digests[|digests| - 1])
  }

  function Others(digests: seq<string>, d: string): seq<string> {
    if digests == [] then []
    else
      var n := |digests| - 1;
      Others(digests[..n], d) + (if digests[n] == d then [] else [digests[n]])
  }

  /**
   Checks that nobody acts upon, from an empty history on. A service never checked before
   announces its first digest once; ever after that digest counts as deployed, and only
   different ones are announced, whether or not the first was ever applied.
   */
  lemma {:induction false} FirstDigestCountsAsDeployed(s: S.State, digests: seq<string>)
    requires s.history == [] && digests != [] && forall i | 0 <= i < |digests| :: digests[i] != ""
    ensures var w := Checks(Watched(s, "", []), digests);
      && w.published == [digests[0]] + Others(digests[1..], digests[0])
      && w.last == digests[|digests| - 1]
      && (if |digests| == 1 then w.state == s else w.state == s.Push(s.image, digests[0]))
    decreases |digests|
  {
    var n := |digests| - 1;
    var front := digests[..n];
    if n == 0 {
      assert front == [] && digests[1..] == [];
      assert Checks(Watched(s, "", []), front) == Watched(s, "", []);
      assert digests == [digests[0]];
    } else {
      FirstDigestCountsAsDeployed(s, front);
      assert front[0] == digests[0];
      assert digests[1..][..n - 1] == front[1..] && digests[1..][n - 1] == digests[n];
    }
  }

  // ---- Seeding and agreement ------------------------------------------------

  /** What comparing does to an empty history is the control loop's seeding step. */
  lemma SeedIsStep(w: C.World, id: C.Id, last: string)
    requires id in w.store.index && w.store.index[id] in w.store.heap
    ensures var o := w.store.index[id];
      C.Do(w, C.Seed(id, last)) == w.(store := w.store.(heap := w.store.heap[o := Seeded(w.store.heap[o], last)]))
  {
    var o := w.store.index[id];
    assert w.store.heap[o := w.store.heap[o]] == w.store.heap;
  }

  /**
   Seeding a live container's history keeps store and daemon in agreement exactly when the
   container is pinned to the digest it is seeded with.
   */
  lemma SeedAgreesExactly(w: C.World, id: C.Id, last: string)
    requires Agreement.Seeds(w, id, last)
    ensures Agreement.Agrees(C.Do(w, C.Seed(id, last)), id) <==> ImageRefs.Pin(w.daemon.born[id].Image()) == last
  {
    Agreement.SeedDecides(w, id, last);
  }

  // ---- The sweep ------------------------------------------------------------

  /**
   `answers` holds the registry's successful replies. Every tracked container that no service is
   configured for and whose image got an answer other than its current digest has its event;
   there are no others, and no state changes.
   */
  method Poll(store: S.Store, configured: set<string>, answers: map<string, string>) returns (events: seq<C.Update>)
    requires store.Valid()
    ensures forall e :: e in events <==>
      exists o ::
        && o in store.containers.Values && o.name !in configured
        && o.image in answers && answers[o.image] != o.CurrentDigest()
        && e == C.Update(o.id, o.name, o.image, o.CurrentDigest(), answers[o.image])
    ensures forall i, j | 0 <= i < j < |events| :: events[i].id != events[j].id
  {
    var all := store.All();
    forall i, j | 0 <= i < j < |all| ensures all[i].id != all[j].id {
      assert all[i] in all && all[j] in all;
      S.Tracked(store, all[i]);
      S.Tracked(store, all[j]);
    }
    events := [];
    for i := 0 to |all|
      invariant forall e :: e in events <==>
        exists k ::
          && 0 <= k < i && all[k].name !in configured
          && all[k].image in answers && answers[all[k].image] != all[k].CurrentDigest()
          && e == C.Update(all[k].id, all[k].name, all[k].image, all[k].CurrentDigest(), answers[all[k].image])
      invariant forall e | e in events :: exists k :: 0 <= k < i && e.id == all[k].id
      invariant forall k, m | 0 <= k < m < |events| :: events[k].id != events[m].id
    {
      var cs := all[i];
      if cs.name in configured || cs.image !in answers {
        continue;
      }
      var digest := answers[cs.image];
      if digest != cs.CurrentDigest() {
        events := events + [C.Update(cs.id, cs.name, cs.image, cs.CurrentDigest(), digest)];
      }
    }
  }

  /** What a sweep announces for a tracked container is what the convergence theorem lets a poll publish. */
  lemma SweepIsPoll(w: C.World, id: C.Id, answer: string -> string, u: C.Update)
    requires w.store.WellKeyed() && id in w.store.index
    ensures var s := w.store.heap[w.store.index[id]];
      u in Announces(s, answer(s.image)) <==> u.id == id && Convergence.Publishes(w, u, answer)
  {
    var s := w.store.heap[w.store.index[id]];
    assert s.id == id;
    if u in Announces(s, answer(s.image)) {
      assert u == Convergence.Polled(w, id, answer);
    }
  }

  // ---- Spacing --------------------------------------------------------------

  /** One look at one service at some time; the clock is read once per look. */
  datatype Visit = Visit(now: int, svc: Service)

  /** `last`: when each service was last checked; `log`: the visits that led to a check. */
  datatype Schedule = Schedule(last: map<string, int>, log: seq<Visit>) {
    predicate Due(v: Visit) {
      v.svc.mode == "poll" && (v.svc.name in last ==> v.now - last[v.svc.name] >= v.svc.interval)
    }

    function Take(v: Visit): Schedule {
      if Due(v) then Schedule(last[v.svc.name := v.now], log + [v]) else this
    }
  }

  function TakeAll(s: Schedule, visits: seq<Visit>): Schedule {
    if visits == [] then s else TakeAll(s, visits[..|visits| - 1]).Take(visits[|visits| - 1])
  }

  ghost predicate ClockForward(visits: seq<Visit>) {
    forall i, j | 0 <= i < j < |visits| :: visits[i].now <= visits[j].now
  }

  ghost predicate Spaced(log: seq<Visit>) {
    forall i, j | 0 <= i < j < |log| && log[i].svc.name == log[j].svc.name ::
      log[j].now - log[i].now >= log[j].svc.interval
  }

  ghost predicate Remembers(s: Schedule) {
    && (forall i | 0 <= i < |s.log| :: s.log[i].svc.name in s.last && s.log[i].now <= s.last[s.log[i].svc.name])
    && (forall n | n in s.last :: exists i :: 0 <= i < |s.log| && s.log[i].svc.name == n && s.log[i].now == s.last[n])
  }

  lemma TakeSpaced(s: Schedule, v: Visit)
    requires Spaced(s.log) && Remembers(s)
    requires forall i | 0 <= i < |s.log| :: s.log[i].now <= v.now
    ensures Spaced(s.Take(v).log) && Remembers(s.Take(v))
  {
    var t := s.Take(v);
    if s.Due(v) {
      assert t.log[|s.log|] == v && forall i | 0 <= i < |s.log| :: t.log[i] == s.log[i];
      assert Spaced(t.log);
      TakeRemembers(s, v);
    }
  }

  lemma TakeRemembers(s: Schedule, v: Visit)
    requires Remembers(s) && s.Due(v)
    requires forall i | 0 <= i < |s.log| :: s.log[i].now <= v.now
    ensures Remembers(s.Take(v))
  {
    var t := s.Take(v);
    assert t.log[|s.log|] == v && forall i | 0 <= i < |s.log| :: t.log[i] == s.log[i];
    forall n | n in t.last
      ensures exists i :: 0 <= i < |t.log| && t.log[i].svc.name == n && t.log[i].now == t.last[n]
    {
      if n != v.svc.name {
        var i :| 0 <= i < |s.log| && s.log[i].svc.name == n && s.log[i].now == s.last[n];
        assert t.log[i] == s.log[i];
      }
    }
  }

  /**
   Over every run of looks: two checks of one service are never closer than the interval in
   force at the later one.
   */
  lemma {:induction false} ChecksSpaced(visits: seq<Visit>)
    requires ClockForward(visits)
    ensures var s := TakeAll(Schedule(map[], []), visits);
      && Spaced(s.log) && Remembers(s)
      && (forall i | 0 <= i < |s.log| :: s.log[i] in visits)
    decreases |visits|
  {
    if visits != [] {
      var n := |visits| - 1;
      var front := visits[..n];
      ChecksSpaced(front);
      var s := TakeAll(Schedule(map[], []), front);
      forall i | 0 <= i < |s.log| ensures s.log[i].now <= visits[n].now {
        assert s.log[i] in front;
      }
      TakeSpaced(s, visits[n]);
      assert forall v | v in front :: v in visits;
    }
  }

  /**
   Whether a look leads to a check, over every run: exactly when the service is in mode "poll"
   and every check of it so far lies at least its present interval back.
   */
  lemma CheckedExactly(visits: seq<Visit>, v: Visit)
    requires ClockForward(visits + [v])
    ensures var s, t := TakeAll(Schedule(map[], []), visits), TakeAll(Schedule(map[], []), visits + [v]);
      t.log ==
        if v.svc.mode == "poll"
           && forall i | 0 <= i < |s.log| && s.log[i].svc.name == v.svc.name ::
                v.now - s.log[i].now >= v.svc.interval
        then s.log + [v] else s.log
  {
    assert (visits + [v])[..|visits|] == visits;
    assert ClockForward(visits) by {
      assert forall i | 0 <= i < |visits| :: (visits + [v])[i] == visits[i];
    }
    ChecksSpaced(visits);
  }

  /** Right after any run, a polled service's latest check is less than its interval ago. */
  lemma NoneOverdue(visits: seq<Visit>, svc: Service, now: int)
    requires svc.mode == "poll" && svc.interval > 0 && visits != [] && visits[|visits| - 1] == Visit(now, svc)
    ensures var s := TakeAll(Schedule(map[], []), visits);
      svc.name in s.last && now - s.last[svc.name] < svc.interval
  {
  }

  class Scheduler {
    var lastCheck: map<string, int>
    ghost var log: seq<Visit>

    constructor ()
      ensures View() == Schedule(map[], [])
    {
      lastCheck, log := map[], [];
    }

    ghost function View(): Schedule
      reads this
    {
      Schedule(lastCheck, log)
    }

    /** One pass over the configured services; `due` are those whose check is started. */
    method Dispatch(services: seq<Service>, now: int) returns (due: seq<Service>)
      modifies this
      ensures View() == TakeAll(old(View()), seq(|services|, i requires 0 <= i < |services| => Visit(now, services[i])))
      ensures log == old(log) + seq(|due|, i requires 0 <= i < |due| => Visit(now, due[i]))
    {
      due := [];
      ghost var visits := seq(|services|, i requires 0 <= i < |services| => Visit(now, services[i]));
      for i := 0 to |services|
        invariant View() == TakeAll(old(View()), visits[..i])
        invariant log == old(log) + seq(|due|, k requires 0 <= k < |due| => Visit(now, due[k]))
      {
        var svc := services[i];
        assert visits[..i + 1][..i] == visits[..i];
        if svc.mode != "poll" {
          continue;
        }
        if svc.name in lastCheck && now - lastCheck[svc.name] < svc.interval {
          continue;
        }
        lastCheck := lastCheck[svc.name := now];
        log := log + [Visit(now, svc)];
        due := due + [svc];
      }
      assert visits[..|services|] == visits;
    }
  }
}
