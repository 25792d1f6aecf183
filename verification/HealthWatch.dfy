/**
 healthmon.go: the watch over one freshly updated container. It ends with the first of a
 cancellation, the end of the grace window, and a probe that says "unhealthy" outright.
 Which of several ready channels a select takes is the order of the signals here.
 */
module HealthWatch {
  import opened GoStrings
  import S = DigestStore
  import C = ControlLoop

  /** What an inspection yields; `Unjudged`: the container has no health check. */
  datatype Inspection = Failed | Unjudged | Status(status: string)

  /** A tick comes with the inspection's answer and the state then stored for the container. */
  datatype Signal = Cancelled | Deadline | Tick(found: Inspection, stored: Option<S.State>)

  /** What the watch publishes. */
  function Reports(a: C.Applied, signals: seq<Signal>): seq<C.Unhealthy> {
    if a.id == "" || signals == [] || !signals[0].Tick? then []
    else if signals[0].found == Status("unhealthy") then
      [C.Unhealthy(a.id, a.name, a.image, a.newDigest,
                   if signals[0].stored.Some? then signals[0].stored.value.PreviousDigest() else "")]
    else Reports(a, signals[1..])
  }

  /** Healthy unless the status says otherwise; an inspection error is passed on. */
  method CheckHealth(found: Inspection) returns (healthy: bool, err: bool)
    ensures err == found.Failed?
    ensures !err ==> (healthy <==> found != Status("unhealthy"))
  {
    match found
    case Failed => healthy, err := false, true;
    case Unjudged => healthy, err := true, false;
    case Status(status) => healthy, err := status != "unhealthy", false;
  }

  /**
   The watch reports at most once, exactly when some probe says "unhealthy" before cancellation
   and deadline; the first such probe decides, and the report carries the digest that was the
   previous one at that very moment.
   */
  method Watch(a: C.Applied, signals: seq<Signal>) returns (events: seq<C.Unhealthy>)
    ensures events == Reports(a, signals)
    ensures |events| <= 1
    ensures |events| == 1 <==>
      a.id != "" && exists k: nat :: k < |signals| && signals[k].Tick? && signals[k].found == Status("unhealthy")
                                     && forall j | 0 <= j < k :: signals[j].Tick?
    ensures forall k: nat | a.id != "" && k < |signals| && signals[k].Tick? && signals[k].found == Status("unhealthy")
      && (forall j | 0 <= j < k :: signals[j].Tick? && signals[j].found != Status("unhealthy")) ::
      events == [C.Unhealthy(a.id, a.name, a.image, a.newDigest,
                             if signals[k].stored.Some? && |signals[k].stored.value.history| >= 2
                             then signals[k].stored.value.history[1].digest else "")]
  {
    if a.id == "" {
      return [];
    }
    for i := 0 to |signals|
      invariant forall j | 0 <= j < i :: signals[j].Tick? && signals[j].found != Status("unhealthy")
      invariant Reports(a, signals) == Reports(a, signals[i..])
    {
      match signals[i]
      case Cancelled => return [];
      case Deadline => return [];
      case Tick(found, stored) =>
        var healthy, err := CheckHealth(found);
        if !err && !healthy {
          var prev := if stored.Some? then stored.value.PreviousDigest() else "";
          return [C.Unhealthy(a.id, a.name, a.image, a.newDigest, prev)];
        }
        assert signals[i..][1..] == signals[i + 1..];
    }
    events := [];
  }

  /**
   A probe that fails, finds no health check or reads any other status changes nothing wherever
   it comes: neither whether there is a report nor what it says.
   */
  lemma {:induction false} OthersAreHarmless(a: C.Applied, before: seq<Signal>, found: Inspection,
                                             stored: Option<S.State>, after: seq<Signal>)
    requires found != Status("unhealthy")
    ensures Reports(a, before + [Tick(found, stored)] + after) == Reports(a, before + after)
    decreases |before|
  {
    var long := before + [Tick(found, stored)] + after;
    if before == [] {
      assert long[1..] == after && before + after == after;
    } else {
      assert long[1..] == before[1..] + [Tick(found, stored)] + after;
      assert (before + after)[1..] == before[1..] + after;
      OthersAreHarmless(a, before[1..], found, stored, after);
    }
  }

  /** Whatever arrives after cancellation or deadline, or after the report, changes nothing. */
  lemma {:induction false} EndIsFinal(a: C.Applied, signals: seq<Signal>, more: seq<Signal>, k: nat)
    requires k < |signals| && (!signals[k].Tick? || signals[k].found == Status("unhealthy"))
    ensures Reports(a, signals + more) == Reports(a, signals)
    decreases |signals|
  {
    assert (signals + more)[0] == signals[0];
    if k > 0 {
      assert (signals + more)[1..] == signals[1..] + more;
      EndIsFinal(a, signals[1..], more, k - 1);
    }
  }

  /**
   The report is what the control loop's monitor step publishes for an announced update; an
   update without a container id leads to none, in either, and so does one never announced.
   */
  lemma ReportIsStep(w: C.World, a: C.Applied, before: seq<Signal>)
    requires a.id in w.store.index ==> w.store.index[a.id] in w.store.heap
    requires forall j | 0 <= j < |before| :: before[j].Tick? && before[j].found != Status("unhealthy")
    ensures var stored := if a.id in w.store.index then Some(w.store.heap[w.store.index[a.id]]) else None;
      var reports := Reports(a, before + [Tick(Status("unhealthy"), stored)]);
      && (a.id == "" ==> reports == [])
      && (a.id != "" ==> |reports| == 1)
      && C.Do(w, C.WatchFailed(a)) ==
           if a !in w.applied || reports == [] then w else w.(unhealthy := w.unhealthy + {reports[0]})
    decreases |before|
  {
    var stored := if a.id in w.store.index then Some(w.store.heap[w.store.index[a.id]]) else None;
    var last := [Tick(Status("unhealthy"), stored)];
    if before == [] {
      assert before + last == last;
    } else {
      assert (before + last)[1..] == before[1..] + last;
      ReportIsStep(w, a, before[1..]);
    }
  }
}
