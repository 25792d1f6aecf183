/**
 webhook.go: a push of an image becomes one update event per affected container, except
 that the replicas of one compose service share a single event. The store hands its
 containers out in an arbitrary order, so what holds is stated for every order.
 */
module Webhook {
  import opened GoStrings
  import ImageRefs
  import Semver
  import S = DigestStore
  import C = ControlLoop
  import J = DeployJobs
  import R = JobRegistry

  // ---- Which containers a push affects --------------------------------------

  /** A stored image without whatever follows its last colon. */
  function StripTag(image: string): string {
    var i := LastIndex(image, ':');
    if i >= 0 then image[..i] else image
  }

  /** Which stored images a push of `name` concerns: the name alone, or a colon and no further one after it. */
  lemma Matched(image: string, name: string)
    ensures StripTag(image) == name <==>
      (image == name && ':' !in name) || (name + ":" <= image && ':' !in image[|name| + 1..])
  {
    var i := LastIndex(image, ':');
    if i >= 0 {
      assert image == image[..i] + ":" + image[i + 1..];
    }
    if name + ":" <= image && ':' !in image[|name| + 1..] {
      assert image == name + [':'] + image[|name| + 1..];
      LastIndexAt(name, ':', image[|name| + 1..]);
    }
  }

  /**
   A stored `name:tag`, pinned or not, matches a push of `name` exactly when the pinned
   digest has no colon; so a reference pinned to a "sha256:" digest no longer matches.
   */
  lemma MatchSurvivesPin(name: string, tag: string, digest: string)
    requires ':' !in tag
    ensures StripTag(ImageRefs.ImageRef(name + ":" + tag, digest)) == name <==> ':' !in digest
  {
    var image := name + [':'] + tag;
    LastIndexAt(name, ':', tag);
    assert image == name + ":" + tag && image[..|name|] == name;
    if digest != "" {
      var pinned := image + "@" + digest;
      assert pinned == image + ("@" + digest);
      if ':' in digest {
        var k := LastIndex(digest, ':');
        assert pinned[|image| + 1 + k] == ':';
        assert LastIndex(pinned, ':') > |name|;
      } else {
        LastIndexAppend(image, ':', "@" + digest);
        assert pinned[..|name|] == name;
      }
    }
  }

  // ---- One event per container, or per compose service ----------------------

  type Modes = map<string, string>  // service name to trigger mode

  predicate Polled(s: S.State, modes: Modes) {
    s.name in modes && modes[s.name] == "poll"
  }

  /** What the replicas of a compose service have in common; None for other containers. */
  function ComposeKey(labels: S.Labels): Option<string> {
    var project := Semver.Label(labels, "com.docker.compose.project");
    var service := Semver.Label(labels, "com.docker.compose.service");
    if Semver.Label(labels, "dockwatch.compose.update") != "" && project != "" && service != ""
    then Some(Key(project, service)) else None
  }

  /**
   A container has a key exactly when the opt-in, project and service labels are all there and
   not empty. Two containers with keys share theirs exactly when project, underscore and
   service read the same, hence within one project when the service does.
   */
  lemma KeysExactly(a: S.Labels, b: S.Labels)
    ensures ComposeKey(a).Some? <==>
      && "dockwatch.compose.update" in a && a["dockwatch.compose.update"] != ""
      && "com.docker.compose.project" in a && a["com.docker.compose.project"] != ""
      && "com.docker.compose.service" in a && a["com.docker.compose.service"] != ""
    ensures ComposeKey(a).Some? && ComposeKey(b).Some? ==>
      && (ComposeKey(a) == ComposeKey(b) <==>
            a["com.docker.compose.project"] + "_" + a["com.docker.compose.service"]
            == b["com.docker.compose.project"] + "_" + b["com.docker.compose.service"])
      && (a["com.docker.compose.project"] == b["com.docker.compose.project"] ==>
            (ComposeKey(a) == ComposeKey(b) <==>
               a["com.docker.compose.service"] == b["com.docker.compose.service"]))
  {
    KeyMeans(a);
    KeyMeans(b);
    if ComposeKey(a).Some? && ComposeKey(b).Some? {
      ServicesTellApart(a["com.docker.compose.project"], a["com.docker.compose.service"],
                        b["com.docker.compose.service"]);
    }
  }

  lemma KeyMeans(a: S.Labels)
    ensures ComposeKey(a).Some? <==>
      && "dockwatch.compose.update" in a && a["dockwatch.compose.update"] != ""
      && "com.docker.compose.project" in a && a["com.docker.compose.project"] != ""
      && "com.docker.compose.service" in a && a["com.docker.compose.service"] != ""
    ensures ComposeKey(a).Some? ==>
      ComposeKey(a).value == a["com.docker.compose.project"] + "_" + a["com.docker.compose.service"]
  {
  }

  /** The matter of one container to the loop: its key, and whether it is polled. */
  datatype Item = Item(state: S.State, key: Option<string>, polled: bool)

  function ItemOf(s: S.State, modes: Modes): Item {
    Item(s, ComposeKey(s.labels), Polled(s, modes))
  }

  /** The containers an event is published for; a key is marked as seen even when its container is polled. */
  function Chosen(items: seq<Item>, seen: set<string>): seq<Item> {
    if items == [] then []
    else
      var c := items[0];
      if c.key.Some? && c.key.value in seen then Chosen(items[1..], seen)
      else
        var marked := if c.key.Some? then seen + {c.key.value} else seen;
        (if c.polled then [] else [c]) + Chosen(items[1..], marked)
  }

  ghost predicate Enumerates(items: seq<Item>, all: set<Item>) {
    && (forall c :: c in items <==> c in all)
    && forall i, j | 0 <= i < j < |items| :: items[i] != items[j]
  }

  /** Unpolled containers without a key. */
  function Plain(all: set<Item>): set<Item> {
    set c | c in all && c.key.None? && !c.polled
  }

  function KeysOf(all: set<Item>): set<string> {
    set c | c in all && c.key.Some? :: c.key.value
  }

  function UnpolledKeys(all: set<Item>): set<string> {
    set c | c in all && c.key.Some? && !c.polled :: c.key.value
  }

  /** Replicas of one service are polled all or none. */
  ghost predicate Uniform(all: set<Item>) {
    forall c, d | c in all && d in all && c.key.Some? && c.key == d.key :: c.polled == d.polled
  }

  lemma EnumeratesRest(items: seq<Item>, all: set<Item>)
    requires Enumerates(items, all) && items != []
    ensures items[0] in all && Enumerates(items[1..], all - {items[0]})
  {
    forall c ensures c in items[1..] <==> c in all - {items[0]} {
      if c in items[1..] {
        var i :| 0 <= i < |items[1..]| && items[1..][i] == c;
        assert items[i + 1] == c;
      }
    }
  }

  lemma PlainStep(all: set<Item>, c: Item)
    requires c in all
    ensures |Plain(all)| == |Plain(all - {c})| + (if c.key.None? && !c.polled then 1 else 0)
  {
    if c.key.None? && !c.polled {
      assert Plain(all) == Plain(all - {c}) + {c};
    } else {
      assert Plain(all) == Plain(all - {c});
    }
  }

  /** A container whose key is new takes that key out of what is still to be announced. */
  lemma NewKeyStep(all: set<Item>, c: Item, seen: set<string>)
    requires c in all && Uniform(all) && c.key.Some? && c.key.value !in seen
    ensures |UnpolledKeys(all) - seen|
         == |UnpolledKeys(all - {c}) - (seen + {c.key.value})| + (if c.polled then 0 else 1)
  {
    var k := c.key.value;
    var fewer := UnpolledKeys(all - {c}) - (seen + {k});
    if c.polled {
      assert k !in UnpolledKeys(all);
      assert UnpolledKeys(all) - seen == fewer;
    } else {
      assert k in UnpolledKeys(all);
      assert UnpolledKeys(all) - seen == fewer + {k};
    }
  }

  lemma OldKeyStep(all: set<Item>, c: Item, seen: set<string>)
    requires c in all && (c.key.None? || c.key.value in seen)
    ensures UnpolledKeys(all) - seen == UnpolledKeys(all - {c}) - seen
  {
  }

  lemma {:induction false} CountFrom(items: seq<Item>, all: set<Item>, seen: set<string>)
    requires Enumerates(items, all) && Uniform(all)
    ensures |Chosen(items, seen)| == |Plain(all)| + |UnpolledKeys(all) - seen|
  {
    if items == [] {
      assert Plain(all) == {} && UnpolledKeys(all) - seen == {};
    } else {
      var c := items[0];
      EnumeratesRest(items, all);
      PlainStep(all, c);
      if c.key.Some? && c.key.value !in seen {
        NewKeyStep(all, c, seen);
        CountFrom(items[1..], all - {c}, seen + {c.key.value});
      } else {
        OldKeyStep(all, c, seen);
        CountFrom(items[1..], all - {c}, seen);
      }
    }
  }

  /** Two replicas of one service, one of them polled: the order in which they come decides. */
  lemma MixedOrders(p: Item, u: Item, rest: seq<Item>)
    requires p.key.Some? && p.key == u.key && p.polled && !u.polled
    ensures |Chosen([u, p] + rest, {})| == |Chosen([p, u] + rest, {})| + 1
  {
    var k := p.key.value;
    var first, second := [u, p] + rest, [p, u] + rest;
    assert first[1..] == [p] + rest && second[1..] == [u] + rest;
    assert ([p] + rest)[1..] == rest && ([u] + rest)[1..] == rest;
    assert {} + {k} == {k};
    assert Chosen([p] + rest, {k}) == Chosen(rest, {k}) == Chosen([u] + rest, {k});
  }

  lemma {:induction false} SomeOrder(all: set<Item>) returns (items: seq<Item>)
    ensures Enumerates(items, all)
  {
    items := [];
    var left := all;
    while left != {}
      invariant left <= all && Enumerates(items, all - left)
      decreases |left|
    {
      var c :| c in left;
      items, left := items + [c], left - {c};
    }
    assert all - left == all;
  }

  ghost predicate SameCount(all: set<Item>) {
    forall a, b | Enumerates(a, all) && Enumerates(b, all) :: |Chosen(a, {})| == |Chosen(b, {})|
  }

  /**
   Without the gate in front of it, the number of events does not depend on the order in
   which the containers come if and only if no service has both polled and unpolled replicas.
   */
  lemma CountExactly(all: set<Item>)
    ensures SameCount(all) <==> Uniform(all)
  {
    if Uniform(all) {
      forall a, b | Enumerates(a, all) && Enumerates(b, all) ensures |Chosen(a, {})| == |Chosen(b, {})| {
        CountFrom(a, all, {});
        CountFrom(b, all, {});
      }
    } else {
      var p, u :| p in all && u in all && p.key.Some? && p.key == u.key && p.polled && !u.polled;
      MixedCounts(all, p, u);
    }
  }

  lemma MixedCounts(all: set<Item>, p: Item, u: Item)
    requires p in all && u in all && p.key.Some? && p.key == u.key && p.polled && !u.polled
    ensures !SameCount(all)
  {
    var rest := SomeOrder(all - {p, u});
    EnumeratesPair(p, u, rest, all);
    assert {p, u} == {u, p};
    EnumeratesPair(u, p, rest, all);
    MixedOrders(p, u, rest);
  }

  lemma EnumeratesPair(p: Item, u: Item, rest: seq<Item>, all: set<Item>)
    requires p in all && u in all && p != u && Enumerates(rest, all - {p, u})
    ensures Enumerates([p, u] + rest, all)
  {
    forall c ensures c in [p, u] + rest <==> c in all {
      assert c in rest <==> c in all - {p, u};
    }
  }

  /** Past the gate nothing is polled: one event per container without a key, one per key. */
  lemma CountPastGate(items: seq<Item>, all: set<Item>)
    requires Enumerates(items, all) && forall c | c in all :: !c.polled
    ensures |Chosen(items, {})| == |set c | c in all && c.key.None?| + |KeysOf(all)|
  {
    CountFrom(items, all, {});
    assert Plain(all) == set c | c in all && c.key.None?;
    assert UnpolledKeys(all) - {} == KeysOf(all);
  }

  /** Who gets an event: the plain ones, and of each key not seen before the first. */
  lemma {:induction false} ChosenOnes(items: seq<Item>, seen: set<string>)
    ensures forall c | c in Chosen(items, seen) :: c in items && !c.polled && (c.key.Some? ==> c.key.value !in seen)
    ensures forall i, j | 0 <= i < j < |Chosen(items, seen)| :: Chosen(items, seen)[i].key.Some? ==>
      Chosen(items, seen)[i].key != Chosen(items, seen)[j].key
    ensures forall c | c in items && c.key.None? && !c.polled :: c in Chosen(items, seen)
  {
    if items != [] {
      var c := items[0];
      ChosenOnes(items[1..], if c.key.Some? then seen + {c.key.value} else seen);
      if c.key.Some? && c.key.value in seen {
        assert seen + {c.key.value} == seen;
      }
    }
  }

  /** The key of a project and a service, as the loop builds it. */
  function Key(project: string, service: string): string {
    project + "_" + service
  }

  ghost predicate ToldApart(p1: string, p2: string) {
    forall s1, s2 {:trigger Key(p1, s1), Key(p2, s2)} | s1 != "" && s2 != "" :: Key(p1, s1) != Key(p2, s2)
  }

  /** A project whose name continues another's after an underscore shares keys with it. */
  lemma SharedKey(p1: string, p2: string)
    requires p1 + "_" <= p2
    ensures !ToldApart(p1, p2) && !ToldApart(p2, p1)
  {
    var s1, s2 := p2[|p1| + 1..] + "_" + "x", "x";
    assert p2 == p1 + "_" + p2[|p1| + 1..];
    assert Key(p1, s1) == Key(p2, s2);
  }

  lemma EqualKeys(p1: string, s1: string, p2: string, s2: string)
    requires Key(p1, s1) == Key(p2, s2) && |p1| < |p2|
    ensures p1 + "_" <= p2
  {
    var k := Key(p1, s1);
    assert k[..|p1| + 1] == p1 + "_";
    assert Key(p2, s2)[..|p2|] == p2 && p2[..|p1| + 1] == k[..|p1| + 1];
  }

  /**
   Two projects are told apart whatever their services are called if and only if neither
   name, followed by an underscore, begins the other. Otherwise services of the two can
   share a key, and then one event.
   */
  lemma KeysTellApart(p1: string, p2: string)
    requires p1 != p2
    ensures ToldApart(p1, p2) <==> !(p1 + "_" <= p2) && !(p2 + "_" <= p1)
  {
    if p1 + "_" <= p2 {
      SharedKey(p1, p2);
    } else if p2 + "_" <= p1 {
      SharedKey(p2, p1);
    } else {
      forall s1, s2 | s1 != "" && s2 != "" ensures Key(p1, s1) != Key(p2, s2) {
        if Key(p1, s1) == Key(p2, s2) {
          SameLengthDiffers(p1, s1, p2, s2);
          if |p1| < |p2| { EqualKeys(p1, s1, p2, s2); } else { EqualKeys(p2, s2, p1, s1); }
        }
      }
    }
  }

  lemma SameLengthDiffers(p1: string, s1: string, p2: string, s2: string)
    requires Key(p1, s1) == Key(p2, s2) && p1 != p2
    ensures |p1| != |p2|
  {
    assert Key(p1, s1)[..|p1|] == p1 && Key(p2, s2)[..|p2|] == p2;
  }

  /** Within one project every service has its own key. */
  lemma ServicesTellApart(project: string, s1: string, s2: string)
    ensures Key(project, s1) == Key(project, s2) <==> s1 == s2
  {
    assert Key(project, s1)[|project| + 1..] == s1 && Key(project, s2)[|project| + 1..] == s2;
  }

  /** Of each service the replica that comes first is the one that counts. */
  lemma {:induction false} FirstChosen(items: seq<Item>, seen: set<string>, i: nat)
    requires i < |items| && items[i].key.Some? && items[i].key.value !in seen
    requires forall k | 0 <= k < i :: items[k].key != items[i].key
    ensures items[i].polled ==> forall c | c in Chosen(items, seen) :: c.key != items[i].key
    ensures !items[i].polled ==> items[i] in Chosen(items, seen)
  {
    var first := items[0];
    if i == 0 {
      ChosenOnes(items[1..], seen + {first.key.value});
    } else {
      assert items[1..][i - 1] == items[i];
      if first.key.Some? && first.key.value !in seen {
        FirstChosen(items[1..], seen + {first.key.value}, i - 1);
      } else {
        FirstChosen(items[1..], seen, i - 1);
      }
    }
  }

  lemma {:induction false} KeyCovered(items: seq<Item>, seen: set<string>, i: nat)
    requires i < |items| && items[i].key.Some? && items[i].key.value !in seen
    requires forall k | 0 <= k < |items| && items[k].key == items[i].key :: !items[k].polled
    ensures exists c :: c in Chosen(items, seen) && c in items && c.key == items[i].key
  {
    var first := items[0];
    if first.key == items[i].key {
      assert first in Chosen(items, seen);
    } else {
      assert items[1..][i - 1] == items[i];
      if first.key.Some? && first.key.value !in seen {
        KeyCovered(items[1..], seen + {first.key.value}, i - 1);
      } else {
        KeyCovered(items[1..], seen, i - 1);
      }
    }
  }

  /** The two compose labels of a container with a key. */
  function Project(labels: S.Labels): string {
    Semver.Label(labels, "com.docker.compose.project")
  }

  function Service(labels: S.Labels): string {
    Semver.Label(labels, "com.docker.compose.service")
  }

  /**
   Every service gets an event of its own: past the gate, if no other project's name continues
   this container's project after an underscore or the other way round, an event is published
   for a container of the same project and the same service.
   */
  lemma OwnEvent(items: seq<Item>, modes: Modes, i: nat)
    requires forall k | 0 <= k < |items| :: items[k] == ItemOf(items[k].state, modes) && !items[k].polled
    requires i < |items| && items[i].key.Some?
    requires forall k | 0 <= k < |items| && items[k].key.Some? ::
      var p, q := Project(items[i].state.labels), Project(items[k].state.labels);
      p == q || (!(p + "_" <= q) && !(q + "_" <= p))
    ensures exists c ::
      && c in Chosen(items, {}) && c.key == items[i].key
      && Project(c.state.labels) == Project(items[i].state.labels)
      && Service(c.state.labels) == Service(items[i].state.labels)
  {
    KeyCovered(items, {}, i);
    var c :| c in Chosen(items, {}) && c in items && c.key == items[i].key;
    var k :| 0 <= k < |items| && items[k] == c;
    var p1, s1 := Project(items[i].state.labels), Service(items[i].state.labels);
    var p2, s2 := Project(c.state.labels), Service(c.state.labels);
    KeyMeans(items[i].state.labels);
    KeyMeans(c.state.labels);
    assert Key(p1, s1) == Key(p2, s2);
    if p1 != p2 {
      KeysTellApart(p1, p2);
    }
    ServicesTellApart(p1, s1, s2);
  }

  // ---- The handler ----------------------------------------------------------

  ghost function Matching(view: S.StoreView<S.ContainerState>, image: string): set<S.State> {
    set id | id in view.index && view.index[id] in view.heap && StripTag(view.heap[view.index[id]].image) == image
      :: view.heap[view.index[id]]
  }

  ghost function ItemsOf(states: set<S.State>, modes: Modes): set<Item> {
    set s | s in states :: ItemOf(s, modes)
  }

  ghost function ItemSeq(affected: seq<S.ContainerState>, modes: Modes): seq<Item>
    reads affected
  {
    seq(|affected|, i requires 0 <= i < |affected| reads affected => ItemOf(affected[i].Snapshot(), modes))
  }

  function EventFor(s: S.State, image: string, digest: string): C.Update {
    C.Update(s.id, s.name, image, s.CurrentDigest(), digest)
  }

  function EventsFor(chosen: seq<Item>, image: string, digest: string): seq<C.Update> {
    seq(|chosen|, i requires 0 <= i < |chosen| => EventFor(chosen[i].state, image, digest))
  }

  /** The tracked containers whose image, tag aside, is the pushed one. */
  method ContainersForImage(store: S.Store, image: string) returns (matched: seq<S.ContainerState>)
    requires store.Valid()
    ensures Affected(store, matched, image)
    ensures forall o :: o in matched <==>
      && o in store.containers.Values
      && ((o.image == image && ':' !in image) || (image + ":" <= o.image && ':' !in o.image[|image| + 1..]))
  {
    var all := store.All();
    forall o: S.ContainerState | o in all ensures StripTag(o.image) == image <==>
        (o.image == image && ':' !in image) || (image + ":" <= o.image && ':' !in o.image[|image| + 1..])
    {
      Matched(o.image, image);
    }
    matched := [];
    for i := 0 to |all|
      invariant forall o :: o in matched <==> o in all[..i] && StripTag(o.image) == image
      invariant forall j, k | 0 <= j < k < |matched| :: matched[j] != matched[k]
    {
      if StripTag(all[i].image) == image {
        matched := matched + [all[i]];
      }
    }
    assert all[..|all|] == all;
  }

  /** Where the loop stands: `chosen` so far, what remains decided by the keys seen. */
  ghost predicate Midway(items: seq<Item>, i: nat, seen: set<string>, chosen: seq<Item>) {
    i <= |items| && Chosen(items, {}) == chosen + Chosen(items[i..], seen)
  }

  lemma Onward(items: seq<Item>, i: nat, seen: set<string>, chosen: seq<Item>)
    requires Midway(items, i, seen, chosen) && i < |items|
    ensures var c := items[i];
      var marked := if c.key.Some? then seen + {c.key.value} else seen;
      if c.key.Some? && c.key.value in seen then Midway(items, i + 1, seen, chosen)
      else Midway(items, i + 1, marked, if c.polled then chosen else chosen + [c])
  {
    assert items[i..][0] == items[i] && items[i..][1..] == items[i + 1..];
  }

  lemma AtEnd(items: seq<Item>, seen: set<string>, chosen: seq<Item>)
    requires Midway(items, |items|, seen, chosen)
    ensures chosen == Chosen(items, {})
  {
    assert items[|items|..] == [] && chosen + [] == chosen;
  }

  /** Whose events these are. */
  lemma EventsMean(affected: seq<S.ContainerState>, image: string, digest: string, modes: Modes)
    ensures var events := EventsFor(Chosen(ItemSeq(affected, modes), {}), image, digest);
      && (forall e | e in events :: exists o ::
            && o in affected && !(o.name in modes && modes[o.name] == "poll")
            && e == C.Update(o.id, o.name, image, o.CurrentDigest(), digest))
      && (forall o | o in affected && ComposeKey(o.labels).None? && !(o.name in modes && modes[o.name] == "poll") ::
            C.Update(o.id, o.name, image, o.CurrentDigest(), digest) in events)
  {
    var items := ItemSeq(affected, modes);
    var chosen := Chosen(items, {});
    var events := EventsFor(chosen, image, digest);
    ChosenOnes(items, {});
    forall e | e in events ensures exists o ::
        && o in affected && !(o.name in modes && modes[o.name] == "poll")
        && e == C.Update(o.id, o.name, image, o.CurrentDigest(), digest)
    {
      var k :| 0 <= k < |events| && events[k] == e;
      assert chosen[k] in chosen;
      var i :| 0 <= i < |items| && items[i] == chosen[k];
      assert affected[i] in affected;
    }
    forall o | o in affected && ComposeKey(o.labels).None? && !(o.name in modes && modes[o.name] == "poll")
      ensures C.Update(o.id, o.name, image, o.CurrentDigest(), digest) in events
    {
      var i :| 0 <= i < |affected| && affected[i] == o;
      assert items[i] in items;
      var k :| 0 <= k < |chosen| && chosen[k] == items[i];
      assert events[k] == C.Update(o.id, o.name, image, o.CurrentDigest(), digest);
    }
  }

  /** The loop: replicas of a key already seen are passed over, and so are polled containers. */
  method PublishEach(affected: seq<S.ContainerState>, image: string, digest: string, modes: Modes)
    returns (events: seq<C.Update>)
    ensures events == EventsFor(Chosen(ItemSeq(affected, modes), {}), image, digest)
    ensures forall e | e in events :: exists o ::
      && o in affected && !(o.name in modes && modes[o.name] == "poll")
      && e == C.Update(o.id, o.name, image, o.CurrentDigest(), digest)
    ensures forall o | o in affected && ComposeKey(o.labels).None? && !(o.name in modes && modes[o.name] == "poll") ::
      C.Update(o.id, o.name, image, o.CurrentDigest(), digest) in events
  {
    ghost var items, chosen := ItemSeq(affected, modes), [];
    var seen: set<string> := {};
    events := [];
    for i := 0 to |affected|
      invariant Midway(items, i, seen, chosen) && events == EventsFor(chosen, image, digest)
    {
      var cs := affected[i];
      Onward(items, i, seen, chosen);
      var key := ComposeKey(cs.labels);
      if key.Some? {
        if key.value in seen {
          continue;
        }
        seen := seen + {key.value};
      }
      if cs.name in modes && modes[cs.name] == "poll" {
        continue;
      }
      events := events + [C.Update(cs.id, cs.name, image, cs.CurrentDigest(), digest)];
      chosen := chosen + [items[i]];
    }
    AtEnd(items, seen, chosen);
    EventsMean(affected, image, digest, modes);
  }

  ghost predicate Affected(store: S.Store, affected: seq<S.ContainerState>, image: string)
    reads store, store.containers.Values
  {
    && (forall o | o in affected :: o in store.containers.Values && StripTag(o.image) == image)
    && (forall o | o in store.containers.Values && StripTag(o.image) == image :: o in affected)
    && forall i, j | 0 <= i < j < |affected| :: affected[i] != affected[j]
  }

  ghost function Snapshots(affected: seq<S.ContainerState>): (r: seq<S.State>)
    reads affected
    ensures |r| == |affected| && forall i | 0 <= i < |r| :: r[i] == affected[i].Snapshot()
  {
    seq(|affected|, i requires 0 <= i < |affected| reads affected => affected[i].Snapshot())
  }

  ghost predicate Lists(states: seq<S.State>, all: set<S.State>) {
    && (forall i | 0 <= i < |states| :: states[i] in all)
    && (forall s | s in all :: exists i :: 0 <= i < |states| && states[i] == s)
    && forall i, j | 0 <= i < j < |states| :: states[i] != states[j]
  }

  /** The affected objects, in whatever order, list every matching state once. */
  lemma ListsMatching(store: S.Store, affected: seq<S.ContainerState>, image: string)
    requires store.Valid() && Affected(store, affected, image)
    ensures Lists(Snapshots(affected), Matching(store.View(), image))
  {
    var view, states := store.View(), Snapshots(affected);
    forall i | 0 <= i < |states| ensures states[i] in Matching(view, image) {
      assert affected[i] in affected;
      S.Tracked(store, affected[i]);
      assert view.index[affected[i].id] == affected[i];
    }
    forall s | s in Matching(view, image) ensures exists i :: 0 <= i < |states| && states[i] == s {
      var id :| id in view.index && view.index[id] in view.heap && view.heap[view.index[id]] == s;
      var o := view.index[id];
      assert o in store.containers.Values;
      S.Tracked(store, o);
      var i :| 0 <= i < |affected| && affected[i] == o;
      assert states[i] == s;
    }
    forall i, j | 0 <= i < j < |states| ensures states[i] != states[j] {
      assert affected[i] in affected && affected[j] in affected;
      S.Tracked(store, affected[i]);
      S.Tracked(store, affected[j]);
    }
  }

  lemma ItemsEnumerate(affected: seq<S.ContainerState>, all: set<S.State>, modes: Modes)
    requires Lists(Snapshots(affected), all)
    ensures Enumerates(ItemSeq(affected, modes), ItemsOf(all, modes))
  {
    var states, items := Snapshots(affected), ItemSeq(affected, modes);
    assert forall i | 0 <= i < |items| :: items[i] == ItemOf(states[i], modes) && items[i].state == states[i];
  }

  /** The gate: is any affected container in poll mode? */
  method AnyPolled(affected: seq<S.ContainerState>, modes: Modes) returns (found: bool)
    ensures found <==> exists o :: o in affected && o.name in modes && modes[o.name] == "poll"
    ensures found <==> exists i :: 0 <= i < |affected| && Polled(Snapshots(affected)[i], modes)
  {
    for i := 0 to |affected|
      invariant forall k | 0 <= k < i :: !Polled(Snapshots(affected)[k], modes)
      invariant forall o | o in affected[..i] :: !(o.name in modes && modes[o.name] == "poll")
    {
      if affected[i].name in modes && modes[affected[i].name] == "poll" {
        assert Polled(Snapshots(affected)[i], modes) && affected[i] in affected;
        return true;
      }
    }
    found := false;
  }

  lemma CountUnpolled(order: seq<Item>, states: set<S.State>, modes: Modes)
    requires Enumerates(order, ItemsOf(states, modes)) && forall s | s in states :: !Polled(s, modes)
    ensures var all := ItemsOf(states, modes);
      |Chosen(order, {})| == |set c | c in all && c.key.None?| + |KeysOf(all)|
  {
    CountPastGate(order, ItemsOf(states, modes));
  }

  /**
   Every event speaks of a tracked, unpolled container on the pushed image, and every such
   container that is no part of an opted-in compose service has its event.
   */
  ghost predicate FromStore(store: S.Store, events: seq<C.Update>, name: string, image: string, digest: string,
                            modes: Modes)
    reads store, store.containers.Values
  {
    && (forall e | e in events :: exists o ::
          && o in store.containers.Values && StripTag(o.image) == name && !(o.name in modes && modes[o.name] == "poll")
          && e == C.Update(o.id, o.name, image, o.CurrentDigest(), digest))
    && (forall o | o in store.containers.Values && StripTag(o.image) == name && ComposeKey(o.labels).None?
          && !(o.name in modes && modes[o.name] == "poll") ::
          C.Update(o.id, o.name, image, o.CurrentDigest(), digest) in events)
  }

  /** One pass over the store: the matching containers, dispatched in whatever order they came. */
  method Dispatch(store: S.Store, image: string, tag: string, digest: string, modes: Modes)
    returns (events: seq<C.Update>, ghost order: seq<Item>)
    requires store.Valid()
    ensures Enumerates(order, ItemsOf(Matching(store.View(), image), modes))
    ensures events == EventsFor(Chosen(order, {}), image + ":" + tag, digest)
    ensures FromStore(store, events, image, image + ":" + tag, digest, modes)
  {
    ghost var view := store.View();
    var affected := ContainersForImage(store, image);
    assert store.View() == view;
    ListsMatching(store, affected, image);
    ItemsEnumerate(affected, Matching(view, image), modes);
    order := ItemSeq(affected, modes);
    events := PublishEach(affected, image + ":" + tag, digest, modes);
  }

  /** Whether some tracked container that a push concerns is polled. */
  method Gate(store: S.Store, image: string, modes: Modes) returns (polled: bool)
    requires store.Valid()
    ensures polled <==> exists s :: s in Matching(store.View(), image) && Polled(s, modes)
    ensures polled <==> exists o ::
      o in store.containers.Values && StripTag(o.image) == image && o.name in modes && modes[o.name] == "poll"
  {
    ghost var view := store.View();
    var affected := ContainersForImage(store, image);
    assert store.View() == view;
    ListsMatching(store, affected, image);
    polled := AnyPolled(affected, modes);
  }

  /** Past the gate: who gets an event, in which order, and how many there are. */
  method DispatchUnpolled(store: S.Store, image: string, tag: string, digest: string, modes: Modes)
    returns (events: seq<C.Update>, ghost order: seq<Item>)
    requires store.Valid() && forall s | s in Matching(store.View(), image) :: !Polled(s, modes)
    ensures var all := ItemsOf(Matching(store.View(), image), modes);
      && Enumerates(order, all) && events == EventsFor(Chosen(order, {}), image + ":" + tag, digest)
      && |events| == |set c | c in all && c.key.None?| + |KeysOf(all)|
    ensures FromStore(store, events, image, image + ":" + tag, digest, modes)
  {
    ghost var states := Matching(store.View(), image);
    events, order := Dispatch(store, image, tag, digest, modes);
    CountUnpolled(order, states, modes);
  }

  /** The gate, and behind it the dispatch, which looks the containers up again, perhaps in another order. */
  method GateAndDispatch(store: S.Store, image: string, tag: string, digest: string, modes: Modes)
    returns (polled: bool, events: seq<C.Update>, ghost order: seq<Item>)
    requires store.Valid()
    ensures polled <==> exists o ::
      && o in old(store.containers.Values) && StripTag(old(o.image)) == image
      && old(o.name) in modes && modes[old(o.name)] == "poll"
    ensures polled ==> events == []
    ensures !polled ==>
      var all := ItemsOf(old(Matching(store.View(), image)), modes);
      && Enumerates(order, all) && events == EventsFor(Chosen(order, {}), image + ":" + tag, digest)
      && |events| == |set c | c in all && c.key.None?| + |KeysOf(all)|
      && old(FromStore(store, events, image, image + ":" + tag, digest, modes))
  {
    ghost var view := store.View();
    events, order := [], [];
    polled := Gate(store, image, modes);
    assert store.View() == view;
    if !polled {
      events, order := DispatchUnpolled(store, image, tag, digest, modes);
    }
  }

  datatype Reply = BadRequest | Forbidden | Accepted(deployId: string)

  /** The queued job that the caller is told to track; nothing ever finishes it. */
  method RegisterPush(registry: R.Registry, image: string, jobId: string) returns (job: J.DeployJob)
    requires registry.Valid()
    modifies registry
    ensures registry.Valid() && registry.View() == old(registry.View()).Register(jobId, image)
    ensures fresh(job) && job.id == jobId && job.status == J.Queued && registry.jobs == old(registry.jobs)[jobId := job]
  {
    job := new J.DeployJob(jobId, image, image, "webhook");
    registry.Register(job);
  }

  /**
   A signed push: without image or tag a bad request; refused, with nothing published, exactly
   when some matching container is polled; otherwise the first matching container of every
   compose key and every one without a key get their event, and a job is registered.
   */
  method HandlePush(store: S.Store, registry: R.Registry, image: string, tag: string, digest: string, modes: Modes,
                    jobId: string)
    returns (reply: Reply, events: seq<C.Update>, ghost order: seq<Item>)
    requires store.Valid() && registry.Valid()
    modifies registry
    ensures registry.Valid() && (reply == BadRequest <==> image == "" || tag == "")
    ensures reply == Forbidden <==>
      reply != BadRequest && exists o ::
        && o in old(store.containers.Values) && StripTag(old(o.image)) == image
        && old(o.name) in modes && modes[old(o.name)] == "poll"
    ensures reply == Accepted(jobId) ==> old(FromStore(store, events, image, image + ":" + tag, digest, modes))
    ensures reply == BadRequest || reply == Forbidden || reply == Accepted(jobId)
    ensures reply != Accepted(jobId) ==> events == [] && registry.View() == old(registry.View())
    ensures reply == Accepted(jobId) ==>
      var all := ItemsOf(old(Matching(store.View(), image)), modes);
      && Enumerates(order, all) && events == EventsFor(Chosen(order, {}), image + ":" + tag, digest)
      && |events| == |set c | c in all && c.key.None?| + |KeysOf(all)|
      && registry.View() == old(registry.View()).Register(jobId, image + ":" + tag)
  {
    events, order := [], [];
    if image == "" || tag == "" {
      return BadRequest, [], [];
    }
    var polled;
    polled, events, order := GateAndDispatch(store, image, tag, digest, modes);
    if polled {
      return Forbidden, [], [];
    }
    var _ := RegisterPush(registry, image + ":" + tag, jobId);
    reply := Accepted(jobId);
  }

  /**
   A Docker Hub push has no such gate: the events are for whoever the order puts first. With
   uniform services their number does not depend on it.
   */
  method HandleDockerHub(store: S.Store, image: string, tag: string, modes: Modes)
    returns (events: seq<C.Update>, ghost order: seq<Item>)
    requires store.Valid()
    ensures image == "" || tag == "" ==> events == []
    ensures image != "" && tag != "" ==>
      var all := ItemsOf(Matching(store.View(), image), modes);
      && Enumerates(order, all) && events == EventsFor(Chosen(order, {}), image + ":" + tag, "")
      && (Uniform(all) ==> |events| == |Plain(all)| + |UnpolledKeys(all)|)
    ensures image != "" && tag != "" ==> FromStore(store, events, image, image + ":" + tag, "", modes)
  {
    events, order := [], [];
    if image != "" && tag != "" {
      ghost var all := ItemsOf(Matching(store.View(), image), modes);
      events, order := Dispatch(store, image, tag, "", modes);
      if Uniform(all) {
        CountFrom(order, all, {});
        assert UnpolledKeys(all) - {} == UnpolledKeys(all);
      }
    }
  }

  /**
   What becomes of a push without a full digest, as every Docker Hub push is: if the update
   is applied and its container turns unhealthy, the monitor's report makes the rollback engine
   panic, exactly when the pushed digest is shorter than sixteen characters.
   */
  lemma FatalPush(chosen: seq<Item>, image: string, digest: string, i: nat, w: C.World, newId: string)
    requires i < |chosen| && newId != ""
    requires var e := EventsFor(chosen, image, digest)[i];
      C.Applied(newId, e.name, e.image, e.oldDigest, e.newDigest) in w.applied
    ensures var e := EventsFor(chosen, image, digest)[i];
      var after := C.Do(w, C.WatchFailed(C.Applied(newId, e.name, e.image, e.oldDigest, e.newDigest)));
      exists m :: m in after.unhealthy && m.id == newId && m.applied == digest && (C.Fatal(m) <==> |digest| < 16)
  {
    var e := EventsFor(chosen, image, digest)[i];
    C.FatalMonitorReport(w, C.Applied(newId, e.name, e.image, e.oldDigest, e.newDigest));
    var tracked := newId in w.store.index && w.store.index[newId] in w.store.heap;
    var h := if tracked then w.store.heap[w.store.index[newId]].history else [];
    var m := C.Unhealthy(newId, e.name, e.image, e.newDigest, if |h| < 2 then "" else h[1].digest);
    assert m in w.unhealthy + {m};
  }
}
