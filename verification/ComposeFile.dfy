/**
 updater.go: swapping the image tag of one service in a parsed compose file. A file is a
 tree of YAML nodes; the patch finds the first services / <service> / image entry and
 assigns to that node's value in place. `Tree` is the value of such a tree, and `Patch`
 what the in-place method is proved to do to it.
 */
module ComposeFile {
  import opened GoStrings
  import ImageRefs

  datatype Kind = Document | Sequence | Mapping | Scalar | Alias

  datatype Tree = Node(kind: Kind, value: string, content: seq<Tree>)

  datatype Error = NoServices | NoService | NoImage

  datatype Result<+T> = Ok(value: T) | Err(error: Error)

  // ---- Finding the node -----------------------------------------------------

  /** A mapping's children alternate keys and values: the index of the first value under `key`. */
  function FirstKey(values: seq<string>, key: string, from: nat): (r: Option<nat>)
    requires from % 2 == 0
    ensures r.Some? ==> from < r.value < |values| && r.value % 2 == 1 && values[r.value - 1] == key
    ensures r.Some? ==> forall i | from <= i < r.value - 1 && i % 2 == 0 :: values[i] != key
    ensures r.None? ==> forall i | from <= i < |values| - 1 && i % 2 == 0 :: values[i] != key
    decreases |values| - from
  {
    if from + 1 >= |values| then None
    else if values[from] == key then Some(from + 1)
    else FirstKey(values, key, from + 2)
  }

  function ValuesOf(content: seq<Tree>): seq<string> {
    seq(|content|, i requires 0 <= i < |content| => content[i].value)
  }

  function KeyIn(t: Tree, key: string): (r: Option<nat>)
    ensures r.Some? ==> 0 < r.value < |t.content|
  {
    if t.kind == Mapping then FirstKey(ValuesOf(t.content), key, 0) else None
  }

  /** A path names a node by the child indices that lead to it. */
  predicate HasPath(t: Tree, path: seq<nat>)
    decreases |path|
  {
    path != [] ==> path[0] < |t.content| && HasPath(t.content[path[0]], path[1..])
  }

  function Follow(t: Tree, path: seq<nat>): Tree
    requires HasPath(t, path)
    decreases |path|
  {
    if path == [] then t else Follow(t.content[path[0]], path[1..])
  }

  /** The tree with one node's value replaced. */
  function Edit(t: Tree, path: seq<nat>, v: string): Tree
    requires HasPath(t, path)
    decreases |path|
  {
    if path == [] then t.(value := v)
    else WithChild(t, path[0], Edit(t.content[path[0]], path[1..], v))
  }

  function WithChild(t: Tree, i: nat, child: Tree): Tree
    requires i < |t.content|
  {
    t.(content := t.content[i := child])
  }

  function Prefixed(i: nat, path: seq<nat>): (r: seq<nat>)
    ensures r != [] && r[0] == i && r[1..] == path
  {
    [i] + path
  }

  function ImagePath(service: Tree): (r: Result<seq<nat>>)
    ensures r.Ok? ==> HasPath(service, r.value)
  {
    var c := KeyIn(service, "image");
    if c.None? then Err(NoImage) else Ok(Prefixed(c.value, []))
  }

  function ServicePath(services: Tree, service: string): (r: Result<seq<nat>>)
    ensures r.Ok? ==> HasPath(services, r.value)
  {
    var b := KeyIn(services, service);
    if b.None? then Err(NoService)
    else
      var rest := ImagePath(services.content[b.value]);
      if rest.Err? then rest else Ok(Prefixed(b.value, rest.value))
  }

  /** The path of the image node of a service, from the document's top mapping. */
  function Locate(t: Tree, service: string): (r: Result<seq<nat>>)
    ensures r.Ok? ==> HasPath(t, r.value)
  {
    var a := KeyIn(t, "services");
    if a.None? then Err(NoServices)
    else
      var rest := ServicePath(t.content[a.value], service);
      if rest.Err? then rest else Ok(Prefixed(a.value, rest.value))
  }

  /** A lookup is in a mapping, among its keys, and finds the first that reads like the one sought. */
  lemma {:induction false} KeyMeans(t: Tree, key: string)
    ensures KeyIn(t, key).None? <==>
      t.kind == Mapping ==> forall i | 0 <= i < |t.content| - 1 && i % 2 == 0 :: t.content[i].value != key
    ensures KeyIn(t, key).Some? ==>
      var i := KeyIn(t, key).value;
      && t.kind == Mapping && 0 < i < |t.content| && i % 2 == 1 && t.content[i - 1].value == key
      && forall j | 0 <= j < i - 1 && j % 2 == 0 :: t.content[j].value != key
  {
    var values := ValuesOf(t.content);
    assert forall i | 0 <= i < |values| :: values[i] == t.content[i].value;
    if t.kind == Mapping && KeyIn(t, key).Some? {
      assert values[KeyIn(t, key).value - 1] == key;
    }
  }

  /**
   The image of a service is under the first key "image" of the mapping under the first key
   with the service's name of the mapping under the first key "services".
   */
  lemma {:induction false} LocateFinds(t: Tree, service: string)
    ensures Locate(t, service).Ok? ==>
      var p := Locate(t, service).value;
      && |p| == 3 && KeyIn(t, "services") == Some(p[0])
      && KeyIn(t.content[p[0]], service) == Some(p[1])
      && KeyIn(t.content[p[0]].content[p[1]], "image") == Some(p[2])
    ensures Locate(t, service) == Err(NoServices) <==> KeyIn(t, "services").None?
    ensures Locate(t, service) == Err(NoService) <==>
      KeyIn(t, "services").Some? && KeyIn(t.content[KeyIn(t, "services").value], service).None?
    ensures Locate(t, service) == Err(NoImage) ==>
      KeyIn(t, "services").Some? && KeyIn(t.content[KeyIn(t, "services").value], service).Some?
  {
  }

  function Patch(t: Tree, service: string, newTag: string): Result<Tree> {
    var p := Locate(t, service);
    if p.Err? then Err(p.error)
    else Ok(Edit(t, p.value, ImageRefs.ReplaceTag(Follow(t, p.value).value, newTag)))
  }

  // ---- What a patch changes -------------------------------------------------

  ghost predicate SameNode(a: Tree, b: Tree) {
    a.kind == b.kind && |a.content| == |b.content| && a.value == b.value
  }

  /** An edit keeps every node in its place with all it holds, except the one value. */
  lemma {:induction false} EditFrames(t: Tree, p: seq<nat>, v: string, path: seq<nat>)
    requires HasPath(t, p) && HasPath(t, path)
    ensures HasPath(Edit(t, p, v), path)
    ensures SameNode(Follow(Edit(t, p, v), path), if path == p then Follow(t, path).(value := v) else Follow(t, path))
    decreases |path|
  {
    if path != [] && p != [] && path[0] == p[0] {
      EditFrames(t.content[p[0]], p[1..], v, path[1..]);
      assert path[1..] == p[1..] ==> path == [path[0]] + path[1..] == p;
    }
  }

  /** A successful patch changes exactly the value of one node. */
  lemma PatchFrames(t: Tree, service: string, newTag: string, path: seq<nat>)
    requires Patch(t, service, newTag).Ok? && HasPath(t, path)
    ensures var u := Patch(t, service, newTag).value;
      && HasPath(u, path)
      && SameNode(Follow(u, path),
                  if path == Locate(t, service).value
                  then Follow(t, path).(value := ImageRefs.ReplaceTag(Follow(t, path).value, newTag))
                  else Follow(t, path))
  {
    var p := Locate(t, service).value;
    EditFrames(t, p, ImageRefs.ReplaceTag(Follow(t, p).value, newTag), path);
  }

  // ---- Patches together -----------------------------------------------------

  lemma {:induction false} FirstKeyStable(a: seq<string>, b: seq<string>, key: string, from: nat)
    requires |a| == |b| && from % 2 == 0 && forall i | 0 <= i < |a| && i % 2 == 0 :: a[i] == b[i]
    ensures FirstKey(a, key, from) == FirstKey(b, key, from)
    decreases |a| - from
  {
    if from + 1 < |a| {
      FirstKeyStable(a, b, key, from + 2);
    }
  }

  /** Keys sit at even positions: a new child at an odd one leaves every lookup as it was. */
  lemma KeyStable(t: Tree, i: nat, child: Tree, key: string)
    requires i < |t.content| && i % 2 == 1
    ensures KeyIn(WithChild(t, i, child), key) == KeyIn(t, key)
  {
    FirstKeyStable(ValuesOf(t.content), ValuesOf(t.content[i := child]), key, 0);
  }

  lemma ServiceStable(t: Tree, service: string, v: string, other: string)
    requires ServicePath(t, service).Ok?
    ensures ServicePath(Edit(t, ServicePath(t, service).value, v), other) == ServicePath(t, other)
  {
    var p := ServicePath(t, service).value;
    var svc := t.content[p[0]];
    var c := ImagePath(svc).value[0];
    var image := Edit(svc.content[c], [], v);
    KeyStable(t, p[0], WithChild(svc, c, image), other);
    KeyStable(svc, c, image, "image");
  }

  /** Rewriting one service's image moves no service and loses none. */
  lemma LocateStable(t: Tree, service: string, v: string, other: string)
    requires Locate(t, service).Ok?
    ensures Locate(Edit(t, Locate(t, service).value, v), other) == Locate(t, other)
  {
    var p := Locate(t, service).value;
    var services := t.content[p[0]];
    ServiceStable(services, service, v, other);
    KeyStable(t, p[0], Edit(services, p[1..], v), "services");
  }

  lemma {:induction false} EditTwice(t: Tree, p: seq<nat>, v: string, w: string)
    requires HasPath(t, p)
    ensures HasPath(Edit(t, p, v), p) && Follow(Edit(t, p, v), p).value == v
    ensures Edit(Edit(t, p, v), p, w) == Edit(t, p, w)
    decreases |p|
  {
    if p != [] {
      EditTwice(t.content[p[0]], p[1..], v, w);
    }
  }

  /** Edits of different nodes commute. */
  lemma {:induction false} EditsCommute(t: Tree, p: seq<nat>, q: seq<nat>, v: string, w: string)
    requires HasPath(t, p) && HasPath(t, q) && p != q
    ensures HasPath(Edit(t, p, v), q) && HasPath(Edit(t, q, w), p)
    ensures Edit(Edit(t, p, v), q, w) == Edit(Edit(t, q, w), p, v)
    decreases |p|
  {
    if p != [] && q != [] {
      var i, j := p[0], q[0];
      if i == j {
        assert p == [i] + p[1..] && q == [i] + q[1..];
        EditsCommute(t.content[i], p[1..], q[1..], v, w);
      } else {
        var x, y := Edit(t.content[i], p[1..], v), Edit(t.content[j], q[1..], w);
        assert t.content[i := x][j := y] == t.content[j := y][i := x];
      }
    }
  }

  /** Two patches of one service are its second patch. */
  lemma LastPatchWins(t: Tree, service: string, a: string, b: string)
    requires ':' !in a && '@' !in a && Patch(t, service, a).Ok?
    ensures Patch(Patch(t, service, a).value, service, b) == Patch(t, service, b)
  {
    var p := Locate(t, service).value;
    var image := Follow(t, p).value;
    var v := ImageRefs.ReplaceTag(image, a);
    LocateStable(t, service, v, service);
    ImageRefs.LastTagWins(image, a, b);
    EditTwice(t, p, v, ImageRefs.ReplaceTag(image, b));
  }

  /** Different services are found in different places. */
  lemma PlacesDiffer(t: Tree, s1: string, s2: string)
    requires s1 != s2 && Locate(t, s1).Ok? && Locate(t, s2).Ok?
    ensures Locate(t, s1).value != Locate(t, s2).value
  {
    var services := t.content[Locate(t, s1).value[0]];
    var p, q := ServicePath(services, s1).value, ServicePath(services, s2).value;
    assert Locate(t, s1).value[1..] == p && Locate(t, s2).value[1..] == q;
    assert ValuesOf(services.content)[p[0] - 1] == s1 && ValuesOf(services.content)[q[0] - 1] == s2;
  }

  /** Successful patches of different services commute. */
  lemma PatchesCommute(t: Tree, s1: string, a: string, s2: string, b: string)
    requires s1 != s2 && Patch(t, s1, a).Ok? && Patch(t, s2, b).Ok?
    ensures Patch(Patch(t, s1, a).value, s2, b).Ok?
    ensures Patch(Patch(t, s1, a).value, s2, b) == Patch(Patch(t, s2, b).value, s1, a)
  {
    var p, q := Locate(t, s1).value, Locate(t, s2).value;
    var v := ImageRefs.ReplaceTag(Follow(t, p).value, a);
    var w := ImageRefs.ReplaceTag(Follow(t, q).value, b);
    PlacesDiffer(t, s1, s2);
    LocateStable(t, s1, v, s2);
    LocateStable(t, s2, w, s1);
    EditFrames(t, p, v, q);
    EditFrames(t, q, w, p);
    EditsCommute(t, p, q, v, w);
  }

  /** A failing patch stays a failing patch, for the same reason, whatever else is patched. */
  lemma FailureStays(t: Tree, s1: string, a: string, s2: string, b: string)
    requires Patch(t, s1, a).Ok? && Patch(t, s2, b).Err?
    ensures Patch(Patch(t, s1, a).value, s2, b) == Patch(t, s2, b)
  {
    var p := Locate(t, s1).value;
    LocateStable(t, s1, ImageRefs.ReplaceTag(Follow(t, p).value, a), s2);
  }

  // ---- The nodes in memory --------------------------------------------------

  class YamlNode {
    var kind: Kind
    var value: string
    var content: seq<YamlNode>
  }

  /** Which node is where: the pointers of a tree, without what the nodes hold. */
  datatype Shape = Shape(ref: YamlNode, kind: Kind, content: seq<Shape>)

  ghost function Refs(s: Shape): set<YamlNode> {
    {s.ref} + RefsOf(s.content)
  }

  ghost function RefsOf(content: seq<Shape>): set<YamlNode> {
    if content == [] then {} else Refs(content[0]) + RefsOf(content[1..])
  }

  lemma {:induction false} ChildRefs(content: seq<Shape>, i: nat)
    requires i < |content|
    ensures Refs(content[i]) <= RefsOf(content)
  {
    if i > 0 {
      ChildRefs(content[1..], i - 1);
    }
  }

  /** No node occurs twice in the tree. */
  ghost predicate NoSharing(s: Shape) {
    && s.ref !in RefsOf(s.content)
    && (forall i, j | 0 <= i < j < |s.content| :: Refs(s.content[i]) !! Refs(s.content[j]))
    && forall i | 0 <= i < |s.content| :: NoSharing(s.content[i])
  }

  /** The value of a tree whose nodes hold `values`. */
  ghost function TreeOf(s: Shape, values: map<YamlNode, string>): Tree {
    Node(s.kind, if s.ref in values then values[s.ref] else "",
         seq(|s.content|, i requires 0 <= i < |s.content| => TreeOf(s.content[i], values)))
  }

  lemma {:induction false} Untouched(s: Shape, values: map<YamlNode, string>, r: YamlNode, v: string)
    requires r !in Refs(s)
    ensures TreeOf(s, values[r := v]) == TreeOf(s, values)
  {
    forall i | 0 <= i < |s.content| ensures TreeOf(s.content[i], values[r := v]) == TreeOf(s.content[i], values) {
      ChildRefs(s.content, i);
      Untouched(s.content[i], values, r, v);
    }
  }

  /** In a tree without sharing a write below one child shows in that child only. */
  lemma WriteBelow(s: Shape, values: map<YamlNode, string>, i: nat, r: YamlNode, v: string)
    requires NoSharing(s) && i < |s.content| && r in Refs(s.content[i])
    ensures TreeOf(s, values[r := v]) == WithChild(TreeOf(s, values), i, TreeOf(s.content[i], values[r := v]))
  {
    ChildRefs(s.content, i);
    forall j | 0 <= j < |s.content| && j != i
      ensures TreeOf(s.content[j], values[r := v]) == TreeOf(s.content[j], values)
    {
      assert Refs(s.content[j]) !! Refs(s.content[i]);
      Untouched(s.content[j], values, r, v);
    }
  }

  /** The node a path leads to. */
  ghost predicate ShapeHasPath(s: Shape, path: seq<nat>)
    decreases |path|
  {
    path != [] ==> path[0] < |s.content| && ShapeHasPath(s.content[path[0]], path[1..])
  }

  ghost function RefAt(s: Shape, path: seq<nat>): YamlNode
    requires ShapeHasPath(s, path)
    decreases |path|
  {
    if path == [] then s.ref else RefAt(s.content[path[0]], path[1..])
  }

  /** Assigning to the one node at a path is the tree edited there, when no node is shared. */
  lemma {:induction false} WriteAt(s: Shape, values: map<YamlNode, string>, path: seq<nat>, v: string)
    requires NoSharing(s) && ShapeHasPath(s, path) && Refs(s) <= values.Keys
    ensures RefAt(s, path) in Refs(s) && HasPath(TreeOf(s, values), path)
    ensures Follow(TreeOf(s, values), path).value == values[RefAt(s, path)]
    ensures TreeOf(s, values[RefAt(s, path) := v]) == Edit(TreeOf(s, values), path, v)
    decreases |path|
  {
    if path == [] {
      LeafWrite(s, values, v);
    } else {
      ChildRefs(s.content, path[0]);
      WriteAt(s.content[path[0]], values, path[1..], v);
      WriteBelow(s, values, path[0], RefAt(s, path), v);
    }
  }

  lemma LeafWrite(leaf: Shape, values: map<YamlNode, string>, v: string)
    requires NoSharing(leaf)
    ensures TreeOf(leaf, values[leaf.ref := v]) == TreeOf(leaf, values).(value := v)
  {
    forall i | 0 <= i < |leaf.content|
      ensures TreeOf(leaf.content[i], values[leaf.ref := v]) == TreeOf(leaf.content[i], values)
    {
      ChildRefs(leaf.content, i);
      Untouched(leaf.content[i], values, leaf.ref, v);
    }
  }

  /** A set of subtrees with all their subtrees, and all their nodes. */
  ghost predicate Closed(parts: set<Shape>, nodes: set<YamlNode>) {
    forall x | x in parts :: x.ref in nodes && forall i | 0 <= i < |x.content| :: x.content[i] in parts
  }

  /** The pointers in memory are those of the shapes. Values may change, these do not. */
  ghost predicate Matches(parts: set<Shape>, nodes: set<YamlNode>)
    reads nodes`kind, nodes`content
    requires Closed(parts, nodes)
  {
    forall x | x in parts ::
      && x.ref.kind == x.kind && |x.ref.content| == |x.content|
      && forall i | 0 <= i < |x.content| :: x.ref.content[i] == x.content[i].ref
  }

  ghost function Values(nodes: set<YamlNode>): map<YamlNode, string>
    reads nodes`value
  {
    map r | r in nodes :: r.value
  }

  lemma {:induction false} ClosedRefs(s: Shape, parts: set<Shape>, nodes: set<YamlNode>)
    requires Closed(parts, nodes) && s in parts
    ensures Refs(s) <= nodes
    decreases s, 1
  {
    ClosedRefsOf(s, |s.content|, parts, nodes);
    assert s.content[..|s.content|] == s.content;
  }

  lemma {:induction false} ClosedRefsOf(s: Shape, n: nat, parts: set<Shape>, nodes: set<YamlNode>)
    requires Closed(parts, nodes) && s in parts && n <= |s.content|
    ensures RefsOf(s.content[|s.content| - n..]) <= nodes
    decreases s, 0, n
  {
    if n > 0 {
      var rest := s.content[|s.content| - n..];
      assert rest[0] == s.content[|s.content| - n] && rest[1..] == s.content[|s.content| - (n - 1)..];
      ClosedRefs(rest[0], parts, nodes);
      ClosedRefsOf(s, n - 1, parts, nodes);
    }
  }

  ghost function ChildValues(node: YamlNode): (r: seq<string>)
    reads node, node.content
    ensures |r| == |node.content| && forall i | 0 <= i < |r| :: r[i] == node.content[i].value
  {
    seq(|node.content|, i requires 0 <= i < |node.content| reads node, node.content => node.content[i].value)
  }

  ghost function KeyAt(node: YamlNode, key: string): (r: Option<nat>)
    reads node, node.content
    ensures r.Some? ==>
      && node.kind == Mapping && 0 < r.value < |node.content| && r.value % 2 == 1
      && node.content[r.value - 1].value == key
      && forall j | 0 <= j < r.value - 1 && j % 2 == 0 :: node.content[j].value != key
    ensures r.None? && node.kind == Mapping ==>
      forall j | 0 <= j < |node.content| - 1 && j % 2 == 0 :: node.content[j].value != key
  {
    if node.kind == Mapping then FirstKey(ChildValues(node), key, 0) else None
  }

  /** The value node under a key of a mapping node, or null. */
  method MappingValue(node: YamlNode, key: string) returns (v: YamlNode?)
    ensures v == match KeyAt(node, key) case Some(i) => node.content[i] case None => null
  {
    if node.kind != Mapping {
      return null;
    }
    ghost var values := ChildValues(node);
    var i := 0;
    while i + 1 < |node.content|
      invariant i % 2 == 0 && FirstKey(values, key, 0) == FirstKey(values, key, i)
    {
      if node.content[i].value == key {
        return node.content[i + 1];
      }
      i := i + 2;
    }
    return null;
  }

  /** A lookup in memory is the lookup in the tree that the memory holds. */
  lemma KeyAgrees(s: Shape, key: string, parts: set<Shape>, nodes: set<YamlNode>)
    requires Closed(parts, nodes) && Matches(parts, nodes) && s in parts
    ensures KeyAt(s.ref, key) == KeyIn(TreeOf(s, Values(nodes)), key)
  {
    assert ChildValues(s.ref) == ValuesOf(TreeOf(s, Values(nodes)).content);
  }

  /** The three lookups: the node to assign to, or the first lookup that finds nothing. */
  method FindImage(doc: YamlNode, service: string)
    returns (image: YamlNode?, e: Option<Error>, ghost a: nat, ghost b: nat, ghost c: nat)
    ensures KeyAt(doc, "services") == if e == Some(NoServices) then None else Some(a)
    ensures e != Some(NoServices) ==>
      KeyAt(doc.content[a], service) == if e == Some(NoService) then None else Some(b)
    ensures e == None || e == Some(NoImage) ==>
      KeyAt(doc.content[a].content[b], "image") == if e == Some(NoImage) then None else Some(c)
    ensures if e == None then image == doc.content[a].content[b].content[c] else image == null
  {
    a, b, c := 0, 0, 0;
    var services := MappingValue(doc, "services");
    if services == null {
      return null, Some(NoServices), a, b, c;
    }
    a := KeyAt(doc, "services").value;
    var svc := MappingValue(services, service);
    if svc == null {
      return null, Some(NoService), a, b, c;
    }
    b := KeyAt(services, service).value;
    image := MappingValue(svc, "image");
    if image == null {
      return null, Some(NoImage), a, b, c;
    }
    c := KeyAt(svc, "image").value;
    e := None;
  }

  lemma LocateBy(t: Tree, service: string, e: Option<Error>, a: nat, b: nat, c: nat)
    requires KeyIn(t, "services") == if e == Some(NoServices) then None else Some(a)
    requires e != Some(NoServices) ==> KeyIn(t.content[a], service) == if e == Some(NoService) then None else Some(b)
    requires e == None || e == Some(NoImage) ==>
      KeyIn(t.content[a].content[b], "image") == if e == Some(NoImage) then None else Some(c)
    ensures Locate(t, service) == if e.Some? then Err(e.value) else Ok(Prefixed(a, Prefixed(b, Prefixed(c, []))))
  {
    if e != Some(NoServices) && e != Some(NoService) {
      var svc := t.content[a].content[b];
      assert e.Some? ==> e.value.NoImage?;
      assert ImagePath(svc) == if e.Some? then Err(NoImage) else Ok(Prefixed(c, []));
      assert ServicePath(t.content[a], service) == if e.Some? then Err(NoImage) else Ok(Prefixed(b, Prefixed(c, [])));
    }
  }

  /** One lookup, as needed by the next: the child found in memory is the child in the shape. */
  lemma Descend(s: Shape, key: string, parts: set<Shape>, nodes: set<YamlNode>)
    requires Closed(parts, nodes) && Matches(parts, nodes) && s in parts
    ensures KeyAt(s.ref, key) == KeyIn(TreeOf(s, Values(nodes)), key)
    ensures KeyAt(s.ref, key).Some? ==>
      var i := KeyAt(s.ref, key).value;
      && i < |s.content| && s.content[i] in parts && s.ref.content[i] == s.content[i].ref
      && TreeOf(s, Values(nodes)).content[i] == TreeOf(s.content[i], Values(nodes))
  {
    KeyAgrees(s, key, parts, nodes);
  }

  /** What the lookups in memory say about the tree it holds. */
  lemma LookupsLocate(s: Shape, service: string, parts: set<Shape>, nodes: set<YamlNode>, e: Option<Error>, a: nat,
                      b: nat, c: nat)
    requires s in parts && Closed(parts, nodes) && Matches(parts, nodes)
    requires KeyAt(s.ref, "services") == if e == Some(NoServices) then None else Some(a)
    requires e != Some(NoServices) ==>
      KeyAt(s.ref.content[a], service) == if e == Some(NoService) then None else Some(b)
    requires e == None || e == Some(NoImage) ==>
      KeyAt(s.ref.content[a].content[b], "image") == if e == Some(NoImage) then None else Some(c)
    ensures Locate(TreeOf(s, Values(nodes)), service)
         == if e.Some? then Err(e.value) else Ok(Prefixed(a, Prefixed(b, Prefixed(c, []))))
    ensures e.None? ==>
      && a < |s.content| && b < |s.content[a].content| && c < |s.content[a].content[b].content|
      && s.content[a].content[b].content[c].ref == s.ref.content[a].content[b].content[c]
  {
    var t := TreeOf(s, Values(nodes));
    Descend(s, "services", parts, nodes);
    if e != Some(NoServices) {
      Descend(s.content[a], service, parts, nodes);
      if e != Some(NoService) {
        Descend(s.content[a].content[b], "image", parts, nodes);
      }
    }
    LocateBy(t, service, e, a, b, c);
  }

  lemma ThreeDown(s: Shape, a: nat, b: nat, c: nat)
    requires a < |s.content| && b < |s.content[a].content| && c < |s.content[a].content[b].content|
    ensures ShapeHasPath(s, Prefixed(a, Prefixed(b, Prefixed(c, []))))
    ensures RefAt(s, Prefixed(a, Prefixed(b, Prefixed(c, [])))) == s.content[a].content[b].content[c].ref
  {
    var s1, s2, s3 := s.content[a], s.content[a].content[b], s.content[a].content[b].content[c];
    assert ShapeHasPath(s3, []) && RefAt(s3, []) == s3.ref;
    assert ShapeHasPath(s2, Prefixed(c, [])) && RefAt(s2, Prefixed(c, [])) == s3.ref;
    assert ShapeHasPath(s1, Prefixed(b, Prefixed(c, []))) && RefAt(s1, Prefixed(b, Prefixed(c, []))) == s3.ref;
  }

  /** Assigning the located value is the patch. */
  lemma AssignIsPatch(s: Shape, values: map<YamlNode, string>, service: string, newTag: string, a: nat, b: nat, c: nat)
    requires NoSharing(s) && Refs(s) <= values.Keys
    requires Locate(TreeOf(s, values), service) == Ok(Prefixed(a, Prefixed(b, Prefixed(c, []))))
    requires a < |s.content| && b < |s.content[a].content| && c < |s.content[a].content[b].content|
    ensures var image := s.content[a].content[b].content[c].ref;
      && image in values
      && Patch(TreeOf(s, values), service, newTag)
         == Ok(TreeOf(s, values[image := ImageRefs.ReplaceTag(values[image], newTag)]))
  {
    var path := Prefixed(a, Prefixed(b, Prefixed(c, [])));
    ThreeDown(s, a, b, c);
    var image := RefAt(s, path);
    WriteAt(s, values, path, ImageRefs.ReplaceTag(if image in values then values[image] else "", newTag));
  }

  /** The assignment of the patch. Pointers and kinds stay, and so does every other value. */
  method SetValue(node: YamlNode, v: string, ghost parts: set<Shape>, ghost nodes: set<YamlNode>)
    requires node in nodes && Closed(parts, nodes) && Matches(parts, nodes)
    modifies node`value
    ensures Matches(parts, nodes) && Values(nodes) == old(Values(nodes))[node := v]
  {
    node.value := v;
  }

  /** The patch in place: memory that held a tree holds the patched tree, or still the same one. */
  method PatchImageNode(doc: YamlNode, service: string, newTag: string,
                        ghost s: Shape, ghost parts: set<Shape>, ghost nodes: set<YamlNode>)
    returns (e: Option<Error>)
    requires s.ref == doc && NoSharing(s) && s in parts && Closed(parts, nodes) && Matches(parts, nodes)
    modifies nodes`value
    ensures Matches(parts, nodes)
    ensures e.None? ==> Patch(TreeOf(s, old(Values(nodes))), service, newTag) == Ok(TreeOf(s, Values(nodes)))
    ensures e.Some? ==> Patch(TreeOf(s, old(Values(nodes))), service, newTag) == Err(e.value)
    ensures e.Some? ==> Values(nodes) == old(Values(nodes))
  {
    ghost var values := Values(nodes);
    var image, error, a, b, c := FindImage(doc, service);
    LookupsLocate(s, service, parts, nodes, error, a, b, c);
    if image == null {
      return error;
    }
    ClosedRefs(s, parts, nodes);
    AssignIsPatch(s, values, service, newTag, a, b, c);
    SetValue(image, ImageRefs.ReplaceTag(image.value, newTag), parts, nodes);
    e := None;
  }
}
