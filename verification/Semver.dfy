/** executor.go: version tags and the per-container update policy. */
module Semver {
  import opened GoStrings
  import Decimal
  import ImageRefs

  datatype Version = Version(major: int, minor: int, patch: int)

  function TrimV(tag: string): string {
    if tag != "" && tag[0] == 'v' then tag[1..] else tag
  }

  /** Components are split at the first two dots; the third ends at its first dash. */
  function ParseSemver(tag: string): Option<Version> {
    var t := TrimV(tag);
    var rest := After(t, '.');
    var major := Decimal.Atoi(Before(t, '.'));
    var minor := if '.' in t then Decimal.Atoi(Before(rest, '.')) else Some(0);
    var patch := if '.' in t && '.' in rest then Decimal.Atoi(Before(After(rest, '.'), '-')) else Some(0);
    if major.Some? && minor.Some? && patch.Some?
    then Some(Version(major.value, minor.value, patch.value))
    else None
  }

  /** A version as written: how many components, and an optional pre-release suffix. */
  datatype Written =
    | Major(x: nat)
    | MajorMinor(x: nat, y: nat)
    | Full(x: nat, y: nat, z: nat)
    | PreRelease(x: nat, y: nat, z: nat, suffix: string)
  {
    function Text(): string {
      match this
      case Major(x) => Decimal.Print(x)
      case MajorMinor(x, y) => Decimal.Print(x) + "." + Decimal.Print(y)
      case Full(x, y, z) => Decimal.Print(x) + "." + Decimal.Print(y) + "." + Decimal.Print(z)
      case PreRelease(x, y, z, s) =>
        Decimal.Print(x) + "." + Decimal.Print(y) + "." + (Decimal.Print(z) + "-" + s)
    }

    function Meaning(): Version {
      match this
      case Major(x) => Version(x, 0, 0)
      case MajorMinor(x, y) => Version(x, y, 0)
      case Full(x, y, z) => Version(x, y, z)
      case PreRelease(x, y, z, _) => Version(x, y, z)
    }

    predicate InRange() {
      x <= Decimal.MAX_INT && (Major? || y <= Decimal.MAX_INT) && (Major? || MajorMinor? || z <= Decimal.MAX_INT)
    }
  }

  lemma DigitsOnly(n: nat)
    requires n <= Decimal.MAX_INT
    ensures var s := Decimal.Print(n);
      s != "" && s[0] != 'v' && '.' !in s && '-' !in s && Decimal.Atoi(s) == Some(n)
  {
    var s := Decimal.Print(n);
    Decimal.AtoiDigits(s);
    assert Decimal.IsDigit(s[0]);
  }

  /** Where one, two or three dot-separated pieces are cut. */
  lemma CutPieces(a: string, b: string, c: string)
    requires '.' !in a && '.' !in b
    ensures Before(a, '.') == a
    ensures var t := a + "." + b; Before(t, '.') == a && After(t, '.') == b && '.' in t
    ensures var t := a + "." + b + "." + c;
      && Before(t, '.') == a && After(t, '.') == b + "." + c && '.' in t
      && '.' in b + "." + c && Before(b + "." + c, '.') == b && After(b + "." + c, '.') == c
  {
    CutAt(a, '.', b);
    assert a + "." + b == a + ['.'] + b && (a + "." + b)[|a|] == '.';
    var t := a + "." + b + "." + c;
    assert t == a + ['.'] + (b + "." + c) && t[|a|] == '.';
    CutAt(a, '.', b + "." + c);
    CutAt(b, '.', c);
    assert b + "." + c == b + ['.'] + c && (b + "." + c)[|b|] == '.';
  }

  lemma ParseThree(x: nat, y: nat, c: string, z: nat)
    requires x <= Decimal.MAX_INT && y <= Decimal.MAX_INT && z <= Decimal.MAX_INT
    requires Before(c, '-') == Decimal.Print(z)
    ensures var t := Decimal.Print(x) + "." + Decimal.Print(y) + "." + c;
      TrimV(t) == t && ParseSemver(t) == Some(Version(x, y, z))
  {
    DigitsOnly(x);
    DigitsOnly(y);
    DigitsOnly(z);
    CutPieces(Decimal.Print(x), Decimal.Print(y), c);
  }

  lemma ParseTwo(x: nat, y: nat)
    requires x <= Decimal.MAX_INT && y <= Decimal.MAX_INT
    ensures var t := Decimal.Print(x) + "." + Decimal.Print(y);
      TrimV(t) == t && ParseSemver(t) == Some(Version(x, y, 0))
  {
    DigitsOnly(x);
    DigitsOnly(y);
    CutPieces(Decimal.Print(x), Decimal.Print(y), "");
  }

  lemma ParseSuffixed(x: nat, y: nat, z: nat, s: string)
    requires x <= Decimal.MAX_INT && y <= Decimal.MAX_INT && z <= Decimal.MAX_INT
    ensures var t := Decimal.Print(x) + "." + Decimal.Print(y) + "." + (Decimal.Print(z) + "-" + s);
      TrimV(t) == t && ParseSemver(t) == Some(Version(x, y, z))
  {
    DigitsOnly(z);
    CutAt(Decimal.Print(z), '-', s);
    assert Decimal.Print(z) + "-" + s == Decimal.Print(z) + ['-'] + s;
    ParseThree(x, y, Decimal.Print(z) + "-" + s, z);
  }

  lemma ParseText(w: Written)
    requires w.InRange()
    ensures TrimV(w.Text()) == w.Text() && ParseSemver(w.Text()) == Some(w.Meaning())
  {
    match w
    case Major(x) =>
      DigitsOnly(x);
    case MajorMinor(x, y) =>
      ParseTwo(x, y);
    case Full(x, y, z) =>
      DigitsOnly(z);
      ParseThree(x, y, Decimal.Print(z), z);
    case PreRelease(x, y, z, s) =>
      ParseSuffixed(x, y, z, s);
  }

  /** Parsing inverts printing, with or without the leading "v", for every component in range. */
  lemma ParsePrinted(w: Written)
    requires w.InRange()
    ensures ParseSemver(w.Text()) == Some(w.Meaning())
    ensures ParseSemver("v" + w.Text()) == Some(w.Meaning())
  {
    ParseText(w);
    assert TrimV("v" + w.Text()) == w.Text();
  }

  lemma Trimmed(v: string, t: string)
    requires v == "v" || (v == "" && (t == "" || t[0] != 'v'))
    ensures TrimV(v + t) == t
  {
    if v == "" {
      assert v + t == t;
    } else {
      assert (v + t)[0] == 'v' && (v + t)[1..] == t;
    }
  }

  lemma OnePiece(v: string, a: string)
    requires v == "v" || (v == "" && (a == "" || a[0] != 'v'))
    requires '.' !in a
    ensures var x := Decimal.Atoi(a);
      ParseSemver(v + a) == if x.Some? then Some(Version(x.value, 0, 0)) else None
  {
    Trimmed(v, a);
  }

  lemma TwoPieces(v: string, a: string, b: string)
    requires v == "v" || (v == "" && (a == "" || a[0] != 'v'))
    requires '.' !in a && '.' !in b
    ensures var x, y := Decimal.Atoi(a), Decimal.Atoi(b);
      ParseSemver(v + (a + "." + b)) == if x.Some? && y.Some? then Some(Version(x.value, y.value, 0)) else None
  {
    Trimmed(v, a + "." + b);
    CutPieces(a, b, "");
  }

  lemma ThreePieces(v: string, a: string, b: string, c: string)
    requires v == "v" || (v == "" && (a == "" || a[0] != 'v'))
    requires '.' !in a && '.' !in b
    ensures var x, y, z := Decimal.Atoi(a), Decimal.Atoi(b), Decimal.Atoi(Before(c, '-'));
      ParseSemver(v + (a + "." + b + "." + c)) ==
        if x.Some? && y.Some? && z.Some? then Some(Version(x.value, y.value, z.value)) else None
  {
    Trimmed(v, a + "." + b + "." + c);
    CutPieces(a, b, c);
  }

  /**
   What any tag means: one leading "v" is dropped, up to three dot-separated pieces must be
   numbers, the third only up to its first dash, and missing pieces are zero.
   */
  lemma ParseExactly(v: string, a: string, b: string, c: string)
    requires v == "v" || (v == "" && (a == "" || a[0] != 'v'))
    requires '.' !in a && '.' !in b
    ensures var x, y, z := Decimal.Atoi(a), Decimal.Atoi(b), Decimal.Atoi(Before(c, '-'));
      && ParseSemver(v + a) == (if x.Some? then Some(Version(x.value, 0, 0)) else None)
      && ParseSemver(v + (a + "." + b)) == (if x.Some? && y.Some? then Some(Version(x.value, y.value, 0)) else None)
      && ParseSemver(v + (a + "." + b + "." + c)) ==
           if x.Some? && y.Some? && z.Some? then Some(Version(x.value, y.value, z.value)) else None
  {
    OnePiece(v, a);
    TwoPieces(v, a, b);
    ThreePieces(v, a, b, c);
  }

  // ---- Policy ---------------------------------------------------------------

  datatype Strategy = Auto | Minor | Patch | Notify | Unknown(text: string)

  type Labels = map<string, string>

  function Label(labels: Labels, key: string): string {
    if key in labels then labels[key] else ""
  }

  function StrategyFromLabels(labels: Labels): Strategy {
    if "dockwatch.update" !in labels then Auto
    else
      var v := labels["dockwatch.update"];
      if v == "auto" then Auto
      else if v == "minor" then Minor
      else if v == "patch" then Patch
      else if v == "notify" then Notify
      else Unknown(v)
  }

  predicate WatchEnabled(labels: Labels) {
    Label(labels, "dockwatch.watch") != "false"
  }

  predicate ComposeManaged(labels: Labels) {
    Label(labels, "com.docker.compose.project") != ""
  }

  predicate ComposeAuto(labels: Labels) {
    Label(labels, "dockwatch.compose.update") == "auto"
  }

  function VersionOf(image: string): Option<Version> {
    ParseSemver(ImageRefs.ImageTag(image))
  }

  predicate SemverAllow(o: Option<Version>, n: Option<Version>, allowMinor: bool) {
    if o.None? || n.None? then true
    else if n.value.major != o.value.major then false
    else if n.value.minor != o.value.minor then allowMinor
    else true
  }

  predicate Evaluate(strategy: Strategy, next: Option<Version>, current: Option<Version>) {
    match strategy
    case Notify => false
    case Auto => true
    case Patch => SemverAllow(current, next, false)
    case Minor => SemverAllow(current, next, true)
    case Unknown(_) => true
  }

  predicate IsMajorBump(o: Option<Version>, n: Option<Version>) {
    o.Some? && n.Some? && n.value.major > o.value.major
  }

  /** What the executor does with an event for a tracked container. */
  datatype Decision = Unwatched | Skip(breaking: bool) | Compose | Direct

  function Decide(labels: Labels, currentImage: string, newImage: string): Decision {
    DecideOn(labels, VersionOf(currentImage), VersionOf(newImage))
  }

  function DecideOn(labels: Labels, current: Option<Version>, next: Option<Version>): Decision {
    DecideAs(StrategyFromLabels(labels), WatchEnabled(labels), ComposeManaged(labels), ComposeAuto(labels),
             current, next)
  }

  function DecideAs(labelled: Strategy, watched: bool, managed: bool, auto: bool,
                    current: Option<Version>, next: Option<Version>): Decision {
    var strategy := if managed && !auto then Notify else labelled;
    if !watched then Unwatched
    else if !Evaluate(strategy, next, current) then Skip(IsMajorBump(current, next))
    else if managed && auto then Compose
    else Direct
  }

  lemma StrategyMeans(labels: Labels)
    ensures var text := if "dockwatch.update" in labels then labels["dockwatch.update"] else "auto";
      StrategyFromLabels(labels) ==
        if text == "auto" then Auto else if text == "minor" then Minor else if text == "patch" then Patch
        else if text == "notify" then Notify else Unknown(text)
  {
  }

  lemma OtherLabelsMean(labels: Labels)
    ensures !WatchEnabled(labels) <==> "dockwatch.watch" in labels && labels["dockwatch.watch"] == "false"
    ensures ComposeManaged(labels) <==>
      "com.docker.compose.project" in labels && labels["com.docker.compose.project"] != ""
    ensures ComposeAuto(labels) <==>
      "dockwatch.compose.update" in labels && labels["dockwatch.compose.update"] == "auto"
  {
  }

  /** A container opts out with dockwatch.watch=false, and in no other way. */
  lemma OptOut(labels: Labels, current: string, next: string)
    ensures Decide(labels, current, next).Unwatched? <==>
      "dockwatch.watch" in labels && labels["dockwatch.watch"] == "false"
  {
    OtherLabelsMean(labels);
  }

  lemma DecideAsExactly(labelled: Strategy, watched: bool, managed: bool, auto: bool,
                        o: Option<Version>, n: Option<Version>)
    ensures var refused :=
        || (managed && !auto) || labelled == Notify
        || (labelled in {Minor, Patch} && o.Some? && n.Some?
            && (n.value.major != o.value.major || (labelled == Patch && n.value.minor != o.value.minor)));
      DecideAs(labelled, watched, managed, auto, o, n) ==
        if !watched then Unwatched
        else if refused then Skip(o.Some? && n.Some? && n.value.major > o.value.major)
        else if managed then Compose
        else Direct
  {
  }

  /**
   The executor's decision in full. Unless the container opts out the event is refused for a
   compose project that has not opted in, under "notify", and under "minor" and "patch" when
   both tags are versions and the bump is too large; a refusal is flagged as breaking by a
   greater major alone. What is not refused goes through compose for a compose project and is
   applied directly otherwise.
   */
  lemma DecisionExactly(labels: Labels, current: string, next: string)
    ensures
      var managed := "com.docker.compose.project" in labels && labels["com.docker.compose.project"] != "";
      var auto := "dockwatch.compose.update" in labels && labels["dockwatch.compose.update"] == "auto";
      var text := if "dockwatch.update" in labels then labels["dockwatch.update"] else "auto";
      var o, n := ParseSemver(ImageRefs.ImageTag(current)), ParseSemver(ImageRefs.ImageTag(next));
      var refused :=
        || (managed && !auto) || text == "notify"
        || ((text == "minor" || text == "patch") && o.Some? && n.Some?
            && (n.value.major != o.value.major || (text == "patch" && n.value.minor != o.value.minor)));
      var d := Decide(labels, current, next);
      !d.Unwatched? ==>
        && (d.Skip? <==> refused)
        && (refused ==> (d.breaking <==> o.Some? && n.Some? && n.value.major > o.value.major))
        && (d.Compose? <==> !refused && managed) && (d.Direct? <==> !refused && !managed)
  {
    StrategyMeans(labels);
    OtherLabelsMean(labels);
    DecideAsExactly(StrategyFromLabels(labels), WatchEnabled(labels), ComposeManaged(labels), ComposeAuto(labels),
                    VersionOf(current), VersionOf(next));
  }

  predicate Applied(labels: Labels, currentImage: string, newImage: string) {
    Decide(labels, currentImage, newImage) in {Compose, Direct}
  }

  /** Setting only the strategy label. */
  function With(labels: Labels, strategy: string): Labels {
    labels["dockwatch.update" := strategy]
  }

  lemma WithKeeps(labels: Labels, strategy: string)
    ensures WatchEnabled(With(labels, strategy)) == WatchEnabled(labels)
    ensures ComposeManaged(With(labels, strategy)) == ComposeManaged(labels)
    ensures ComposeAuto(With(labels, strategy)) == ComposeAuto(labels)
  {
    var k := "dockwatch.update";
    assert "dockwatch.watch"[10] != k[10];
    assert "com.docker.compose.project"[0] != k[0];
    assert "dockwatch.compose.update"[10] != k[10];
  }

  lemma WithMeans(labels: Labels)
    ensures StrategyFromLabels(With(labels, "auto")) == Auto
    ensures StrategyFromLabels(With(labels, "minor")) == Minor
    ensures StrategyFromLabels(With(labels, "patch")) == Patch
    ensures StrategyFromLabels(With(labels, "notify")) == Notify
  {
    assert |"auto"| == 4 && |"minor"| == 5 && |"patch"| == 5 && |"notify"| == 6;
    assert "minor"[0] != "patch"[0];
  }

  /** A digest on either reference never changes the decision. */
  lemma DecisionIgnoresPins(labels: Labels, current: string, next: string, d: string, e: string)
    ensures Decide(labels, ImageRefs.ImageRef(current, d), ImageRefs.ImageRef(next, e)) == Decide(labels, current, next)
  {
    PinKeepsVersion(current, d);
    PinKeepsVersion(next, e);
  }

  lemma PinKeepsVersion(image: string, digest: string)
    ensures VersionOf(ImageRefs.ImageRef(image, digest)) == VersionOf(image)
  {
    ImageRefs.PinInvariant(image, digest);
  }

  /** Relabelling a container changes its strategy in the decision and nothing else. */
  lemma DecideRelabelled(labels: Labels, text: string, strategy: Strategy, current: Option<Version>,
                         next: Option<Version>)
    requires StrategyFromLabels(With(labels, text)) == strategy
    ensures DecideOn(With(labels, text), current, next)
         == DecideAs(strategy, WatchEnabled(labels), ComposeManaged(labels), ComposeAuto(labels), current, next)
  {
    WithKeeps(labels, text);
  }

  lemma DecideLattice(watched: bool, managed: bool, auto: bool, o: Option<Version>, n: Option<Version>)
    ensures DecideAs(Notify, watched, managed, auto, o, n) !in {Compose, Direct}
    ensures DecideAs(Patch, watched, managed, auto, o, n) in {Compose, Direct} ==>
      DecideAs(Minor, watched, managed, auto, o, n) in {Compose, Direct}
    ensures DecideAs(Minor, watched, managed, auto, o, n) in {Compose, Direct} ==>
      DecideAs(Auto, watched, managed, auto, o, n) in {Compose, Direct}
    ensures IsMajorBump(o, n) ==>
      DecideAs(Patch, watched, managed, auto, o, n) !in {Compose, Direct}
      && DecideAs(Minor, watched, managed, auto, o, n) !in {Compose, Direct}
  {
  }

  /**
   The executor's decision on whole references: what notify applies patch applies, what
   patch applies minor applies, what minor applies auto applies, whatever the other labels
   are; and a detected major bump is refused by patch and by minor.
   */
  lemma PolicyLattice(labels: Labels, current: string, next: string)
    ensures !Applied(With(labels, "notify"), current, next)
    ensures Applied(With(labels, "patch"), current, next) ==> Applied(With(labels, "minor"), current, next)
    ensures Applied(With(labels, "minor"), current, next) ==> Applied(With(labels, "auto"), current, next)
    ensures IsMajorBump(VersionOf(current), VersionOf(next)) ==>
      !Applied(With(labels, "patch"), current, next) && !Applied(With(labels, "minor"), current, next)
  {
    var o, n := VersionOf(current), VersionOf(next);
    WithMeans(labels);
    DecideRelabelled(labels, "auto", Auto, o, n);
    DecideRelabelled(labels, "minor", Minor, o, n);
    DecideRelabelled(labels, "patch", Patch, o, n);
    DecideRelabelled(labels, "notify", Notify, o, n);
    DecideLattice(WatchEnabled(labels), ComposeManaged(labels), ComposeAuto(labels), o, n);
  }

  /**
   On references tagged with versions the two restricted strategies mean what they say:
   minor applies exactly the updates that keep the major, patch those that also keep the minor.
   */
  lemma PolicyOnVersions(repo: string, other: string, v: Written, w: Written)
    requires v.InRange() && w.InRange() && '@' !in repo && '@' !in other
    requires ':' !in v.Text() && '@' !in v.Text() && ':' !in w.Text() && '@' !in w.Text()
    ensures var current, next := VersionOf(repo + ":" + v.Text()), VersionOf(other + ":" + w.Text());
      && (Evaluate(Minor, next, current) <==> v.Meaning().major == w.Meaning().major)
      && (Evaluate(Patch, next, current) <==>
            v.Meaning().major == w.Meaning().major && v.Meaning().minor == w.Meaning().minor)
  {
    VersionOfPrinted(repo, v);
    VersionOfPrinted(other, w);
  }

  lemma VersionOfPrinted(repo: string, v: Written)
    requires v.InRange() && '@' !in repo && ':' !in v.Text() && '@' !in v.Text()
    ensures VersionOf(repo + ":" + v.Text()) == Some(v.Meaning())
  {
    TagOfPrinted(repo, v.Text());
    ParsePrinted(v);
  }

  lemma TagOfPrinted(repo: string, tag: string)
    requires '@' !in repo && '@' !in tag && ':' !in tag
    ensures ImageRefs.ImageTag(repo + ":" + tag) == tag
  {
    var ref := repo + [':'] + tag;
    assert repo + ":" + tag == ref;
    LastIndexAt(repo, ':', tag);
  }

  /** A label value the program does not know, a misspelt one say, updates without limits. */
  lemma UnknownMeansAuto(labels: Labels, text: string, current: string, next: string)
    requires text !in {"auto", "minor", "patch", "notify"}
    ensures Decide(With(labels, text), current, next) == Decide(With(labels, "auto"), current, next)
  {
    var o, n := VersionOf(current), VersionOf(next);
    WithMeans(labels);
    DecideRelabelled(labels, "auto", Auto, o, n);
    DecideRelabelled(labels, text, Unknown(text), o, n);
  }

  /** Compose containers that have not opted in are treated as if labelled notify, whatever they say. */
  lemma ComposeNeedsOptIn(labels: Labels, text: string, current: string, next: string)
    requires "com.docker.compose.project" in labels && labels["com.docker.compose.project"] != ""
    requires "dockwatch.compose.update" in labels ==> labels["dockwatch.compose.update"] != "auto"
    ensures !Applied(With(labels, text), current, next)
    ensures Decide(With(labels, text), current, next) == Decide(With(labels, "notify"), current, next)
  {
    var o, n := VersionOf(current), VersionOf(next);
    WithMeans(labels);
    OtherLabelsMean(labels);
    DecideRelabelled(labels, "notify", Notify, o, n);
    DecideRelabelled(labels, text, StrategyFromLabels(With(labels, text)), o, n);
  }

  /** A tag that begins, after one "v", with neither digit nor sign is no version. */
  lemma NoVersion(t: string)
    requires t == "" || (!('0' <= t[0] <= '9') && t[0] != '+' && t[0] != '-')
    ensures ParseSemver("v" + t) == None
    ensures t == "" || t[0] != 'v' ==> ParseSemver(t) == None
  {
    Trimmed("v", t);
    var first := Before(t, '.');
    if first != "" {
      assert first[0] == t[0];
      assert !Decimal.AllDigits(first);
    }
    assert Decimal.Atoi(first) == None;
  }
}
