/**
 Image references: three independently written parsers and two rewriters.
 `ParseImageRef` is registry.go's, `RegistryHost` is scoped.go's, `ImageTag` and
 `ImageRef` are executor.go's and `ReplaceTag` is updater.go's.
 */
module ImageRefs {
  import opened GoStrings

  const DOCKER_HUB := "registry-1.docker.io"

  datatype Parsed = Parsed(host: string, name: string, tag: string)

  /** The part of a reference before any digest. */
  function StripDigest(ref: string): string {
    Before(ref, '@')
  }

  /** The digest a reference is pinned to, or "". */
  function Pin(ref: string): string {
    After(ref, '@')
  }

  /** The last colon is a tag separator only when it comes after the last slash. */
  predicate HasTag(ref: string) {
    LastIndex(ref, ':') > LastIndex(ref, '/')
  }

  /** A digest-free reference without its tag. */
  function Untagged(ref: string): string {
    if HasTag(ref) then ref[..LastIndex(ref, ':')] else ref
  }

  predicate LooksLikeHost(first: string) {
    '.' in first || ':' in first || first == "localhost"
  }

  /** Host and repository name of a reference that carries neither digest nor tag. */
  function SplitHost(ref: string): Parsed {
    var first := Before(ref, '/');
    if '/' in ref && LooksLikeHost(first)
    then Parsed(Alias(first), Namespaced(Alias(first), After(ref, '/')), "")
    else Parsed(DOCKER_HUB, Namespaced(DOCKER_HUB, ref), "")
  }

  function Alias(host: string): string {
    if host == "docker.io" then DOCKER_HUB else host
  }

  /** Docker Hub's official images live under "library/". */
  function Namespaced(host: string, name: string): string {
    if host == DOCKER_HUB && '/' !in name then "library/" + name else name
  }

  function ParseImageRef(image: string): Parsed {
    var ref := StripDigest(image);
    var tag := if HasTag(ref) then ref[LastIndex(ref, ':') + 1..] else "latest";
    SplitHost(Untagged(ref)).(tag := tag)
  }

  function Print(p: Parsed): string {
    p.host + "/" + p.name + ":" + p.tag
  }

  /** In its own order: cut at "@", cut at a last colon after the last slash, look before the first slash. */
  function RegistryHost(image: string): string {
    var at := Index(image, '@');
    var plain := if at >= 0 then image[..at] else image;
    var lastSlash, colon := LastIndex(plain, '/'), LastIndex(plain, ':');
    var bare := if colon > lastSlash then plain[..colon] else plain;
    var slash := Index(bare, '/');
    if slash >= 0 && ('.' in bare[..slash] || ':' in bare[..slash] || bare[..slash] == "localhost")
    then bare[..slash] else DOCKER_HUB
  }

  function ImageTag(image: string): string {
    var ref := StripDigest(image);
    var i := LastIndex(ref, ':');
    if i >= 0 then ref[i + 1..] else ""
  }

  function ImageRef(image: string, digest: string): string {
    if digest == "" then image else image + "@" + digest
  }

  function ReplaceTag(image: string, newTag: string): string {
    var digest := image[|StripDigest(image)|..];
    var ref := StripDigest(image);
    var i := LastIndex(ref, ':');
    (if i >= 0 then ref[..i + 1] + newTag else ref + ":" + newTag) + digest
  }

  // ---- What parsing yields --------------------------------------------------

  predicate GoodHost(host: string) {
    LooksLikeHost(host) && '/' !in host && '@' !in host && host != "docker.io"
  }

  predicate GoodTag(tag: string) {
    '@' !in tag && ':' !in tag && '/' !in tag
  }

  lemma HubIsGoodHost()
    ensures GoodHost(DOCKER_HUB)
  {
    assert DOCKER_HUB[10] == '.';
    assert |DOCKER_HUB| != |"docker.io"|;
  }

  lemma SplitHostShape(u: string)
    requires '@' !in u
    ensures var p := SplitHost(u);
      GoodHost(p.host) && '@' !in p.name && (p.host == DOCKER_HUB ==> '/' in p.name)
  {
    HubIsGoodHost();
    var first := Before(u, '/');
    var hosted := '/' in u && LooksLikeHost(first);
    var name := if hosted then After(u, '/') else u;
    if hosted {
      assert u == first + ['/'] + name;
    }
    var lib := "library/";
    assert '@' !in lib && lib[7] == '/';
    assert (lib + name)[7] == '/';
  }

  lemma TagShape(ref: string)
    requires '@' !in ref && HasTag(ref)
    ensures GoodTag(ref[LastIndex(ref, ':') + 1..])
  {
  }

  /** Shape of every parse result: enough to know how its printed form splits. */
  lemma ParsedShape(image: string)
    ensures var p := ParseImageRef(image);
      && GoodHost(p.host) && GoodTag(p.tag)
      && '@' !in p.name && (p.host == DOCKER_HUB ==> '/' in p.name)
  {
    var ref := StripDigest(image);
    SplitHostShape(Untagged(ref));
    if HasTag(ref) {
      TagShape(ref);
    }
  }

  lemma SplitHostJoined(host: string, name: string)
    requires GoodHost(host) && (host == DOCKER_HUB ==> '/' in name)
    ensures SplitHost(host + "/" + name) == Parsed(host, name, "")
  {
    var body := host + ['/'] + name;
    CutAt(host, '/', name);
    assert body[|host|] == '/';
    assert host + "/" + name == body;
  }

  /** A host, a name and a tag of the right shapes are read back from their printed form. */
  lemma ParsePrinted(p: Parsed)
    requires GoodHost(p.host) && GoodTag(p.tag)
    requires '@' !in p.name && (p.host == DOCKER_HUB ==> '/' in p.name)
    ensures ParseImageRef(Print(p)) == p
  {
    var body := p.host + "/" + p.name;
    var s := body + [':'] + p.tag;
    assert Print(p) == s == body + ([':'] + p.tag);
    assert '@' !in s;
    LastIndexAt(body, ':', p.tag);
    LastIndexAppend(body, '/', [':'] + p.tag);
    assert HasTag(s) && Untagged(s) == body && s[|body| + 1..] == p.tag;
    SplitHostJoined(p.host, p.name);
  }

  /** Canonicalisation is idempotent on every string. */
  lemma CanonicalIdempotent(image: string)
    ensures ParseImageRef(Print(ParseImageRef(image))) == ParseImageRef(image)
  {
    ParsedShape(image);
    ParsePrinted(ParseImageRef(image));
  }

  /** The other extractor, in the parser's terms. */
  lemma RegistryReads(image: string)
    ensures var bare := Untagged(StripDigest(image));
      RegistryHost(image) ==
        if '/' in bare && LooksLikeHost(Before(bare, '/')) then Before(bare, '/') else DOCKER_HUB
  {
    var bare := Untagged(StripDigest(image));
    assert Index(bare, '/') >= 0 <==> '/' in bare;
  }

  lemma HubShape(name: string, tag: string)
    requires ':' !in name && '@' !in name && GoodTag(tag)
    requires '/' in name ==> !LooksLikeHost(Before(name, '/'))
    ensures ParseImageRef(name) == Parsed(DOCKER_HUB, Namespaced(DOCKER_HUB, name), "latest")
    ensures ParseImageRef(name + ":" + tag) == Parsed(DOCKER_HUB, Namespaced(DOCKER_HUB, name), tag)
    ensures ImageTag(name) == "" && ImageTag(name + ":" + tag) == tag
    ensures RegistryHost(name) == RegistryHost(name + ":" + tag) == DOCKER_HUB
  {
    var s := name + [':'] + tag;
    assert s == name + ":" + tag && '@' !in s;
    LastIndexAt(name, ':', tag);
    assert s == name + ([':'] + tag);
    LastIndexAppend(name, '/', [':'] + tag);
    assert Untagged(s) == name && s[|name| + 1..] == tag;
    assert !HasTag(name);
    RegistryReads(name);
    RegistryReads(s);
  }

  lemma HubText(name: string)
    ensures DOCKER_HUB == "registry-1.docker.io"
    ensures Namespaced(DOCKER_HUB, name) == if '/' in name then name else "library/" + name
  {
  }

  /** What a reference says when its first component is no host, or when there is none. */
  lemma HubNames(name: string, tag: string)
    requires ':' !in name && '@' !in name && '@' !in tag && ':' !in tag && '/' !in tag
    requires var first := Before(name, '/'); '/' in name ==> '.' !in first && first != "localhost"
    ensures var full := if '/' in name then name else "library/" + name;
      && ParseImageRef(name) == Parsed("registry-1.docker.io", full, "latest")
      && ParseImageRef(name + ":" + tag) == Parsed("registry-1.docker.io", full, tag)
    ensures RegistryHost(name) == RegistryHost(name + ":" + tag) == "registry-1.docker.io"
    ensures ImageTag(name) == "" && ImageTag(name + ":" + tag) == tag
  {
    HubShape(name, tag);
    HubText(name);
  }

  lemma AliasText(host: string, name: string)
    ensures Alias(host) == if host == "docker.io" then "registry-1.docker.io" else host
    ensures Namespaced(host, name) ==
      if host == "registry-1.docker.io" && '/' !in name then "library/" + name else name
  {
  }

  /**
   What it says when its first component is one: a name with a dot or a colon, or "localhost".
   The alias docker.io means the hub to the registry's parser and is kept by the other
   extractor; the hub's one-word names are official images.
   */
  lemma HostedNames(host: string, name: string, tag: string)
    requires ('.' in host || ':' in host || host == "localhost") && '/' !in host && '@' !in host
    requires '@' !in name && '@' !in tag && ':' !in tag && '/' !in tag
    ensures var registry := if host == "docker.io" then "registry-1.docker.io" else host;
      var full := if registry == "registry-1.docker.io" && '/' !in name then "library/" + name else name;
      && ParseImageRef(host + "/" + name + ":" + tag) == Parsed(registry, full, tag)
      && (':' !in name ==> ParseImageRef(host + "/" + name) == Parsed(registry, full, "latest"))
    ensures RegistryHost(host + "/" + name + ":" + tag) == host
    ensures ':' !in name ==> RegistryHost(host + "/" + name) == host
  {
    AliasText(host, name);
    AliasText(Alias(host), name);
    HostedTagged(host, name, tag);
    if ':' !in name {
      HostedUntagged(host, name);
    }
  }

  lemma HostedTagged(host: string, name: string, tag: string)
    requires LooksLikeHost(host) && '/' !in host && '@' !in host && '@' !in name && GoodTag(tag)
    ensures var image := host + "/" + name + ":" + tag;
      ParseImageRef(image) == Parsed(Alias(host), Namespaced(Alias(host), name), tag) && RegistryHost(image) == host
  {
    var body := host + ['/'] + name;
    var s := body + [':'] + tag;
    assert s == host + "/" + name + ":" + tag && '@' !in s && s == body + ([':'] + tag);
    LastIndexAt(body, ':', tag);
    LastIndexAppend(body, '/', [':'] + tag);
    assert Untagged(s) == body && s[|body| + 1..] == tag;
    CutAt(host, '/', name);
    assert body[|host|] == '/';
    RegistryReads(s);
  }

  lemma HostedUntagged(host: string, name: string)
    requires LooksLikeHost(host) && '/' !in host && '@' !in host && '@' !in name && ':' !in name
    ensures var image := host + "/" + name;
      && ParseImageRef(image) == Parsed(Alias(host), Namespaced(Alias(host), name), "latest")
      && RegistryHost(image) == host
  {
    var body := host + ['/'] + name;
    assert body == host + "/" + name && '@' !in body;
    CutAt(host, '/', name);
    assert body[|host|] == '/';
    assert !HasTag(body);
    RegistryReads(body);
  }

  /** The two host extractors agree up to the Docker Hub alias, on every string. */
  lemma HostsAgree(image: string)
    ensures ParseImageRef(image).host
         == (if RegistryHost(image) == "docker.io" then DOCKER_HUB else RegistryHost(image))
  {
    RegistryReads(image);
  }

  // ---- Pinning --------------------------------------------------------------

  /** A reference is cut at its first "@": what is before it names the image, what follows pins it. */
  lemma CutAtDigest(name: string, digest: string)
    requires '@' !in name
    ensures StripDigest(name) == name && Pin(name) == ""
    ensures StripDigest(name + "@" + digest) == name && Pin(name + "@" + digest) == digest
  {
    CutAt(name, '@', digest);
    assert name + "@" + digest == name + ['@'] + digest;
  }

  /** Which references a digest-free one stands for. */
  lemma StripsTo(ref: string, image: string)
    ensures StripDigest(ref) == image <==> '@' !in image && (ref == image || image + "@" <= ref)
  {
    if '@' in ref {
      Joined(ref, '@');
      assert Before(ref, '@') + "@" <= ref;
    }
    if '@' !in image && image + "@" <= ref {
      var rest := ref[|image| + 1..];
      assert ref == image + ['@'] + rest;
      CutAt(image, '@', rest);
    }
  }

  lemma StripPinned(image: string, digest: string)
    ensures StripDigest(ImageRef(image, digest)) == StripDigest(image)
  {
    if digest != "" {
      var i := Index(image, '@');
      if i < 0 {
        CutAt(image, '@', digest);
        assert image + "@" + digest == image + ['@'] + digest;
      } else {
        var rest := image[i + 1..] + "@" + digest;
        assert image == image[..i] + ['@'] + image[i + 1..];
        assert image + "@" + digest == image[..i] + ['@'] + rest;
        CutAt(image[..i], '@', rest);
      }
    }
  }

  /** Appending a digest changes neither host, name nor tag, for any reader of the reference. */
  lemma PinInvariant(image: string, digest: string)
    ensures var pinned := ImageRef(image, digest);
      && ParseImageRef(pinned) == ParseImageRef(image)
      && RegistryHost(pinned) == RegistryHost(image)
      && ImageTag(pinned) == ImageTag(image)
  {
    StripPinned(image, digest);
  }

  /**
   The reference built for a digest is pinned to exactly that digest if and only if the
   image was not pinned before (or both digests are empty): an earlier pin is not stripped.
   */
  lemma PinIsDigest(image: string, digest: string)
    ensures Pin(ImageRef(image, digest)) == digest
       <==> ('@' !in image || (digest == "" && Pin(image) == ""))
  {
    if '@' !in image {
      CutAt(image, '@', digest);
      assert digest != "" ==> image + "@" + digest == image + ['@'] + digest;
    } else if digest != "" {
      var i := Index(image, '@');
      var rest := image[i + 1..] + "@" + digest;
      assert image == image[..i] + ['@'] + image[i + 1..];
      assert image + "@" + digest == image[..i] + ['@'] + rest;
      CutAt(image[..i], '@', rest);
      assert |rest| > |digest|;
    }
  }

  // ---- Rewriting the tag ----------------------------------------------------

  /** The rewritten reference, taken apart: base up to a colon, the new tag, the old digest. */
  function TagBase(image: string): (b: string)
    ensures '@' !in b
  {
    var ref := StripDigest(image);
    var i := LastIndex(ref, ':');
    if i >= 0 then ref[..i] else ref
  }

  /** A head without "@", followed by nothing or by a digest with its "@". */
  lemma StripAt(head: string, digest: string)
    requires '@' !in head && (digest != "" ==> digest[0] == '@')
    ensures StripDigest(head + digest) == head && (head + digest)[|head|..] == digest
  {
    if digest == "" {
      assert head + digest == head;
    } else {
      assert head + digest == head + ['@'] + digest[1..];
      CutAt(head, '@', digest[1..]);
    }
  }

  lemma DigestPart(image: string)
    ensures var digest := image[|StripDigest(image)|..]; digest != "" ==> digest[0] == '@'
  {
  }

  lemma ReplacedText(ref: string, t: string)
    requires '@' !in ref && '@' !in t
    ensures (if LastIndex(ref, ':') >= 0 then ref[..LastIndex(ref, ':') + 1] + t else ref + ":" + t)
         == (if LastIndex(ref, ':') >= 0 then ref[..LastIndex(ref, ':')] else ref) + [':'] + t
  {
    var i := LastIndex(ref, ':');
    if i >= 0 {
      UpToColon(ref, i);
    }
  }

  lemma UpToColon(ref: string, i: nat)
    requires i < |ref| && ref[i] == ':'
    ensures ref[..i + 1] == ref[..i] + [':']
  {
  }

  lemma ReplacedShape(image: string, t: string)
    requires '@' !in t
    ensures ReplaceTag(image, t) == TagBase(image) + [':'] + t + image[|StripDigest(image)|..]
    ensures StripDigest(ReplaceTag(image, t)) == TagBase(image) + [':'] + t
    ensures ReplaceTag(image, t)[|StripDigest(ReplaceTag(image, t))|..] == image[|StripDigest(image)|..]
  {
    var head, digest := TagBase(image) + [':'] + t, image[|StripDigest(image)|..];
    ReplacedText(StripDigest(image), t);
    assert ReplaceTag(image, t) == head + digest;
    DigestPart(image);
    StripAt(head, digest);
  }

  /**
   In the text: the tag after the last colon gives way to the new one, a reference without a
   colon gets one, and a digest stays behind it.
   */
  lemma RewrittenText(base: string, tag: string, digest: string, t: string)
    requires '@' !in base && '@' !in tag && ':' !in tag && (digest != "" ==> digest[0] == '@')
    ensures ReplaceTag(base + ":" + tag + digest, t) == base + ":" + t + digest
    ensures ':' !in base ==> ReplaceTag(base + digest, t) == base + ":" + t + digest
  {
    var head := base + [':'] + tag;
    assert base + ":" + tag == head;
    StripAt(head, digest);
    StripAt(base, digest);
    LastIndexAt(base, ':', tag);
    assert head[..|base| + 1] == base + ":";
  }

  /** Writing a tag and reading it back gives that tag, whatever the reference was. */
  lemma TagReadsBack(image: string, t: string)
    requires ':' !in t && '@' !in t
    ensures ImageTag(ReplaceTag(image, t)) == t
  {
    ReplacedShape(image, t);
    LastIndexAt(TagBase(image), ':', t);
  }

  /** Writing twice is writing the second tag. */
  lemma LastTagWins(image: string, a: string, b: string)
    requires ':' !in a && '@' !in a
    ensures ReplaceTag(ReplaceTag(image, a), b) == ReplaceTag(image, b)
  {
    ReplacedShape(image, a);
    var once := ReplaceTag(image, a);
    LastIndexAt(TagBase(image), ':', a);
    assert StripDigest(once)[..|TagBase(image)| + 1] == TagBase(image) + ":";
    var ref := StripDigest(image);
    var i := LastIndex(ref, ':');
    if i >= 0 {
      assert ref[..i + 1] == TagBase(image) + ":";
    }
  }

  function Colons(s: string): nat {
    multiset(s)[':']
  }

  lemma ColonsAdd(a: string, b: string)
    ensures Colons(a + b) == Colons(a) + Colons(b)
  {
    assert multiset(a + b) == multiset(a) + multiset(b);
  }

  /** None of the constant strings the parser inserts holds a colon. */
  lemma ConstantsHaveNoColon()
    ensures Colons(DOCKER_HUB) == 0 && Colons("docker.io") == 0 && Colons("library/") == 0
  {
    assert ':' !in DOCKER_HUB && ':' !in "docker.io" && ':' !in "library/";
  }

  lemma AliasColons(host: string)
    ensures Colons(Alias(host)) == Colons(host) && Colons(DOCKER_HUB) == 0
  {
    ConstantsHaveNoColon();
  }

  lemma NamespacedColons(host: string, name: string)
    ensures Colons(Namespaced(host, name)) == Colons(name)
  {
    ConstantsHaveNoColon();
    ColonsAdd("library/", name);
  }

  /** Splitting off the host neither adds nor drops a colon. */
  lemma ColonsKept(ref: string)
    ensures Colons(SplitHost(ref).host) + Colons(SplitHost(ref).name) == Colons(ref)
  {
    var first, rest := Before(ref, '/'), After(ref, '/');
    AliasColons(first);
    if '/' in ref && LooksLikeHost(first) {
      NamespacedColons(Alias(first), rest);
      Joined(ref, '/');
      CutColons(first, rest);
    } else {
      NamespacedColons(DOCKER_HUB, ref);
    }
  }

  lemma CutColons(first: string, rest: string)
    ensures Colons(first + ['/'] + rest) == Colons(first) + Colons(rest)
  {
    assert Colons(['/']) == 0;
    ColonsAdd(first + ['/'], rest);
    ColonsAdd(first, ['/']);
  }

  /** What the registry's parser makes of a rewritten reference. */
  lemma RewrittenParse(image: string, t: string)
    requires ':' !in t && '@' !in t && '/' !in t
    ensures ParseImageRef(ReplaceTag(image, t)) == SplitHost(TagBase(image)).(tag := t)
  {
    ReplacedShape(image, t);
    var base := TagBase(image);
    var out := base + [':'] + t;
    LastIndexAt(base, ':', t);
    LastIndexAppend(base, '/', [':'] + t);
    assert out == base + ([':'] + t);
    assert HasTag(out) && Untagged(out) == base && out[|base| + 1..] == t;
  }

  /**
   A rewritten tag is the registry's tag, with host and name kept, exactly when the
   reference's last colon separates a tag. An untagged `host:port/name` is the
   failing family: its port colon is taken for the tag separator.
   */
  lemma RewriteAgreesWithParse(image: string, t: string)
    requires ':' !in t && '@' !in t && '/' !in t
    ensures ParseImageRef(ReplaceTag(image, t)) == ParseImageRef(image).(tag := t)
       <==> (HasTag(StripDigest(image)) || ':' !in StripDigest(image))
  {
    RewrittenParse(image, t);
    var ref := StripDigest(image);
    if HasTag(ref) || ':' !in ref {
      assert Untagged(ref) == TagBase(image);
    } else {
      PortDropped(ref);
    }
  }

  /** Cutting an untagged reference at its last colon loses that colon, so the parse differs. */
  lemma PortDropped(ref: string)
    requires ':' in ref
    ensures SplitHost(ref[..LastIndex(ref, ':')]) != SplitHost(ref)
  {
    var i := LastIndex(ref, ':');
    var base, rest := ref[..i], ref[i + 1..];
    assert ref == base + [':'] + rest;
    assert Colons([':']) == 1;
    ColonsAdd(base + [':'], rest);
    ColonsAdd(base, [':']);
    ColonsKept(ref);
    ColonsKept(base);
  }
}
