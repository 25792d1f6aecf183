/**
 registry.go: reading a Bearer challenge (section 3 of RFC 6750). The header is split at
 every comma; each part is a key, "=", and a value that loses its surrounding quotes.
 */
module Challenge {
  import opened GoStrings

  type Params = map<string, string>

  datatype Result = Ok(realm: string, params: Params) | NotBearer | NoRealm

  const SCHEME := "Bearer "

  // ---- The string operations ------------------------------------------------

  /** strings.Split(s, ","). */
  function Split(s: string): (r: seq<string>)
    ensures |r| > 0
    decreases |s|
  {
    if ',' in s then [Before(s, ',')] + Split(After(s, ',')) else [s]
  }

  /** unicode.IsSpace. */
  predicate Space(c: char) {
    || c == ' ' || '\t' <= c <= '\r' || c == '\U{85}' || c == '\U{A0}' || c == '\U{1680}'
    || '\U{2000}' <= c <= '\U{200A}' || c == '\U{2028}' || c == '\U{2029}' || c == '\U{202F}'
    || c == '\U{205F}' || c == '\U{3000}'
  }

  function TrimLeft(s: string, cut: char -> bool): (r: string)
    ensures r != [] ==> !cut(r[0])
    ensures s != [] && !cut(s[0]) ==> r == s
  {
    if s != [] && cut(s[0]) then TrimLeft(s[1..], cut) else s
  }

  function TrimRight(s: string, cut: char -> bool): (r: string)
    ensures r != [] ==> !cut(r[|r| - 1])
    ensures s != [] && !cut(s[|s| - 1]) ==> r == s
  {
    if s != [] && cut(s[|s| - 1]) then TrimRight(s[..|s| - 1], cut) else s
  }

  function TrimSpace(s: string): string {
    TrimRight(TrimLeft(s, Space), Space)
  }

  predicate Quote(c: char) {
    c == '"'
  }

  function Unquote(s: string): string {
    TrimRight(TrimLeft(s, Quote), Quote)
  }

  // ---- Parsing --------------------------------------------------------------

  /** The realm and the parameters read so far. */
  datatype Read = Read(realm: string, params: Params) {
    function Add(key: string, value: string): Read {
      if key == "realm" then this.(realm := value) else this.(params := params[key := value])
    }

    function AddPart(part: string): Read {
      var trimmed := TrimSpace(part);
      if '=' in trimmed then Add(Before(trimmed, '='), Unquote(After(trimmed, '='))) else this
    }

    function AddParts(parts: seq<string>): Read
      decreases |parts|
    {
      if parts == [] then this else AddPart(parts[0]).AddParts(parts[1..])
    }

    function AddAll(pairs: seq<(string, string)>): Read
      decreases |pairs|
    {
      if pairs == [] then this else Add(pairs[0].0, pairs[0].1).AddAll(pairs[1..])
    }

    function Finish(): Result {
      if realm == "" then NoRealm else Ok(realm, params)
    }
  }

  function Parse(header: string): Result {
    if SCHEME <= header
    then Read("", map[]).AddParts(Split(header[|SCHEME|..])).Finish()
    else NotBearer
  }

  method ParseBearerChallenge(header: string) returns (r: Result)
    ensures r == Parse(header)
    ensures r == NotBearer <==> !("Bearer " <= header)
    ensures r.Ok? ==> r.realm != "" && "realm" !in r.params
  {
    assert SCHEME == "Bearer ";
    if !(SCHEME <= header) {
      return NotBearer;
    }
    var parts := Split(header[|SCHEME|..]);
    var realm := "";
    var params: Params := map[];
    for i := 0 to |parts|
      invariant "realm" !in params
      invariant Read("", map[]).AddParts(parts) == Read(realm, params).AddParts(parts[i..])
    {
      assert parts[i..][0] == parts[i] && parts[i..][1..] == parts[i + 1..];
      var trimmed := TrimSpace(parts[i]);
      if '=' !in trimmed {
        continue;
      }
      var key, value := Before(trimmed, '='), Unquote(After(trimmed, '='));
      if key == "realm" {
        realm := value;
      } else {
        params := params[key := value];
      }
    }
    assert parts[|parts|..] == [];
    if realm == "" {
      return NoRealm;
    }
    r := Ok(realm, params);
  }

  // ---- Printing and reading back --------------------------------------------

  /** White space is what Unicode says it is. */
  lemma SpaceMeans(c: char)
    ensures Space(c) <==> c in {
      '\U{09}', '\U{0A}', '\U{0B}', '\U{0C}', '\U{0D}', '\U{20}', '\U{85}', '\U{A0}', '\U{1680}',
      '\U{2000}', '\U{2001}', '\U{2002}', '\U{2003}', '\U{2004}', '\U{2005}', '\U{2006}', '\U{2007}',
      '\U{2008}', '\U{2009}', '\U{200A}', '\U{2028}', '\U{2029}', '\U{202F}', '\U{205F}', '\U{3000}'}
  {
  }

  predicate Only(s: string, p: char -> bool) {
    forall k | 0 <= k < |s| :: p(s[k])
  }

  /**
   What can stand between two commas: anything without "=", or a key and a value, with white
   space around the two and any number of quotes around the value.
   */
  datatype Piece =
    | Bare(text: string)
    | Pair(left: string, key: string, open: string, value: string, close: string, right: string)
  {
    function Text(): string {
      match this
      case Bare(text) => text
      case Pair(left, key, open, value, close, right) => left + (key + ['='] + (open + value + close)) + right
    }

    predicate Proper() {
      match this
      case Bare(text) => '=' !in text && ',' !in text
      case Pair(left, key, open, value, close, right) =>
        && Only(left, Space) && Only(right, Space)
        && '=' !in key && ',' !in key && (key != "" ==> !Space(key[0]))
        && Only(open, c => c == '"') && Only(close, c => c == '"')
        && ',' !in value && (value != "" ==> value[0] != '"' && value[|value| - 1] != '"')
        && (close == "" && value != "" ==> !Space(value[|value| - 1]))
    }
  }

  function Join(pieces: seq<Piece>): string {
    if pieces == [] then ""
    else if |pieces| == 1 then pieces[0].Text()
    else pieces[0].Text() + [','] + Join(pieces[1..])
  }

  function Pairs(pieces: seq<Piece>): seq<(string, string)> {
    if pieces == [] then []
    else (if pieces[0].Pair? then [(pieces[0].key, pieces[0].value)] else []) + Pairs(pieces[1..])
  }

  lemma {:induction false} TrimLeftPadded(pad: string, s: string, cut: char -> bool)
    requires Only(pad, cut)
    ensures TrimLeft(pad + s, cut) == TrimLeft(s, cut)
  {
    if pad == "" {
      assert pad + s == s;
    } else {
      TrimLeftPadded(pad[1..], s, cut);
      assert (pad + s)[1..] == pad[1..] + s;
    }
  }

  lemma {:induction false} TrimRightPadded(s: string, pad: string, cut: char -> bool)
    requires Only(pad, cut)
    ensures TrimRight(s + pad, cut) == TrimRight(s, cut)
  {
    if pad == "" {
      assert s + pad == s;
    } else {
      var n := |pad| - 1;
      TrimRightPadded(s, pad[..n], cut);
      assert (s + pad)[..|s| + n] == s + pad[..n] && (s + pad)[|s| + n] == pad[n];
    }
  }

  lemma TrimPadded(left: string, s: string, right: string)
    requires Only(left, Space) && Only(right, Space) && s != "" && !Space(s[0]) && !Space(s[|s| - 1])
    ensures TrimSpace(left + s + right) == s
  {
    assert left + s + right == left + (s + right);
    TrimLeftPadded(left, s + right, Space);
    assert (s + right)[0] == s[0];
    TrimRightPadded(s, right, Space);
  }

  lemma UnquoteQuoted(open: string, v: string, close: string)
    requires Only(open, c => c == '"') && Only(close, c => c == '"')
    requires v != "" ==> v[0] != '"' && v[|v| - 1] != '"'
    ensures Unquote(open + v + close) == v
  {
    assert open + v + close == open + (v + close);
    TrimLeftPadded(open, v + close, Quote);
    if v == "" {
      assert v + close == close + "";
      TrimLeftPadded(close, "", Quote);
    } else {
      assert (v + close)[0] == v[0];
      TrimRightPadded(v, close, Quote);
    }
  }

  lemma {:induction false} TrimKeepsPlain(s: string, c: char)
    requires c !in s
    ensures c !in TrimSpace(s)
  {
    TrimLeftWithin(s, Space);
    TrimRightWithin(TrimLeft(s, Space), Space);
  }

  lemma {:induction false} TrimLeftWithin(s: string, cut: char -> bool)
    ensures forall c | c in TrimLeft(s, cut) :: c in s
  {
    if s != [] && cut(s[0]) {
      TrimLeftWithin(s[1..], cut);
    }
  }

  lemma {:induction false} TrimRightWithin(s: string, cut: char -> bool)
    ensures forall c | c in TrimRight(s, cut) :: c in s
  {
    if s != [] && cut(s[|s| - 1]) {
      TrimRightWithin(s[..|s| - 1], cut);
    }
  }

  lemma {:induction false} TrimLeftSplits(s: string, cut: char -> bool) returns (pad: string)
    ensures Only(pad, cut) && s == pad + TrimLeft(s, cut)
  {
    if s != [] && cut(s[0]) {
      var more := TrimLeftSplits(s[1..], cut);
      pad := [s[0]] + more;
    } else {
      pad := "";
    }
  }

  lemma {:induction false} TrimRightSplits(s: string, cut: char -> bool) returns (pad: string)
    ensures Only(pad, cut) && s == TrimRight(s, cut) + pad
  {
    if s != [] && cut(s[|s| - 1]) {
      var more := TrimRightSplits(s[..|s| - 1], cut);
      pad := more + [s[|s| - 1]];
      assert s == s[..|s| - 1] + [s[|s| - 1]];
    } else {
      pad := "";
    }
  }

  lemma EveryValue(quoted: string) returns (open: string, value: string, close: string)
    ensures quoted == open + value + close
    ensures Only(open, c => c == '"') && Only(close, c => c == '"')
    ensures value != "" ==> value[0] != '"' && value[|value| - 1] != '"'
  {
    open := TrimLeftSplits(quoted, c => c == '"');
    var inner := TrimLeft(quoted, c => c == '"');
    close := TrimRightSplits(inner, c => c == '"');
    value := TrimRight(inner, c => c == '"');
    assert value != "" ==> value[0] == inner[0];
  }

  /** A text with "=" and nothing to trim at its ends is a key, "=" and a value in quotes. */
  lemma EveryPair(left: string, body: string, right: string) returns (p: Piece)
    requires Only(left, Space) && Only(right, Space) && '=' in body && ',' !in body
    requires !Space(body[0]) && !Space(body[|body| - 1])
    ensures p.Proper() && p.Text() == left + body + right
  {
    Joined(body, '=');
    var key, quoted := Before(body, '='), After(body, '=');
    var open, value, close := EveryValue(quoted);
    p := Pair(left, key, open, value, close, right);
    assert key != "" ==> key[0] == body[0];
    assert ',' !in key && ',' !in quoted;
    assert forall k | 0 <= k < |value| :: value[k] == quoted[|open| + k];
    if close == "" && value != "" {
      assert quoted[|quoted| - 1] == value[|value| - 1] == body[|body| - 1];
    }
  }

  /** Every text without a comma is a piece. */
  lemma EveryPart(s: string) returns (p: Piece)
    requires ',' !in s
    ensures p.Proper() && p.Text() == s
  {
    var left := TrimLeftSplits(s, Space);
    var right := TrimRightSplits(TrimLeft(s, Space), Space);
    var body := TrimSpace(s);
    assert s == left + body + right;
    if '=' in s {
      assert !Space('=');
      p := EveryPair(left, body, right);
    } else {
      p := Bare(s);
    }
  }

  /** Every text is pieces between commas, so what follows holds of every header of the scheme. */
  lemma {:induction false} EveryHeader(s: string) returns (pieces: seq<Piece>)
    ensures pieces != [] && (forall i | 0 <= i < |pieces| :: pieces[i].Proper()) && Join(pieces) == s
    decreases |s|
  {
    if ',' in s {
      Joined(s, ',');
      var first := EveryPart(Before(s, ','));
      var rest := EveryHeader(After(s, ','));
      pieces := [first] + rest;
      assert pieces[1..] == rest;
    } else {
      var only := EveryPart(s);
      pieces := [only];
    }
  }

  lemma PartReadsBack(r: Read, p: Piece)
    requires p.Proper()
    ensures r.AddPart(p.Text()) == if p.Pair? then r.Add(p.key, p.value) else r
  {
    match p
    case Bare(text) =>
      TrimKeepsPlain(text, '=');
    case Pair(left, key, open, value, close, right) =>
      var quoted := open + value + close;
      var s := key + ['='] + quoted;
      assert s[0] == if key == "" then '=' else key[0];
      assert s[|s| - 1] == if quoted == "" then '=' else quoted[|quoted| - 1];
      TrimPadded(left, s, right);
      CutAt(key, '=', quoted);
      assert s[|key|] == '=';
      UnquoteQuoted(open, value, close);
  }

  lemma PieceHasNoComma(p: Piece)
    requires p.Proper()
    ensures ',' !in p.Text()
  {
    assert !Space(',');
  }

  lemma {:induction false} PartsReadBack(r: Read, pieces: seq<Piece>)
    requires pieces != [] && forall i | 0 <= i < |pieces| :: pieces[i].Proper()
    ensures r.AddParts(Split(Join(pieces))) == r.AddAll(Pairs(pieces))
    decreases |pieces|
  {
    var first := pieces[0].Text();
    PieceHasNoComma(pieces[0]);
    PartReadsBack(r, pieces[0]);
    var r1 := r.AddPart(first);
    AddFirst(r, pieces);
    if |pieces| == 1 {
      assert Split(Join(pieces)) == [first] && [first][1..] == [] && pieces[1..] == [];
      assert r1.AddParts([]) == r1 && r1.AddAll([]) == r1;
    } else {
      var rest := Join(pieces[1..]);
      CutAt(first, ',', rest);
      assert ',' in first + [','] + rest by { assert (first + [','] + rest)[|first|] == ','; }
      assert Split(Join(pieces)) == [first] + Split(rest);
      assert ([first] + Split(rest))[1..] == Split(rest);
      PartsReadBack(r1, pieces[1..]);
    }
  }

  lemma AddFirst(r: Read, pieces: seq<Piece>)
    requires pieces != []
    ensures r.AddAll(Pairs(pieces)) ==
      (if pieces[0].Pair? then r.Add(pieces[0].key, pieces[0].value) else r).AddAll(Pairs(pieces[1..]))
  {
    var rest := Pairs(pieces[1..]);
    if pieces[0].Pair? {
      var all := [(pieces[0].key, pieces[0].value)] + rest;
      assert all[0] == (pieces[0].key, pieces[0].value) && all[1..] == rest;
    } else {
      assert [] + rest == rest;
    }
  }

  /** The value of the last pair with a key. */
  function Last(pairs: seq<(string, string)>, key: string): Option<string> {
    if pairs == [] then None
    else if pairs[|pairs| - 1].0 == key then Some(pairs[|pairs| - 1].1)
    else Last(pairs[..|pairs| - 1], key)
  }

  lemma {:induction false} AddAllSnoc(r: Read, pairs: seq<(string, string)>)
    requires pairs != []
    ensures var n := |pairs| - 1; r.AddAll(pairs) == r.AddAll(pairs[..n]).Add(pairs[n].0, pairs[n].1)
    decreases |pairs|
  {
    var n := |pairs| - 1;
    if n == 0 {
      assert pairs[1..] == [] && pairs[..0] == [];
    } else {
      AddAllSnoc(r.Add(pairs[0].0, pairs[0].1), pairs[1..]);
      assert pairs[..n][0] == pairs[0] && pairs[..n][1..] == pairs[1..][..n - 1];
    }
  }

  /** What reading a list of pairs means: of every key the last value. */
  lemma {:induction false} LastWins(pairs: seq<(string, string)>, key: string)
    ensures var r := Read("", map[]).AddAll(pairs);
      && r.realm == (match Last(pairs, "realm") case Some(v) => v case None => "")
      && (key in r.params <==> key != "realm" && Last(pairs, key).Some?)
      && (key in r.params ==> r.params[key] == Last(pairs, key).value)
    decreases |pairs|
  {
    if pairs != [] {
      AddAllSnoc(Read("", map[]), pairs);
      LastWins(pairs[..|pairs| - 1], key);
    }
  }

  /**
   Reading back a challenge: the realm and, for every other key, the value of the last piece
   that has it; an error exactly when that realm is missing or empty.
   */
  lemma RoundTrip(pieces: seq<Piece>, key: string)
    requires forall i | 0 <= i < |pieces| :: pieces[i].Proper()
    ensures var pairs := Pairs(pieces);
      var realm := match Last(pairs, "realm") case Some(v) => v case None => "";
      var r := Parse("Bearer " + Join(pieces));
      && (r == NoRealm <==> realm == "")
      && (realm != "" ==>
           && r.Ok? && r.realm == realm
           && (key in r.params <==> key != "realm" && Last(pairs, key).Some?)
           && (key in r.params ==> r.params[key] == Last(pairs, key).value))
  {
    var start := Read("", map[]);
    var body := Join(pieces);
    assert SCHEME == "Bearer ";
    assert (SCHEME + body)[|SCHEME|..] == body;
    if pieces == [] {
      assert start.AddParts(Split("")) == start.AddPart("").AddParts([]) == start by {
        assert Split("") == [""] && [""][1..] == [];
      }
    } else {
      PartsReadBack(start, pieces);
    }
    LastWins(Pairs(pieces), key);
  }

  /** With distinct keys nothing is lost: every pair is read back. */
  lemma {:induction false} DistinctKeys(pairs: seq<(string, string)>, i: nat)
    requires i < |pairs| && forall j, k | 0 <= j < k < |pairs| :: pairs[j].0 != pairs[k].0
    ensures Last(pairs, pairs[i].0) == Some(pairs[i].1)
    decreases |pairs|
  {
    if i < |pairs| - 1 {
      DistinctKeys(pairs[..|pairs| - 1], i);
    }
  }

  lemma {:induction false} LastIsAPair(pairs: seq<(string, string)>, key: string)
    ensures Last(pairs, key).Some? ==> (key, Last(pairs, key).value) in pairs
    decreases |pairs|
  {
    if pairs != [] {
      LastIsAPair(pairs[..|pairs| - 1], key);
      assert forall p | p in pairs[..|pairs| - 1] :: p in pairs;
    }
  }

  /** With distinct keys and a non-empty realm the challenge is read back exactly. */
  lemma ExactRoundTrip(pieces: seq<Piece>, at: nat)
    requires forall i | 0 <= i < |pieces| :: pieces[i].Proper()
    requires var pairs := Pairs(pieces);
      && (forall j, k | 0 <= j < k < |pairs| :: pairs[j].0 != pairs[k].0)
      && at < |pairs| && pairs[at].0 == "realm" && pairs[at].1 != ""
    ensures var pairs := Pairs(pieces);
      var r := Parse("Bearer " + Join(pieces));
      && r.Ok? && r.realm == pairs[at].1
      && (forall p | p in pairs && p.0 != "realm" :: p.0 in r.params && r.params[p.0] == p.1)
      && (forall key | key in r.params :: key != "realm" && (key, r.params[key]) in pairs)
  {
    var pairs := Pairs(pieces);
    var r := Parse("Bearer " + Join(pieces));
    DistinctKeys(pairs, at);
    RoundTrip(pieces, "realm");
    forall p | p in pairs && p.0 != "realm" ensures p.0 in r.params && r.params[p.0] == p.1 {
      var i :| 0 <= i < |pairs| && pairs[i] == p;
      DistinctKeys(pairs, i);
      RoundTrip(pieces, p.0);
    }
    forall key | key in r.params ensures key != "realm" && (key, r.params[key]) in pairs {
      RoundTrip(pieces, key);
      LastIsAPair(pairs, key);
    }
  }
}
