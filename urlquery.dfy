/**
 * Go's `net/url` query handling as the client uses it: `url.QueryEscape` and
 * `url.Values` with `Add` and `Encode`.
 *
 * `url.Values` is a map from key to a list of values, and `Encode` writes the
 * keys in sorted order. The model keeps the pairs as a sequence in the order
 * they were added; every call site adds its keys in sorted order (proved where
 * the parameters are built in module Requests), and then the two orders agree.
 *
 * `QueryUnescape` and `DecodeQuery` are reference inverses: they read a query
 * string back into pairs, so that what a request carries can be stated as what
 * a server would read from it.
 */
module UrlQuery {
  import opened Wrappers
  import opened GoText

  /** The bytes `QueryEscape` leaves alone: letters, digits and `-_.~`. */
  predicate IsUnreserved(c: char) {
    ('A' <= c <= 'Z') || ('a' <= c <= 'z') || ('0' <= c <= '9') || c == '-' || c == '_' || c == '.' || c == '~'
  }

  predicate AllUnreserved(s: string) {
    forall i :: 0 <= i < |s| ==> IsUnreserved(s[i])
  }

  function HexDigit(d: int): (c: char)
    requires 0 <= d < 16
    ensures IsUnreserved(c)
  {
    if d < 10 then ('0' as int + d) as char else ('A' as int + d - 10) as char
  }

  predicate IsHex(c: char) {
    ('0' <= c <= '9') || ('A' <= c <= 'F') || ('a' <= c <= 'f')
  }

  function HexValue(c: char): (d: int)
    requires IsHex(c)
    ensures 0 <= d < 16
  {
    if '0' <= c <= '9' then c as int - '0' as int
    else if 'A' <= c <= 'F' then c as int - 'A' as int + 10
    else c as int - 'a' as int + 10
  }

  /** One byte, escaped as a query component: kept, `+` for a space, else `%XX`. */
  function EscapeChar(c: char): (r: string)
    ensures 0 < |r| <= 3
    ensures forall i :: 0 <= i < |r| ==> IsUnreserved(r[i]) || r[i] == '+' || r[i] == '%'
  {
    if IsUnreserved(c) then [c]
    else if c == ' ' then "+"
    else ['%', HexDigit(c as int / 16 % 16), HexDigit(c as int % 16)]
  }

  /**
   * `url.QueryEscape`. Its output never holds the characters that delimit a
   * query (`&`, `=`, `?`, `#`), which is what makes a query string readable
   * back into its pairs.
   */
  function QueryEscape(s: string): (r: string)
    ensures forall i :: 0 <= i < |r| ==> IsUnreserved(r[i]) || r[i] == '+' || r[i] == '%'
    ensures |r| >= |s|
    decreases |s|
  {
    if s == [] then [] else EscapeChar(s[0]) + QueryEscape(s[1..])
  }

  lemma {:induction false} EscapeUnreserved(s: string)
    requires AllUnreserved(s)
    ensures QueryEscape(s) == s
    decreases |s|
  {
    if s != [] {
      EscapeUnreserved(s[1..]);
    }
  }

  /** The inverse of `QueryEscape` (Go's `url.QueryUnescape`): `+` is a space, `%XX` a byte. */
  function QueryUnescape(s: string): Option<string>
    decreases |s|
  {
    if s == [] then Some([])
    else if s[0] == '%' then
      if |s| < 3 || !IsHex(s[1]) || !IsHex(s[2]) then None
      else match QueryUnescape(s[3..])
        case None => None
        case Some(t) => Some([(HexValue(s[1]) * 16 + HexValue(s[2])) as char] + t)
    else
      match QueryUnescape(s[1..])
      case None => None
      case Some(t) => Some([if s[0] == '+' then ' ' else s[0]] + t)
  }

  lemma UnescapeChar(c: char, t: string)
    requires c as int < 256
    ensures QueryUnescape(EscapeChar(c) + t) ==
            match QueryUnescape(t) { case None => None case Some(u) => Some([c] + u) }
  {
    var e := EscapeChar(c);
    if IsUnreserved(c) || c == ' ' {
      assert (e + t)[1..] == t;
    } else {
      assert (e + t)[3..] == t;
      var hi, lo := c as int / 16 % 16, c as int % 16;
      assert HexValue(HexDigit(hi)) == hi && HexValue(HexDigit(lo)) == lo;
      assert hi * 16 + lo == c as int;
    }
  }

  /** Escaping loses nothing: `QueryUnescape(QueryEscape(s)) == s` for every Go string. */
  lemma {:induction false} UnescapeEscape(s: string)
    requires IsByteString(s)
    ensures QueryUnescape(QueryEscape(s)) == Some(s)
    decreases |s|
  {
    if s != [] {
      assert IsByteString(s[1..]) by {
        forall i | 0 <= i < |s[1..]| ensures s[1..][i] as int < 256 { assert s[1..][i] == s[i + 1]; }
      }
      UnescapeEscape(s[1..]);
      UnescapeChar(s[0], QueryEscape(s[1..]));
      assert [s[0]] + s[1..] == s;
    }
  }

  // ---------------------------------------------------------------------------
  // url.Values

  type Param = (string, string)

  /** The pairs of a `url.Values`, in the order `Add` received them. */
  type Params = seq<Param>

  predicate AllByteStrings(ps: Params) {
    forall i :: 0 <= i < |ps| ==> IsByteString(ps[i].0) && IsByteString(ps[i].1)
  }

  function EncodePair(p: Param): string {
    QueryEscape(p.0) + "=" + QueryEscape(p.1)
  }

  /** `url.Values.Encode`: `key=value` pairs, both escaped, joined by `&`. */
  function Encode(ps: Params): (q: string)
    ensures (q == "") <==> (ps == [])
    decreases |ps|
  {
    if ps == [] then ""
    else if |ps| == 1 then EncodePair(ps[0])
    else EncodePair(ps[0]) + "&" + Encode(ps[1..])
  }

  /** Encoding a first pair and then the rest. */
  lemma EncodeCons(p: Param, ps: Params)
    ensures Encode([p] + ps) == EncodePair(p) + (if ps == [] then "" else "&" + Encode(ps))
  {
    assert ([p] + ps)[0] == p;
    assert ([p] + ps)[1..] == ps;
  }

  /** The values stored under `key`, in order: Go's `v[key]`. */
  function ValuesOf(ps: Params, key: string): seq<string>
    decreases |ps|
  {
    if ps == [] then []
    else (if ps[0].0 == key then [ps[0].1] else []) + ValuesOf(ps[1..], key)
  }

  lemma {:induction false} ValuesOfAppend(ps: Params, qs: Params, key: string)
    ensures ValuesOf(ps + qs, key) == ValuesOf(ps, key) + ValuesOf(qs, key)
    decreases |ps|
  {
    if ps == [] {
      assert ps + qs == qs;
    } else {
      assert (ps + qs)[0] == ps[0];
      assert (ps + qs)[1..] == ps[1..] + qs;
      ValuesOfAppend(ps[1..], qs, key);
    }
  }

  function Keys(ps: Params): set<string> {
    set i | 0 <= i < |ps| :: ps[i].0
  }

  /** Keys in non-decreasing order, the order in which `Encode` writes them. */
  predicate SortedByKey(ps: Params) {
    forall i :: 0 < i < |ps| ==> LexLe(ps[i - 1].0, ps[i].0)
  }

  /** One pair per value, all under `key`, as a loop of `Add(key, v)` produces them. */
  function Repeated(key: string, vs: seq<string>): (ps: Params)
    ensures |ps| == |vs|
    ensures forall i :: 0 <= i < |vs| ==> ps[i] == (key, vs[i])
    decreases |vs|
  {
    if vs == [] then [] else Repeated(key, vs[..|vs| - 1]) + [(key, vs[|vs| - 1])]
  }

  lemma {:induction false} ValuesOfRepeated(key: string, other: string, vs: seq<string>)
    ensures ValuesOf(Repeated(key, vs), key) == vs
    ensures other != key ==> ValuesOf(Repeated(key, vs), other) == []
    decreases |vs|
  {
    if vs != [] {
      var init := vs[..|vs| - 1];
      ValuesOfRepeated(key, other, init);
      ValuesOfAppend(Repeated(key, init), [(key, vs[|vs| - 1])], key);
      ValuesOfAppend(Repeated(key, init), [(key, vs[|vs| - 1])], other);
      assert init + [vs[|vs| - 1]] == vs;
    }
  }

  // ---------------------------------------------------------------------------
  // Reading a request target back

  /** Index of the first `c` in `s`, or `|s|` when there is none. */
  function IndexOf(s: string, c: char): (k: nat)
    ensures k <= |s|
    ensures k < |s| ==> s[k] == c
    ensures forall j :: 0 <= j < k ==> s[j] != c
    decreases |s|
  {
    if s == [] then 0 else if s[0] == c then 0 else 1 + IndexOf(s[1..], c)
  }

  lemma {:induction false} IndexOfAppend(a: string, b: string, c: char)
    requires forall j :: 0 <= j < |a| ==> a[j] != c
    ensures IndexOf(a + b, c) == |a| + IndexOf(b, c)
    decreases |a|
  {
    if a != [] {
      assert (a + b)[0] == a[0];
      assert (a + b)[1..] == a[1..] + b;
      IndexOfAppend(a[1..], b, c);
    } else {
      assert a + b == b;
    }
  }

  function DecodePair(seg: string): Option<Param> {
    var j := IndexOf(seg, '=');
    var key :- QueryUnescape(seg[..j]);
    var value :- QueryUnescape(if j < |seg| then seg[j + 1..] else "");
    Some((key, value))
  }

  /** Splits a query on `&`, skips empty segments and unescapes each `key=value`. */
  function DecodeQuery(q: string): Option<Params>
    decreases |q|
  {
    if q == "" then Some([])
    else
      var i := IndexOf(q, '&');
      var tail :- DecodeQuery(if i < |q| then q[i + 1..] else "");
      if i == 0 then Some(tail)
      else
        var p :- DecodePair(q[..i]);
        Some([p] + tail)
  }

  /** An encoded pair holds no `&`, so the next `&` is the one after it. */
  lemma EncodedPairEnds(p: Param, rest: string)
    requires rest == "" || rest[0] == '&'
    ensures IndexOf(EncodePair(p) + rest, '&') == |EncodePair(p)|
  {
    var k, v := QueryEscape(p.0), QueryEscape(p.1);
    assert EncodePair(p) == k + ("=" + v);
    IndexOfAppend(EncodePair(p), rest, '&');
  }

  /** Splitting `k=v` at its first `=` gives back `k` and `v` when `k` holds no `=`. */
  lemma SplitAtEquals(k: string, v: string)
    requires forall j :: 0 <= j < |k| ==> k[j] != '='
    ensures IndexOf(k + "=" + v, '=') == |k|
    ensures (k + "=" + v)[..|k|] == k && (k + "=" + v)[|k| + 1..] == v
  {
    assert k + "=" + v == k + ("=" + v);
    IndexOfAppend(k, "=" + v, '=');
    assert ("=" + v)[0] == '=';
  }

  lemma DecodeEncodedPair(p: Param)
    requires IsByteString(p.0) && IsByteString(p.1)
    ensures DecodePair(EncodePair(p)) == Some(p)
  {
    SplitAtEquals(QueryEscape(p.0), QueryEscape(p.1));
    UnescapeEscape(p.0);
    UnescapeEscape(p.1);
  }

  /** Reading an encoded query takes the first pair off and goes on with the rest. */
  lemma DecodeFirstPair(p: Param, rest: Params)
    requires IsByteString(p.0) && IsByteString(p.1)
    ensures DecodeQuery(Encode([p] + rest)) == (var tail :- DecodeQuery(Encode(rest)); Some([p] + tail))
  {
    EncodeCons(p, rest);
    var e := EncodePair(p);
    var r := if rest == [] then "" else "&" + Encode(rest);
    EncodedPairEnds(p, r);
    DecodeEncodedPair(p);
    var q := e + r;
    var i := IndexOf(q, '&');
    assert q[..i] == e;
    assert (if i < |q| then q[i + 1..] else "") == Encode(rest);
  }

  /** An encoded query reads back as exactly the pairs it was made from, in order. */
  lemma {:induction false} DecodeEncode(ps: Params)
    requires AllByteStrings(ps)
    ensures DecodeQuery(Encode(ps)) == Some(ps)
    decreases |ps|
  {
    if ps != [] {
      var p, rest := ps[0], ps[1..];
      assert ps == [p] + rest;
      DecodeFirstPair(p, rest);
      assert AllByteStrings(rest) by {
        forall j | 0 <= j < |rest| ensures IsByteString(rest[j].0) && IsByteString(rest[j].1) {
          assert rest[j] == ps[j + 1];
        }
      }
      DecodeEncode(rest);
    }
  }

  /** A request target: the path, then `?` and the encoded pairs when there are any. */
  function Join(path: string, ps: Params): string {
    if ps == [] then path else path + "?" + Encode(ps)
  }

  /** Reads a request target back into its path and query pairs. */
  function Target(endpoint: string): (string, Option<Params>) {
    var i := IndexOf(endpoint, '?');
    (endpoint[..i], DecodeQuery(if i < |endpoint| then endpoint[i + 1..] else ""))
  }

  predicate NoQueryMark(path: string) {
    forall j :: 0 <= j < |path| ==> path[j] != '?'
  }

  /** Whatever the pairs, a server reading the target finds the path and exactly those pairs. */
  lemma TargetOfJoin(path: string, ps: Params)
    requires NoQueryMark(path)
    requires AllByteStrings(ps)
    ensures Target(Join(path, ps)) == (path, Some(ps))
  {
    if ps == [] {
      IndexOfAppend(path, "", '?');
      assert path + "" == path;
    } else {
      var q := Encode(ps);
      assert Join(path, ps) == path + ("?" + q);
      IndexOfAppend(path, "?" + q, '?');
      assert (path + ("?" + q))[..|path|] == path;
      assert (path + ("?" + q))[|path| + 1..] == q;
      DecodeEncode(ps);
    }
  }

  // ---------------------------------------------------------------------------
  // The `fmt.Sprintf` and `+=` forms the client writes by hand

  /** A key made of unreserved bytes is written as it is. */
  lemma EncodeLiteralPair(k: string, v: string)
    requires AllUnreserved(k)
    ensures Encode([(k, v)]) == k + "=" + QueryEscape(v)
  {
    EscapeUnreserved(k);
  }

  /** Encoding two lists one after the other joins them with `&`. */
  lemma {:induction false} EncodeAppend(ps: Params, qs: Params)
    requires ps != [] && qs != []
    ensures Encode(ps + qs) == Encode(ps) + "&" + Encode(qs)
    decreases |ps|
  {
    assert (ps + qs)[0] == ps[0];
    assert (ps + qs)[1..] == ps[1..] + qs;
    if |ps| > 1 {
      EncodeAppend(ps[1..], qs);
    }
  }

  /*
   * The client writes most queries with `fmt.Sprintf`, a separator literal
   * such as `"?name="` followed by the escaped value. Each lemma takes that
   * literal as `sep`, so that a caller only checks one literal equality.
   */

  /** `path + "?k=" + QueryEscape(v)` is the target with the single pair `(k, v)`. */
  lemma SprintfOne(path: string, sep: string, k: string, v: string)
    requires AllUnreserved(k) && sep == "?" + k + "="
    ensures path + sep + QueryEscape(v) == Join(path, [(k, v)])
  {
    EncodeLiteralPair(k, v);
  }

  /** Appending `"&" + Encode(qs)` to a target that already has a query extends its pairs. */
  lemma AppendPairs(path: string, ps: Params, qs: Params)
    requires ps != [] && qs != []
    ensures Join(path, ps) + "&" + Encode(qs) == Join(path, ps + qs)
  {
    EncodeAppend(ps, qs);
  }

  /** Appending `"&k=" + QueryEscape(v)` to a target that already has a query adds the pair `(k, v)`. */
  lemma AppendPair(path: string, ps: Params, sep: string, k: string, v: string)
    requires ps != [] && AllUnreserved(k) && sep == "&" + k + "="
    ensures Join(path, ps) + sep + QueryEscape(v) == Join(path, ps + [(k, v)])
  {
    var j, e := Join(path, ps), QueryEscape(v);
    EncodeLiteralPair(k, v);
    AppendPairs(path, ps, [(k, v)]);
    Assoc(j, sep, e);
    Assoc("&" + k, "=", e);
    Assoc("&", k, "=" + e);
    Assoc(k, "=", e);
    Assoc(j, "&", k + "=" + e);
  }

  /** Concatenation is associative; stating it for chosen terms spares the solver a search. */
  lemma Assoc<T>(a: seq<T>, b: seq<T>, c: seq<T>)
    ensures a + b + c == a + (b + c)
  {
  }

  lemma SprintfTwo(path: string, s1: string, k1: string, v1: string, s2: string, k2: string, v2: string)
    requires AllUnreserved(k1) && s1 == "?" + k1 + "="
    requires AllUnreserved(k2) && s2 == "&" + k2 + "="
    ensures path + s1 + QueryEscape(v1) + s2 + QueryEscape(v2) == Join(path, [(k1, v1), (k2, v2)])
  {
    SprintfOne(path, s1, k1, v1);
    AppendPair(path, [(k1, v1)], s2, k2, v2);
    assert [(k1, v1)] + [(k2, v2)] == [(k1, v1), (k2, v2)];
  }

  lemma SprintfThree(path: string, s1: string, k1: string, v1: string, s2: string, k2: string, v2: string,
                     s3: string, k3: string, v3: string)
    requires AllUnreserved(k1) && s1 == "?" + k1 + "="
    requires AllUnreserved(k2) && s2 == "&" + k2 + "="
    requires AllUnreserved(k3) && s3 == "&" + k3 + "="
    ensures path + s1 + QueryEscape(v1) + s2 + QueryEscape(v2) + s3 + QueryEscape(v3)
         == Join(path, [(k1, v1), (k2, v2), (k3, v3)])
  {
    SprintfTwo(path, s1, k1, v1, s2, k2, v2);
    AppendPair(path, [(k1, v1), (k2, v2)], s3, k3, v3);
    assert [(k1, v1), (k2, v2)] + [(k3, v3)] == [(k1, v1), (k2, v2), (k3, v3)];
  }

  // ---------------------------------------------------------------------------
  // Key order

  /**
   * Appending a run of pairs under one key `k` keeps the list sorted when every
   * key already present is among `before`, and each of those sorts before `k`.
   */
  lemma SortedAppendRun(ps: Params, qs: Params, k: string, before: set<string>)
    requires SortedByKey(ps)
    requires forall i :: 0 <= i < |ps| ==> ps[i].0 in before
    requires forall b :: b in before ==> LexLe(b, k)
    requires forall i :: 0 <= i < |qs| ==> qs[i].0 == k
    ensures SortedByKey(ps + qs)
  {
    LexLeReflexive(k);
    forall i | 0 < i < |ps + qs|
      ensures LexLe((ps + qs)[i - 1].0, (ps + qs)[i].0)
    {
      if i < |ps| {
        assert (ps + qs)[i - 1] == ps[i - 1] && (ps + qs)[i] == ps[i];
      } else if i == |ps| {
        assert (ps + qs)[i - 1] == ps[i - 1] && (ps + qs)[i] == qs[0];
      } else {
        assert (ps + qs)[i - 1] == qs[i - 1 - |ps|] && (ps + qs)[i] == qs[i - |ps|];
      }
    }
  }
}
