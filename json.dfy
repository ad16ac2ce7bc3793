/**
 * The JSON values that `encoding/json` produces from the client's request
 * bodies, before they are turned into bytes.
 *
 * An object is a key-to-value map; the model does not fix the order in which
 * the keys are written. Turning a value into bytes (`json.Marshal`) and bytes
 * back into Go values (`json.Unmarshal`) are left to the caller of the model.
 */
module Json {
  import opened Wrappers

  /** An IEEE-754 double, kept as its bit pattern; the model does no arithmetic on it. */
  datatype Float64 = Float64(bits: bv64)

  datatype Json =
    | JNull
    | JBool(b: bool)
    | JInt(i: int)
    | JFloat(f: Float64)
    | JString(s: string)
    | JArray(items: seq<Json>)
    | JObject(fields: map<string, Json>)

  /**
   * Go's test for `omitempty`: false, zero, the empty string and the empty
   * list are left out. A struct is never left out (JObject here always stands
   * for a struct).
   */
  predicate IsEmptyValue(v: Json) {
    match v
    case JNull => true
    case JBool(b) => !b
    case JInt(i) => i == 0
    case JFloat(f) => f.bits == 0 || f.bits == 0x8000_0000_0000_0000
    case JString(s) => s == ""
    case JArray(items) => items == []
    case JObject(_) => false
  }

  /**
   * The fields tagged `omitempty` that `json.Marshal` writes: those whose
   * value is not empty.
   */
  function OmitEmpty(m: map<string, Json>): (r: map<string, Json>)
    ensures forall k :: k in r <==> k in m && !IsEmptyValue(m[k])
    ensures forall k :: k in r ==> r[k] == m[k]
  {
    map k | k in m && !IsEmptyValue(m[k]) :: m[k]
  }

  /** A Go `map[string]string` body. */
  function StringObject(m: map<string, string>): (j: Json)
    ensures j.JObject? && j.fields.Keys == m.Keys
    ensures forall k :: k in m ==> j.fields[k] == JString(m[k])
  {
    JObject(map k | k in m :: JString(m[k]))
  }

  function Strings(ss: seq<string>): (j: Json)
    ensures j.JArray? && |j.items| == |ss|
    ensures forall i :: 0 <= i < |ss| ==> j.items[i] == JString(ss[i])
  {
    JArray(seq(|ss|, i requires 0 <= i < |ss| => JString(ss[i])))
  }

  /** A Go slice of structs, each encoded with `enc`. */
  function Items<T>(xs: seq<T>, enc: T -> Json): (j: Json)
    ensures j.JArray? && |j.items| == |xs|
    ensures forall i :: 0 <= i < |xs| ==> j.items[i] == enc(xs[i])
  {
    JArray(seq(|xs|, i requires 0 <= i < |xs| => enc(xs[i])))
  }

  // ---------------------------------------------------------------------------
  // Reading fields back, the way json.Unmarshal fills a struct: a missing key
  // leaves the field at its zero value.

  function StringField(m: map<string, Json>, key: string): Option<string> {
    if key !in m then Some("")
    else match m[key]
      case JString(s) => Some(s)
      case _ => None
  }

  function IntField(m: map<string, Json>, key: string): Option<int> {
    if key !in m then Some(0)
    else match m[key]
      case JInt(i) => Some(i)
      case _ => None
  }

  function FloatField(m: map<string, Json>, key: string): Option<Float64> {
    if key !in m then Some(Float64(0))
    else match m[key]
      case JFloat(f) => Some(f)
      case _ => None
  }

  function StringItems(items: seq<Json>): Option<seq<string>>
    decreases |items|
  {
    if items == [] then Some([])
    else match items[|items| - 1]
      case JString(s) =>
        (match StringItems(items[..|items| - 1])
         case None => None
         case Some(init) => Some(init + [s]))
      case _ => None
  }

  function StringsField(m: map<string, Json>, key: string): Option<seq<string>> {
    if key !in m then Some([])
    else match m[key]
      case JArray(items) => StringItems(items)
      case _ => None
  }

  lemma {:induction false} StringItemsOfStrings(ss: seq<string>)
    ensures StringItems(Strings(ss).items) == Some(ss)
    decreases |ss|
  {
    if ss != [] {
      var init := ss[..|ss| - 1];
      StringItemsOfStrings(init);
      assert Strings(ss).items[..|ss| - 1] == Strings(init).items;
      assert init + [ss[|ss| - 1]] == ss;
    }
  }

  /** Reads a JSON array element by element with `dec`; fails if any element fails. */
  function DecodeItems<T>(items: seq<Json>, dec: Json -> Option<T>): Option<seq<T>>
    decreases |items|
  {
    if items == [] then Some([])
    else
      var init :- DecodeItems(items[..|items| - 1], dec);
      var last :- dec(items[|items| - 1]);
      Some(init + [last])
  }

  function ItemsField<T>(m: map<string, Json>, key: string, dec: Json -> Option<T>): Option<seq<T>> {
    if key !in m then Some([])
    else match m[key]
      case JArray(items) => DecodeItems(items, dec)
      case _ => None
  }

  /** Decoding an encoded slice element by element gives the slice back. */
  lemma {:induction false} DecodeItemsOfItems<T>(xs: seq<T>, enc: T -> Json, dec: Json -> Option<T>)
    requires forall x :: dec(enc(x)) == Some(x)
    ensures DecodeItems(Items(xs, enc).items, dec) == Some(xs)
    decreases |xs|
  {
    if xs != [] {
      var init := xs[..|xs| - 1];
      DecodeItemsOfItems(init, enc, dec);
      assert Items(xs, enc).items[..|xs| - 1] == Items(init, enc).items;
      assert init + [xs[|xs| - 1]] == xs;
    }
  }

  /** A slice field written without `omitempty` reads back as written. */
  lemma ReadItems<T>(m: map<string, Json>, key: string, xs: seq<T>, enc: T -> Json, dec: Json -> Option<T>)
    requires forall x :: dec(enc(x)) == Some(x)
    requires key in m && m[key] == Items(xs, enc)
    ensures ItemsField(m, key, dec) == Some(xs)
  {
    DecodeItemsOfItems(xs, enc, dec);
  }

  /** A slice field reads back as written, whether or not `omitempty` dropped it. */
  lemma ReadOmitEmptyItems<T>(m: map<string, Json>, key: string, xs: seq<T>, enc: T -> Json, dec: Json -> Option<T>)
    requires forall x :: dec(enc(x)) == Some(x)
    requires key in m <==> xs != []
    requires key in m ==> m[key] == Items(xs, enc)
    ensures ItemsField(m, key, dec) == Some(xs)
  {
    DecodeItemsOfItems(xs, enc, dec);
  }

  /** A string list reads back as written, whether or not `omitempty` dropped it. */
  lemma ReadOmitEmptyStrings(m: map<string, Json>, key: string, ss: seq<string>)
    requires key in m <==> ss != []
    requires key in m ==> m[key] == Strings(ss)
    ensures StringsField(m, key) == Some(ss)
  {
    StringItemsOfStrings(ss);
  }
}
