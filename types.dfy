/** The application's data declarations (types.ts) and its fixed tables (constants.ts). */
module Types {
  import opened Wrappers

  /** The model identifiers the application may name. */
  datatype GeminiModel = Gemini25Pro | Gemini25Flash | GeminiRoboticsEr15Preview | Gemini25FlashLite
  {
    /** The identifier string sent to the service. */
    function Id(): string {
      match this
      case Gemini25Pro => "gemini-2.5-pro"
      case Gemini25Flash => "gemini-2.5-flash"
      case GeminiRoboticsEr15Preview => "gemini-robotics-er-1.5-preview"
      case Gemini25FlashLite => "gemini-2.5-flash-lite"
    }
  }

  datatype ModelOption = ModelOption(id: GeminiModel, name: string)

  /** A catalogue entry: a stable key, an image source and a description. */
  datatype PresetImage = PresetImage(id: string, src: string, alt: string)

  /** One record of the service's answer, `{label, count}` (`label` is a Dafny keyword).
      JavaScript numbers are modelled as integers. */
  datatype CountResult = CountResult(objectLabel: string, count: int)

  /** A value thrown by JavaScript code: an `Error` carrying a message, or anything else. */
  datatype Thrown = ErrorObject(message: string) | NonError

  /** One own property of an `ObjectCounts` object. */
  datatype Entry = Entry(key: string, value: int)

  /** A JavaScript object used as a dictionary from labels to counts. Its own
      properties are kept in insertion order, the order `Object.entries` reports. */
  type ObjectCounts = seq<Entry>

  /** The own property names of the object. */
  function Keys(o: ObjectCounts): set<string>
    decreases |o|
  {
    if o == [] then {} else {o[0].key} + Keys(o[1..])
  }

  /** A key is present exactly when some stored property carries it. */
  lemma {:induction false} KeysAt(o: ObjectCounts, k: string)
    ensures k in Keys(o) <==> exists i :: 0 <= i < |o| && o[i].key == k
    decreases |o|
  {
    if o != [] {
      KeysAt(o[1..], k);
      if exists i :: 0 <= i < |o[1..]| && o[1..][i].key == k {
        var i :| 0 <= i < |o[1..]| && o[1..][i].key == k;
        assert o[i + 1].key == k;
      }
      if exists i :: 0 <= i < |o| && o[i].key == k {
        var i :| 0 <= i < |o| && o[i].key == k;
        if i > 0 { assert o[1..][i - 1].key == k; }
      }
    }
  }

  /** No key occurs twice: each property is stored once. */
  predicate DistinctKeys(o: ObjectCounts) {
    o == [] || (o[0].key !in Keys(o[1..]) && DistinctKeys(o[1..]))
  }

  /** Property read `o[k]`: the value stored under `k`, or `undefined`. */
  function Lookup(o: ObjectCounts, k: string): (r: Option<int>)
    ensures r.Some? <==> k in Keys(o)
  {
    if o == [] then None
    else if o[0].key == k then Some(o[0].value)
    else Lookup(o[1..], k)
  }

  /** An own data property write for an ordinary key: an existing property keeps
      its place and takes the new value, a new one is appended. */
  function Put(o: ObjectCounts, k: string, v: int): (r: ObjectCounts)
    ensures Keys(r) == Keys(o) + {k}
    ensures Lookup(r, k) == Some(v)
    ensures forall k' :: k' != k ==> Lookup(r, k') == Lookup(o, k')
  {
    if o == [] then [Entry(k, v)]
    else if o[0].key == k then [Entry(k, v)] + o[1..]
    else
      var rest := Put(o[1..], k, v);
      var r := [o[0]] + rest;
      assert r[0] == o[0] && r[1..] == rest;
      r
  }

  /** The key whose assignment on a plain object goes to the inherited
      `Object.prototype.__proto__` accessor instead of creating an own property. */
  const ProtoKey := "__proto__"

  /** Property assignment `o[k] = v` on a plain object with a number `v`: the
      `__proto__` setter ignores a value that is not an object, so that key is
      never stored; every other key is written by `Put`. */
  function Assign(o: ObjectCounts, k: string, v: int): (r: ObjectCounts)
    ensures k == ProtoKey ==> r == o
    ensures Keys(r) == if k == ProtoKey then Keys(o) else Keys(o) + {k}
    ensures k != ProtoKey ==> Lookup(r, k) == Some(v)
    ensures forall k' :: k' != k ==> Lookup(r, k') == Lookup(o, k')
  {
    if k == ProtoKey then o else Put(o, k, v)
  }

  /** A new key is appended at the end; an existing key keeps every key in place. */
  lemma {:induction false} PutOrder(o: ObjectCounts, k: string, v: int)
    ensures k !in Keys(o) ==> Put(o, k, v) == o + [Entry(k, v)]
    ensures k in Keys(o) ==> |Put(o, k, v)| == |o| && forall i :: 0 <= i < |o| ==> Put(o, k, v)[i].key == o[i].key
    decreases |o|
  {
    if o != [] && o[0].key != k {
      PutOrder(o[1..], k, v);
      assert Keys(o) == {o[0].key} + Keys(o[1..]);
      var r := Put(o, k, v);
      assert r == [o[0]] + Put(o[1..], k, v);
      if k !in Keys(o) {
        assert o == [o[0]] + o[1..];
      } else {
        forall i | 0 <= i < |o| ensures r[i].key == o[i].key {
          if i > 0 { assert r[i] == Put(o[1..], k, v)[i - 1]; }
        }
      }
    }
  }

  /** Writing a property never creates a second property with the same key. */
  lemma {:induction false} PutKeepsKeysDistinct(o: ObjectCounts, k: string, v: int)
    requires DistinctKeys(o)
    ensures DistinctKeys(Put(o, k, v))
    decreases |o|
  {
    if o != [] && o[0].key != k {
      var rest := Put(o[1..], k, v);
      PutKeepsKeysDistinct(o[1..], k, v);
      var r := [o[0]] + rest;
      assert r == Put(o, k, v);
      assert r[1..] == rest;
    } else if o != [] {
      assert Put(o, k, v)[1..] == o[1..];
    }
  }

  /** The catalogue the application starts with. */
  const PRESET_IMAGES: seq<PresetImage> := [
    PresetImage("animals", "https://loremflickr.com/800/600/safari,animals", "Many animals on a safari"),
    PresetImage("tableware", "https://loremflickr.com/800/600/tableware,dinner", "A dinner table set with food and tableware"),
    PresetImage("cars", "https://loremflickr.com/800/600/car,parking", "A parking lot full of cars"),
    PresetImage("stationery", "https://loremflickr.com/800/600/stationery,desk", "An office desk with stationery and furniture")
  ]

  /** The models offered for selection, the first being the default. */
  const MODELS: seq<ModelOption> := [
    ModelOption(GeminiRoboticsEr15Preview, "gemini-robotics-er-1.5-preview"),
    ModelOption(Gemini25FlashLite, "gemini-2.5-flash-lite"),
    ModelOption(Gemini25Flash, "gemini-2.5-flash")
  ]
}
