/** JSON values as the two handlers see them after `json.loads`, and the handful of
    Python operations they apply to those values: subscripting, `dict.get`,
    truthiness, iteration, and hashing into a `set`. */
module PyJson {

  datatype Json =
    | JNull
    | JBool(b: bool)
    | JNum(n: int)
    | JStr(s: string)
    | JList(items: seq<Json>)
    | JObj(fields: map<string, Json>)

  /** The Python exceptions a handler can raise on input it does not expect. */
  datatype PyError =
    | KeyError            // missing dictionary key
    | IndexError          // index past the end of a list or string
    | TypeError           // not subscriptable, not iterable, or not hashable
    | AttributeError      // `.get` on something that is not a dictionary
    | DecodeError         // `json.loads` rejected its text
    | UnorderedObject     // iteration over a non-empty object: key order is not modelled
    | InvalidMessageType  // the notification handler's own `raise Exception(...)`

  datatype Option<T> = None | Some(value: T)

  datatype Result<T> = Ok(value: T) | Err(error: PyError) {
    predicate IsFailure() { Err? }
    function PropagateFailure<U>(): Result<U> requires Err? { Err(error) }
    function Extract(): T requires Ok? { value }
  }

  /** A `collections.OrderedDict` of JSON values, as its list of items. */
  type Record = seq<(string, Json)>

  /** The serialisers the handlers call and this model does not define:
      `json.loads`, `json.dumps` of a value and of an ordered dictionary, and `str`. */
  datatype Codecs = Codecs(
    loads: string -> Option<Json>,
    dumps: Json -> string,
    dumpsRecord: Record -> string,
    repr: Json -> string)

  /** Python's truth value of a JSON value. */
  predicate Truthy(j: Json) {
    match j
    case JNull => false
    case JBool(b) => b
    case JNum(n) => n != 0
    case JStr(s) => s != ""
    case JList(xs) => xs != []
    case JObj(m) => m != map[]
  }

  /** The value stored under `key` in an object, or `null`: what `d.get(key)` yields when `d` is a dictionary. */
  function Field(d: Json, key: string): Json {
    if d.JObj? && key in d.fields then d.fields[key] else JNull
  }

  /** What `d.get(key, default)` yields when `d` is a dictionary. */
  function FieldOr(d: Json, key: string, default: Json): Json {
    if d.JObj? && key in d.fields then d.fields[key] else default
  }

  /** `d.get(key, default)`: only dictionaries have a `get` method. */
  function Get(d: Json, key: string, default: Json): (r: Result<Json>)
    ensures r.Ok? <==> d.JObj?
    ensures d.JObj? && key !in d.fields ==> r == Ok(default)
    ensures d.JObj? && key in d.fields ==> r == Ok(Field(d, key))
  {
    match d
    case JObj(m) => Ok(if key in m then m[key] else default)
    case _ => Err(AttributeError)
  }

  /** A subscript `x[key]` or `x[i]` as the handlers write it. */
  datatype Index = Key(name: string) | At(i: nat)

  /** `x[ix]` on a JSON value: dictionaries by key, lists and strings by position. */
  function Subscript(x: Json, ix: Index): Result<Json> {
    match x
    case JObj(m) => if ix.Key? && ix.name in m then Ok(m[ix.name]) else Err(KeyError)
    case JList(xs) =>
      if ix.Key? then Err(TypeError) else if ix.i < |xs| then Ok(xs[ix.i]) else Err(IndexError)
    case JStr(s) =>
      if ix.Key? then Err(TypeError) else if ix.i < |s| then Ok(JStr([s[ix.i]])) else Err(IndexError)
    case _ => Err(TypeError)
  }

  /** The `Sns` object of the first record, when the event has the notification's shape. */
  predicate HasSns(event: Json, name: string) {
    && event.JObj? && "Records" in event.fields
    && event.fields["Records"].JList? && |event.fields["Records"].items| > 0
    && event.fields["Records"].items[0].JObj? && "Sns" in event.fields["Records"].items[0].fields
    && event.fields["Records"].items[0].fields["Sns"].JObj?
    && name in event.fields["Records"].items[0].fields["Sns"].fields
  }

  /** `event['Records'][0]['Sns'][name]`. */
  function SnsField(event: Json, name: string): (r: Result<Json>)
    ensures r.Ok? <==> HasSns(event, name)
    ensures r.Ok? ==> r.value == event.fields["Records"].items[0].fields["Sns"].fields[name]
    ensures r.Err? ==> r.error == KeyError || r.error == IndexError || r.error == TypeError
    ensures !event.JObj? ==> r == Err(TypeError)
    ensures event.JObj? && "Records" !in event.fields ==> r == Err(KeyError)
    ensures event.JObj? && "Records" in event.fields && event.fields["Records"] == JList([]) ==> r == Err(IndexError)
  {
    var records :- Subscript(event, Key("Records"));
    var first :- Subscript(records, At(0));
    var sns :- Subscript(first, Key("Sns"));
    Subscript(sns, Key(name))
  }

  /** `json.loads(raw)`: the argument must be a string, and the decoder may reject it. */
  function Loads(c: Codecs, raw: Json): Result<Json> {
    if !raw.JStr? then Err(TypeError)
    else match c.loads(raw.s)
      case Some(j) => Ok(j)
      case None => Err(DecodeError)
  }

  /** `json.loads(event['Records'][0]['Sns']['Message'])`. */
  function SnsMessage(event: Json, c: Codecs): (r: Result<Json>)
    ensures SnsField(event, "Message").Err? ==> r == Err(SnsField(event, "Message").error)
    ensures SnsField(event, "Message").Ok? && !SnsField(event, "Message").value.JStr? ==> r == Err(TypeError)
    ensures r.Ok? <==>
      && SnsField(event, "Message").Ok? && SnsField(event, "Message").value.JStr?
      && c.loads(SnsField(event, "Message").value.s).Some?
    ensures r.Ok? ==> c.loads(SnsField(event, "Message").value.s) == Some(r.value)
    ensures r.Err? ==> r.error == KeyError || r.error == IndexError || r.error == TypeError || r.error == DecodeError
  {
    var raw :- SnsField(event, "Message");
    Loads(c, raw)
  }

  /** `str(x)`, which is the identity on strings. */
  function PyStr(c: Codecs, x: Json): string {
    if x.JStr? then x.s else c.repr(x)
  }

  /** The one-character strings of `s`, in order: what iterating a Python string yields. */
  function Chars(s: string): (r: seq<Json>)
    ensures |r| == |s| && forall i :: 0 <= i < |s| ==> r[i] == JStr([s[i]])
  {
    seq(|s|, i requires 0 <= i < |s| => JStr([s[i]]))
  }

  /** What `for v in x` visits. */
  function Iterate(x: Json): (r: Result<seq<Json>>)
    ensures x.JList? ==> r == Ok(x.items)
    ensures x.JNull? || x.JBool? || x.JNum? ==> r == Err(TypeError)
    ensures x.JStr? ==> r == Ok(Chars(x.s))
    ensures x == JObj(map[]) ==> r == Ok([])
    ensures x.JObj? && x != JObj(map[]) ==> r == Err(UnorderedObject)
    ensures r.Err? ==> r.error == TypeError || r.error == UnorderedObject
  {
    match x
    case JList(xs) => Ok(xs)
    case JStr(s) => Ok(Chars(s))
    case JObj(m) => if m == map[] then Ok([]) else Err(UnorderedObject)
    case _ => Err(TypeError)
  }

  /** `next(iter(v or []), None)`. */
  function FirstOrNone(v: Json): (r: Result<Json>)
    ensures v.JList? && v.items != [] ==> r == Ok(v.items[0])
    ensures !Truthy(v) ==> r == Ok(JNull)
    ensures r.Err? <==> Truthy(v) && Iterate(v).Err?
    ensures Truthy(v) && v.JStr? ==> r == Ok(JStr([v.s[0]]))
  {
    var xs :- Iterate(if Truthy(v) then v else JList([]));
    Ok(if xs == [] then JNull else xs[0])
  }

  /** Lists and dictionaries cannot be put in a `set` or used as a dictionary key. */
  predicate Hashable(j: Json) {
    !j.JList? && !j.JObj?
  }

  /** The representative of `j` under Python's `==` on hashable values: `True == 1` and `False == 0`. */
  function Canon(j: Json): Json {
    if j.JBool? then JNum(if j.b then 1 else 0) else j
  }

  /** The values of `xs` up to Python equality. */
  function CanonSet(xs: seq<Json>): set<Json> {
    set x | x in xs :: Canon(x)
  }

  /** The elements of `xs` that are not equal to anything in `seen`, each kept once. */
  function Dedup(xs: seq<Json>, seen: set<Json>): (r: seq<Json>)
    ensures forall i :: 0 <= i < |r| ==> r[i] in xs
    ensures forall i, j :: 0 <= i < j < |r| ==> Canon(r[i]) != Canon(r[j])
    ensures CanonSet(r) == CanonSet(xs) - seen
    decreases |xs|
  {
    if xs == [] then []
    else if Canon(xs[0]) in seen then
      var rest := Dedup(xs[1..], seen);
      assert CanonSet(xs) == {Canon(xs[0])} + CanonSet(xs[1..]) by { CanonSetCons(xs); }
      rest
    else
      var rest := Dedup(xs[1..], seen + {Canon(xs[0])});
      assert CanonSet(xs) == {Canon(xs[0])} + CanonSet(xs[1..]) by { CanonSetCons(xs); }
      assert CanonSet([xs[0]] + rest) == {Canon(xs[0])} + CanonSet(rest) by { CanonSetCons([xs[0]] + rest); }
      [xs[0]] + rest
  }

  lemma CanonSetCons(xs: seq<Json>)
    requires xs != []
    ensures CanonSet(xs) == {Canon(xs[0])} + CanonSet(xs[1..])
  {
    assert xs == [xs[0]] + xs[1..];
  }

  /** `list(set(x))`, with the values of `x` in the order they first occur;
      Python leaves this order unspecified. */
  function SetList(x: Json): (r: Result<seq<Json>>)
    ensures r.Ok? <==> Iterate(x).Ok? && forall i :: 0 <= i < |Iterate(x).value| ==> Hashable(Iterate(x).value[i])
    ensures r.Ok? ==> forall i, j :: 0 <= i < j < |r.value| ==> Canon(r.value[i]) != Canon(r.value[j])
    ensures r.Ok? ==> CanonSet(r.value) == CanonSet(Iterate(x).value)
    ensures r.Ok? ==> forall i :: 0 <= i < |r.value| ==> r.value[i] in Iterate(x).value
  {
    var xs :- Iterate(x);
    if forall i :: 0 <= i < |xs| ==> Hashable(xs[i]) then Ok(Dedup(xs, {})) else Err(TypeError)
  }
}
