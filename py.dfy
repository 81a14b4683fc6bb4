/** Python runtime values that the parser code manipulates: decoded JSON
    documents, the exceptions a subscript or `len` can raise, and the
    Option/Result wrappers used throughout the model. */
module Py {

  datatype Option<+T> = None | Some(value: T)

  /** The Python exception classes that the modelled code can raise. */
  datatype Exc = KeyError | IndexError | TypeError

  /** An evaluation that either yields a value or raises. */
  datatype Result<+T> = Ok(value: T) | Err(exc: Exc) {
    predicate IsFailure() { Err? }

    function PropagateFailure<U>(): Result<U>
      requires Err?
    {
      Err(exc)
    }

    function Extract(): T
      requires Ok?
    {
      value
    }
  }

  /** A value produced by `json.loads`: objects keep their key order, as
      Python dicts do. */
  datatype Json =
    | JNull
    | JBool(b: bool)
    | JNum(n: real)
    | JStr(s: string)
    | JList(items: seq<Json>)
    | JObj(fields: seq<(string, Json)>)

  /** What goes between the brackets of a subscript: a string key or an int. */
  datatype Key = Name(name: string) | Index(i: int)

  predicate DistinctKeys(fields: seq<(string, Json)>)
  {
    forall i, j :: 0 <= i < j < |fields| ==> fields[i].0 != fields[j].0
  }

  /** A Python dict: its keys are pairwise distinct. */
  type Dict = fields: seq<(string, Json)> | DistinctKeys(fields)

  function KeysOf(d: seq<(string, Json)>): (ks: seq<string>)
  {
    seq(|d|, i requires 0 <= i < |d| => d[i].0)
  }

  function ValuesOf(d: seq<(string, Json)>): (vs: seq<Json>)
  {
    seq(|d|, i requires 0 <= i < |d| => d[i].1)
  }

  /** `d[name]` on a dict: a missing key raises KeyError. */
  function DictGet(fields: seq<(string, Json)>, name: string): (r: Result<Json>)
    ensures r.Err? ==> r.exc == KeyError
  {
    if |fields| == 0 then Err(KeyError)
    else if fields[0].0 == name then Ok(fields[0].1)
    else DictGet(fields[1..], name)
  }

  /** A lookup succeeds exactly for the dict's keys, and finds a value
      stored under that key. */
  lemma {:induction false} DictGetFound(fields: seq<(string, Json)>, name: string)
    ensures DictGet(fields, name).Ok? <==> name in KeysOf(fields)
    ensures DictGet(fields, name).Ok? ==> (name, DictGet(fields, name).value) in fields
  {
    if |fields| > 0 {
      assert KeysOf(fields) == [fields[0].0] + KeysOf(fields[1..]);
      DictGetFound(fields[1..], name);
    }
  }

  /** In a dict, the key at position i finds the value at position i. */
  lemma {:induction false} DictGetAt(fields: seq<(string, Json)>, i: nat)
    requires DistinctKeys(fields) && i < |fields|
    ensures DictGet(fields, fields[i].0) == Ok(fields[i].1)
  {
    if i > 0 {
      assert fields[0].0 != fields[i].0;
      assert fields[1..][i - 1] == fields[i];
      DictGetAt(fields[1..], i - 1);
    }
  }

  /** Python's reading of an index into a sequence of length n: negative
      indices count from the end. */
  function NormalizeIndex(n: nat, i: int): (p: Option<nat>)
    ensures p.Some? <==> -(n as int) <= i < n
    ensures p.Some? ==> p.value < n && p.value % n == i % n
  {
    if 0 <= i < n then Some(i)
    else if -(n as int) <= i < 0 then Some(n + i)
    else None
  }

  /** `j[k]` for a decoded JSON value `j`. */
  function Subscript(j: Json, k: Key): (r: Result<Json>)
    ensures j.JList? && k.Index? ==>
      (r.Ok? <==> -|j.items| <= k.i < |j.items|) &&
      (r.Ok? ==> r.value == j.items[NormalizeIndex(|j.items|, k.i).value]) &&
      (r.Err? ==> r.exc == IndexError)
    ensures j.JStr? && k.Index? ==>
      (r.Ok? <==> -|j.s| <= k.i < |j.s|) &&
      (r.Ok? ==> r.value == JStr([j.s[NormalizeIndex(|j.s|, k.i).value]])) &&
      (r.Err? ==> r.exc == IndexError)
    ensures (j.JList? || j.JStr?) && k.Name? ==> r == Err(TypeError)
    ensures j.JObj? && k.Name? ==> r == DictGet(j.fields, k.name)
    ensures j.JObj? && k.Index? ==> r == Err(KeyError)
    ensures (j.JNull? || j.JBool? || j.JNum?) ==> r == Err(TypeError)
  {
    match j
    case JObj(fields) =>
      (match k
       case Name(s) => DictGet(fields, s)
       case Index(_) => Err(KeyError))  // JSON object keys are strings
    case JList(items) =>
      (match k
       case Index(i) =>
         (match NormalizeIndex(|items|, i)
          case Some(p) => Ok(items[p])
          case None => Err(IndexError))
       case Name(_) => Err(TypeError))
    case JStr(s) =>
      (match k
       case Index(i) =>
         (match NormalizeIndex(|s|, i)
          case Some(p) => Ok(JStr([s[p]]))
          case None => Err(IndexError))
       case Name(_) => Err(TypeError))
    case _ => Err(TypeError)
  }

  /** `j[k0][k1]...` evaluated left to right; the first failing subscript raises. */
  function Path(j: Json, keys: seq<Key>): (r: Result<Json>)
    decreases |keys|
  {
    if |keys| == 0 then Ok(j)
    else
      var x :- Subscript(j, keys[0]);
      Path(x, keys[1..])
  }

  /** A subscript chain can be split anywhere. */
  lemma {:induction false} PathAppend(j: Json, a: seq<Key>, b: seq<Key>)
    ensures Path(j, a + b) == (match Path(j, a)
                               case Ok(x) => Path(x, b)
                               case Err(e) => Err(e))
    decreases |a|
  {
    if |a| == 0 {
      assert a + b == b;
    } else {
      assert (a + b)[0] == a[0];
      assert (a + b)[1..] == a[1..] + b;
      match Subscript(j, a[0])
      case Ok(x) => PathAppend(x, a[1..], b);
      case Err(_) =>
    }
  }

  /** `len(j)`. */
  function Len(j: Json): (r: Result<nat>)
    ensures r.Ok? <==> (j.JList? || j.JObj? || j.JStr?)
    ensures j.JList? ==> r == Ok(|j.items|)
    ensures j.JObj? ==> r == Ok(|j.fields|)
    ensures j.JStr? ==> r == Ok(|j.s|)
    ensures r.Err? ==> r.exc == TypeError
  {
    match j
    case JList(items) => Ok(|items|)
    case JObj(fields) => Ok(|fields|)
    case JStr(s) => Ok(|s|)
    case _ => Err(TypeError)
  }
}
