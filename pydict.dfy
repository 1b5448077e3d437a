/** The JSON configuration files both JSON-backed stores read and write, as the
    Python dicts `json.load` returns: keys in insertion order, each mapping to
    a scalar or to a flat object (a ticket entry). The Python operations the
    stores apply to them (indexing, `.get`, `.pop`, `+= 1`, item assignment)
    are given here with the exceptions they raise. */
module PyDict {
  import opened Common

  /** A JSON leaf: `null`, an integer or a string. */
  datatype Scalar = Null | Int(n: int) | Str(s: string)

  /** A top-level dict value: a leaf or a flat object such as `{"id": 3, ...}`. */
  datatype Value = Atom(a: Scalar) | Object(fields: map<string, Scalar>)

  type Entry = (string, Value)

  /** A Python dict: entries in insertion order. */
  type Dict = seq<Entry>

  /** The scalar an `Id` is stored as. */
  function IdScalar(id: Id): Scalar {
    match id
    case IntId(n) => Int(n)
    case StrId(s) => Str(s)
  }

  /** Python's `x == stored` for an id argument and a stored value. */
  predicate Matches(id: Id, v: Value) {
    v == Atom(IdScalar(id))
  }

  /** Python's `str(x)` (or `f"{x}"`) of a scalar. */
  function Display(s: Scalar): string {
    match s
    case Null => "None"
    case Int(n) => IntToDecimal(n)
    case Str(t) => t
  }

  function Keys(d: Dict): (ks: set<string>)
    ensures forall e | e in d :: e.0 in ks
  {
    if d == [] then {} else {d[0].0} + Keys(d[1..])
  }

  /** No key occurs twice: what every dict built by `json.load` satisfies. */
  predicate DistinctKeys(d: Dict) {
    d == [] || (d[0].0 !in Keys(d[1..]) && DistinctKeys(d[1..]))
  }

  function Get(d: Dict, k: string): (r: Option<Value>)
    ensures r.Some? <==> k in Keys(d)
  {
    if d == [] then None else if d[0].0 == k then Some(d[0].1) else Get(d[1..], k)
  }

  /** `d[k] = v`: replaces the value in place when `k` is present, appends otherwise. */
  function Set(d: Dict, k: string, v: Value): (r: Dict)
    ensures Get(r, k) == Some(v)
    ensures forall k' | k' != k :: Get(r, k') == Get(d, k')
    ensures Keys(r) == Keys(d) + {k}
    ensures DistinctKeys(d) ==> DistinctKeys(r)
    ensures forall e | e in r :: e == (k, v) || e in d
  {
    if d == [] then [(k, v)]
    else if d[0].0 == k then [(k, v)] + d[1..]
    else [d[0]] + Set(d[1..], k, v)
  }

  /** Deletes the first entry with key `k`. */
  function Remove(d: Dict, k: string): (r: Dict)
    ensures DistinctKeys(d) ==> DistinctKeys(r) && Keys(r) == Keys(d) - {k} && Get(r, k) == None
    ensures forall k' | k' != k :: Get(r, k') == Get(d, k')
    ensures k !in Keys(d) ==> r == d
    ensures DistinctKeys(d) ==> forall e :: e in r <==> e in d && e.0 != k
  {
    if d == [] then []
    else if d[0].0 == k then d[1..]
    else [d[0]] + Remove(d[1..], k)
  }

  // ---------------------------------------------------------------------
  // Python operations on dicts and values

  /** `d[k]`. */
  function Index(d: Dict, k: string): (r: Result<Value>)
    ensures r.Ok? <==> k in Keys(d)
    ensures r.Ok? ==> Get(d, k) == Some(r.value)
    ensures r.Err? ==> r.error == KeyError(k)
  {
    match Get(d, k)
    case Some(v) => Ok(v)
    case None => Err(KeyError(k))
  }

  /** `d.pop(k)`, keeping the dict that is left. */
  function Pop(d: Dict, k: string): (r: Result<Dict>)
    ensures r.Ok? <==> k in Keys(d)
    ensures r.Ok? ==> r.value == Remove(d, k)
    ensures r.Err? ==> r.error == KeyError(k)
  {
    if k in Keys(d) then Ok(Remove(d, k)) else Err(KeyError(k))
  }

  /** `v + delta` for a stored value; only ints support it. */
  function AddInt(v: Value, delta: int): (r: Result<Value>)
    ensures r.Ok? <==> v.Atom? && v.a.Int?
    ensures r.Ok? ==> r.value == Atom(Int(v.a.n + delta))
    ensures r.Err? ==> r.error == TypeError
  {
    match v
    case Atom(Int(n)) => Ok(Atom(Int(n + delta)))
    case _ => Err(TypeError)
  }

  /** `v.get(field)`: a missing field gives None; a leaf has no `.get`. */
  function GetField(v: Value, field: string): (r: Result<Scalar>)
    ensures r.Ok? <==> v.Object?
    ensures v.Object? && field in v.fields ==> r == Ok(v.fields[field])
    ensures v.Object? && field !in v.fields ==> r == Ok(Null)
    ensures r.Err? ==> r.error == AttributeError
  {
    match v
    case Object(f) => Ok(if field in f then f[field] else Null)
    case Atom(_) => Err(AttributeError)
  }

  /** `v[field]`: a missing field raises KeyError; a leaf cannot be subscripted by a string. */
  function Subscript(v: Value, field: string): (r: Result<Scalar>)
    ensures r.Ok? <==> v.Object? && field in v.fields
    ensures r.Ok? ==> r.value == v.fields[field]
    ensures v.Object? && field !in v.fields ==> r == Err(KeyError(field))
    ensures v.Atom? ==> r == Err(TypeError)
  {
    match v
    case Object(f) => if field in f then Ok(f[field]) else Err(KeyError(field))
    case Atom(_) => Err(TypeError)
  }

  /** `v[field] = s`: only an object supports item assignment. */
  function SetField(v: Value, field: string, s: Scalar): (r: Result<Value>)
    ensures r.Ok? <==> v.Object?
    ensures r.Ok? ==> r.value == Object(v.fields[field := s])
    ensures r.Err? ==> r.error == TypeError
  {
    match v
    case Object(f) => Ok(Object(f[field := s]))
    case Atom(_) => Err(TypeError)
  }

  // ---------------------------------------------------------------------
  // Lemmas on insertion order

  /** A new key goes to the end; every earlier entry keeps its place. */
  lemma {:induction false} SetNewKeyAppends(d: Dict, k: string, v: Value)
    requires k !in Keys(d)
    ensures Set(d, k, v) == d + [(k, v)]
  {
    if d != [] {
      assert d[0].0 != k;
      SetNewKeyAppends(d[1..], k, v);
      assert [d[0]] + (d[1..] + [(k, v)]) == d + [(k, v)];
    }
  }

  /** Assigning an existing key keeps the length and the key order. */
  lemma {:induction false} SetExistingKeyInPlace(d: Dict, k: string, v: Value)
    requires k in Keys(d)
    ensures |Set(d, k, v)| == |d|
    ensures forall i | 0 <= i < |d| :: Set(d, k, v)[i].0 == d[i].0
  {
    if d[0].0 != k {
      SetExistingKeyInPlace(d[1..], k, v);
    }
  }

  /** The second of two assignments to one key is the one that stays. */
  lemma {:induction false} SetTwice(d: Dict, k: string, v: Value, w: Value)
    ensures Set(Set(d, k, v), k, w) == Set(d, k, w)
  {
    if d != [] && d[0].0 != k {
      SetTwice(d[1..], k, v, w);
    }
  }

  /** Assigning a key the value it already holds changes nothing. */
  lemma {:induction false} SetSameValue(d: Dict, k: string)
    requires k in Keys(d)
    ensures Set(d, k, Get(d, k).value) == d
  {
    if d[0].0 != k {
      SetSameValue(d[1..], k);
    }
  }

  /** A value of a dict at some position is the value `Get` finds for that
      position's key, when keys are distinct. */
  lemma {:induction false} GetAtPosition(d: Dict, i: nat)
    requires DistinctKeys(d) && i < |d|
    ensures Get(d, d[i].0) == Some(d[i].1)
  {
    if i > 0 {
      assert d[i].0 == d[1..][i - 1].0;
      KeyAtPosition(d[1..], i - 1);
      GetAtPosition(d[1..], i - 1);
    }
  }

  /** Every position's key is among the keys. */
  lemma {:induction false} KeyAtPosition(d: Dict, i: nat)
    requires i < |d|
    ensures d[i].0 in Keys(d)
  {
    if i > 0 {
      KeyAtPosition(d[1..], i - 1);
    }
  }

  /** Every key sits at some position. */
  lemma {:induction false} PositionOfKey(d: Dict, k: string) returns (i: nat)
    requires k in Keys(d)
    ensures i < |d| && d[i].0 == k
  {
    if d[0].0 != k {
      i := PositionOfKey(d[1..], k);
      i := i + 1;
    } else {
      i := 0;
    }
  }
}
