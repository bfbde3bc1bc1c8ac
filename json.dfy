/** JSON values as Python's `json` module hands them to the résumé tool, Python dicts as ordered
    member lists, and the laws the résumé tool relies on from `json.loads`, `json.dumps(…, indent=2)`
    and `str()` — which are otherwise left uninterpreted. */
module JsonData {
  import opened PyText

  /** The outcome of a call that may raise: its value, or the exception's message. */
  datatype Attempt<+T> = Ok(value: T) | Raised(message: string)

  /** A JSON value; numbers are integers; an object keeps its members in insertion order. */
  datatype Json =
    | Null
    | Bool(b: bool)
    | Num(n: int)
    | Str(s: string)
    | Arr(items: seq<Json>)
    | Obj(fields: seq<Member>)

  datatype Member = Member(key: string, value: Json)

  /** A Python `dict` with string keys, in insertion order. */
  type Dict = seq<Member>

  function Keys(d: Dict): (r: seq<string>)
    ensures |r| == |d|
    ensures forall i :: 0 <= i < |d| ==> r[i] == d[i].key
  {
    if d == [] then [] else [d[0].key] + Keys(d[1..])
  }

  lemma {:induction false} KeysAppend(a: Dict, b: Dict)
    ensures Keys(a + b) == Keys(a) + Keys(b)
  {
    assert forall i :: 0 <= i < |a + b| ==> Keys(a + b)[i] == (Keys(a) + Keys(b))[i];
  }


  /** `d.get(k)`: the value under the first member with key `k`. */
  function Get(d: Dict, k: string): (r: Option<Json>)
  {
    if d == [] then None
    else if d[0].key == k then Some(d[0].value)
    else Get(d[1..], k)
  }

  /** `k in d` */
  predicate HasKey(d: Dict, k: string) { Get(d, k).Some? }

  /** A key is found exactly when it is one of the keys, and then under a member of the
      dictionary. */
  lemma {:induction false} GetFound(d: Dict, k: string)
    ensures HasKey(d, k) <==> k in Keys(d)
    ensures Get(d, k).Some? ==> exists i :: 0 <= i < |d| && d[i] == Member(k, Get(d, k).value)
  {
    if d != [] && d[0].key != k {
      GetFound(d[1..], k);
      assert Keys(d) == [d[0].key] + Keys(d[1..]);
      if Get(d, k).Some? {
        var i :| 0 <= i < |d[1..]| && d[1..][i] == Member(k, Get(d, k).value);
        assert d[i + 1] == Member(k, Get(d, k).value);
      }
    }
  }

  /** A member is found under its key when no earlier member has that key. */
  lemma {:induction false} GetFirst(d: Dict, i: nat)
    requires i < |d| && forall j :: 0 <= j < i ==> d[j].key != d[i].key
    ensures Get(d, d[i].key) == Some(d[i].value)
  {
    if i > 0 {
      assert d[0].key != d[i].key;
      GetFirst(d[1..], i - 1);
    }
  }

  /** `d.get(k, default)` */
  function GetOr(d: Dict, k: string, default: Json): Json {
    match Get(d, k)
    case Some(v) => v
    case None => default
  }

  /** `d[k] = v`: replaces the value in place when `k` is present, appends otherwise. */
  function Put(d: Dict, k: string, v: Json): (r: Dict)
    ensures Get(r, k) == Some(v)
  {
    if d == [] then [Member(k, v)]
    else if d[0].key == k then [Member(k, v)] + d[1..]
    else [d[0]] + Put(d[1..], k, v)
  }

  /** Assignment leaves every other key as it was. */
  lemma {:induction false} GetPutOther(d: Dict, k: string, v: Json, k': string)
    requires k' != k
    ensures Get(Put(d, k, v), k') == Get(d, k')
  {
    if d != [] && d[0].key != k && d[0].key != k' {
      GetPutOther(d[1..], k, v, k');
    }
  }

  /** Assignment keeps the key order, adding a new key at the end. */
  lemma {:induction false} PutKeys(d: Dict, k: string, v: Json)
    ensures HasKey(d, k) ==> Keys(Put(d, k, v)) == Keys(d)
    ensures !HasKey(d, k) ==> Keys(Put(d, k, v)) == Keys(d) + [k]
  {
    if d != [] && d[0].key != k {
      PutKeys(d[1..], k, v);
      assert Keys(Put(d, k, v)) == [d[0].key] + Keys(Put(d[1..], k, v));
      assert Keys(d) == [d[0].key] + Keys(d[1..]);
    }
  }

  /** Assigning a key the dictionary lacks appends one member. */
  lemma {:induction false} PutAbsent(d: Dict, k: string, v: Json)
    requires k !in Keys(d)
    ensures Put(d, k, v) == d + [Member(k, v)]
  {
    if d != [] {
      assert Keys(d) == [d[0].key] + Keys(d[1..]);
      PutAbsent(d[1..], k, v);
      assert d == [d[0]] + d[1..];
    }
  }

  /** Two assignments in a row, to distinct keys. */
  lemma {:induction false} GetPut2(d: Dict, k1: string, v1: Json, k2: string, v2: Json)
    requires k1 != k2
    ensures var r := Put(Put(d, k1, v1), k2, v2);
      && Get(r, k1) == Some(v1) && Get(r, k2) == Some(v2)
      && forall k :: k != k1 && k != k2 ==> Get(r, k) == Get(d, k)
  {
    GetPutOther(Put(d, k1, v1), k2, v2, k1);
    forall k | k != k1 && k != k2 ensures Get(Put(Put(d, k1, v1), k2, v2), k) == Get(d, k) {
      GetPutOther(Put(d, k1, v1), k2, v2, k);
      GetPutOther(d, k1, v1, k);
    }
  }

  /** Three assignments in a row, to distinct keys. */
  lemma {:induction false} GetPut3(d: Dict, k1: string, v1: Json, k2: string, v2: Json, k3: string, v3: Json)
    requires k1 != k2 && k1 != k3 && k2 != k3
    ensures var r := Put(Put(Put(d, k1, v1), k2, v2), k3, v3);
      && Get(r, k1) == Some(v1) && Get(r, k2) == Some(v2) && Get(r, k3) == Some(v3)
      && forall k :: k != k1 && k != k2 && k != k3 ==> Get(r, k) == Get(d, k)
  {
    GetPut2(d, k1, v1, k2, v2);
    GetPutOther(Put(Put(d, k1, v1), k2, v2), k3, v3, k1);
    GetPutOther(Put(Put(d, k1, v1), k2, v2), k3, v3, k2);
    forall k | k != k1 && k != k2 && k != k3 ensures Get(Put(Put(Put(d, k1, v1), k2, v2), k3, v3), k) == Get(d, k) {
      GetPutOther(Put(Put(d, k1, v1), k2, v2), k3, v3, k);
    }
  }

  /** Appending to a list that was itself extended. */
  lemma {:induction false} AppendAssoc<T>(a: seq<T>, b: seq<T>, c: seq<T>)
    ensures (a + b) + c == a + (b + c)
  {
  }

  /** Python truthiness: `None`, `False`, `0`, `""`, `[]` and `{}` are false. */
  predicate Truthy(j: Json) {
    match j
    case Null => false
    case Bool(b) => b
    case Num(n) => n != 0
    case Str(s) => s != []
    case Arr(items) => items != []
    case Obj(fields) => fields != []
  }

  /** Python `a or b` */
  function Or(a: Json, b: Json): Json { if Truthy(a) then a else b }

  predicate DistinctKeys(d: Dict) {
    forall i, j :: 0 <= i < j < |d| ==> d[i].key != d[j].key
  }

  /** What a Python program can hold: every object, at any depth, has distinct keys. */
  predicate WellFormed(j: Json) {
    match j
    case Arr(items) => forall i :: 0 <= i < |items| ==> WellFormed(items[i])
    case Obj(fields) => DistinctKeys(fields) && forall i :: 0 <= i < |fields| ==> WellFormed(fields[i].value)
    case _ => true
  }

  /** Values a Python `for` loop accepts. */
  predicate Iterable(j: Json) { j.Arr? || j.Str? || j.Obj? }

  /** `for x in j`: a list's items, a string's characters, a dict's keys. */
  function Iterate(j: Json): (r: seq<Json>)
    requires Iterable(j)
    ensures j.Arr? ==> r == j.items
    ensures j.Str? ==> |r| == |j.s| && forall i :: 0 <= i < |r| ==> r[i] == Str([j.s[i]])
    ensures j.Obj? ==> |r| == |j.fields| && forall i :: 0 <= i < |r| ==> r[i] == Str(j.fields[i].key)
    ensures Truthy(j) <==> r != []
  {
    match j
    case Arr(items) => items
    case Str(s) => seq(|s|, i requires 0 <= i < |s| => Str([s[i]]))
    case Obj(fields) => var ks := Keys(fields); seq(|ks|, i requires 0 <= i < |ks| => Str(ks[i]))
  }

  /** Leading characters with which no JSON text can begin for Python's decoder: not whitespace,
      no value opener, and not the start of `NaN` or `Infinity`. */
  predicate CertainlyNotJson(s: string) {
    |s| >= 3 && !IsSpace(s[0])
    && (s[0] !in "{[\"-0123456789tfnNI"
        || (s[0] == 'N' && s[1] != 'a')
        || (s[0] == 'I' && (s[1] != 'n' || s[2] != 'f')))
  }

  /** Result of `json.loads`: the value, or the `JSONDecodeError` message. */
  datatype Parsed = Parsed(value: Json) | DecodeError(message: string)

  /** `json.loads`, `json.dumps(…, indent=2)` and `str()`, left uninterpreted. */
  datatype Codec = Codec(loads: string -> Parsed, dumps: Json -> string, show: Json -> string) {
    /** The properties of Python's implementations the model relies on. */
    ghost predicate Valid() {
      && (forall j :: WellFormed(j) ==> loads(dumps(j)) == Parsed(j))
      && (forall s :: loads(s).Parsed? ==> WellFormed(loads(s).value))
      && (forall s :: CertainlyNotJson(s) ==> loads(s).DecodeError?)
      && (forall s :: show(Str(s)) == s)
    }
  }
}
