/** Python's view of a decoded JSON document (what `json.loads` and DRF's `request.data`
    hand to the views), and the Python operations the views apply to such values,
    with the exceptions those operations raise. */
module Json {

  datatype Option<+T> = None | Some(value: T)

  /** A value as Python holds it after decoding JSON. Floats are not modelled.
      A dict is the sequence of key/value pairs it was built from, in order: as in a Python
      dict, a repeated key keeps the position of its first occurrence and the value of its last. */
  datatype Json =
    | Null
    | Bool(b: bool)
    | Int(i: int)
    | Str(s: string)
    | List(items: seq<Json>)
    | Dict(fields: seq<(string, Json)>)

  datatype ExcKind = TypeError | KeyError | IndexError | AttributeError | ValueError | ConnectionError | CryptoError

  /** A Python exception; `message` is what `str(e)` gives. */
  datatype Exc = Exc(kind: ExcKind, message: string)

  /** The outcome of evaluating a Python expression: a value, or a raised exception. */
  datatype Py<+T> = Ok(value: T) | Raise(exc: Exc) {
    predicate IsFailure() { Raise? }
    /** Total, so that a `:-` whose failure cannot happen leaves nothing to check. */
    function PropagateFailure<U>(): Py<U> {
      match this
      case Raise(e) => Raise(e)
      case Ok(_) => Raise(Exc(TypeError, ""))
    }
    function Extract(): T requires Ok? { value }
  }

  // ---------------------------------------------------------------- dicts

  /** `d[k]` of the dict built from `fields`: the value of the LAST pair with key `k`. */
  function Lookup(fields: seq<(string, Json)>, k: string): (r: Option<Json>)
    ensures r.Some? <==> exists i :: 0 <= i < |fields| && fields[i].0 == k
    ensures r.Some? ==> (k, r.value) in fields
  {
    if fields == [] then None
    else if fields[|fields| - 1].0 == k then Some(fields[|fields| - 1].1)
    else
      var r := Lookup(fields[..|fields| - 1], k);
      assert forall i :: 0 <= i < |fields| - 1 ==> fields[..|fields| - 1][i] == fields[i];
      r
  }

  /** The value found is the one of the last pair with that key: a later pair overrides an
      earlier one, as in a dict display or in JSON decoding. */
  lemma {:induction false} LookupLast(fields: seq<(string, Json)>, k: string)
    requires Lookup(fields, k).Some?
    ensures exists i :: 0 <= i < |fields| && fields[i] == (k, Lookup(fields, k).value) &&
                        forall j :: i < j < |fields| ==> fields[j].0 != k
  {
    var n := |fields| - 1;
    if fields[n].0 == k {
      assert fields[n] == (k, Lookup(fields, k).value);
    } else {
      var init := fields[..n];
      LookupLast(init, k);
      var i :| 0 <= i < |init| && init[i] == (k, Lookup(init, k).value) &&
               forall j :: i < j < |init| ==> init[j].0 != k;
      assert fields[i] == init[i];
      assert forall j :: i < j < |fields| ==> fields[j].0 != k by {
        forall j | i < j < |fields| ensures fields[j].0 != k {
          if j < n { assert fields[j] == init[j]; }
        }
      }
    }
  }

  /** The keys of the dict built from `fields`, each once, in the order of first occurrence
      (the order in which Python iterates them). */
  function Keys(fields: seq<(string, Json)>): (ks: seq<string>)
    ensures forall k :: k in ks <==> Lookup(fields, k).Some?
    ensures forall i, j :: 0 <= i < j < |ks| ==> ks[i] != ks[j]
    ensures |ks| <= |fields|
  {
    if fields == [] then []
    else
      var ks := Keys(fields[..|fields| - 1]);
      var k := fields[|fields| - 1].0;
      if k in ks then ks else ks + [k]
  }

  /** The position of the FIRST pair with key `k`. */
  function FirstIndex(fields: seq<(string, Json)>, k: string): (p: nat)
    requires Lookup(fields, k).Some?
    ensures p < |fields| && fields[p].0 == k
    ensures forall q :: 0 <= q < p ==> fields[q].0 != k
  {
    var n := |fields| - 1;
    var init := fields[..n];
    assert forall q :: 0 <= q < n ==> init[q] == fields[q];
    if Lookup(init, k).Some? then FirstIndex(init, k) else n
  }

  /** `Keys` lists the keys in the order of their first occurrence. */
  lemma {:induction false} KeysInFirstOccurrenceOrder(fields: seq<(string, Json)>)
    ensures forall i, j :: 0 <= i < j < |Keys(fields)| ==>
      FirstIndex(fields, Keys(fields)[i]) < FirstIndex(fields, Keys(fields)[j])
  {
    if fields != [] {
      var n := |fields| - 1;
      var init := fields[..n];
      var earlier := Keys(init);
      KeysInFirstOccurrenceOrder(init);
      forall x | x in earlier ensures FirstIndex(fields, x) == FirstIndex(init, x) {
      }
      var k := fields[n].0;
      if k !in earlier {
        assert Keys(fields) == earlier + [k];
        assert FirstIndex(fields, k) == n;
      }
    }
  }

  /** `d.items()`: one pair per key, in iteration order, each with the key's value. */
  function Items(fields: seq<(string, Json)>): (r: seq<(string, Json)>)
    ensures |r| == |Keys(fields)|
    ensures forall i :: 0 <= i < |r| ==> r[i].0 == Keys(fields)[i] && Lookup(fields, r[i].0) == Some(r[i].1)
    ensures forall i :: 0 <= i < |r| ==> r[i] in fields
  {
    var ks := Keys(fields);
    seq(|ks|, i requires 0 <= i < |ks| => (ks[i], Lookup(fields, ks[i]).value))
  }

  /** The keys of `Items(fields)`, which are `Keys(fields)`. */
  function ItemKeys(items: seq<(string, Json)>): (ks: seq<string>)
    ensures |ks| == |items|
    ensures forall i :: 0 <= i < |items| ==> ks[i] == items[i].0
  {
    seq(|items|, i requires 0 <= i < |items| => items[i].0)
  }

  // ---------------------------------------------------------------- truthiness and str()

  /** Python's `bool(x)`. */
  predicate Truthy(j: Json) {
    match j
    case Null => false
    case Bool(b) => b
    case Int(i) => i != 0
    case Str(s) => s != ""
    case List(a) => a != []
    case Dict(f) => f != []
  }

  function DigitChar(d: nat): char
    requires d < 10
  {
    "0123456789"[d]
  }

  function Digits(n: nat): string
    decreases n
  {
    if n < 10 then [DigitChar(n)] else Digits(n / 10) + [DigitChar(n % 10)]
  }

  function IntToString(i: int): string {
    if i < 0 then "-" + Digits(-i) else Digits(i)
  }

  /** `sep.join(parts)`. */
  function JoinWith(parts: seq<string>, sep: string): string {
    if parts == [] then ""
    else if |parts| == 1 then parts[0]
    else parts[0] + sep + JoinWith(parts[1..], sep)
  }

  /** Python's `repr(x)`; a string is always shown in single quotes, without escapes. */
  function Repr(j: Json): string {
    match j
    case Null => "None"
    case Bool(b) => if b then "True" else "False"
    case Int(i) => IntToString(i)
    case Str(s) => "'" + s + "'"
    case List(a) => "[" + JoinWith(seq(|a|, k requires 0 <= k < |a| => Repr(a[k])), ", ") + "]"
    case Dict(f) =>
      var it := Items(f);
      "{" + JoinWith(seq(|it|, k requires 0 <= k < |it| => "'" + it[k].0 + "': " + Repr(it[k].1)), ", ") + "}"
  }

  /** Python's `str(x)`, which is also what an f-string inserts for `{x}`. */
  function Show(j: Json): (r: string)
    ensures j.Str? ==> r == j.s
  {
    if j.Str? then j.s else Repr(j)
  }

  // ---------------------------------------------------------------- operations that may raise

  /** `d.get(k, default)`. */
  function GetOr(d: Json, k: string, default: Json): (r: Py<Json>)
    ensures r.Ok? <==> d.Dict?
    ensures d.Dict? ==> r.value == (if Lookup(d.fields, k).Some? then Lookup(d.fields, k).value else default)
  {
    match d
    case Dict(f) => Ok(match Lookup(f, k) case Some(v) => v case None => default)
    case _ => Raise(Exc(AttributeError, "object has no attribute 'get'"))
  }

  /** `d.get(k, default)` of a value already known to be a dict, which cannot raise. */
  function At(d: Json, k: string, default: Json): (r: Json)
    requires d.Dict?
    ensures GetOr(d, k, default) == Ok(r)
  {
    if Lookup(d.fields, k).Some? then Lookup(d.fields, k).value else default
  }

  /** `d.get(k)`. */
  function Get(d: Json, k: string): Py<Json> {
    GetOr(d, k, Null)
  }

  /** `d[k]` with a string key. */
  function Index(d: Json, k: string): (r: Py<Json>)
    ensures r.Ok? <==> d.Dict? && Lookup(d.fields, k).Some?
    ensures r.Ok? ==> Some(r.value) == Lookup(d.fields, k)
  {
    match d
    case Dict(f) =>
      (match Lookup(f, k)
       case Some(v) => Ok(v)
       case None => Raise(Exc(KeyError, "'" + k + "'")))
    case _ => Raise(Exc(TypeError, "indices must be integers"))
  }

  /** `x[0]`. Decoded dict keys are strings, so `0` is never one of them. */
  function First(x: Json): (r: Py<Json>)
    ensures r.Ok? <==> (x.List? && x.items != []) || (x.Str? && x.s != "")
    ensures x.List? && x.items != [] ==> r == Ok(x.items[0])
  {
    match x
    case List(a) => if a == [] then Raise(Exc(IndexError, "list index out of range")) else Ok(a[0])
    case Str(s) => if s == [] then Raise(Exc(IndexError, "string index out of range")) else Ok(Str([s[0]]))
    case Dict(_) => Raise(Exc(KeyError, "0"))
    case _ => Raise(Exc(TypeError, "object is not subscriptable"))
  }

  /** `for e in x`: a list yields its items, a dict its keys, a string its characters. */
  function Iter(x: Json): (r: Py<seq<Json>>)
    ensures r.Ok? <==> x.List? || x.Dict? || x.Str?
    ensures x.List? ==> r == Ok(x.items)
    ensures r.Ok? ==> (|r.value| == 0 <==> !Truthy(x))
  {
    match x
    case List(a) => Ok(a)
    case Dict(f) =>
      var ks := Keys(f);
      assert f != [] ==> f[|f| - 1].0 in ks;
      Ok(seq(|ks|, i requires 0 <= i < |ks| => Str(ks[i])))
    case Str(s) => Ok(seq(|s|, i requires 0 <= i < |s| => Str([s[i]])))
    case _ => Raise(Exc(TypeError, "object is not iterable"))
  }

  /** `t` occurs in `s` at some position. */
  predicate IsSubstring(t: string, s: string) {
    t <= s || (s != [] && IsSubstring(t, s[1..]))
  }

  /** `needle in container`: a substring test on a string, membership in a list, a key test on a dict. */
  function Contains(container: Json, needle: string): (r: Py<bool>)
    ensures r.Ok? <==> container.Str? || container.List? || container.Dict?
  {
    match container
    case Str(s) => Ok(IsSubstring(needle, s))
    case List(a) => Ok(Str(needle) in a)
    case Dict(f) => Ok(Lookup(f, needle).Some?)
    case _ => Raise(Exc(TypeError, "argument is not iterable"))
  }
  // ---------------------------------------------------------------- loops that stop at the first exception

  /** `[f(x) for x in xs]`, or a loop appending `f(x)` for each `x` in order: every result,
      or the exception of the first element on which `f` raises. */
  function Traverse<A, T>(f: A -> Py<T>, xs: seq<A>): (r: Py<seq<T>>)
    ensures r.Ok? <==> forall i :: 0 <= i < |xs| ==> f(xs[i]).Ok?
    ensures r.Ok? ==> |r.value| == |xs| && forall i :: 0 <= i < |xs| ==> f(xs[i]) == Ok(r.value[i])
  {
    if xs == [] then Ok([])
    else
      match f(xs[0])
      case Raise(e) => Raise(e)
      case Ok(head) =>
        match Traverse(f, xs[1..])
        case Raise(e) => Raise(e)
        case Ok(tail) =>
          assert forall i :: 1 <= i < |xs| ==> xs[1..][i - 1] == xs[i];
          Ok([head] + tail)
  }

  /** A traversal that raises raises the exception of the first element on which `f` raises,
      after `f` succeeded on every element before it. */
  lemma {:induction false} TraverseFirstFailure<A, T>(f: A -> Py<T>, xs: seq<A>)
    requires Traverse(f, xs).Raise?
    ensures exists k :: 0 <= k < |xs| && f(xs[k]) == Raise(Traverse(f, xs).exc) &&
                        forall j :: 0 <= j < k ==> f(xs[j]).Ok?
  {
    if f(xs[0]).Ok? {
      TraverseFirstFailure(f, xs[1..]);
      var k :| 0 <= k < |xs[1..]| && f(xs[1..][k]) == Raise(Traverse(f, xs[1..]).exc) &&
               forall j :: 0 <= j < k ==> f(xs[1..][j]).Ok?;
      assert forall j :: 1 <= j < k + 1 ==> xs[j] == xs[1..][j - 1];
      assert f(xs[k + 1]) == Raise(Traverse(f, xs).exc);
    } else {
      assert f(xs[0]) == Raise(Traverse(f, xs).exc);
    }
  }
  /** Once `f` raises on element `k`, after succeeding on all before it, the traversal
      raises that exception. */
  lemma {:induction false} TraverseStopsAt<A, T>(f: A -> Py<T>, xs: seq<A>, k: nat)
    requires k < |xs| && f(xs[k]).Raise?
    requires forall j :: 0 <= j < k ==> f(xs[j]).Ok?
    ensures Traverse(f, xs) == Raise(f(xs[k]).exc)
  {
    if k > 0 {
      assert forall j :: 0 <= j < k - 1 ==> xs[1..][j] == xs[j + 1];
      TraverseStopsAt(f, xs[1..], k - 1);
    }
  }

  /** A traversal on which `f` succeeds everywhere gives exactly the results of `f`. */
  lemma TraverseAll<A, T>(f: A -> Py<T>, xs: seq<A>, ys: seq<T>)
    requires |ys| == |xs| && forall j :: 0 <= j < |xs| ==> f(xs[j]) == Ok(ys[j])
    ensures Traverse(f, xs) == Ok(ys)
  {
    assert forall j :: 0 <= j < |xs| ==> f(xs[j]).Ok?;
    var r := Traverse(f, xs);
    assert r.Ok?;
    assert forall j :: 0 <= j < |xs| ==> r.value[j] == ys[j];
    assert r.value == ys;
  }
}
