/**
 * Dynamic values of the SDK's Python code: JSON documents read from an
 * export, cells of the aggregated table and the fields of the entities.
 * `None` is `Null`; a dict is a `Dict` whose keys are strings.
 */
module Values {

  datatype Option<+T> = None | Some(value: T)

  /** The exceptions the modelled code raises, one constructor per kind. */
  datatype Error =
    | MissingClassesFile      // classes/classes.json is not under the export root
    | DeprecatedExport        // the root holds document/video exports
    | Malformed               // KeyError, TypeError, AttributeError or ValueError on a malformed document
    | ZeroDivision            // ZeroDivisionError
    | NotImplemented          // NotImplementedError
    | UnboundShape            // UnboundLocalError: no shape was built for an unsupported type
    | NothingToConcatenate    // pd.concat of an empty list
    | UnpackMismatch          // ValueError when unpacking a split path
    | IndexOutOfRange         // IndexError on an empty lookup result
    | Backend(detail: Value)        // AppException raised with the error a backend response carries
    | App(message: string)          // AppException

  datatype Result<+T> = Success(value: T) | Failure(error: Error) {
    predicate IsFailure() { Failure? }
    function PropagateFailure<U>(): Result<U> requires Failure? { Failure(error) }
    function Extract(): T requires Success? { value }
  }

  /** A Python value as it occurs in a parsed JSON document or a table cell. */
  datatype Value =
    | Null
    | Bool(b: bool)
    | Int(i: int)
    | Num(r: real)
    | Str(s: string)
    | List(items: seq<Value>)
    | Dict(fields: map<string, Value>)
    | Time(raw: Value)        // the timestamp pd.to_datetime makes of `raw`

  /** `d.get(k)`: a missing key reads as None. */
  function Get(d: map<string, Value>, k: string): (v: Value)
    ensures k !in d ==> v == Null
    ensures k in d ==> v == d[k]
  {
    if k in d then d[k] else Null
  }

  /** Python truthiness (`if x:`). */
  predicate Truthy(v: Value) {
    match v
    case Null => false
    case Bool(b) => b
    case Int(i) => i != 0
    case Num(r) => r != 0.0
    case Str(s) => s != ""
    case List(items) => items != []
    case Dict(fields) => fields != map[]
    case Time(_) => true
  }

  /** Values that cannot be a dict key or a set member (`[1] in {}` raises TypeError). */
  predicate Unhashable(v: Value) {
    v.List? || v.Dict?
  }

  /** A number as shapely receives it (bool is an int in Python). */
  function AsReal(v: Value): Option<real> {
    match v
    case Int(i) => Some(i as real)
    case Num(r) => Some(r)
    case Bool(b) => Some(if b then 1.0 else 0.0)
    case _ => None
  }

  /** pd.to_datetime: None stays None; anything else becomes an opaque timestamp. */
  function ToDatetime(v: Value): Value {
    if v == Null then Null else Time(v)
  }

  /**
   * The elements a `for` loop over `v` visits, when the model can tell them:
   * a list gives its items, a string its characters, an empty dict nothing.
   * None, numbers, booleans and non-empty dicts give None.
   */
  function Elements(v: Value): Option<seq<Value>> {
    match v
    case List(items) => Some(items)
    case Str(s) => Some(seq(|s|, i requires 0 <= i < |s| => Str([s[i]])))
    case Dict(fields) => if fields == map[] then Some([]) else None
    case _ => None
  }

  // ----- dict.update -----

  /**
   * One element of the sequence `dict.update` reads: a two-element list
   * whose first item is a (string) key, or a two-character string, whose
   * characters are key and value. Any other element raises.
   */
  function UpdatePair(item: Value): Option<(string, Value)> {
    match item
    case List(xs) => if |xs| == 2 && xs[0].Str? then Some((xs[0].s, xs[1])) else None
    case Str(s) => if |s| == 2 then Some((s[..1], Str(s[1..]))) else None
    case _ => None
  }

  /** `d.update(items)` for a list: each element's pair is set in turn, a later one overriding an earlier. */
  function UpdatePairs(d: map<string, Value>, items: seq<Value>): (r: Result<map<string, Value>>)
    ensures r.Failure? <==> exists i :: 0 <= i < |items| && UpdatePair(items[i]).None?
    ensures r.Failure? ==> r.error == Malformed
    ensures r.Success? ==> forall k :: k in r.value <==>
      (k in d || exists i :: 0 <= i < |items| && UpdatePair(items[i]).Some? && UpdatePair(items[i]).value.0 == k)
    decreases |items|
  {
    if items == [] then Success(d)
    else
      var front := items[..|items| - 1];
      assert forall i :: 0 <= i < |front| ==> front[i] == items[i];
      var prev :- UpdatePairs(d, front);
      match UpdatePair(items[|items| - 1])
      case None => Failure(Malformed)
      case Some(p) => Success(prev[p.0 := p.1])
  }

  /** No later element of `items` sets the key element `j` sets. */
  predicate LastPair(items: seq<Value>, j: int)
    requires 0 <= j < |items|
  {
    UpdatePair(items[j]).Some?
    && forall k :: j < k < |items| && UpdatePair(items[k]).Some? ==>
         UpdatePair(items[k]).value.0 != UpdatePair(items[j]).value.0
  }

  /** A key takes the value of the last pair that sets it. */
  lemma {:induction false} UpdatePairsLast(d: map<string, Value>, items: seq<Value>, j: int)
    requires 0 <= j < |items| && LastPair(items, j)
    requires UpdatePairs(d, items).Success?
    ensures UpdatePairs(d, items).value[UpdatePair(items[j]).value.0] == UpdatePair(items[j]).value.1
    decreases |items|
  {
    var front := items[..|items| - 1];
    assert forall i :: 0 <= i < |front| ==> front[i] == items[i];
    if j < |items| - 1 {
      assert LastPair(front, j);
      UpdatePairsLast(d, front, j);
    }
  }

  /** A key no pair sets keeps its old value. */
  lemma {:induction false} UpdatePairsKeeps(d: map<string, Value>, items: seq<Value>, k: string)
    requires k in d
    requires forall i :: 0 <= i < |items| && UpdatePair(items[i]).Some? ==> UpdatePair(items[i]).value.0 != k
    requires UpdatePairs(d, items).Success?
    ensures UpdatePairs(d, items).value[k] == d[k]
    decreases |items|
  {
    if items != [] {
      var front := items[..|items| - 1];
      assert forall i :: 0 <= i < |front| ==> front[i] == items[i];
      UpdatePairsKeeps(d, front, k);
    }
  }

  /** The elements of `dict.update`'s argument are all pairs: a dict, the empty string, or a list of pairs. */
  predicate Updatable(arg: Value) {
    || arg.Dict?
    || arg == Str("")
    || (arg.List? && forall i :: 0 <= i < |arg.items| ==> UpdatePair(arg.items[i]).Some?)
  }

  /**
   * `d.update(arg)`: a dict is laid over `d`; any other argument is read as
   * a sequence of pairs, so a list of pairs sets each in turn and the empty
   * string and list change nothing; anything else raises.
   */
  function DictUpdate(d: map<string, Value>, arg: Value): (r: Result<map<string, Value>>)
    ensures r.Success? <==> Updatable(arg)
    ensures r.Failure? ==> r.error == Malformed
    ensures r.Success? ==> d.Keys <= r.value.Keys
    ensures arg.Dict? ==>
      (&& r.Success? && r.value.Keys == d.Keys + arg.fields.Keys
       && (forall k :: k in arg.fields ==> r.value[k] == arg.fields[k])
       && (forall k :: k in d && k !in arg.fields ==> r.value[k] == d[k]))
    ensures arg == Str("") || arg == List([]) ==> r == Success(d)
  {
    match arg
    case Dict(fields) => Success(d + fields)
    case List(items) => UpdatePairs(d, items)
    case Str(s) => if s == "" then Success(d) else Failure(Malformed)
    case _ => Failure(Malformed)
  }

  /** `list(m.items())` for the keys `ks`, each as a two-element list. */
  function ItemList(m: map<string, Value>, ks: seq<string>): (r: seq<Value>)
    requires forall i :: 0 <= i < |ks| ==> ks[i] in m
    ensures |r| == |ks|
  {
    seq(|ks|, i requires 0 <= i < |ks| => List([Str(ks[i]), m[ks[i]]]))
  }

  /** The entries of `m` at the keys `ks`. */
  function Restrict(m: map<string, Value>, ks: seq<string>): map<string, Value> {
    map k | k in ks && k in m :: m[k]
  }

  lemma RestrictSnoc(m: map<string, Value>, ks: seq<string>)
    requires ks != [] && ks[|ks| - 1] in m
    ensures Restrict(m, ks) == Restrict(m, ks[..|ks| - 1])[ks[|ks| - 1] := m[ks[|ks| - 1]]]
  {
    assert ks == ks[..|ks| - 1] + [ks[|ks| - 1]];
  }

  lemma SetAfterMerge(d: map<string, Value>, a: map<string, Value>, x: string, v: Value)
    ensures (d + a)[x := v] == d + a[x := v]
  {
  }

  /** Updating from the listed items of `m` lays the entries of `m` at those keys over `d`. */
  lemma {:induction false} UpdatePairsItems(d: map<string, Value>, m: map<string, Value>, ks: seq<string>)
    requires forall i :: 0 <= i < |ks| ==> ks[i] in m
    ensures UpdatePairs(d, ItemList(m, ks)) == Success(d + Restrict(m, ks))
    decreases |ks|
  {
    if ks == [] {
      assert ItemList(m, ks) == [];
      assert d + Restrict(m, ks) == d;
    } else {
      var front := ks[..|ks| - 1];
      var x := ks[|ks| - 1];
      var items := ItemList(m, ks);
      assert items[..|items| - 1] == ItemList(m, front);
      UpdatePairsItems(d, m, front);
      assert UpdatePair(items[|items| - 1]) == Some((x, m[x]));
      RestrictSnoc(m, ks);
      SetAfterMerge(d, Restrict(m, front), x, m[x]);
    }
  }

  /** `d.update(list(m.items()))` is `d.update(m)`, whatever order the items are listed in. */
  lemma UpdateFromItems(d: map<string, Value>, m: map<string, Value>, ks: seq<string>)
    requires forall k :: k in m <==> k in ks
    ensures DictUpdate(d, List(ItemList(m, ks))) == DictUpdate(d, Dict(m))
  {
    UpdatePairsItems(d, m, ks);
    RestrictAll(m, ks);
  }

  lemma RestrictAll(m: map<string, Value>, ks: seq<string>)
    requires forall k :: k in m <==> k in ks
    ensures Restrict(m, ks) == m
  {
  }
}
