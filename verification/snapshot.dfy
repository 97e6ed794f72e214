/**
 * `defaultdict_to_dict` (data_retrieve.py), which turns the indexer's nested
 * defaultdict into plain dicts before it is pickled. Python values are
 * modelled dynamically because the function calls `dict(...)` on whatever it
 * is given, including the `(vector, payload)` tuples at the leaves.
 */
module Snapshot {
  import opened Common

  /** The Python values that occur in the index store. Dict entries are in insertion order with distinct keys. */
  datatype PyValue =
    | DefaultDict(entries: seq<Pair>)
    | PlainDict(entries: seq<Pair>)
    | Tuple(elems: seq<PyValue>)
    | List(elems: seq<PyValue>)
    | Str(s: string)
    | Int(i: int)
    | Float(r: real)

  datatype Pair = Pair(key: PyValue, value: PyValue)

  /** `hash(v)` succeeds: strings, numbers, and tuples of hashable values. */
  predicate Hashable(v: PyValue)
    decreases v
  {
    match v
    case Str(_) => true
    case Int(_) => true
    case Float(_) => true
    case Tuple(xs) => forall i :: 0 <= i < |xs| ==> Hashable(xs[i])
    case _ => false
  }

  /** What `iter(v)` yields: a dict yields its keys, a string its characters; None when `v` is not iterable. */
  function Iterate(v: PyValue): (r: Option<seq<PyValue>>)
    ensures r.None? <==> v.Int? || v.Float?
  {
    match v
    case DefaultDict(es) => Some(seq(|es|, i requires 0 <= i < |es| => es[i].key))
    case PlainDict(es) => Some(seq(|es|, i requires 0 <= i < |es| => es[i].key))
    case Tuple(xs) => Some(xs)
    case List(xs) => Some(xs)
    case Str(s) => Some(seq(|s|, i requires 0 <= i < |s| => Str([s[i]])))
    case _ => None
  }

  /** Position of `k` among the keys of `es`, or `|es|`. */
  function IndexOfKey(es: seq<Pair>, k: PyValue): (i: nat)
    ensures i <= |es|
    ensures i < |es| ==> es[i].key == k
    ensures forall j :: 0 <= j < i ==> es[j].key != k
  {
    if es == [] then 0 else if es[0].key == k then 0 else 1 + IndexOfKey(es[1..], k)
  }

  /** `d[k] = v` on an entry list: an existing key keeps its place, a new one is appended. */
  function Insert(es: seq<Pair>, p: Pair): (r: seq<Pair>)
    ensures |es| <= |r| <= |es| + 1
  {
    var i := IndexOfKey(es, p.key);
    if i < |es| then es[i := Pair(es[i].key, p.value)] else es + [p]
  }

  /** `x` can be one item of `dict(...)`: an iterable of length 2 whose first element is hashable. */
  predicate IsPair(x: PyValue) {
    Iterate(x).Some? && |Iterate(x).value| == 2 && Hashable(Iterate(x).value[0])
  }

  /**
   * `dict(xs)` over the first `n` elements of `xs`: it succeeds exactly when
   * every element is a pair, and has at most one entry per element.
   */
  function FromPairs(xs: seq<PyValue>, n: nat): (r: Result<seq<Pair>>)
    requires n <= |xs|
    ensures r.Ok? <==> forall i :: 0 <= i < n ==> IsPair(xs[i])
    ensures r.Ok? ==> |r.value| <= n
  {
    if n == 0 then Ok([])
    else
      match FromPairs(xs, n - 1)
      case Err(e) => Err(e)
      case Ok(es) =>
        match Iterate(xs[n - 1])
        case None => Err(NotASequence(n - 1))
        case Some(kv) =>
          if |kv| != 2 then Err(BadPairLength(n - 1, |kv|))
          else if !Hashable(kv[0]) then Err(Unhashable(n - 1))
          else Ok(Insert(es, Pair(kv[0], kv[1])))
  }

  /**
   * `dict(v)`: a shallow copy of a mapping, or a dict built from an iterable of
   * pairs. The result is always a plain dict; a number is not iterable.
   */
  function DictOf(v: PyValue): (r: Result<PyValue>)
    ensures r.Ok? ==> r.value.PlainDict?
    ensures v.DefaultDict? || v.PlainDict? ==> r.Ok? && r.value.entries == v.entries
    ensures v.Int? || v.Float? ==> r == Err(NotIterable)
  {
    if v.DefaultDict? || v.PlainDict? then Ok(PlainDict(v.entries))
    else
      match Iterate(v)
      case None => Err(NotIterable)
      case Some(xs) =>
        match FromPairs(xs, |xs|)
        case Err(e) => Err(e)
        case Ok(es) => Ok(PlainDict(es))
  }

  // ---------------------------------------------------------------------------
  // defaultdict_to_dict as written: the comprehension recurses into every
  // value of a defaultdict, and `dict(d)` is then applied to every value,
  // defaultdict or not.

  /** Whatever it is given, a successful conversion returns a plain dict, and a number always fails. */
  function DefaultDictToDict(v: PyValue): (r: Result<PyValue>)
    decreases v, 1
    ensures r.Ok? ==> r.value.PlainDict?
    ensures v.Int? || v.Float? ==> r.Err?
  {
    match v
    case DefaultDict(es) =>
      (match ConvertEntries(v, |es|)
       case Err(e) => Err(e)
       case Ok(converted) => DictOf(PlainDict(converted)))
    case _ => DictOf(v)
  }

  /** The comprehension `{key: defaultdict_to_dict(value) ...}` over the first `n` entries of `v`. */
  function ConvertEntries(v: PyValue, n: nat): Result<seq<Pair>>
    requires v.DefaultDict? && n <= |v.entries|
    decreases v, 0, n
  {
    if n == 0 then Ok([])
    else
      match ConvertEntries(v, n - 1)
      case Err(e) => Err(e)
      case Ok(es) =>
        var p := v.entries[n - 1];
        match DefaultDictToDict(p.value)
        case Err(e) => Err(e)
        case Ok(c) => Ok(es + [Pair(p.key, c)])
  }

  /** One failing value fails the whole comprehension. */
  lemma {:induction false} ConvertEntriesFails(v: PyValue, n: nat, j: nat)
    requires v.DefaultDict? && j < n <= |v.entries|
    requires DefaultDictToDict(v.entries[j].value).Err?
    ensures ConvertEntries(v, n).Err?
  {
    if j < n - 1 {
      ConvertEntriesFails(v, n - 1, j);
    }
  }

  /**
   * `dict((vector, payload))` always raises a ValueError. Its first item is
   * the vector list: unless the vector has exactly two numbers, that item is
   * not a pair (element #0). A two-number vector is the pair `x: y`, since a
   * float key is hashable, and the second item, a payload dict with one key,
   * iterates to a single element (element #1).
   */
  lemma LeafTupleFails(vector: seq<PyValue>, payload: seq<Pair>)
    requires forall i :: 0 <= i < |vector| ==> vector[i].Float?
    requires |payload| == 1
    ensures DefaultDictToDict(Tuple([List(vector), PlainDict(payload)])) ==
            if |vector| == 2 then Err(BadPairLength(1, 1)) else Err(BadPairLength(0, |vector|))
  {
    var xs := [List(vector), PlainDict(payload)];
    assert Iterate(xs[0]) == Some(vector);
    if |vector| == 2 {
      assert Hashable(vector[0]);
      assert FromPairs(xs, 1).Ok?;
      assert Iterate(xs[1]).value == [payload[0].key];
    } else {
      assert FromPairs(xs, 1) == Err(BadPairLength(0, |vector|));
    }
  }

  // ---------------------------------------------------------------------------
  // The evidently intended conversion: defaultdicts become plain dicts at
  // every level, every other value is kept as it is.

  /**
   * No defaultdict is returned: a defaultdict becomes a plain dict with the
   * same keys in the same order, and every other value is kept as it is.
   */
  function ToPlainDicts(v: PyValue): (r: PyValue)
    decreases v, 1
    ensures !r.DefaultDict?
    ensures v.DefaultDict? ==>
              r.PlainDict? && |r.entries| == |v.entries| &&
              (forall i :: 0 <= i < |v.entries| ==> r.entries[i].key == v.entries[i].key)
    ensures !v.DefaultDict? ==> r == v
  {
    match v
    case DefaultDict(es) => PlainDict(PlainEntries(v, |es|))
    case _ => v
  }

  /** The comprehension over the first `n` entries of `v`: same keys, converted values. */
  function PlainEntries(v: PyValue, n: nat): (r: seq<Pair>)
    requires v.DefaultDict? && n <= |v.entries|
    decreases v, 0, n
    ensures |r| == n
    ensures forall i :: 0 <= i < n ==> r[i] == Pair(v.entries[i].key, ToPlainDicts(v.entries[i].value))
  {
    if n == 0 then []
    else PlainEntries(v, n - 1) + [Pair(v.entries[n - 1].key, ToPlainDicts(v.entries[n - 1].value))]
  }

  /** `v` with every defaultdict, at every level, read as a plain dict: what a pickle reader sees. */
  function Erase(v: PyValue): PyValue
    decreases v
  {
    match v
    case DefaultDict(es) => PlainDict(seq(|es|, i requires 0 <= i < |es| => Pair(Erase(es[i].key), Erase(es[i].value))))
    case PlainDict(es) => PlainDict(seq(|es|, i requires 0 <= i < |es| => Pair(Erase(es[i].key), Erase(es[i].value))))
    case Tuple(xs) => Tuple(seq(|xs|, i requires 0 <= i < |xs| => Erase(xs[i])))
    case List(xs) => List(seq(|xs|, i requires 0 <= i < |xs| => Erase(xs[i])))
    case _ => v
  }

  /** No defaultdict anywhere inside `v`. */
  predicate NoDefaultDict(v: PyValue)
    decreases v
  {
    match v
    case DefaultDict(_) => false
    case PlainDict(es) => forall i :: 0 <= i < |es| ==> NoDefaultDict(es[i].key) && NoDefaultDict(es[i].value)
    case Tuple(xs) => forall i :: 0 <= i < |xs| ==> NoDefaultDict(xs[i])
    case List(xs) => forall i :: 0 <= i < |xs| ==> NoDefaultDict(xs[i])
    case _ => true
  }

  /** Defaultdicts occur only at the top and as values of defaultdicts, as in the index store. */
  predicate NestedDefaultDicts(v: PyValue)
    decreases v
  {
    match v
    case DefaultDict(es) => forall i :: 0 <= i < |es| ==> NoDefaultDict(es[i].key) && NestedDefaultDicts(es[i].value)
    case _ => NoDefaultDict(v)
  }

  /** The corrected conversion keeps every key and every value at every level. */
  lemma {:induction false} ToPlainDictsPreserves(v: PyValue)
    ensures Erase(ToPlainDicts(v)) == Erase(v)
    decreases v
  {
    match v
    case DefaultDict(es) =>
      var es' := PlainEntries(v, |es|);
      forall i | 0 <= i < |es|
        ensures Erase(es'[i].value) == Erase(es[i].value)
      {
        ToPlainDictsPreserves(es[i].value);
      }
    case _ =>
  }

  /** On a nesting of defaultdicts, the corrected conversion leaves no defaultdict behind. */
  lemma {:induction false} ToPlainDictsIsPlain(v: PyValue)
    requires NestedDefaultDicts(v)
    ensures NoDefaultDict(ToPlainDicts(v))
    decreases v
  {
    match v
    case DefaultDict(es) =>
      var es' := PlainEntries(v, |es|);
      forall i | 0 <= i < |es|
        ensures NoDefaultDict(es'[i].key) && NoDefaultDict(es'[i].value)
      {
        ToPlainDictsIsPlain(es[i].value);
      }
    case _ =>
  }
}
