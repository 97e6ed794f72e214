/** Values shared by the taxonomy builder, the indexer and the classification agent. */
module Common {

  /** An embedding vector; the model never computes with its components. */
  type Vector = seq<real>

  /** The Qdrant point payload `{"class_id": ...}` written by the indexer. */
  datatype Payload = Payload(classId: int)

  /**
   * One Nice class as exported by `NiceClass.toDict` and loaded back by the
   * indexer and the agent: `class_id`, `heading`, `introduction`, `include`,
   * `exclude` and `good_or_service`.
   */
  datatype ClassRecord = ClassRecord(
    classId: int,
    heading: seq<string>,
    introduction: string,
    includes: seq<string>,
    excludes: seq<string>,
    goodOrService: seq<string>)

  /** The Python exceptions the modelled code can raise. */
  datatype Error =
    | UnknownClass(classId: int)           // KeyError on the agent's class table
    | UnknownField(field: string)          // KeyError on COLLECTION_INFO
    | NoClassTexts                         // AttributeError: `classTexts` is still None
    | BadPairLength(index: nat, len: nat)  // ValueError from dict(): element is not of length 2
    | NotASequence(index: nat)             // TypeError from dict(): element is not iterable
    | NotIterable                          // TypeError from dict(): argument is not iterable
    | Unhashable(index: nat)               // TypeError from dict(): key of element is unhashable

  datatype Result<T> = Ok(value: T) | Err(error: Error)

  datatype Option<T> = None | Some(value: T)

  /** No element occurs twice. */
  predicate NoDup<T(==)>(s: seq<T>) {
    forall i, j :: 0 <= i < j < |s| ==> s[i] != s[j]
  }

  /** The elements of `s`, as a set. */
  function Elements<T>(s: seq<T>): set<T> {
    set x | x in s
  }

  /** Some element of a non-empty set. */
  lemma Member<T>(s: set<T>) returns (x: T)
    requires s != {}
    ensures x in s
  {
    x :| x in s;
  }

  /** `order` lists every element of `s` exactly once (a Python set's iteration order). */
  predicate IsEnumeration<T(==)>(order: seq<T>, s: set<T>) {
    NoDup(order) && Elements(order) == s
  }

  /** Taking one more element `x` of the unvisited part of `s` keeps `order` duplicate-free within `s`. */
  lemma VisitStep<T>(order: seq<T>, s: set<T>, remaining: set<T>, x: T)
    requires NoDup(order) && Elements(order) <= s && remaining == s - Elements(order) && x in remaining
    ensures NoDup(order + [x]) && Elements(order + [x]) <= s
    ensures remaining - {x} == s - Elements(order + [x])
  {
    assert Elements(order + [x]) == Elements(order) + {x};
  }

  /** The in-order concatenation of a list of lists. */
  function Flatten<T>(lists: seq<seq<T>>): (r: seq<T>)
  {
    if lists == [] then [] else Flatten(lists[..|lists| - 1]) + lists[|lists| - 1]
  }

  /** Sum of the lengths of the lists. */
  function TotalCount<T>(lists: seq<seq<T>>): nat {
    if lists == [] then 0 else TotalCount(lists[..|lists| - 1]) + |lists[|lists| - 1]|
  }

  /** The flattened list has one entry per element of each list. */
  lemma {:induction false} FlattenLength<T>(lists: seq<seq<T>>)
    ensures |Flatten(lists)| == TotalCount(lists)
  {
    if lists != [] {
      FlattenLength(lists[..|lists| - 1]);
    }
  }

  /** A prefix one longer is the prefix followed by the next element. */
  lemma PrefixSnoc<T>(s: seq<T>, i: nat)
    requires i < |s|
    ensures s[..i + 1] == s[..i] + [s[i]]
  {
  }

  /** A non-empty sequence is its initial part followed by its last element. */
  lemma SplitLast<T>(s: seq<T>)
    requires |s| > 0
    ensures s == s[..|s| - 1] + [s[|s| - 1]]
    ensures forall x :: x in s <==> x in s[..|s| - 1] || x == s[|s| - 1]
  {
    assert s == s[..|s| - 1] + [s[|s| - 1]];
  }

  /** Appending one list to the lists appends its elements. */
  lemma FlattenSnoc<T>(lists: seq<seq<T>>, last: seq<T>)
    ensures Flatten(lists + [last]) == Flatten(lists) + last
  {
    assert (lists + [last])[..|lists|] == lists;
  }

  /** Flattening distributes over concatenation, so elements keep their relative order. */
  lemma {:induction false} FlattenAppend<T>(a: seq<seq<T>>, b: seq<seq<T>>)
    ensures Flatten(a + b) == Flatten(a) + Flatten(b)
  {
    if b != [] {
      var n := |b| - 1;
      assert (a + b)[..|a + b| - 1] == a + b[..n];
      FlattenAppend(a, b[..n]);
    } else {
      assert a + b == a;
    }
  }

  /** Element `k` of the `i`-th list sits in the flattened list right after the elements of the lists before it. */
  lemma {:induction false} FlattenAt<T>(lists: seq<seq<T>>, i: nat, k: nat)
    requires i < |lists| && k < |lists[i]|
    ensures TotalCount(lists[..i]) + k < |Flatten(lists)|
    ensures Flatten(lists)[TotalCount(lists[..i]) + k] == lists[i][k]
  {
    assert lists == lists[..i] + [lists[i]] + lists[i + 1..];
    FlattenAppend(lists[..i] + [lists[i]], lists[i + 1..]);
    FlattenAppend(lists[..i], [lists[i]]);
    assert Flatten([lists[i]]) == Flatten([]) + lists[i];
    FlattenLength(lists[..i]);
  }

  /** When every list has `w` elements, the first `i` lists hold `w * i` elements. */
  lemma {:induction false} TotalCountUniform<T>(lists: seq<seq<T>>, w: nat, i: nat)
    requires i <= |lists|
    requires forall k :: 0 <= k < |lists| ==> |lists[k]| == w
    ensures TotalCount(lists[..i]) == w * i
  {
    if i > 0 {
      TotalCountUniform(lists, w, i - 1);
      assert lists[..i][..i - 1] == lists[..i - 1];
      assert w * i == w * (i - 1) + w;
    }
  }

  /** A duplicate-free sequence has as many elements as its set. */
  lemma {:induction false} DistinctCard<T>(s: seq<T>)
    requires NoDup(s)
    ensures |Elements(s)| == |s|
  {
    if s != [] {
      var n := |s| - 1;
      var init := s[..n];
      assert NoDup(init);
      DistinctCard(init);
      assert Elements(s) == Elements(init) + {s[n]} by {
        assert s == init + [s[n]];
      }
      assert s[n] !in Elements(init);
    }
  }

  /** Every enumeration of a set has the set's cardinality. */
  lemma EnumerationLength<T>(order: seq<T>, s: set<T>)
    requires IsEnumeration(order, s)
    ensures |order| == |s|
  {
    DistinctCard(order);
  }
}
