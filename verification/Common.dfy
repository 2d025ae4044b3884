/** Small definitions shared by the models. */
module Common {
  datatype Option<+T> = None | Some(value: T)

  type VmId = nat

  /** The context id that the host gives to a stream. */
  type StreamId = nat

  datatype Header = Header(name: string, value: string)

  function Last<T>(s: seq<T>): T
    requires s != []
  {
    s[|s| - 1]
  }

  function Front<T>(s: seq<T>): seq<T>
    requires s != []
  {
    s[..|s| - 1]
  }

  predicate NoDuplicates<T(==)>(s: seq<T>) {
    forall i, j :: 0 <= i < j < |s| ==> s[i] != s[j]
  }

  lemma NoDuplicatesConcat<T>(a: seq<T>, b: seq<T>)
    requires NoDuplicates(a) && NoDuplicates(b)
    requires forall x :: x in a ==> x !in b
    ensures NoDuplicates(a + b)
  {
    var c := a + b;
    forall i, j | 0 <= i < j < |c|
      ensures c[i] != c[j]
    {
      if i < |a| <= j {
        assert a[i] in a && b[j - |a|] in b;
      }
    }
  }

  /** The positions of the elements that have a property. */
  ghost function Where<T>(s: seq<T>, p: T -> bool): set<nat> {
    set i: nat | i < |s| && p(s[i])
  }

  ghost function Elements<T>(s: seq<T>): set<T> {
    set x | x in s
  }

  ghost predicate Ascending(at: seq<nat>) {
    forall k, l :: 0 <= k < l < |at| ==> at[k] < at[l]
  }

  /** `at` lists exactly the positions of the elements that have a property, in increasing order. */
  ghost predicate Picks<T>(at: seq<nat>, s: seq<T>, p: T -> bool) {
    && Ascending(at)
    && Elements(at) == Where(s, p)
    && forall k :: 0 <= k < |at| ==> at[k] < |s|
  }

  lemma WhereSnoc<T>(s: seq<T>, x: T, p: T -> bool)
    ensures Where(s + [x], p) == Where(s, p) + if p(x) then {|s|} else {}
  {
    assert forall i :: 0 <= i < |s| ==> (s + [x])[i] == s[i];
  }

  /** What one more element does to the positions. */
  lemma PicksSnoc<T>(at: seq<nat>, s: seq<T>, x: T, p: T -> bool)
    requires Picks(at, s, p)
    ensures Picks(if p(x) then at + [|s|] else at, s + [x], p)
  {
    WhereSnoc(s, x, p);
    assert Elements(at + [|s|]) == Elements(at) + {|s|};
  }

  /** The elements that have a property, in order. */
  function Picked<T>(s: seq<T>, p: T -> bool): seq<T> {
    if s == [] then [] else Picked(Front(s), p) + if p(Last(s)) then [Last(s)] else []
  }

  ghost predicate ElementsAt<T>(picked: seq<T>, s: seq<T>, at: seq<nat>) {
    |picked| == |at| && forall k :: 0 <= k < |at| ==> at[k] < |s| && picked[k] == s[at[k]]
  }

  lemma {:induction false} PickedInOrder<T>(s: seq<T>, p: T -> bool) returns (at: seq<nat>)
    ensures Picks(at, s, p) && ElementsAt(Picked(s, p), s, at)
  {
    if s == [] {
      at := [];
      assert Elements(at) == Where(s, p);
    } else {
      at := PickedInOrder(Front(s), p);
      assert s == Front(s) + [Last(s)];
      PicksSnoc(at, Front(s), Last(s), p);
      if p(Last(s)) {
        at := at + [|s| - 1];
      }
    }
  }

  function Flatten<T>(ss: seq<seq<T>>): seq<T> {
    if ss == [] then [] else Flatten(Front(ss)) + Last(ss)
  }

  lemma FlattenSnoc<T>(ss: seq<seq<T>>, s: seq<T>)
    ensures Flatten(ss + [s]) == Flatten(ss) + s
  {
    assert Front(ss + [s]) == ss;
  }

  /** Some order in which the elements of a finite set can be visited. */
  lemma {:induction false} Enumerate<T>(elements: set<T>) returns (order: seq<T>)
    ensures NoDuplicates(order)
    ensures forall x :: x in order <==> x in elements
    decreases |elements|
  {
    if elements == {} {
      order := [];
    } else {
      var x :| x in elements;
      var rest := Enumerate(elements - {x});
      order := rest + [x];
    }
  }
}
