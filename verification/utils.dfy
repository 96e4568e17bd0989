/** Helpers of the engine: the central-difference tangent, the shifts
    between 0-based and 1-based numbering, a sort by key, helpers over an
    ordered dictionary of state blocks, a list comparison, and system
    copies for a list of states. */
module Utils {
  import opened LinAlg
  import opened Outcomes
  import opened BaseSystem

  function Abs(x: real): (a: real)
    ensures a >= 0.0 && (a == x || a == -x)
  {
    if x < 0.0 then -x else x
  }

  // ---------------------------------------------------------------------
  // get_numerical_tangent

  /** The perturbation of coordinate j: epsilon·(1 + |x_j|), never zero. */
  function Perturbation(epsilon: real, xj: real): (d: real)
    requires epsilon != 0.0
    ensures d != 0.0
  {
    var a := 1.0 + Abs(xj);
    assert a >= 1.0;
    assert epsilon * a != 0.0 by {
      if epsilon > 0.0 { assert epsilon * a >= epsilon * 1.0; } else { assert epsilon * a <= epsilon * 1.0; }
    }
    epsilon * a
  }

  /** Column j of the central-difference tangent:
      (R(x + d·e_j) − R(x − d·e_j)) / (2d), every other coordinate kept.
      None when the residual raised or does not have the length of x. */
  function CentralColumn(func: Vector -> Option<Vector>, x: Vector, epsilon: real, j: nat): (c: Option<Vector>)
    requires epsilon != 0.0 && j < |x|
    ensures c.Some? ==> |c.value| == |x|
  {
    var d := Perturbation(epsilon, x[j]);
    var r1 := func(x[j := x[j] + d]);
    var r2 := func(x[j := x[j] - d]);
    if r1.Some? && r2.Some? && |r1.value| == |x| && |r2.value| == |x| then
      Some(seq(|x|, i requires 0 <= i < |x| => (r1.value[i] - r2.value[i]) / (2.0 * d)))
    else None
  }

  /** The tangent get_numerical_tangent computes: an N×N matrix whose
      column j is CentralColumn j, N the length of the state. */
  function CentralDifferences(func: Vector -> Option<Vector>, x: Vector, epsilon: real): (t: Option<Matrix>)
    requires epsilon != 0.0
    ensures t.Some? <==> forall j :: 0 <= j < |x| ==> CentralColumn(func, x, epsilon, j).Some?
    ensures t.Some? ==> IsMatrix(t.value, |x|, |x|)
    ensures t.Some? ==> forall i, j :: 0 <= i < |x| && 0 <= j < |x| ==>
      t.value[i][j] == CentralColumn(func, x, epsilon, j).value[i]
  {
    var n := |x|;
    if forall j :: 0 <= j < n ==> CentralColumn(func, x, epsilon, j).Some? then
      Some(seq(n, i requires 0 <= i < n =>
        seq(n, j requires 0 <= j < n => CentralColumn(func, x, epsilon, j).value[i])))
    else None
  }

  /** One column's two residual evaluations, in place on the working copy:
      set x_j + d, evaluate, set x_j − d, evaluate, put x_j back. */
  method CentralPair(func: Vector -> Option<Vector>, state: array<real>, j: nat, delp: real)
      returns (r1: Option<Vector>, r2: Option<Vector>)
    requires j < state.Length
    modifies state
    ensures state[..] == old(state[..])
    ensures r1 == func(old(state[..])[j := old(state[j]) + delp])
    ensures r2 == func(old(state[..])[j := old(state[j]) - delp])
  {
    var xsave := state[j];
    state[j] := xsave + delp;
    assert state[..] == old(state[..])[j := xsave + delp];
    r1 := func(state[..]);
    state[j] := xsave - delp;
    assert state[..] == old(state[..])[j := xsave - delp];
    r2 := func(state[..]);
    state[j] := xsave;
    assert state[..] == old(state[..]);
  }

  /** tang_num[:, j] = column: only column j changes. */
  method FillColumn(tang: array2<real>, j: nat, column: Vector)
    requires j < tang.Length1 && |column| == tang.Length0
    modifies tang
    ensures forall i, c :: 0 <= i < tang.Length0 && 0 <= c < tang.Length1 ==>
      tang[i, c] == if c == j then column[i] else old(tang[i, c])
  {
    for i := 0 to tang.Length0
      invariant forall k, c :: 0 <= k < tang.Length0 && 0 <= c < tang.Length1 ==>
        tang[k, c] == if c == j && k < i then column[k] else old(tang[k, c])
    {
      tang[i, j] := column[i];
    }
  }

  /** get_numerical_tangent: perturbs a working copy of the state one
      coordinate at a time, restoring it after each column, and fills the
      columns of a zero matrix. The caller's state is a value and is never
      touched. */
  method NumericalTangent(func: Vector -> Option<Vector>, incrementingState: Vector, epsilon: real)
      returns (t: Option<Matrix>)
    requires epsilon != 0.0
    ensures t == CentralDifferences(func, incrementingState, epsilon)
  {
    var n := |incrementingState|;
    var state := new real[n](i requires 0 <= i < n => incrementingState[i]);
    var tang := new real[n, n]((i, j) => 0.0);
    for j := 0 to n
      invariant state[..] == incrementingState
      invariant forall c :: 0 <= c < j ==> CentralColumn(func, incrementingState, epsilon, c).Some?
      invariant forall i, c :: 0 <= i < n && 0 <= c < j ==>
        tang[i, c] == CentralColumn(func, incrementingState, epsilon, c).value[i]
    {
      var delp := Perturbation(epsilon, state[j]);
      var r1, r2 := CentralPair(func, state, j, delp);
      if r1.None? || r2.None? || |r1.value| != n || |r2.value| != n {
        assert CentralColumn(func, incrementingState, epsilon, j).None?;
        return None;
      }
      var column := seq(n, i requires 0 <= i < n => (r1.value[i] - r2.value[i]) / (2.0 * delp));
      assert CentralColumn(func, incrementingState, epsilon, j) == Some(column);
      FillColumn(tang, j, column);
    }
    var m := seq(n, i requires 0 <= i < n reads tang =>
      seq(n, c requires 0 <= c < n reads tang => tang[i, c]));
    ghost var expected := CentralDifferences(func, incrementingState, epsilon);
    assert expected.Some?;
    forall i | 0 <= i < n
      ensures m[i] == expected.value[i]
    {
      assert |m[i]| == |expected.value[i]|;
    }
    assert m == expected.value;
    t := Some(m);
  }

  /** For an affine residual R(x) = A·x + b the central difference is
      exact over the reals: the numerical tangent is A. */
  lemma AffineTangentExact(func: Vector -> Option<Vector>, a: Matrix, b: Vector, x: Vector, epsilon: real)
    requires epsilon != 0.0 && IsMatrix(a, |x|, |x|) && |b| == |x|
    requires forall v {:trigger func(v)} :: |v| == |x| ==> func(v) == Some(Add(MatVec(a, v), b))
    ensures CentralDifferences(func, x, epsilon) == Some(a)
  {
    var n := |x|;
    forall j | 0 <= j < n
      ensures CentralColumn(func, x, epsilon, j) == Some(Col(a, j))
    {
      AffineColumn(func, a, b, x, epsilon, j);
    }
    var t := CentralDifferences(func, x, epsilon);
    assert t.Some?;
    forall i | 0 <= i < n
      ensures t.value[i] == a[i]
    {
      forall j | 0 <= j < n
        ensures t.value[i][j] == a[i][j]
      {
        assert CentralColumn(func, x, epsilon, j).value == Col(a, j);
      }
      assert |t.value[i]| == |a[i]|;
    }
    assert |t.value| == |a|;
    assert t.value == a;
  }

  lemma AffineColumn(func: Vector -> Option<Vector>, a: Matrix, b: Vector, x: Vector, epsilon: real, j: nat)
    requires epsilon != 0.0 && IsMatrix(a, |x|, |x|) && |b| == |x| && j < |x|
    requires forall v {:trigger func(v)} :: |v| == |x| ==> func(v) == Some(Add(MatVec(a, v), b))
    ensures CentralColumn(func, x, epsilon, j) == Some(Col(a, j))
  {
    var n := |x|;
    var d := Perturbation(epsilon, x[j]);
    var up := x[j := x[j] + d];
    var down := x[j := x[j] - d];
    var r1 := Add(MatVec(a, up), b);
    var r2 := Add(MatVec(a, down), b);
    assert func(up) == Some(r1) && func(down) == Some(r2);
    forall i | 0 <= i < n
      ensures (r1[i] - r2[i]) / (2.0 * d) == a[i][j]
    {
      assert r1[i] - r2[i] == Dot(a[i], up) - Dot(a[i], down);
      RowQuotient(a[i], x, j, d);
    }
    var col := seq(n, i requires 0 <= i < n => (r1[i] - r2[i]) / (2.0 * d));
    assert col == Col(a, j);
    assert CentralColumn(func, x, epsilon, j) == Some(col);
  }

  /** The central quotient of one row's product is the row's entry j. */
  lemma RowQuotient(row: Vector, x: Vector, j: nat, d: real)
    requires |row| == |x| && j < |x| && d != 0.0
    ensures (Dot(row, x[j := x[j] + d]) - Dot(row, x[j := x[j] - d])) / (2.0 * d) == row[j]
  {
    RowDifference(row, x, j, d);
    HalfOfDouble(row[j], d);
  }

  /** Moving coordinate j by ±d moves a row's product by 2d times its entry j. */
  lemma RowDifference(row: Vector, x: Vector, j: nat, d: real)
    requires |row| == |x| && j < |x|
    ensures Dot(row, x[j := x[j] + d]) - Dot(row, x[j := x[j] - d]) == 2.0 * d * row[j]
  {
    DotUpdate(row, x, j, x[j] + d);
    DotUpdate(row, x, j, x[j] - d);
    assert row[j] * (x[j] + d - x[j]) == row[j] * d;
    assert row[j] * (x[j] - d - x[j]) == -(row[j] * d);
  }

  lemma HalfOfDouble(p: real, d: real)
    requires d != 0.0
    ensures (2.0 * d * p) / (2.0 * d) == p
  {
  }

  // ---------------------------------------------------------------------
  // Index shifts between Python (0-based) and literature (1-based) numbering.

  function ShiftIndexPythonToLiterature(index: int): int
  {
    index + 1
  }

  function ShiftIndexLiteratureToPython(index: int): int
  {
    index - 1
  }

  /** The two shifts are mutually inverse: an arithmetic fact about single
      indices; ShiftLinksRoundTrip states it for whole lists of links. */
  lemma ShiftRoundTrips(index: int)
    ensures ShiftIndexLiteratureToPython(ShiftIndexPythonToLiterature(index)) == index
    ensures ShiftIndexPythonToLiterature(ShiftIndexLiteratureToPython(index)) == index
  {
  }

  // ---------------------------------------------------------------------
  // sort_list_of_dicts_based_on_special_value: Python's stable `sorted`
  // with the entry under `key` as sort key.

  predicate SortedBy<T>(s: seq<T>, key: T -> int)
  {
    forall i, j :: 0 <= i < j < |s| ==> key(s[i]) <= key(s[j])
  }

  /** Insert `x` before the first element with a larger key. */
  function Insert<T>(x: T, s: seq<T>, key: T -> int): (r: seq<T>)
    requires SortedBy(s, key)
    ensures SortedBy(r, key) && multiset(r) == multiset(s) + multiset{x}
    ensures |r| == |s| + 1 && (r[0] == x || (|s| > 0 && r[0] == s[0]))
  {
    if |s| == 0 then [x]
    else if key(x) < key(s[0]) then [x] + s
    else
      var rest := Insert(x, s[1..], key);
      assert s == [s[0]] + s[1..];
      assert key(s[0]) <= key(rest[0]);
      [s[0]] + rest
  }

  function SortByKey<T>(s: seq<T>, key: T -> int): (r: seq<T>)
    ensures SortedBy(r, key) && multiset(r) == multiset(s)
  {
    if |s| == 0 then []
    else
      assert s == s[..|s| - 1] + [s[|s| - 1]];
      Insert(s[|s| - 1], SortByKey(s[..|s| - 1], key), key)
  }

  // ---------------------------------------------------------------------
  // An ordered dictionary of state blocks (the initial_state dict):
  // names with their entries, in insertion order.

  type Blocks = seq<(string, Vector)>

  /** get_nbr_elements_dict_list: the total entry count of the blocks. */
  function NbrElements(blocks: Blocks): (n: nat)
  {
    if |blocks| == 0 then 0 else |blocks[0].1| + NbrElements(blocks[1..])
  }

  /** get_keys_dict_list: the names in order. */
  function Keys(blocks: Blocks): (k: seq<string>)
    ensures |k| == |blocks| && forall i :: 0 <= i < |blocks| ==> k[i] == blocks[i].0
  {
    seq(|blocks|, i requires 0 <= i < |blocks| => blocks[i].0)
  }

  /** The blocks' entries concatenated in order (np.hstack of the values). */
  function Flatten(blocks: Blocks): (v: Vector)
  {
    if |blocks| == 0 then [] else blocks[0].1 + Flatten(blocks[1..])
  }

  /** The entry count is the length of the concatenated state. */
  lemma {:induction false} FlattenLength(blocks: Blocks)
    ensures |Flatten(blocks)| == NbrElements(blocks)
  {
    if |blocks| != 0 {
      FlattenLength(blocks[1..]);
    }
  }

  /** Appending a block adds its entries at the end. */
  lemma {:induction false} FlattenAppend(blocks: Blocks, name: string, entries: Vector)
    ensures Flatten(blocks + [(name, entries)]) == Flatten(blocks) + entries
    ensures NbrElements(blocks + [(name, entries)]) == NbrElements(blocks) + |entries|
  {
    if |blocks| != 0 {
      assert (blocks + [(name, entries)])[1..] == blocks[1..] + [(name, entries)];
      FlattenAppend(blocks[1..], name, entries);
    } else {
      assert Flatten([(name, entries)]) == entries + Flatten([]);
    }
  }

  // ---------------------------------------------------------------------
  // compare_string_lists

  /** repr of a list of strings: each entry in single quotes, separated by
      ", ", in brackets. */
  function StringListRepr(list: seq<string>): string
  {
    "[" + QuotedEntries(list) + "]"
  }

  function QuotedEntries(list: seq<string>): string
  {
    if |list| == 0 then ""
    else if |list| == 1 then "'" + list[0] + "'"
    else "'" + list[0] + "', " + QuotedEntries(list[1..])
  }

  /** compare_string_lists: nothing for equal lists, a PydykitException
      naming both lists otherwise. */
  function CompareStringLists(list1: seq<string>, list2: seq<string>): (o: Outcome)
    ensures o.Pass? <==> list1 == list2
    ensures o.Fail? ==>
      o.error == PydykitException(StringListRepr(list1) + " does not match " + StringListRepr(list2))
  {
    if list1 == list2 then Pass
    else Fail(PydykitException(StringListRepr(list1) + " does not match " + StringListRepr(list2)))
  }

  // ---------------------------------------------------------------------
  // get_system_copies_with_desired_states

  function SystemCopies<A>(sys: System<A>, states: seq<Vector>): (copies: seq<System<A>>)
    ensures |copies| == |states|
    ensures forall i :: 0 <= i < |states| ==> copies[i].state == states[i] && copies[i].attributes == sys.attributes
  {
    seq(|states|, i requires 0 <= i < |states| => Copy(sys, states[i]))
  }
}
