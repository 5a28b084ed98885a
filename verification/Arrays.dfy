/** Arrays: the prelude's ops on them, as functions on sequences and on HUGR values, and what the ops promise. */
module Arrays {
  import opened Values

  /** Sizes are kept in 32 bits, and pointer offsets in 32 signed bits. */
  const MaxSize: nat := 0x8000_0000

  datatype SetResult<+T> = SetFailure(value: T, array: seq<T>) | SetSuccess(old_: T, updated: seq<T>)
  datatype SwapResult<+T> = SwapFailure(array: seq<T>) | SwapSuccess(swapped: seq<T>)
  datatype PopResult<+T> = PopNone | PopSome(elem: T, rest: seq<T>)

  // ----- the ops on sequences -----

  function Get<T>(a: seq<T>, i: nat): Option<T> {
    if i < |a| then Some(a[i]) else None
  }

  function Set<T>(a: seq<T>, i: nat, v: T): SetResult<T> {
    if i < |a| then SetSuccess(a[i], a[i := v]) else SetFailure(v, a)
  }

  function Swap<T>(a: seq<T>, i: nat, j: nat): SwapResult<T> {
    if i < |a| && j < |a| then SwapSuccess(a[i := a[j]][j := a[i]]) else SwapFailure(a)
  }

  function Pop<T>(a: seq<T>, left: bool): PopResult<T> {
    if a == [] then PopNone
    else if left then PopSome(a[0], a[1..])
    else PopSome(a[|a| - 1], a[..|a| - 1])
  }

  // ----- the ops on HUGR values -----

  datatype ArrayOp = NewArray | GetOp | SetOp | SwapOp | PopOp(left: bool) | DiscardEmpty

  function Fewer(size: nat): nat {
    if size == 0 then 0 else size - 1
  }

  /** The variants of the sum an op returns, failure first; none for ops that return no sum. */
  function ArrayRows(op: ArrayOp, elem: Ty, size: nat): seq<Row> {
    match op
    case GetOp => [Row([]), Row([elem])]
    case SetOp => [Row([elem, Arr(size, elem)]), Row([elem, Arr(size, elem)])]
    case SwapOp => [Row([Arr(size, elem)]), Row([Arr(size, elem)])]
    case PopOp(_) => [Row([]), Row([elem, Arr(Fewer(size), elem)])]
    case _ => []
  }

  function ArrayIns(op: ArrayOp, elem: Ty, size: nat): seq<Ty> {
    match op
    case NewArray => seq(size, _ => elem)
    case GetOp => [Arr(size, elem), Usize]
    case SetOp => [Arr(size, elem), Usize, elem]
    case SwapOp => [Arr(size, elem), Usize, Usize]
    case PopOp(_) => [Arr(size, elem)]
    case DiscardEmpty => [Arr(0, elem)]
  }

  function ArrayOuts(op: ArrayOp, elem: Ty, size: nat): seq<Ty> {
    match op
    case NewArray => [Arr(size, elem)]
    case DiscardEmpty => []
    case _ => [Sum(ArrayRows(op, elem, size))]
  }

  predicate IsArr(v: Val, size: nat) {
    v.ArrV? && |v.elems| == size
  }

  predicate IsIndex(v: Val) {
    v.Prim? && v.n >= 0
  }

  /** What an op returns; nothing if its inputs are not arrays of its size and indices. */
  function ArraySem(op: ArrayOp, elem: Ty, size: nat, vs: seq<Val>): Option<seq<Val>> {
    var rows := ArrayRows(op, elem, size);
    match op
    case NewArray => if |vs| == size then Some([ArrV(vs)]) else None
    case GetOp =>
      if |vs| == 2 && IsArr(vs[0], size) && IsIndex(vs[1]) then
        match Get(vs[0].elems, vs[1].n)
        case Some(x) => Some([SumV(1, [x], rows)])
        case None => Some([SumV(0, [], rows)])
      else None
    case SetOp =>
      if |vs| == 3 && IsArr(vs[0], size) && IsIndex(vs[1]) then
        match Set(vs[0].elems, vs[1].n, vs[2])
        case SetSuccess(x, b) => Some([SumV(1, [x, ArrV(b)], rows)])
        case SetFailure(v, a) => Some([SumV(0, [v, ArrV(a)], rows)])
      else None
    case SwapOp =>
      if |vs| == 3 && IsArr(vs[0], size) && IsIndex(vs[1]) && IsIndex(vs[2]) then
        match Swap(vs[0].elems, vs[1].n, vs[2].n)
        case SwapSuccess(b) => Some([SumV(1, [ArrV(b)], rows)])
        case SwapFailure(a) => Some([SumV(0, [ArrV(a)], rows)])
      else None
    case PopOp(left) =>
      if |vs| == 1 && IsArr(vs[0], size) then
        match Pop(vs[0].elems, left)
        case PopSome(x, b) => Some([SumV(1, [x, ArrV(b)], rows)])
        case PopNone => Some([SumV(0, [], rows)])
      else None
    case DiscardEmpty => if |vs| == 1 && IsArr(vs[0], 0) then Some([]) else None
  }

  // ----- what the ops mean -----

  /** Getting after setting, at the same index and at others; setting fails exactly where getting does. */
  lemma SetThenGet<T>(a: seq<T>, i: nat, v: T, k: nat)
    ensures Set(a, i, v).SetSuccess? <==> Get(a, i).Some?
    ensures Set(a, i, v).SetSuccess? ==>
              && Get(a, i) == Some(Set(a, i, v).old_)
              && Get(Set(a, i, v).updated, k) == if k == i then Some(v) else Get(a, k)
    ensures !Set(a, i, v).SetSuccess? ==> Set(a, i, v) == SetFailure(v, a)
  {
  }

  /** Setting back what was there before restores the array. */
  lemma SetBack<T>(a: seq<T>, i: nat, v: T)
    requires Set(a, i, v).SetSuccess?
    ensures Set(Set(a, i, v).updated, i, Set(a, i, v).old_) == SetSuccess(v, a)
  {
    assert a[i := v][i := a[i]] == a;
  }

  /** Swapping permutes the array, exchanges the two elements and nothing else, and undoes itself; all of that also
      for equal indices. */
  lemma SwapIsTransposition<T>(a: seq<T>, i: nat, j: nat, k: nat)
    requires Swap(a, i, j).SwapSuccess?
    ensures var b := Swap(a, i, j).swapped;
      && multiset(b) == multiset(a)
      && Get(b, k) == Get(a, if k == i then j else if k == j then i else k)
      && Swap(b, i, j) == SwapSuccess(a) && Swap(b, j, i) == SwapSuccess(a)
      && (i == j ==> b == a)
  {
    var b := Swap(a, i, j).swapped;
    SwapPermutes(a, i, j);
    assert b[i := b[j]][j := b[i]] == a && b[j := b[i]][i := b[j]] == a;
  }

  lemma SwapPermutes<T>(a: seq<T>, i: nat, j: nat)
    requires i < |a| && j < |a|
    ensures multiset(a[i := a[j]][j := a[i]]) == multiset(a)
  {
    var b := a[i := a[j]];
    assert multiset(b) == multiset(a) - multiset{a[i]} + multiset{a[j]};
    assert multiset(b[j := a[i]]) == multiset(b) - multiset{b[j]} + multiset{a[i]};
  }

  // ----- popping from both ends -----

  /** What has been popped from the left, what remains, and what has been popped from the right, in order. */
  datatype Ends<+T> = Ends(left: seq<T>, rest: seq<T>, right: seq<T>)

  function PopAll<T>(e: Ends<T>, sides: seq<bool>): Ends<T>
    decreases sides
  {
    if sides == [] then e else
    match Pop(e.rest, sides[0])
    case PopNone => PopAll(e, sides[1..])
    case PopSome(elem, rest) =>
      PopAll(if sides[0] then Ends(e.left + [elem], rest, e.right) else Ends(e.left, rest, e.right + [elem]),
             sides[1..])
  }

  function Reversed<T>(a: seq<T>): (r: seq<T>)
    ensures |r| == |a|
  {
    if a == [] then [] else Reversed(a[1..]) + [a[0]]
  }

  function Whole<T>(e: Ends<T>): seq<T> {
    e.left + e.rest + Reversed(e.right)
  }

  lemma {:induction false} ReversedSnoc<T>(a: seq<T>, x: T)
    ensures Reversed(a + [x]) == [x] + Reversed(a)
  {
    if a == [] {
      assert [] + [x] == [x] && [x][1..] == [];
    } else {
      assert (a + [x])[1..] == a[1..] + [x];
      ReversedSnoc(a[1..], x);
    }
  }

  /** Whatever the interleaving of pops, nothing is lost, duplicated or reordered, and as many elements are popped as
      there are pops, until none remain. */
  lemma {:induction false} PopsConserve<T>(e: Ends<T>, sides: seq<bool>)
    ensures Whole(PopAll(e, sides)) == Whole(e)
    ensures |PopAll(e, sides).rest| == if |sides| <= |e.rest| then |e.rest| - |sides| else 0
    decreases sides
  {
    if sides != [] {
      match Pop(e.rest, sides[0]) {
        case PopNone => PopsConserve(e, sides[1..]);
        case PopSome(elem, rest) =>
          var e' := if sides[0] then Ends(e.left + [elem], rest, e.right) else Ends(e.left, rest, e.right + [elem]);
          if sides[0] {
            assert e.rest == [elem] + rest;
          } else {
            assert e.rest == rest + [elem];
            ReversedSnoc(e.right, elem);
          }
          assert Whole(e') == Whole(e);
          PopsConserve(e', sides[1..]);
      }
    }
  }

  /** The whole life of an array: popped left, what remains, and the right pops reversed make up the original. */
  lemma PopConservation<T>(a: seq<T>, sides: seq<bool>)
    ensures var e := PopAll(Ends([], a, []), sides); e.left + e.rest + Reversed(e.right) == a
    ensures a == [] ==> Pop(a, true) == PopNone && Pop(a, false) == PopNone
  {
    PopsConserve(Ends([], a, []), sides);
    assert [] + a + Reversed([]) == a;
  }
}
