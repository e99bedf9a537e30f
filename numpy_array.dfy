/** The Go side of the numpy helper package (numpy/array.go): counting the
    elements of a shape, the row-major walk over every coordinate tuple of
    a shape in IndexedValues, the flat walk of Values, and the choice of C
    accessor in getPtr. What the C side reads from memory is not part of
    the model; the walks are described by the tuples and offsets they
    visit. */
module NumpyArray {
  import opened Outcomes

  /* ----- shapes ----- */

  /** numpy never reports a negative extent. */
  predicate NonNegative(shape: seq<int>) {
    forall k :: 0 <= k < |shape| ==> shape[k] >= 0
  }

  predicate Positive(shape: seq<int>) {
    forall k :: 0 <= k < |shape| ==> shape[k] > 0
  }

  /** The number of elements of an array of this shape. */
  function Product(shape: seq<int>): int {
    if shape == [] then 1 else Product(shape[..|shape| - 1]) * shape[|shape| - 1]
  }

  /** A shape with a 0 in it has no element; any other has at least one. */
  lemma {:induction false} ProductSign(shape: seq<int>)
    requires NonNegative(shape)
    ensures Product(shape) >= 0
    ensures Product(shape) > 0 <==> Positive(shape)
  {
    if shape != [] {
      var n := |shape| - 1;
      ProductSign(shape[..n]);
      if Positive(shape[..n]) && shape[n] > 0 {
        forall k | 0 <= k < |shape| ensures shape[k] > 0 {
          if k < n {
            assert shape[..n][k] == shape[k];
          }
        }
      }
      if Positive(shape) {
        forall k | 0 <= k < n ensures shape[..n][k] > 0 {
        }
      }
    }
  }

  function Zeros(n: nat): (z: seq<int>)
    ensures |z| == n && forall k :: 0 <= k < n ==> z[k] == 0
  {
    seq(n, _ => 0)
  }

  /* ----- the n-th coordinate tuple in row-major order ----- */

  /** Coordinate tuple number n of the shape in row-major order: n written
      in the mixed radix given by the shape, the last coordinate the least
      significant digit. */
  function Coords(shape: seq<int>, n: nat): (c: seq<int>)
    requires Positive(shape)
    ensures |c| == |shape|
  {
    if shape == [] then []
    else
      var m := shape[|shape| - 1];
      Coords(shape[..|shape| - 1], n / m) + [n % m]
  }

  /** The coordinate tuple lies inside the shape. */
  predicate InBounds(shape: seq<int>, c: seq<int>) {
    |c| == |shape| && forall k :: 0 <= k < |c| ==> 0 <= c[k] < shape[k]
  }

  /** The row-major position of a coordinate tuple: the inverse of Coords. */
  function Index(shape: seq<int>, c: seq<int>): int
    requires |c| == |shape|
  {
    if shape == [] then 0
    else
      var n := |shape| - 1;
      Index(shape[..n], c[..n]) * shape[n] + c[n]
  }

  lemma {:induction false} MulAtLeast(d: int, m: int)
    requires m >= 0
    ensures d == 0 ==> d * m == 0
    ensures d >= 1 ==> d * m >= m
    ensures d <= -1 ==> d * m <= -m
    decreases if d < 0 then -d else d
  {
    if d > 1 {
      MulAtLeast(d - 1, m);
      assert d * m == (d - 1) * m + m;
    } else if d < -1 {
      MulAtLeast(d + 1, m);
      assert d * m == (d + 1) * m - m;
    }
  }

  /** Euclidean division recovers quotient and remainder. */
  lemma DivMod(q: int, m: int, r: int)
    requires m > 0 && 0 <= r < m
    ensures (q * m + r) / m == q && (q * m + r) % m == r
  {
    var x := q * m + r;
    var q', r' := x / m, x % m;
    assert x == q' * m + r';
    assert (q - q') * m == r' - r;
    MulAtLeast(q - q', m);
  }

  lemma DivBelow(n: nat, m: int, p: int)
    requires m > 0 && n < p * m
    ensures n / m < p
  {
    var q := n / m;
    assert q * m <= n;
    assert (p - q) * m == p * m - q * m;
    MulAtLeast(p - q, m);
  }

  lemma MulBelow(i: int, m: int, r: int, p: int)
    requires m > 0 && 0 <= r < m && i < p
    ensures i * m + r < p * m
  {
    assert (p - i) * m == p * m - i * m;
    MulAtLeast(p - i, m);
  }

  /** A shape with a tuple inside it has no 0 extent. */
  lemma InBoundsPositive(shape: seq<int>, c: seq<int>)
    requires InBounds(shape, c)
    ensures Positive(shape)
  {
    forall k | 0 <= k < |shape| ensures shape[k] > 0 {
      assert 0 <= c[k] < shape[k];
    }
  }

  /** Every tuple of positions 0 .. Product - 1 lies inside the shape. */
  lemma {:induction false} CoordsInBounds(shape: seq<int>, n: nat)
    requires Positive(shape) && n < Product(shape)
    ensures InBounds(shape, Coords(shape, n))
  {
    if shape != [] {
      var l := |shape| - 1;
      var m := shape[l];
      DivBelow(n, m, Product(shape[..l]));
      CoordsInBounds(shape[..l], n / m);
      var c := Coords(shape, n);
      assert c == Coords(shape[..l], n / m) + [n % m];
      forall k | 0 <= k < |c| ensures 0 <= c[k] < shape[k] {
        if k < l {
          assert c[k] == Coords(shape[..l], n / m)[k] && shape[k] == shape[..l][k];
        }
      }
    }
  }

  /** Index undoes Coords on the positions of the shape. */
  lemma {:induction false} IndexOfCoords(shape: seq<int>, n: nat)
    requires Positive(shape) && n < Product(shape)
    ensures Index(shape, Coords(shape, n)) == n
  {
    if shape != [] {
      var l := |shape| - 1;
      var m := shape[l];
      DivBelow(n, m, Product(shape[..l]));
      IndexOfCoords(shape[..l], n / m);
      var c := Coords(shape, n);
      assert c[..l] == Coords(shape[..l], n / m);
    }
  }

  /** Coords undoes Index on the tuples inside the shape, so the positions
      0 .. Product - 1 name every tuple of the shape exactly once. */
  lemma {:induction false} CoordsOfIndex(shape: seq<int>, c: seq<int>)
    requires Positive(shape) && InBounds(shape, c)
    ensures 0 <= Index(shape, c) < Product(shape)
    ensures Coords(shape, Index(shape, c)) == c
  {
    if shape != [] {
      var l := |shape| - 1;
      var m := shape[l];
      InBoundsFront(shape, c);
      CoordsOfIndex(shape[..l], c[..l]);
      var i := Index(shape[..l], c[..l]);
      LastDigit(i, m, c[l], Product(shape[..l]));
      assert Coords(shape, Index(shape, c)) == Coords(shape[..l], i) + [c[l]];
      assert c == c[..l] + [c[l]];
    }
  }

  /** Dropping the last coordinate keeps a tuple inside the shape. */
  lemma InBoundsFront(shape: seq<int>, c: seq<int>)
    requires InBounds(shape, c) && shape != []
    ensures InBounds(shape[..|shape| - 1], c[..|c| - 1])
  {
    var l := |shape| - 1;
    forall k | 0 <= k < l ensures 0 <= c[..l][k] < shape[..l][k] {
      assert c[..l][k] == c[k];
    }
  }

  /** Appending a digit r in radix m to a position below p gives a
      position below p * m whose last digit is r. */
  lemma LastDigit(i: int, m: int, r: int, p: int)
    requires m > 0 && 0 <= r < m && 0 <= i < p
    ensures 0 <= i * m + r < p * m
    ensures (i * m + r) / m == i && (i * m + r) % m == r
  {
    DivMod(i, m, r);
    MulBelow(i, m, r, p);
    MulAtLeast(i, m);
  }

  /** The walk starts at the all-zero tuple. */
  lemma {:induction false} CoordsOfZero(shape: seq<int>)
    requires Positive(shape)
    ensures Coords(shape, 0) == Zeros(|shape|)
  {
    if shape != [] {
      CoordsOfZero(shape[..|shape| - 1]);
    }
  }

  /* ----- the odometer step ----- */

  /** One step of the carry loop of IndexedValues (numpy/array.go:234-241):
      the last coordinate that can still grow grows by one, and every
      coordinate after it goes back to 0. */
  function Next(shape: seq<int>, c: seq<int>): (d: seq<int>)
    requires |c| == |shape|
    ensures |d| == |c|
  {
    if c == [] then []
    else
      var l := |c| - 1;
      if c[l] + 1 < shape[l] then c[..l] + [c[l] + 1]
      else Next(shape[..l], c[..l]) + [0]
  }

  /** Next on the first k + 1 coordinates, one coordinate at a time. */
  lemma NextUnfold(shape: seq<int>, c: seq<int>, k: nat)
    requires |c| == |shape| && k < |c|
    ensures Next(shape[..k + 1], c[..k + 1]) ==
      if c[k] + 1 < shape[k] then c[..k] + [c[k] + 1] else Next(shape[..k], c[..k]) + [0]
    ensures Zeros(|c| - k) == [0] + Zeros(|c| - k - 1)
  {
    assert shape[..k + 1][..k] == shape[..k] && c[..k + 1][..k] == c[..k];
  }

  /** The step moves tuple n to tuple n + 1: the odometer walks the shape in
      row-major order. */
  lemma {:induction false} NextIsSuccessor(shape: seq<int>, n: nat)
    requires Positive(shape) && n + 1 < Product(shape)
    ensures Next(shape, Coords(shape, n)) == Coords(shape, n + 1)
  {
    var l := |shape| - 1;
    var m := shape[l];
    var init := shape[..l];
    var q, r := n / m, n % m;
    SuccessorDigits(n, m);
    var c := Coords(shape, n);
    assert c[..l] == Coords(init, q) && c[l] == r;
    if r + 1 < m {
      assert Next(shape, c) == Coords(init, q) + [r + 1];
    } else {
      DivBelow(n + 1, m, Product(init));
      NextIsSuccessor(init, q);
      assert Next(shape, c) == Coords(init, q + 1) + [0];
    }
  }

  /** Adding one to n in radix m: the last digit grows, or it wraps to 0 and
      carries. */
  lemma SuccessorDigits(n: nat, m: int)
    requires m > 0
    ensures n % m + 1 < m ==> (n + 1) / m == n / m && (n + 1) % m == n % m + 1
    ensures n % m + 1 >= m ==> (n + 1) / m == n / m + 1 && (n + 1) % m == 0
  {
    var q, r := n / m, n % m;
    assert n + 1 == q * m + (r + 1);
    if r + 1 < m {
      DivMod(q, m, r + 1);
    } else {
      assert n + 1 == (q + 1) * m + 0;
      DivMod(q + 1, m, 0);
    }
  }

  /** After the last tuple the step wraps around to all zeros. */
  lemma {:induction false} NextWraps(shape: seq<int>)
    requires Positive(shape)
    ensures Product(shape) > 0
    ensures Next(shape, Coords(shape, Product(shape) - 1)) == Zeros(|shape|)
  {
    ProductSign(shape);
    if shape != [] {
      var l := |shape| - 1;
      var m := shape[l];
      var init := shape[..l];
      NextWraps(init);
      var p := Product(init);
      assert Product(shape) - 1 == (p - 1) * m + (m - 1);
      DivMod(p - 1, m, m - 1);
      var c := Coords(shape, Product(shape) - 1);
      assert c[..l] == Coords(init, p - 1) && c[l] == m - 1;
      assert Next(shape, c) == Zeros(l) + [0];
    }
  }

  /** Row-major order: `c` comes before `d` when they agree up to some
      coordinate and `c` is smaller there. */
  predicate LexLess(c: seq<int>, d: seq<int>) {
    |c| == |d| && exists k :: 0 <= k < |c| && c[..k] == d[..k] && c[k] < d[k]
  }

  lemma LexExtend(c: seq<int>, d: seq<int>, x: int, y: int)
    requires |c| == |d| && (LexLess(c, d) || (c == d && x < y))
    ensures LexLess(c + [x], d + [y])
  {
    if LexLess(c, d) {
      var k :| 0 <= k < |c| && c[..k] == d[..k] && c[k] < d[k];
      assert (c + [x])[..k] == c[..k] && (d + [y])[..k] == d[..k];
      assert (c + [x])[k] == c[k] && (d + [y])[k] == d[k];
    } else {
      assert (c + [x])[..|c|] == c && (d + [y])[..|d|] == d;
    }
  }

  /** Later positions give later tuples: the walk is strictly increasing in
      row-major order, so no tuple is visited twice. */
  lemma {:induction false} CoordsIncreasing(shape: seq<int>, n: nat, n': nat)
    requires Positive(shape) && n < n' < Product(shape)
    ensures LexLess(Coords(shape, n), Coords(shape, n'))
  {
    var l := |shape| - 1;
    var m := shape[l];
    var init := shape[..l];
    var q, q' := n / m, n' / m;
    DivBelow(n', m, Product(init));
    DigitsOrdered(n, n', m);
    if q < q' {
      CoordsIncreasing(init, q, q');
    }
    assert Coords(shape, n) == Coords(init, q) + [n % m];
    assert Coords(shape, n') == Coords(init, q') + [n' % m];
    LexExtend(Coords(init, q), Coords(init, q'), n % m, n' % m);
  }

  /** In radix m, a smaller number has a smaller quotient, or the same
      quotient and a smaller remainder. */
  lemma DigitsOrdered(n: nat, n': nat, m: int)
    requires m > 0 && n < n'
    ensures n / m < n' / m || (n / m == n' / m && n % m < n' % m)
  {
    var q, q' := n / m, n' / m;
    assert (q - q') * m == (n - n % m) - (n' - n' % m);
    MulAtLeast(q - q', m);
  }

  /* ----- counting and stopping ----- */

  /** The loop computing nitems / remaining (numpy/array.go:204-207,
      221-224). */
  method CountItems(shape: seq<int>) returns (n: int)
    requires NonNegative(shape)
    ensures n == Product(shape) && n >= 0
    ensures n > 0 <==> Positive(shape)
  {
    n := 1;
    var i := 0;
    while i < |shape|
      invariant 0 <= i <= |shape|
      invariant n == Product(shape[..i])
    {
      assert shape[..i + 1][..i] == shape[..i];
      n := n * shape[i];
      i := i + 1;
    }
    assert shape[..|shape|] == shape;
    ProductSign(shape);
  }

  /** A walk offered `avail` items to a consumer whose answer to its n-th
      yield is keepGoing(n), and made `count` yields: it went on after each
      yield but the last, and it stopped early only because the last
      yield answered false (numpy/array.go:212-214, 230-232). */
  predicate YieldCount(keepGoing: nat -> bool, count: nat, avail: int) {
    && count <= avail
    && (forall n: nat :: n + 1 < count ==> keepGoing(n))
    && (count < avail ==> count > 0 && !keepGoing(count - 1))
  }

  /** The number of yields is determined by the consumer. */
  lemma YieldCountUnique(keepGoing: nat -> bool, c1: nat, c2: nat, avail: int)
    requires YieldCount(keepGoing, c1, avail) && YieldCount(keepGoing, c2, avail)
    ensures c1 == c2
  {
  }

  /** A consumer that never stops sees every item. */
  lemma YieldCountAll(keepGoing: nat -> bool, count: nat, avail: int)
    requires avail >= 0 && YieldCount(keepGoing, count, avail)
    requires forall n: nat :: keepGoing(n)
    ensures count == avail
  {
  }

  /** The number of items a walk moved past: the item whose yield answered
      false is not. */
  function Advanced(keepGoing: nat -> bool, count: nat): (a: nat)
    ensures a <= count
    ensures count > 0 ==> (a == count <==> keepGoing(count - 1))
  {
    if count > 0 && !keepGoing(count - 1) then count - 1 else count
  }

  /* ----- IndexedValues ----- */

  /** The iterator IndexedValues returns (numpy/array.go:219-245). Its
      closure captures `coords` and `remaining`, so the state survives from
      one range loop over it to the next: a loop that stops early leaves the
      next one to start again at the tuple it stopped on, and a loop that
      ran to the end leaves nothing for the next one. `produced` counts the
      tuples moved past so far. */
  class IndexedValues {
    const shape: seq<int>
    const coords: array<int>
    var remaining: int
    ghost var produced: nat

    ghost predicate Valid()
      reads this, coords
    {
      && coords.Length == |shape|
      && NonNegative(shape)
      && remaining >= 0
      && produced + remaining == Product(shape)
      && (remaining > 0 ==> Positive(shape) && coords[..] == Coords(shape, produced))
    }

    /** numpy/array.go:220-226: count the tuples and start at all zeros. */
    constructor (shape: seq<int>)
      requires NonNegative(shape)
      ensures Valid() && fresh(coords)
      ensures this.shape == shape && remaining == Product(shape) && produced == 0
      ensures coords[..] == Zeros(|shape|)
    {
      var n := CountItems(shape);
      this.shape := shape;
      remaining := n;
      produced := 0;
      coords := new int[|shape|](_ => 0);
      new;
      assert coords[..] == Zeros(|shape|);
      if n > 0 {
        CoordsOfZero(shape);
      }
    }

    /** The carry loop of numpy/array.go:234-241. */
    method Advance()
      requires coords.Length == |shape|
      modifies coords
      ensures coords[..] == Next(shape, old(coords[..]))
    {
      ghost var c := coords[..];
      var k := coords.Length - 1;
      assert shape[..k + 1] == shape && c[..k + 1] == c;
      while k >= 0
        invariant -1 <= k < coords.Length
        invariant coords[..k + 1] == c[..k + 1]
        invariant coords[k + 1..] == Zeros(coords.Length - k - 1)
        invariant Next(shape, c) == Next(shape[..k + 1], c[..k + 1]) + Zeros(coords.Length - k - 1)
      {
        NextUnfold(shape, c, k);
        if coords[k] + 1 < shape[k] {
          assert coords[k] == c[k];
          coords[k] := coords[k] + 1;
          assert coords[..] == coords[..k + 1] + coords[k + 1..];
          return;
        }
        coords[k] := 0;
        assert coords[k..] == [0] + coords[k + 1..];
        k := k - 1;
      }
      assert coords[..] == coords[0..];
    }

    /** One range loop over the iterator (numpy/array.go:228-244): yield the
        current tuple while some remain, stop when the yield answers false,
        otherwise step to the next tuple. `trace` holds the tuples yielded,
        as they were when yielded; keepGoing(n) is the answer to the n-th
        yield of this loop. */
    method Iterate(keepGoing: nat -> bool) returns (trace: seq<seq<int>>)
      requires Valid()
      modifies this, coords
      ensures Valid()
      ensures YieldCount(keepGoing, |trace|, old(remaining))
      ensures |trace| > 0 ==> Positive(shape)
      ensures forall n :: 0 <= n < |trace| ==> trace[n] == Coords(shape, old(produced) + n)
      ensures produced == old(produced) + Advanced(keepGoing, |trace|)
      ensures remaining == old(remaining) - Advanced(keepGoing, |trace|)
    {
      trace := [];
      ghost var start, avail := produced, remaining;
      while remaining > 0
        invariant Valid()
        invariant produced == start + |trace| && remaining == avail - |trace|
        invariant forall n: nat :: n < |trace| ==> keepGoing(n)
        invariant |trace| > 0 ==> Positive(shape)
        invariant forall n :: 0 <= n < |trace| ==> trace[n] == Coords(shape, start + n)
        decreases remaining
      {
        trace := trace + [coords[..]];
        if !keepGoing(|trace| - 1) {
          return;
        }
        Step();
      }
    }

    /** Move past the current tuple (numpy/array.go:234-242). */
    method Step()
      requires Valid() && remaining > 0
      modifies this, coords
      ensures Valid()
      ensures produced == old(produced) + 1 && remaining == old(remaining) - 1
    {
      if remaining > 1 {
        NextIsSuccessor(shape, produced);
      }
      Advance();
      remaining := remaining - 1;
      produced := produced + 1;
    }
  }

  /** A fresh iterator over a shape, looped over to the end, yields Product
      tuples, which are every tuple inside the shape, each once, in
      row-major order. */
  method IterateAll(shape: seq<int>) returns (trace: seq<seq<int>>)
    requires NonNegative(shape)
    ensures |trace| == Product(shape)
    ensures forall n :: 0 <= n < |trace| ==> InBounds(shape, trace[n])
    ensures forall n, n' :: 0 <= n < n' < |trace| ==> LexLess(trace[n], trace[n'])
    ensures forall c :: InBounds(shape, c) ==> c in trace
  {
    var it := new IndexedValues(shape);
    var always := (n: nat) => true;
    trace := it.Iterate(always);
    YieldCountAll(always, |trace|, Product(shape));
    AllCoordsEnumerated(shape, trace);
  }

  /** The tuples Coords(shape, 0), ..., Coords(shape, Product(shape) - 1)
      are every tuple inside the shape, each once, in row-major order. */
  lemma AllCoordsEnumerated(shape: seq<int>, trace: seq<seq<int>>)
    requires NonNegative(shape) && |trace| == Product(shape)
    requires |trace| > 0 ==> Positive(shape)
    requires forall n :: 0 <= n < |trace| ==> trace[n] == Coords(shape, n)
    ensures forall n :: 0 <= n < |trace| ==> InBounds(shape, trace[n])
    ensures forall n, n' :: 0 <= n < n' < |trace| ==> LexLess(trace[n], trace[n'])
    ensures forall c :: InBounds(shape, c) ==> c in trace
  {
    forall n | 0 <= n < |trace| ensures InBounds(shape, trace[n]) {
      CoordsInBounds(shape, n);
    }
    forall n, n' | 0 <= n < n' < |trace| ensures LexLess(trace[n], trace[n']) {
      CoordsIncreasing(shape, n, n');
    }
    forall c | InBounds(shape, c) ensures c in trace {
      InBoundsPositive(shape, c);
      CoordsOfIndex(shape, c);
      assert trace[Index(shape, c)] == c;
    }
  }

  /* ----- Values ----- */

  /** The walk of Values over the flat buffer (numpy/array.go:203-216):
      item i is read at byte offset i * itemsize, for i from 0 up to the
      number of items, until the yield answers false. `offsets` holds the
      offsets yielded. */
  method Values(shape: seq<int>, itemsize: nat, keepGoing: nat -> bool) returns (offsets: seq<int>)
    requires NonNegative(shape)
    ensures YieldCount(keepGoing, |offsets|, Product(shape))
    ensures forall n :: 0 <= n < |offsets| ==> offsets[n] == n * itemsize
  {
    var nitems := CountItems(shape);
    offsets := [];
    var i := 0;
    while i < nitems
      invariant 0 <= i <= nitems && |offsets| == i
      invariant forall n: nat :: n < i ==> keepGoing(n)
      invariant forall n :: 0 <= n < i ==> offsets[n] == n * itemsize
    {
      offsets := offsets + [i * itemsize];
      if !keepGoing(i) {
        return;
      }
      i := i + 1;
    }
  }

  /* ----- getPtr ----- */

  /** The C helper getPtr calls and the indices it hands over
      (numpy/array.go:21-45). */
  datatype Accessor =
    | GetPtr1(i: int)
    | GetPtr2(i: int, j: int)
    | GetPtr3(i: int, j: int, k: int)
    | GetPtr4(i: int, j: int, k: int, l: int)
    | GetPtrN(idxs: seq<int>)

  /** The indices the accessor addresses the element with. */
  function Indices(a: Accessor): seq<int> {
    match a
    case GetPtr1(i) => [i]
    case GetPtr2(i, j) => [i, j]
    case GetPtr3(i, j, k) => [i, j, k]
    case GetPtr4(i, j, k, l) => [i, j, k, l]
    case GetPtrN(idxs) => idxs
  }

  /** Go's conversion C.int(x): the low 32 bits, two's complement. */
  function CInt(x: int): (r: int)
    ensures -0x8000_0000 <= r < 0x8000_0000
    ensures (x - r) % 0x1_0000_0000 == 0
    ensures -0x8000_0000 <= x < 0x8000_0000 ==> r == x
  {
    var low := x % 0x1_0000_0000;
    if low < 0x8000_0000 then low else low - 0x1_0000_0000
  }

  function CInts(idxs: seq<int>): (r: seq<int>)
    ensures |r| == |idxs| && forall k :: 0 <= k < |idxs| ==> r[k] == CInt(idxs[k])
  {
    seq(|idxs|, k requires 0 <= k < |idxs| => CInt(idxs[k]))
  }

  /** getPtr as written (numpy/array.go:160-177): the 4-D branch reads
      idxs[4] of a 4-element slice, and the default branch takes &idxs[0],
      which for a 0-D array is an empty slice; both are run-time panics. */
  function GetPtrAsWritten(dims: int, idxs: seq<int>): (r: Result<Accessor>)
    ensures !r.Err?
    ensures |idxs| != dims ==> r == Fatal("invalid indexing")
  {
    if |idxs| != dims then Fatal("invalid indexing")
    else if dims == 1 then Ok(GetPtr1(CInt(idxs[0])))
    else if dims == 2 then Ok(GetPtr2(CInt(idxs[0]), CInt(idxs[1])))
    else if dims == 3 then Ok(GetPtr3(CInt(idxs[0]), CInt(idxs[1]), CInt(idxs[2])))
    else if dims == 4 then Fatal("runtime error: index out of range [4] with length 4")
    else if |idxs| == 0 then Fatal("runtime error: index out of range [0] with length 0")
    else Ok(GetPtrN(idxs))
  }

  /** getPtr as intended: the 4-D branch passes idxs[3], and a 0-D array
      reaches PyArrayGETPTRN, which reads no index. */
  function GetPtr(dims: int, idxs: seq<int>): (r: Result<Accessor>)
    ensures !r.Err?
    ensures r.Ok? <==> |idxs| == dims
    ensures !r.Ok? ==> r.msg == "invalid indexing"
    ensures r.Ok? ==> Indices(r.value) == if 1 <= dims <= 4 then CInts(idxs) else idxs
  {
    if |idxs| != dims then Fatal("invalid indexing")
    else if dims == 1 then Ok(GetPtr1(CInt(idxs[0])))
    else if dims == 2 then Ok(GetPtr2(CInt(idxs[0]), CInt(idxs[1])))
    else if dims == 3 then Ok(GetPtr3(CInt(idxs[0]), CInt(idxs[1]), CInt(idxs[2])))
    else if dims == 4 then Ok(GetPtr4(CInt(idxs[0]), CInt(idxs[1]), CInt(idxs[2]), CInt(idxs[3])))
    else Ok(GetPtrN(idxs))
  }

  /** Indices that fit in a C int reach the C side unchanged. */
  lemma GetPtrExact(dims: int, idxs: seq<int>)
    requires |idxs| == dims
    requires forall k :: 0 <= k < |idxs| ==> -0x8000_0000 <= idxs[k] < 0x8000_0000
    ensures GetPtr(dims, idxs).Ok? && Indices(GetPtr(dims, idxs).value) == idxs
  {
  }

  /** The two versions differ exactly on 0-D and 4-D arrays, where the
      written one panics on every index list of the right length. */
  lemma GetPtrAsWrittenDiffers(dims: int, idxs: seq<int>)
    ensures dims != 0 && dims != 4 ==> GetPtrAsWritten(dims, idxs) == GetPtr(dims, idxs)
    ensures (dims == 0 || dims == 4) && |idxs| == dims ==> GetPtrAsWritten(dims, idxs).Fatal? && GetPtr(dims, idxs).Ok?
  {
  }

  /** So IndexedValues as written panics on the first element of every
      non-empty 0-D or 4-D array, where At(coords...) reaches getPtr. */
  lemma IndexedValuesPanicsAsWritten(shape: seq<int>)
    requires Positive(shape) && (|shape| == 0 || |shape| == 4)
    ensures GetPtrAsWritten(|shape|, Coords(shape, 0)).Fatal?
    ensures GetPtr(|shape|, Coords(shape, 0)).Ok?
  {
  }

  /** With the intended getPtr every tuple IndexedValues yields addresses
      its element, when the extents fit in a C int. */
  lemma IndexedValuesAddressable(shape: seq<int>, n: nat)
    requires Positive(shape) && n < Product(shape)
    requires forall k :: 0 <= k < |shape| ==> shape[k] <= 0x8000_0000
    ensures GetPtr(|shape|, Coords(shape, n)).Ok?
    ensures Indices(GetPtr(|shape|, Coords(shape, n)).value) == Coords(shape, n)
  {
    CoordsInBounds(shape, n);
    GetPtrExact(|shape|, Coords(shape, n));
  }
}
