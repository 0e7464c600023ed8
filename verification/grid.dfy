/**
 * `traverseGrid(size, callback)` (src/index.ts): a boustrophedon walk over a `size` by
 * `size` torus. Column `i` is walked North when `i` is even and South when it is odd,
 * `size - 1` moves, then one move East; before each move the callback's values for the
 * current square are emitted. An odd size walks every column twice, so that the walk
 * comes back to `(0, 0)`.
 *
 * The walk is specified by a closed form: visit `j` of column `i` is at
 * `(X(size, i), Y(size, i, j))` and moves in direction `Dir(size, i, j)`. The method
 * computes positions as the source does, by moving and reducing modulo `size`.
 */
module Grid {
  import opened Strings
  import opened PythonPrint

  datatype Direction = North | East | South | West

  /** The value of `Directions` for a direction. */
  function DirectionName(d: Direction): string
  {
    match d
    case North => "North"
    case East => "East"
    case South => "South"
    case West => "West"
  }

  /** `move(direction)` from src/types/methods.ts: a call of `move` returning `bool`. */
  function MoveCall(d: Direction): PyValue
  {
    Call("move", [PyStr(DirectionName(d))], "bool")
  }

  /** JavaScript's `%`: the remainder takes the sign of the dividend. */
  function JsRem(a: int, b: int): (r: int)
    requires b > 0
    ensures a >= 0 ==> r == a % b
    ensures a < 0 ==> -b < r <= 0
  {
    if a >= 0 then a % b else -((-a) % b)
  }

  /** The move of the `move` closure: one step in the direction, then `(c + size) % size` on both coordinates. */
  function Step(size: int, x: int, y: int, d: Direction): (int, int)
    requires size > 0
  {
    var (nx, ny) := match d
      case North => (x, y + 1)
      case East => (x + 1, y)
      case South => (x, y - 1)
      case West => (x - 1, y);
    (JsRem(nx + size, size), JsRem(ny + size, size))
  }

  /** `size % 2 === 1 ? 2 * size : size` */
  function Easts(size: int): int
  {
    if JsRem(size, 2) == 1 then 2 * size else size
  }

  // ---- the closed form ----

  /** The column of the `i`-th pass. */
  function X(size: int, i: nat): int
    requires size > 0
  {
    i % size
  }

  /** The row of visit `j` of pass `i`: upwards on even passes, downwards on odd ones. */
  function Y(size: int, i: nat, j: nat): int
  {
    if i % 2 == 0 then j else size - 1 - j
  }

  /** The move after visit `j` of pass `i`: along the column, and East after the last square. */
  function Dir(size: int, i: nat, j: nat): Direction
  {
    if j < size - 1 then (if i % 2 == 0 then North else South) else East
  }

  /** What one visit emits: the callback's values for the square, then the move. */
  function Visit(size: int, callback: (int, int) -> seq<PyValue>, i: nat, j: nat): seq<PyValue>
    requires size > 0
  {
    callback(X(size, i), Y(size, i, j)) + [MoveCall(Dir(size, i, j))]
  }

  /** The first `n` visits of pass `i`. */
  function Column(size: int, callback: (int, int) -> seq<PyValue>, i: nat, n: nat): seq<PyValue>
    requires size > 0
  {
    if n == 0 then [] else Column(size, callback, i, n - 1) + Visit(size, callback, i, n - 1)
  }

  /** The first `m` passes, each of `size` visits. */
  function Columns(size: int, callback: (int, int) -> seq<PyValue>, m: nat): seq<PyValue>
    requires size > 0
  {
    if m == 0 then [] else Columns(size, callback, m - 1) + Column(size, callback, m - 1, size)
  }

  /** What `traverseGrid` returns. */
  function Walk(size: int, callback: (int, int) -> seq<PyValue>): seq<PyValue>
  {
    if size <= 0 then [] else Columns(size, callback, Easts(size))
  }

  // ---- properties of the closed form ----

  /** Along a pass, the move the source makes lands on the next visit of the pass. */
  lemma StepAlong(size: int, i: nat, j: nat)
    requires size > 0 && j < size - 1
    ensures Step(size, X(size, i), Y(size, i, j), Dir(size, i, j)) == (X(size, i), Y(size, i, j + 1))
  {
    var x, y := X(size, i), Y(size, i, j);
    ShiftedMod(x, size);
    if i % 2 == 0 {
      ShiftedMod(y + 1, size);
    } else {
      ShiftedMod(y - 1, size);
    }
  }

  /** After the last visit of a pass, the move East lands on the first visit of the next pass. */
  lemma StepAcross(size: int, i: nat)
    requires size > 0
    ensures Dir(size, i, size - 1) == East
    ensures Step(size, X(size, i), Y(size, i, size - 1), East) == (X(size, i + 1), Y(size, i + 1, 0))
  {
    ShiftedMod(Y(size, i, size - 1), size);
    NextColumn(size, i);
  }

  /** Moving East from column `i % size` reaches column `(i + 1) % size`. */
  lemma NextColumn(size: int, i: nat)
    requires size > 0
    ensures (X(size, i) + 1 + size) % size == X(size, i + 1)
  {
    var x, q := i % size, i / size;
    DivUnique(i, size, q, x);
    if x + 1 < size {
      ShiftedMod(x + 1, size);
      DivUnique(i + 1, size, q, x + 1);
    } else {
      DivUnique(x + 1 + size, size, 2, 0);
      MulSucc(size, q);
      DivUnique(i + 1, size, q + 1, 0);
    }
  }

  lemma MulSucc(b: int, q: int)
    ensures b * (q + 1) == b * q + b
  {
  }

  /** `(v + size) % size == v` for a coordinate in range. */
  lemma ShiftedMod(v: int, size: int)
    requires 0 <= v < size
    ensures (v + size) % size == v
  {
    DivUnique(v + size, size, 1, v);
  }

  /** Division by a positive number has one quotient and one remainder. */
  lemma DivUnique(a: int, b: int, q: int, r: int)
    requires b > 0 && 0 <= r < b && a == b * q + r
    ensures a / b == q && a % b == r
  {
    var q0, r0 := a / b, a % b;
    assert b * (q - q0) == r0 - r;
    if q > q0 {
      MulAtLeast(b, q - q0);
    } else if q < q0 {
      MulAtLeast(b, q0 - q);
    }
  }

  lemma MulAtLeast(b: int, k: int)
    requires b > 0 && k >= 1
    ensures b * k >= b
  {
  }

  /** One more visit extends the pass. */
  lemma Extend(prefix: seq<PyValue>, size: int, callback: (int, int) -> seq<PyValue>, i: nat, j: nat)
    requires size > 0
    ensures prefix + Column(size, callback, i, j) + callback(X(size, i), Y(size, i, j)) + [MoveCall(Dir(size, i, j))]
      == prefix + Column(size, callback, i, j + 1)
  {
    assert Column(size, callback, i, j + 1) == Column(size, callback, i, j) + Visit(size, callback, i, j);
  }

  /** The callback only ever sees squares of the grid. */
  lemma InRange(size: int, i: nat, j: nat)
    requires size > 0 && j < size
    ensures 0 <= X(size, i) < size && 0 <= Y(size, i, j) < size
  {
  }

  /**
   * `easts` passes bring the walk back to `(0, 0)`: the number is a positive multiple of
   * `size` and even, and no smaller positive multiple of `size` is even.
   */
  lemma EastsClosesWalk(size: int)
    requires size > 0
    ensures Easts(size) > 0 && Easts(size) % size == 0 && Easts(size) % 2 == 0
    ensures forall k: int :: 0 < k && (k * size) % 2 == 0 ==> Easts(size) <= k * size
    ensures X(size, Easts(size)) == 0 && Y(size, Easts(size), 0) == 0
  {
    if size % 2 == 1 {
      DivUnique(2 * size, size, 2, 0);
      forall k: int | 0 < k && (k * size) % 2 == 0 ensures 2 * size <= k * size {
        if k >= 2 {
          MulMono(k, size);
        }
      }
    } else {
      DivUnique(size, size, 1, 0);
      forall k: int | 0 < k && (k * size) % 2 == 0 ensures size <= k * size {
        MulAtLeast(size, k);
      }
    }
  }

  lemma MulMono(k: int, size: int)
    requires k >= 2 && size > 0
    ensures k * size >= 2 * size
  {
  }

  /** With a callback that emits `c` values per square, each pass emits `size * (c + 1)` values. */
  lemma {:induction false} ColumnLength(size: int, callback: (int, int) -> seq<PyValue>, c: nat, i: nat, n: nat)
    requires size > 0 && forall x, y :: |callback(x, y)| == c
    ensures |Column(size, callback, i, n)| == n * (c + 1)
  {
    if n > 0 {
      ColumnLength(size, callback, c, i, n - 1);
      MulSucc(c + 1, n - 1);
      assert (n - 1) * (c + 1) + (c + 1) == n * (c + 1) by { MulComm(c + 1, n - 1); MulComm(c + 1, n); }
    }
  }

  lemma MulComm(a: int, b: int)
    ensures a * b == b * a
  {
  }

  lemma {:induction false} ColumnsLength(size: int, callback: (int, int) -> seq<PyValue>, c: nat, m: nat)
    requires size > 0 && forall x, y :: |callback(x, y)| == c
    ensures |Columns(size, callback, m)| == m * (size * (c + 1))
  {
    if m > 0 {
      ColumnsLength(size, callback, c, m - 1);
      ColumnLength(size, callback, c, m - 1, size);
      MulSucc(size * (c + 1), m - 1);
      MulComm(size * (c + 1), m - 1);
      MulComm(size * (c + 1), m);
    }
  }

  /**
   * The walk makes `easts * size` moves: with a callback that emits `c` values per square
   * it emits `easts * size * (c + 1)` values, and none at all when `size <= 0`.
   */
  lemma WalkLength(size: int, callback: (int, int) -> seq<PyValue>, c: nat)
    requires forall x, y :: |callback(x, y)| == c
    ensures size <= 0 ==> Walk(size, callback) == []
    ensures size > 0 ==> |Walk(size, callback)| == Easts(size) * (size * (c + 1))
  {
    if size > 0 {
      EastsClosesWalk(size);
      ColumnsLength(size, callback, c, Easts(size));
    }
  }

  /** A 1 by 1 grid: the callback twice at `(0, 0)`, each followed by a move East. */
  lemma WalkOfOne(callback: (int, int) -> seq<PyValue>)
    ensures Walk(1, callback) == callback(0, 0) + [MoveCall(East)] + callback(0, 0) + [MoveCall(East)]
  {
    assert Easts(1) == 2;
    assert Columns(1, callback, 1) == Column(1, callback, 0, 1);
  }

  // ---- the method ----

  /** `move(direction)`: push the move, then step and reduce both coordinates. */
  method Move(result: seq<PyValue>, size: int, x: int, y: int, d: Direction) returns (result': seq<PyValue>, x': int, y': int)
    requires size > 0
    ensures result' == result + [MoveCall(d)]
    ensures (x', y') == Step(size, x, y, d)
  {
    result' := result + [MoveCall(d)];
    x', y' := x, y;
    match d {
      case North => y' := y' + 1;
      case East => x' := x' + 1;
      case South => y' := y' - 1;
      case West => x' := x' - 1;
    }
    x' := JsRem(x' + size, size);
    y' := JsRem(y' + size, size);
  }

  /** `traverseGrid(size, callback)` */
  method TraverseGrid(size: int, callback: (int, int) -> seq<PyValue>) returns (result: seq<PyValue>)
    ensures result == Walk(size, callback)
  {
    result := [];
    var x, y := 0, 0;
    var easts := if JsRem(size, 2) == 1 then 2 * size else size;
    var i := 0;
    while i < easts
      invariant 0 <= i
      invariant size <= 0 ==> i == 0 && result == []
      invariant size > 0 ==> i <= easts && result == Columns(size, callback, i) && x == X(size, i) && y == Y(size, i, 0)
    {
      ColumnsStep(size, callback, i);
      result, x, y := WalkPass(result, size, callback, i, x, y);
      i := i + 1;
    }
  }

  /** The first `i + 1` passes are the first `i` and then pass `i`. */
  lemma ColumnsStep(size: int, callback: (int, int) -> seq<PyValue>, i: nat)
    requires size > 0
    ensures Columns(size, callback, i + 1) == Columns(size, callback, i) + Column(size, callback, i, size)
  {
  }

  /** One pass of the outer loop of `traverseGrid`: `size - 1` moves along the column, then one East. */
  method WalkPass(result: seq<PyValue>, size: int, callback: (int, int) -> seq<PyValue>, i: nat, x: int, y: int)
    returns (result': seq<PyValue>, x': int, y': int)
    requires size > 0 && x == X(size, i) && y == Y(size, i, 0)
    ensures result' == result + Column(size, callback, i, size)
    ensures x' == X(size, i + 1) && y' == Y(size, i + 1, 0)
  {
    result', x', y' := result, x, y;
    var j := 0;
    while j < size - 1
      invariant 0 <= j <= size - 1
      invariant result' == result + Column(size, callback, i, j)
      invariant x' == X(size, i) && y' == Y(size, i, j)
    {
      StepAlong(size, i, j);
      Extend(result, size, callback, i, j);
      result' := result' + callback(x', y');
      result', x', y' := Move(result', size, x', y', if i % 2 == 0 then North else South);
      j := j + 1;
    }
    StepAcross(size, i);
    Extend(result, size, callback, i, size - 1);
    result' := result' + callback(x', y');
    result', x', y' := Move(result', size, x', y', East);
  }
}
