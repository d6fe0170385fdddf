/** The training-data CSV layout: one file per channel, one row per window of
    TIMESTEPS values, each value written as "v," except the last of a row,
    written as "v\n"; and the counter idiom every writer uses. */
module Csv {

  /** A value with its terminator: "v," (endsRow false) or "v\n" (endsRow true). */
  datatype Cell<T> = Cell(value: T, endsRow: bool)

  /** The contents of a channel file after `vals` were written with rows of t. */
  function Rows<T>(vals: seq<T>, t: nat): (r: seq<Cell<T>>)
    requires t > 0
    ensures |r| == |vals|
  {
    seq(|vals|, i requires 0 <= i < |vals| => Cell(vals[i], i % t == t - 1))
  }

  /** The counter idiom: at count t - 1 write "v\n" and reset to 0, otherwise
      write "v," and count up. */
  function WriteCell<T>(count: nat, t: nat, v: T): (r: (Cell<T>, nat))
    requires count < t
    ensures r.0.value == v
    ensures r.1 < t
    ensures r.0.endsRow <==> r.1 == 0
  {
    if count == t - 1 then (Cell(v, true), 0) else (Cell(v, false), count + 1)
  }

  lemma ModStep(n: nat, t: nat)
    requires t > 0
    ensures (n + 1) % t == if n % t == t - 1 then 0 else n % t + 1
    ensures (n + 1) / t == if n % t == t - 1 then n / t + 1 else n / t
  {
    var q, r := n / t, n % t;
    assert n == q * t + r;
    if r == t - 1 {
      assert n + 1 == (q + 1) * t;
      DivModUnique(n + 1, t, q + 1, 0);
    } else {
      assert n + 1 == q * t + (r + 1);
      DivModUnique(n + 1, t, q, r + 1);
    }
  }

  lemma DivModUnique(n: nat, t: nat, q: int, r: int)
    requires t > 0 && 0 <= r < t && n == q * t + r
    ensures n / t == q && n % t == r
  {
    var q', r' := n / t, n % t;
    assert n == q' * t + r';
    var d := q - q';
    assert d * t == r' - r by {
      assert q * t - q' * t == (q - q') * t;
    }
    if d >= 1 {
      MulAtLeast(d, t);
    } else if d <= -1 {
      MulAtLeast(-d, t);
    }
  }

  lemma MulAtLeast(a: int, t: nat)
    requires a >= 1
    ensures a * t >= t
  {
    assert a * t == (a - 1) * t + t;
    assert (a - 1) * t >= 0;
  }

  /** Writing one value with the counter keeps the file equal to Rows of
      everything written, with the counter at the number written modulo t. */
  lemma {:induction false} WriteCellKeepsRows<T>(vals: seq<T>, t: nat, count: nat, v: T)
    requires t > 0 && count == |vals| % t
    ensures count < t
    ensures Rows(vals, t) + [WriteCell(count, t, v).0] == Rows(vals + [v], t)
    ensures WriteCell(count, t, v).1 == |vals + [v]| % t
    ensures WriteCell(count, t, v).0.endsRow <==> |vals + [v]| / t == |vals| / t + 1
  {
    ModStep(|vals|, t);
    var lhs := Rows(vals, t) + [WriteCell(count, t, v).0];
    var rhs := Rows(vals + [v], t);
    forall i | 0 <= i < |rhs| ensures lhs[i] == rhs[i] {
      if i < |vals| {
        assert (vals + [v])[i] == vals[i];
      }
    }
  }

  /** The number of completed rows in a file. */
  function RowCount<T>(cells: seq<Cell<T>>): nat
  {
    if cells == [] then 0
    else RowCount(cells[..|cells| - 1]) + (if cells[|cells| - 1].endsRow then 1 else 0)
  }

  /** A file written with rows of t holds |vals| / t complete rows, and when
      the count is a multiple of t it ends on a complete row. */
  lemma {:induction false} RowsComplete<T>(vals: seq<T>, t: nat)
    requires t > 0
    ensures RowCount(Rows(vals, t)) == |vals| / t
    ensures |vals| > 0 && |vals| % t == 0 ==> Rows(vals, t)[|vals| - 1].endsRow
    decreases |vals|
  {
    if vals != [] {
      var init := vals[..|vals| - 1];
      RowsComplete(init, t);
      assert Rows(vals, t)[..|vals| - 1] == Rows(init, t);
      ModStep(|init|, t);
    }
  }
}
