/** The visibility mask behind both scripts' food search.

    A boolean array `x` holds one flag per row. The search box callback
    rewrites it row by row, and the view filter shows exactly the rows whose
    flag is `true`. The JavaScript array grows when the callback writes one
    position past its end. */
module Search {

  /** Row `i` is shown under `mask`: its flag exists and is `true`. A
      missing flag hides the row. */
  predicate Shown(mask: seq<bool>, i: int) {
    0 <= i < |mask| && mask[i]
  }

  /** The mask built before any search, as written: one `true` for each
      value of `range(1, n)`, which is one entry fewer than there are rows. */
  function InitialMask(n: nat): (m: seq<bool>)
    ensures |m| == if n == 0 then 0 else n - 1
    ensures forall i | 0 <= i < |m| :: m[i]
  {
    seq(if n == 0 then 0 else n - 1, _ => true)
  }

  /** The initial mask shows every row but the last, which has no flag. */
  lemma InitialMaskHidesLastRow(n: nat)
    requires n > 0
    ensures forall i | 0 <= i < n - 1 :: Shown(InitialMask(n), i)
    ensures !Shown(InitialMask(n), n - 1)
  {
  }

  /** The mask as evidently intended before any search: one `true` per row. */
  function FullMask(n: nat): (m: seq<bool>)
    ensures |m| == n
  {
    seq(n, _ => true)
  }

  /** Under the intended initial mask every row is shown. */
  lemma FullMaskShowsEveryRow(n: nat)
    ensures forall i | 0 <= i < n :: Shown(FullMask(n), i)
  {
  }

  /** One run of the search callback: for each row `i` in order, flag `i`
      becomes `visible(rows[i])`, appending when `i` is one past the end.
      Flags beyond the last row are left as they were. */
  method Refresh<T>(mask: seq<bool>, rows: seq<T>, visible: T -> bool) returns (m: seq<bool>)
    ensures |m| == if |mask| < |rows| then |rows| else |mask|
    ensures forall i | 0 <= i < |rows| :: m[i] == visible(rows[i])
    ensures forall i | |rows| <= i < |mask| :: m[i] == mask[i]
    ensures forall i | 0 <= i < |rows| :: Shown(m, i) <==> visible(rows[i])
  {
    m := mask;
    var i := 0;
    while i < |rows|
      invariant 0 <= i <= |rows|
      invariant |m| == if |mask| < i then i else |mask|
      invariant forall j | 0 <= j < i :: m[j] == visible(rows[j])
      invariant forall j | i <= j < |mask| :: m[j] == mask[j]
    {
      if i < |m| {
        m := m[i := visible(rows[i])];
      } else {
        m := m + [visible(rows[i])];
      }
      i := i + 1;
    }
  }
}
