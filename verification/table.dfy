/** An optional value: `None` stands for a value pandas leaves undefined (a
    NaN share or coordinate) or for an absent search result. */
module Options {

  datatype Option<+T> = None | Some(value: T)
}

/** Row-selection operations on tables held as sequences of records. */
module Table {
  import opened Options

  /** The rows whose key lies in `allow`, in their original order: the
      pandas idiom `df.loc[df[column].isin(allow)]`, followed by
      `reset_index(drop=True)`, which renumbers the kept rows 0, 1, 2, ...
      Membership is exact string equality. */
  function Keep<T>(rows: seq<T>, key: T -> string, allow: seq<string>): (r: seq<T>)
    ensures |r| <= |rows|
    ensures forall i :: 0 <= i < |r| ==> key(r[i]) in allow
    ensures forall i :: 0 <= i < |r| ==> r[i] in rows
    ensures forall j :: 0 <= j < |rows| && key(rows[j]) in allow ==> rows[j] in r
    decreases |rows|
  {
    if |rows| == 0 then []
    else
      var last := rows[|rows| - 1];
      Keep(rows[..|rows| - 1], key, allow) + (if key(last) in allow then [last] else [])
  }

  /** The positions of the kept rows in the original table, ascending: an
      independent description of what `Keep` selects. */
  function KeptPositions<T>(rows: seq<T>, key: T -> string, allow: seq<string>): (idx: seq<nat>)
    ensures forall k :: 0 <= k < |idx| ==> idx[k] < |rows| && key(rows[idx[k]]) in allow
    ensures forall k, l :: 0 <= k < l < |idx| ==> idx[k] < idx[l]
    ensures forall j :: 0 <= j < |rows| && key(rows[j]) in allow ==> j in idx
    decreases |rows|
  {
    if |rows| == 0 then []
    else
      var n := |rows| - 1;
      KeptPositions(rows[..n], key, allow) + (if key(rows[n]) in allow then [n] else [])
  }

  /** `Keep` is the ordered selection of the rows at `KeptPositions`: the
      k-th kept row is the row at the k-th kept position, so kept rows keep
      their relative order and nothing else is kept. */
  lemma {:induction false} KeepSelectsPositions<T>(rows: seq<T>, key: T -> string, allow: seq<string>)
    ensures |Keep(rows, key, allow)| == |KeptPositions(rows, key, allow)|
    ensures forall k :: 0 <= k < |Keep(rows, key, allow)| ==>
              Keep(rows, key, allow)[k] == rows[KeptPositions(rows, key, allow)[k]]
    decreases |rows|
  {
    if |rows| > 0 {
      var n := |rows| - 1;
      KeepSelectsPositions(rows[..n], key, allow);
      var front := Keep(rows[..n], key, allow);
      var idx := KeptPositions(rows[..n], key, allow);
      forall k | 0 <= k < |front|
        ensures front[k] == rows[idx[k]]
      {
        assert rows[..n][idx[k]] == rows[idx[k]];
      }
    }
  }

  /** Filtering a concatenation filters each part: rows are judged one by
      one, independently of their neighbours. */
  lemma {:induction false} KeepAppend<T>(a: seq<T>, b: seq<T>, key: T -> string, allow: seq<string>)
    ensures Keep(a + b, key, allow) == Keep(a, key, allow) + Keep(b, key, allow)
    decreases |b|
  {
    if |b| == 0 {
      assert a + b == a;
    } else {
      var n := |b| - 1;
      assert (a + b)[..|a + b| - 1] == a + b[..n];
      assert (a + b)[|a + b| - 1] == b[n];
      KeepAppend(a, b[..n], key, allow);
    }
  }

  /** Filtering twice with the same allow-list changes nothing. */
  lemma {:induction false} KeepIdempotent<T>(rows: seq<T>, key: T -> string, allow: seq<string>)
    ensures Keep(Keep(rows, key, allow), key, allow) == Keep(rows, key, allow)
    decreases |rows|
  {
    if |rows| > 0 {
      var n := |rows| - 1;
      var last := rows[n];
      KeepIdempotent(rows[..n], key, allow);
      var tail := if key(last) in allow then [last] else [];
      KeepAppend(Keep(rows[..n], key, allow), tail, key, allow);
      assert Keep(tail, key, allow) == tail by {
        if key(last) in allow {
          assert tail[..0] == [];
        }
      }
    }
  }

  /** Filtering with a list and then with a narrower one is filtering with
      the narrower one alone. */
  lemma {:induction false} KeepNarrower<T>(rows: seq<T>, key: T -> string, wide: seq<string>, narrow: seq<string>)
    requires forall s :: s in narrow ==> s in wide
    ensures Keep(Keep(rows, key, wide), key, narrow) == Keep(rows, key, narrow)
    decreases |rows|
  {
    if |rows| > 0 {
      var n := |rows| - 1;
      var last := rows[n];
      KeepNarrower(rows[..n], key, wide, narrow);
      var tail := if key(last) in wide then [last] else [];
      KeepAppend(Keep(rows[..n], key, wide), tail, key, narrow);
      assert Keep(tail, key, narrow) == if key(last) in narrow then [last] else [] by {
        if key(last) in wide {
          assert tail[..0] == [];
        }
      }
    }
  }

  /** `f` applied to every row, in order. */
  function Map<A, B>(rows: seq<A>, f: A -> B): (r: seq<B>)
    ensures |r| == |rows|
    ensures forall i :: 0 <= i < |rows| ==> r[i] == f(rows[i])
  {
    seq(|rows|, i requires 0 <= i < |rows| => f(rows[i]))
  }

  /** When a row's image passes the second filter exactly when the row
      passes the first, filtering the images is imaging the filtered rows. */
  lemma {:induction false} KeepMap<A, B>(rows: seq<A>, f: A -> B,
                                        key: A -> string, allow: seq<string>,
                                        imageKey: B -> string, imageAllow: seq<string>)
    requires forall i :: 0 <= i < |rows| ==> (imageKey(f(rows[i])) in imageAllow <==> key(rows[i]) in allow)
    ensures Keep(Map(rows, f), imageKey, imageAllow) == Map(Keep(rows, key, allow), f)
    decreases |rows|
  {
    if |rows| > 0 {
      var n := |rows| - 1;
      KeepMap(rows[..n], f, key, allow, imageKey, imageAllow);
      assert Map(rows, f)[..n] == Map(rows[..n], f);
      var tail := if key(rows[n]) in allow then [rows[n]] else [];
      var kept := Keep(rows[..n], key, allow);
      assert Map(kept + tail, f) == Map(kept, f) + Map(tail, f);
    }
  }

  /** The first position of `x` in `xs`, or `None` when `x` is absent. */
  function IndexOf<T(==)>(xs: seq<T>, x: T): (r: Option<nat>)
    ensures r.None? <==> x !in xs
    ensures r.Some? ==> r.value < |xs| && xs[r.value] == x
    ensures r.Some? ==> forall j :: 0 <= j < r.value ==> xs[j] != x
    decreases |xs|
  {
    if |xs| == 0 then None
    else if xs[0] == x then Some(0)
    else
      match IndexOf(xs[1..], x)
      case None => None
      case Some(i) => Some(i + 1)
  }
}
