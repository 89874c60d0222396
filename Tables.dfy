/**
  Reference tables filled by check-then-create: a row is created only when no
  row with the same key exists. A table is the sequence of its rows in
  creation order, so "no duplicates" and "existing rows are left as they are"
  can both be stated.
*/
module Tables {

  /** No key appears twice in the table. */
  predicate NoDup<T(==, !new)>(t: seq<T>) {
    forall i, j :: 0 <= i < j < |t| ==> t[i] != t[j]
  }

  /** One lookup followed by a create when the lookup found nothing. */
  function Insert<T(==, !new)>(t: seq<T>, x: T): seq<T> {
    if x in t then t else t + [x]
  }

  /** Check-then-create for every key of `xs`, in order. */
  function InsertAll<T(==, !new)>(t: seq<T>, xs: seq<T>): seq<T>
    decreases |xs|
  {
    if xs == [] then t else Insert(InsertAll(t, xs[..|xs| - 1]), xs[|xs| - 1])
  }

  /**
    After a check-then-create pass the rows that existed are still there, in
    place; a key has a row exactly when it had one or was passed in; and no
    key gets two rows.
  */
  lemma {:induction false} InsertAllRows<T(!new)>(t: seq<T>, xs: seq<T>)
    ensures var r := InsertAll(t, xs);
      && |t| <= |r| && r[..|t|] == t
      && (forall y :: y in r <==> y in t || y in xs)
      && (NoDup(t) ==> NoDup(r))
    decreases |xs|
  {
    if xs != [] {
      var init, x := xs[..|xs| - 1], xs[|xs| - 1];
      InsertAllRows(t, init);
      assert xs == init + [x];
      var r0 := InsertAll(t, init);
      if x !in r0 {
        assert (r0 + [x])[..|r0|] == r0;
      }
    }
  }

  /** Keys that already have a row create nothing. */
  lemma {:induction false} InsertAllPresent<T(!new)>(t: seq<T>, xs: seq<T>)
    requires forall x :: x in xs ==> x in t
    ensures InsertAll(t, xs) == t
    decreases |xs|
  {
    if xs != [] {
      assert forall x :: x in xs[..|xs| - 1] ==> x in xs;
      InsertAllPresent(t, xs[..|xs| - 1]);
      assert xs[|xs| - 1] in xs;
    }
  }

  /** Running the same check-then-create pass twice adds nothing the second time. */
  lemma InsertAllIdempotent<T(!new)>(t: seq<T>, xs: seq<T>)
    ensures InsertAll(InsertAll(t, xs), xs) == InsertAll(t, xs)
  {
    InsertAllRows(t, xs);
    InsertAllPresent(InsertAll(t, xs), xs);
  }

  /** Two passes in a row are one pass over the concatenated keys. */
  lemma {:induction false} InsertAllAppend<T(!new)>(t: seq<T>, xs: seq<T>, ys: seq<T>)
    ensures InsertAll(t, xs + ys) == InsertAll(InsertAll(t, xs), ys)
    decreases |ys|
  {
    if ys == [] {
      assert xs + ys == xs;
    } else {
      var ys0, y := ys[..|ys| - 1], ys[|ys| - 1];
      assert xs + ys == (xs + ys0) + [y];
      calc {
        InsertAll(t, xs + ys);
        { InsertAllSnoc(t, xs + ys0, y); }
        Insert(InsertAll(t, xs + ys0), y);
        { InsertAllAppend(t, xs, ys0); }
        Insert(InsertAll(InsertAll(t, xs), ys0), y);
        { InsertAllSnoc(InsertAll(t, xs), ys0, y); assert ys == ys0 + [y]; }
        InsertAll(InsertAll(t, xs), ys);
      }
    }
  }

  /** Inserting one more key extends the pass by one step. */
  lemma InsertAllSnoc<T(!new)>(t: seq<T>, xs: seq<T>, x: T)
    ensures InsertAll(t, xs + [x]) == Insert(InsertAll(t, xs), x)
  {
  }
}
