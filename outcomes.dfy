/** The three ways a step of the generator can end. The Go code hands some
    failures back as an `error` value and ends the process on others
    (log.Fatal, panic); the model keeps the two apart so that every contract
    can say which of them a given input leads to. */
module Outcomes {

  datatype Result<+T> =
    | Ok(value: T)
    /** an `error` value returned to the caller */
    | Err(msg: string)
    /** log.Fatal or a runtime panic: the process ends here */
    | Fatal(msg: string)
  {
    predicate IsFailure() {
      !Ok?
    }

    function PropagateFailure<U>(): Result<U>
      requires !Ok?
    {
      if Err? then Err(msg) else Fatal(msg)
    }

    function Extract(): T
      requires Ok?
    {
      value
    }
  }

  /** Index i holds the first failure of `rs`. */
  predicate FirstFailureAt<T>(rs: seq<Result<T>>, i: int) {
    0 <= i < |rs| && !rs[i].Ok? && forall j :: 0 <= j < i ==> rs[j].Ok?
  }

  /** The values of a sequence of results taken in order, or the first
      failure among them. */
  function Collect<T>(rs: seq<Result<T>>): (r: Result<seq<T>>)
    ensures r.Ok? <==> forall i :: 0 <= i < |rs| ==> rs[i].Ok?
    ensures r.Ok? ==> |r.value| == |rs| && forall i :: 0 <= i < |rs| ==> rs[i] == Ok(r.value[i])
    ensures (forall i :: 0 <= i < |rs| ==> !rs[i].Err?) ==> !r.Err?
  {
    if rs == [] then Ok([])
    else
      var n := |rs| - 1;
      assert forall i :: 0 <= i < n ==> rs[..n][i] == rs[i];
      var front :- Collect(rs[..n]);
      var x :- rs[n];
      Ok(front + [x])
  }

  /** A failed collection is the first failure. */
  lemma {:induction false} CollectFailsFirst<T>(rs: seq<Result<T>>, i: int)
    requires FirstFailureAt(rs, i)
    ensures Collect(rs) == rs[i].PropagateFailure()
    decreases |rs|
  {
    var n := |rs| - 1;
    assert forall j :: 0 <= j < n ==> rs[..n][j] == rs[j];
    if i < n {
      CollectFailsFirst(rs[..n], i);
    } else {
      assert Collect(rs[..n]).Ok?;
    }
  }

  /** One more result: its value follows the others. */
  lemma CollectSnoc<T>(rs: seq<Result<T>>, x: T)
    requires Collect(rs).Ok?
    ensures Collect(rs + [Ok(x)]) == Ok(Collect(rs).value + [x])
  {
    assert (rs + [Ok(x)])[..|rs|] == rs;
  }
}
