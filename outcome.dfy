/** Values standing for Python calls that may raise, and the ordered map that
    LangChain's `.map()` performs over a list of inputs. */
module Outcome {

  /** Python's `None` or a value. */
  datatype Option<+T> = None | Some(value: T)

  /** The outcome of a Python call: the value it returned, or the message
      (`str(e)`) of the exception it raised. */
  datatype Call<+T> = Returned(value: T) | Raised(error: string)

  /** Runs `f` over `xs` in order and collects the results in input order.
      When some element raises, the whole map raises, with the exception of
      the first failing element in input order: the batch behind `.map()`
      gathers its results by index, so that is the one its caller sees. */
  function MapCall<A, B>(f: A -> Call<B>, xs: seq<A>): (r: Call<seq<B>>)
    ensures r.Returned? <==> forall i :: 0 <= i < |xs| ==> f(xs[i]).Returned?
    ensures r.Returned? ==>
      |r.value| == |xs| && forall i :: 0 <= i < |xs| ==> r.value[i] == f(xs[i]).value
    ensures r.Raised? ==>
      exists i :: 0 <= i < |xs| && f(xs[i]) == Raised(r.error)
        && forall j :: 0 <= j < i ==> f(xs[j]).Returned?
    decreases |xs|
  {
    if |xs| == 0 then Returned([])
    else
      match f(xs[0])
      case Raised(e) => Raised(e)
      case Returned(y) =>
        match MapCall(f, xs[1..])
        case Raised(e) =>
          assert forall j :: 1 <= j < |xs| ==> xs[1..][j - 1] == xs[j];
          Raised(e)
        case Returned(ys) =>
          assert forall j :: 1 <= j < |xs| ==> xs[1..][j - 1] == xs[j];
          Returned([y] + ys)
  }
}
