/** SimpleLayer (SimpleLayer.h): a layer with exactly one input and one
    output. Its vector Connect checks the arity and hands the single pair to
    the two-tensor Connect that each concrete layer supplies; only when that
    accepts are the input_ and output_ bindings set. */
module SimpleLayers {
  import opened TensorShape
  import opened Tensors

  class SimpleLayer {
    /** The concrete layer's two-tensor Connect, seen through the shapes of
        the data tensors it is shown. */
    const connectPair: (Shape, Shape) -> bool
    var input: CombinedTensor?
    var output: CombinedTensor?
    /** Whether some Connect has succeeded. */
    ghost var bound: bool

    /** Both bindings are null until a Connect succeeds, and both are set
        after one has. */
    ghost predicate Valid()
      reads this
    {
      && (!bound ==> input == null && output == null)
      && (bound ==> input != null && output != null)
    }

    constructor (connectPair: (Shape, Shape) -> bool)
      ensures Valid() && !bound
      ensures input == null && output == null
      ensures this.connectPair == connectPair
    {
      this.connectPair := connectPair;
      input, output := null, null;
      bound := false;
    }

    /** Accepts exactly one non-null input and one non-null output that the
        two-tensor Connect accepts, and then binds them; otherwise the
        previous bindings stay. */
    method Connect(inputs: seq<CombinedTensor?>, outputs: seq<CombinedTensor?>) returns (ok: bool)
      requires Valid()
      modifies this
      ensures Valid()
      ensures ok <==> |inputs| == 1 && |outputs| == 1 && inputs[0] != null && outputs[0] != null
                      && connectPair(inputs[0].data.GetShape(), outputs[0].data.GetShape())
      ensures ok ==> input == inputs[0] && output == outputs[0] && bound
      ensures !ok ==> input == old(input) && output == old(output) && bound == old(bound)
    {
      if |inputs| != 1 || |outputs| != 1 || inputs[0] == null || outputs[0] == null {
        return false;
      }
      ok := connectPair(inputs[0].data.GetShape(), outputs[0].data.GetShape());
      if ok {
        input, output := inputs[0], outputs[0];
        bound := true;
      }
    }
  }
}
