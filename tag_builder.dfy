/** The tag builder as the tag-based view helper sees it: an object that
    receives attribute calls and renders once. Each call is recorded, in the
    order it arrives, in an append-only trace; markup serialisation is not
    modelled, so what `Render` returns is an opaque string fixed when the
    builder is created. */
module TagBuilders {
  import opened PhpArrays

  /** One call received by a tag builder. */
  datatype Call =
    | AddAttribute(name: string, value: Value)
    | AddAttributes(attributes: OrderedMap<Value>)
    | Render

  class TagBuilder {
    /** Every call received so far, oldest first. */
    var calls: seq<Call>
    /** What `Render` returns. */
    const output: string

    constructor(output: string)
      ensures calls == [] && this.output == output
    {
      calls := [];
      this.output := output;
    }

    method AddAttribute(name: string, value: Value)
      modifies this
      ensures calls == old(calls) + [Call.AddAttribute(name, value)]
    {
      calls := calls + [Call.AddAttribute(name, value)];
    }

    method AddAttributes(attributes: OrderedMap<Value>)
      modifies this
      ensures calls == old(calls) + [Call.AddAttributes(attributes)]
    {
      calls := calls + [Call.AddAttributes(attributes)];
    }

    method Render() returns (markup: string)
      modifies this
      ensures markup == output
      ensures calls == old(calls) + [Call.Render]
    {
      calls := calls + [Call.Render];
      markup := output;
    }
  }

  /** How many `Render` calls a trace holds. */
  function RenderCount(calls: seq<Call>): nat
  {
    if calls == [] then 0
    else RenderCount(calls[..|calls| - 1]) + (if calls[|calls| - 1].Render? then 1 else 0)
  }

  /** The maps passed to `AddAttributes`, in call order. */
  function ForwardedMaps(calls: seq<Call>): seq<OrderedMap<Value>>
  {
    if calls == [] then []
    else
      var last := calls[|calls| - 1];
      ForwardedMaps(calls[..|calls| - 1]) + (if last.AddAttributes? then [last.attributes] else [])
  }

  /** Counting render calls is additive over consecutive stretches of a trace. */
  lemma {:induction false} RenderCountAppend(a: seq<Call>, b: seq<Call>)
    ensures RenderCount(a + b) == RenderCount(a) + RenderCount(b)
  {
    if b != [] {
      assert (a + b)[..|a + b| - 1] == a + b[..|b| - 1];
      RenderCountAppend(a, b[..|b| - 1]);
    } else {
      assert a + b == a;
    }
  }

  /** Collecting forwarded maps is additive over consecutive stretches of a trace. */
  lemma {:induction false} ForwardedMapsAppend(a: seq<Call>, b: seq<Call>)
    ensures ForwardedMaps(a + b) == ForwardedMaps(a) + ForwardedMaps(b)
  {
    if b != [] {
      assert (a + b)[..|a + b| - 1] == a + b[..|b| - 1];
      ForwardedMapsAppend(a, b[..|b| - 1]);
    } else {
      assert a + b == a;
    }
  }

  /** A trace made only of single-attribute calls holds no render and forwards no map. */
  lemma {:induction false} SingleAttributeCallsOnly(calls: seq<Call>)
    requires forall c :: c in calls ==> c.AddAttribute?
    ensures RenderCount(calls) == 0 && ForwardedMaps(calls) == []
  {
    if calls != [] {
      assert calls[|calls| - 1] in calls;
      SingleAttributeCallsOnly(calls[..|calls| - 1]);
    }
  }
}
