/** The conditional view helper: it holds its parsed arguments and, when
    evaluated, yields the `then` argument if `condition` holds and the `else`
    argument otherwise. */
module IfViewHelpers {
  import opened PhpArrays
  import opened RenderingContexts

  const ConditionArgument: string := "condition"
  const ThenArgument: string := "then"
  const ElseArgument: string := "else"

  /** The condition holds when it is supplied and converts to PHP `true`. */
  predicate ConditionHolds(arguments: seq<(string, Value)>)
  {
    match Lookup(arguments, ConditionArgument)
    case Some(condition) => IsTruthy(condition)
    case None => false
  }

  /** The argument whose value is returned: `then` when the condition holds, `else` otherwise. */
  function SelectedBranch(arguments: seq<(string, Value)>): string
  {
    if ConditionHolds(arguments) then ThenArgument else ElseArgument
  }

  class IfViewHelper {
    var arguments: OrderedMap<Value>

    constructor()
      ensures arguments == []
    {
      arguments := [];
    }

    /** Stores the parsed arguments and returns this same helper, so that a
        call can be chained onto it. */
    method SetParsedArguments(parsed: OrderedMap<Value>) returns (self: IfViewHelper)
      modifies this
      ensures self == this
      ensures arguments == parsed
    {
      arguments := parsed;
      self := this;
    }

    /** The value of the selected branch; `None` when the selected branch's
        argument is not supplied. */
    function Evaluate(context: RenderingContext): (result: Option<Value>)
      reads this
      ensures result.Some? ==> (SelectedBranch(arguments), result.value) in arguments
      ensures result.None? <==> forall i :: 0 <= i < |arguments| ==> arguments[i].0 != SelectedBranch(arguments)
    {
      LookupFindsKey(arguments, SelectedBranch(arguments));
      Lookup(arguments, SelectedBranch(arguments))
    }
  }

  /** Evaluation depends on the parsed arguments alone, never on the rendering context. */
  lemma EvaluationIgnoresContext(helper: IfViewHelper, first: RenderingContext, second: RenderingContext)
    ensures helper.Evaluate(first) == helper.Evaluate(second)
  {
  }

  /** Wherever the three arguments sit among the parsed arguments, evaluation
      returns the `then` value when the condition converts to PHP `true` and
      the `else` value when it converts to `false`. */
  lemma {:induction false} EvaluateSelectsBranch(helper: IfViewHelper, context: RenderingContext, c: nat, t: nat, e: nat)
    requires c < |helper.arguments| && t < |helper.arguments| && e < |helper.arguments|
    requires helper.arguments[c].0 == ConditionArgument
    requires helper.arguments[t].0 == ThenArgument && helper.arguments[e].0 == ElseArgument
    ensures helper.Evaluate(context) ==
      Some(if IsTruthy(helper.arguments[c].1) then helper.arguments[t].1 else helper.arguments[e].1)
  {
    var arguments := helper.arguments;
    LookupEntry(arguments, c);
    LookupEntry(arguments, t);
    LookupEntry(arguments, e);
  }
}
