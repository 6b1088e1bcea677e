/** The conditional helper's unit scenarios: parsed arguments are set and the
    helper is evaluated in the same chained expression. */
module IfViewHelperTests {
  import opened PhpArrays
  import opened RenderingContexts
  import opened IfViewHelpers

  /** A true condition selects the `then` value. */
  method RendersThenChildIfConditionIsTrue() returns (actual: Option<Value>)
    ensures actual == Some(Str("THEN"))
  {
    var context := RenderingContext([]);
    var helper := new IfViewHelper();
    var chained := helper.SetParsedArguments([(ConditionArgument, Bool(true)), (ThenArgument, Str("THEN")), (ElseArgument, Str("ELSE"))]);
    actual := chained.Evaluate(context);
    EvaluateSelectsBranch(chained, context, 0, 1, 2);
  }

  /** A false condition selects the `else` value. */
  method RendersElseChildIfConditionIsFalse() returns (actual: Option<Value>)
    ensures actual == Some(Str("ELSE"))
  {
    var context := RenderingContext([]);
    var helper := new IfViewHelper();
    var chained := helper.SetParsedArguments([(ConditionArgument, Bool(false)), (ThenArgument, Str("THEN")), (ElseArgument, Str("ELSE"))]);
    actual := chained.Evaluate(context);
    EvaluateSelectsBranch(chained, context, 0, 1, 2);
  }
}
