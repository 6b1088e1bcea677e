# Tag-based view helpers and the conditional view helper of TYPO3 Fluid, in Dafny

This project models two small parts of the Fluid template engine, as their unit tests pin them down.

* **The tag-based view helper** (`AbstractTagBasedViewHelper`). A helper keeps several things:
  * the arguments it has declared;
  * the names among them that are tag attributes, in registration order;
  * the arguments supplied for one invocation, as an ordered PHP array;
  * the tag builder it owns.

  At render time (`initializeArgumentsAndRender`) it hands the supplied values to the tag builder and then renders the tag. The tag builder is modelled as an append-only trace of the calls it receives (`addAttribute`, `addAttributes`, `render`). Its render output is an opaque string fixed when the builder is created. So "the i-th call on the tag builder is X" is a statement about `calls[i]`.
* **The conditional view helper** (`IfViewHelper`). `setParsedArguments` stores the `condition`, `then` and `else` arguments and returns the same helper. `evaluate` yields `then` when the condition holds and `else` otherwise.

Files:

* `php_arrays.dfy`: PHP values and ordered arrays. These are sequences of key/value pairs with distinct keys.
* `rendering_context.dfy`: the rendering context and parsing state, carried but never read.
* `tag_builder.dfy`: the trace-recording tag builder.
* `tag_based_view_helper.dfy`: the helper class, the functions that state what each render-time step sends to the tag, and the lemmas about them.
* `if_view_helper.dfy`: the conditional helper.
* `tag_based_view_helper_test.dfy` and `if_view_helper_test.dfy`: one scenario method per unit test, each ensuring what that test asserts (`ConstructorSetsTagBuilder` for the constructor test). Several tests share a generic method (`RenderAdditionalAttributes`, `RenderDataAttributes`, `RenderUniversalAttributes`) that takes the supplied values as a parameter, and a lemma that works out the resulting trace. The shared fixture is `SetUp`.

Choices the tests leave open:

* `initializeArgumentsAndRender` takes the argument groups in a fixed order: registered tag attributes, then `additionalAttributes`, then `data`. Each test exercises one group on its own, so the order between groups is this model's choice and not a property of Fluid. No lemma states an order between two groups. `RenderedExactlyOnce` and `AdditionalAttributesForwardedOnce` count calls over all groups, which does not depend on the order. `RegisteredAttributesAloneInOrder` and `UniversalAttributesTransferredInOrder` require that neither of the other two groups is supplied.
* A registered tag attribute is passed to the tag only when a value for it is supplied.
* A non-array value under `additionalAttributes` or `data` causes no call.
* `handleAdditionalArguments` passes keys that already start with `data-` to the tag unchanged (AbstractTagBasedViewHelperTest.php:121-123). The `data` argument differs: its keys get the `data-` prefix (:98-101).
* `handleAdditionalArguments` makes no tag call for a key without the `data-` prefix. The test at :119-124 supplies `data-` keys only.
* `validateAdditionalArguments` rejects exactly the keys without the `data-` prefix, and its error names them in input order. The test at :110-114 shows only that `{foo: bar}` is rejected.
* Declaring an argument name that is already declared fails with a duplicate-argument error and changes nothing. No test declares a name twice.
* The universal attributes are declared as optional string arguments whose description is "universal attribute " followed by the name. The test at :151-154 observes only the names and their order.

## Model

| member | source | states |
|---|---|---|
| `TagBuilders.TagBuilder.AddAttribute` | tests/Unit/Core/ViewHelper/AbstractTagBasedViewHelperTest.php:37 | a mocked `addAttribute` call is appended to the trace with its name and value |
| `TagBuilders.TagBuilder.AddAttributes` | tests/Unit/Core/ViewHelper/AbstractTagBasedViewHelperTest.php:37 | a mocked `addAttributes` call is appended to the trace with the whole map |
| `TagBuilders.TagBuilder.Render` | tests/Unit/Core/ViewHelper/AbstractTagBasedViewHelperTest.php:62 | `render` is appended to the trace and returns the builder's fixed output |
| `TagBasedViewHelpers.AbstractTagBasedViewHelper.constructor` | tests/Unit/Core/ViewHelper/AbstractTagBasedViewHelperTest.php:48-55 | a new helper owns a freshly created tag builder that has received no calls |
| `TagBasedViewHelpers.AbstractTagBasedViewHelper.SetTagBuilder` | tests/Unit/Core/ViewHelper/AbstractTagBasedViewHelperTest.php:40-42 | the injected builder becomes the owned tag; nothing else changes |
| `TagBasedViewHelpers.AbstractTagBasedViewHelper.SetRenderingContext` | tests/Unit/Core/ViewHelper/AbstractTagBasedViewHelperTest.php:39 | the context is stored; nothing else changes |
| `TagBasedViewHelpers.AbstractTagBasedViewHelper.SetArguments` | tests/Unit/Core/ViewHelper/AbstractTagBasedViewHelperTest.php:74-75 | the supplied arguments replace the stored ones; declarations and tag are untouched |
| `TagBasedViewHelpers.AbstractTagBasedViewHelper.RegisterTagAttribute` | tests/Unit/Core/ViewHelper/AbstractTagBasedViewHelperTest.php:71-73 | a new name is declared as an argument (optional unless stated otherwise) and appended to the tag attributes; uniqueness is preserved; by this model's choice a name already declared fails with a duplicate error and changes nothing |
| `TagBasedViewHelpers.AbstractTagBasedViewHelper.RegisterUniversalTagAttributes` | tests/Unit/Core/ViewHelper/AbstractTagBasedViewHelperTest.php:151-154 | succeeds iff none of the eight names was declared; then class, dir, id, lang, style, title, accesskey, tabindex are appended, in that order, to the tag attributes and to the declared names, each declared as an optional string argument; otherwise fails on the first clashing name, with exactly the names before it declared and registered |
| `TagBasedViewHelpers.AbstractTagBasedViewHelper.PostParse` | tests/Unit/Core/ViewHelper/AbstractTagBasedViewHelperTest.php:103 | the parse-time hook changes neither the tag trace, the arguments nor the registrations |
| `TagBasedViewHelpers.AbstractTagBasedViewHelper.Render` | tests/Unit/Core/ViewHelper/AbstractTagBasedViewHelperTest.php:60-64 | calls the tag's `render` once, adds no other call, and returns its output unchanged |
| `TagBasedViewHelpers.AbstractTagBasedViewHelper.InitializeArgumentsAndRender` | tests/Unit/Core/ViewHelper/AbstractTagBasedViewHelperTest.php:69-79 | the tag receives exactly the transfer calls of every argument group and then one `render`, whose output is returned |
| `TagBasedViewHelpers.AbstractTagBasedViewHelper.TransferTagAttributes` | tests/Unit/Core/ViewHelper/AbstractTagBasedViewHelperTest.php:131-138 | registered attributes with supplied values are sent to the tag in registration order |
| `TagBasedViewHelpers.AbstractTagBasedViewHelper.ForwardAdditionalAttributes` | tests/Unit/Core/ViewHelper/AbstractTagBasedViewHelperTest.php:85-89 | the tag receives exactly the `addAttributes` call for a supplied `additionalAttributes` map, and nothing otherwise |
| `TagBasedViewHelpers.AbstractTagBasedViewHelper.ExpandDataArgument` | tests/Unit/Core/ViewHelper/AbstractTagBasedViewHelperTest.php:98-103 | the tag receives exactly the `data-` expansion of a supplied `data` map, and nothing otherwise |
| `TagBasedViewHelpers.AbstractTagBasedViewHelper.EachAttributeTransferredOnce` | tests/Unit/Core/ViewHelper/AbstractTagBasedViewHelperTest.php:131-138 | for a helper whose registrations are consistent, no attribute name reaches the tag twice from its registered attributes |
| `TagBasedViewHelpers.AbstractTagBasedViewHelper.ExpandDataAttributes` | tests/Unit/Core/ViewHelper/AbstractTagBasedViewHelperTest.php:98-101 | each `data` entry is sent as a `data-` attribute, in the map's order |
| `TagBasedViewHelpers.AbstractTagBasedViewHelper.HandleAdditionalArguments` | tests/Unit/Core/ViewHelper/AbstractTagBasedViewHelperTest.php:119-124 | the tag receives exactly the `addAttribute` calls for the `data-` entries, keys verbatim, in input order |
| `TagBasedViewHelpers.AbstractTagBasedViewHelper.ValidateAdditionalArguments` | tests/Unit/Core/ViewHelper/AbstractTagBasedViewHelperTest.php:110-114 | passes iff every key starts with `data-`; otherwise fails with an unsupported-arguments error listing the offending keys in order |
| `TagBasedViewHelpers.DataCalls` | tests/Unit/Core/ViewHelper/AbstractTagBasedViewHelperTest.php:98-101 | one call per `data` entry, the i-th being `addAttribute("data-" + key_i, value_i)` |
| `TagBasedViewHelpers.TransferredAttributesAreSupplied` | tests/Unit/Core/ViewHelper/AbstractTagBasedViewHelperTest.php:69-79 | only single-attribute calls reach the tag from registration, each for a registered name and carrying exactly the value supplied for it |
| `TagBasedViewHelpers.TagAttributesTransferredInOrder` | tests/Unit/Core/ViewHelper/AbstractTagBasedViewHelperTest.php:129-158 | when every registered name has a value, there is one call per name, in registration order, with that name's value |
| `TagBasedViewHelpers.SuppliedNameTransferred` | tests/Unit/Core/ViewHelper/AbstractTagBasedViewHelperTest.php:69-79 | every registered name with a supplied value reaches the tag as `addAttribute(name, value)`, whichever other names are supplied |
| `TagBasedViewHelpers.TagAttributeCallsPrefix` | tests/Unit/Core/ViewHelper/AbstractTagBasedViewHelperTest.php:129-158 | the calls for the first k registered names are a prefix of the calls for all of them, so transfer follows registration order |
| `TagBasedViewHelpers.RegisteredAttributesAloneInOrder` | tests/Unit/Core/ViewHelper/AbstractTagBasedViewHelperTest.php:129-158 | with every registered name supplied and no `additionalAttributes` or `data` map, the tag receives exactly one call per registered name, in registration order, before `render` |
| `TagBasedViewHelpers.UniversalAttributesTransferredInOrder` | tests/Unit/Core/ViewHelper/AbstractTagBasedViewHelperTest.php:131-138 | with the universal attributes registered and supplied, and no `additionalAttributes` or `data` map, the tag receives exactly eight calls before `render`: class, dir, id, lang, style, title, accesskey, tabindex in that order with their values |
| `TagBasedViewHelpers.TagAttributesTransferredOnce` | tests/Unit/Core/ViewHelper/AbstractTagBasedViewHelperTest.php:131-138 | registered names being distinct, no attribute name reaches the tag twice from the registered attributes |
| `TagBasedViewHelpers.RenderedExactlyOnce` | tests/Unit/Core/ViewHelper/AbstractTagBasedViewHelperTest.php:76-78 | the calls made by `initializeArgumentsAndRender` contain exactly one `render` |
| `TagBasedViewHelpers.AdditionalAttributesForwardedOnce` | tests/Unit/Core/ViewHelper/AbstractTagBasedViewHelperTest.php:86-90 | an `additionalAttributes` map produces exactly one `addAttributes` call with that identical map; without one there is none |
| `TagBasedViewHelpers.DataKeysHandledVerbatim` | tests/Unit/Core/ViewHelper/AbstractTagBasedViewHelperTest.php:121-123 | for `data-` keys only, the i-th call is `addAttribute(key_i, value_i)`, with no extra prefix |
| `TagBasedViewHelpers.HandledCallsAreDataEntries` | tests/Unit/Core/ViewHelper/AbstractTagBasedViewHelperTest.php:119-124 | every call `handleAdditionalArguments` makes is a supplied `data-` entry, unchanged |
| `TagBasedViewHelpers.UnsupportedKeysAreNonDataKeys` | tests/Unit/Core/ViewHelper/AbstractTagBasedViewHelperTest.php:110-114 | a key is reported iff it is a supplied key without the `data-` prefix |
| `TagBasedViewHelpers.DataEntryIsHandled` | tests/Unit/Core/ViewHelper/AbstractTagBasedViewHelperTest.php:119-124 | every supplied `data-` entry reaches the tag as `addAttribute(key, value)` |
| `TagBasedViewHelpers.HandledOrRejected` | tests/Unit/Core/ViewHelper/AbstractTagBasedViewHelperTest.php:110-124 | for each additional argument, `handleAdditionalArguments` passes it to the tag unchanged iff `validateAdditionalArguments` does not report its key; the passed and reported counts add up to the number of arguments |
| `TagBasedViewHelperTests.SetUp` | tests/Unit/Core/ViewHelper/AbstractTagBasedViewHelperTest.php:35-43 | the fixture helper has a context and the injected tag builder, with nothing registered, supplied or called |
| `TagBasedViewHelperTests.ConstructorSetsTagBuilder` | tests/Unit/Core/ViewHelper/AbstractTagBasedViewHelperTest.php:48-55 | a helper built by its constructor owns a tag builder of its own that has received no calls |
| `TagBasedViewHelperTests.RenderCallsRenderOnTagBuilder` | tests/Unit/Core/ViewHelper/AbstractTagBasedViewHelperTest.php:60-64 | `render` returns "foobar" and the tag's `render` is called exactly once |
| `TagBasedViewHelperTests.OneTagAttributeIsRenderedCorrectly` | tests/Unit/Core/ViewHelper/AbstractTagBasedViewHelperTest.php:69-79 | with `foo` registered and supplied, the output is "foobar" and the tag's `render` is called exactly once |
| `TagBasedViewHelperTests.RenderAdditionalAttributes` | tests/Unit/Core/ViewHelper/AbstractTagBasedViewHelperTest.php:84-91 | for any map under `additionalAttributes`, the tag receives that identical map in exactly one `addAttributes` call |
| `TagBasedViewHelperTests.AdditionalTagAttributesAreRenderedCorrectly` | tests/Unit/Core/ViewHelper/AbstractTagBasedViewHelperTest.php:84-91 | `{foo: bar}` is forwarded in exactly one `addAttributes` call |
| `TagBasedViewHelperTests.RenderDataAttributes` | tests/Unit/Core/ViewHelper/AbstractTagBasedViewHelperTest.php:96-105 | for any `data` map, the tag receives one `data-` attribute per entry in the map's order, then `render` |
| `TagBasedViewHelperTests.DataAttributesAreRenderedCorrectly` | tests/Unit/Core/ViewHelper/AbstractTagBasedViewHelperTest.php:96-105 | the first two calls are `addAttribute('data-foo','bar')` then `addAttribute('data-baz','foos')` |
| `TagBasedViewHelperTests.ValidateAdditionalArgumentsRejectsNonDataArguments` | tests/Unit/Core/ViewHelper/AbstractTagBasedViewHelperTest.php:110-114 | `{foo: bar}` fails validation, naming `foo` |
| `TagBasedViewHelperTests.HandleAdditionalArgumentsSetsTagAttributesForDataArguments` | tests/Unit/Core/ViewHelper/AbstractTagBasedViewHelperTest.php:119-124 | the first two calls are `addAttribute('data-foo','foo')` then `addAttribute('data-bar','bar')` |
| `TagBasedViewHelperTests.RenderUniversalAttributes` | tests/Unit/Core/ViewHelper/AbstractTagBasedViewHelperTest.php:129-158 | for any values supplied for the eight universal names in order, the first eight calls set them in that order |
| `TagBasedViewHelperTests.StandardTagAttributesAreRegistered` | tests/Unit/Core/ViewHelper/AbstractTagBasedViewHelperTest.php:129-158 | the first eight calls are exactly the eight `addAttribute(name, nameAttribute)` calls of the test, in its order |
| `IfViewHelpers.IfViewHelper.constructor` | tests/Unit/ViewHelpers/IfViewHelperTest.php:24 | a new conditional helper holds no arguments |
| `IfViewHelpers.IfViewHelper.SetParsedArguments` | tests/Unit/ViewHelpers/IfViewHelperTest.php:24 | stores the parsed arguments and returns the same helper, so `evaluate` can be chained |
| `IfViewHelpers.IfViewHelper.Evaluate` | tests/Unit/ViewHelpers/IfViewHelperTest.php:24 | the result, when there is one, is the value stored under the selected branch's key (`then` when the condition holds, `else` otherwise); there is none exactly when that key is not supplied |
| `IfViewHelpers.EvaluateSelectsBranch` | tests/Unit/ViewHelpers/IfViewHelperTest.php:21-36 | with `condition`, `then` and `else` supplied in any order, evaluation yields the `then` value when the condition converts to PHP `true` and the `else` value otherwise |
| `IfViewHelpers.EvaluationIgnoresContext` | tests/Unit/ViewHelpers/IfViewHelperTest.php:23-24 | the result is the same under any two rendering contexts |
| `IfViewHelperTests.RendersThenChildIfConditionIsTrue` | tests/Unit/ViewHelpers/IfViewHelperTest.php:21-26 | with `condition => true` the chained evaluation returns 'THEN' |
| `IfViewHelperTests.RendersElseChildIfConditionIsFalse` | tests/Unit/ViewHelpers/IfViewHelperTest.php:31-36 | with `condition => false` the chained evaluation returns 'ELSE' |

## Left out

- Tag serialisation and escaping: the tag builder is a recorded call trace whose render output is an opaque string. Attribute insertion and updating, null values and markup text are not modelled, because the builder is a mock in the tests and its class is not part of this model.
- Argument binding, as done by `validateArguments` in `initializeArgumentsAndRender`, is not modelled: type coercion, required-argument errors and defaults. The tests do not exercise it.
- Whether empty or null argument values are skipped is not modelled. A registered attribute is transferred exactly when a value is supplied.
- The order between argument groups in `initializeArgumentsAndRender` is fixed by the model and is not a claim about Fluid (see above).
- The rendering context and parsing state are inert values. Variable lookup, helper resolution and escaping hooks are not modelled.
- `PostParse`: the syntax-node parameter (null in the test) is not modelled.
- Reflection, used to inject the tag and to call protected registration methods, becomes ordinary method calls.
- In Fluid, tag-attribute registrations are per helper class (static). Here they are per helper instance, which is all a single test observes.
- `IfViewHelpers.IfViewHelper.Evaluate`: branch content from child nodes is not modelled; the branches are argument values only. When the selected branch argument is absent the result is `None`. A missing condition counts as false, and a non-boolean condition is converted with PHP's boolean conversion.
- PHP arrays with integer keys are not modelled; keys are strings.
