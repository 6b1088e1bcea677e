/** The tag-based helper's unit scenarios: each method sets up a helper that
    owns a fresh, trace-recording tag builder, performs one scenario, and
    states what the scenario asserts about the calls the tag received. */
module TagBasedViewHelperTests {
  import opened PhpArrays
  import opened TagBuilders
  import opened RenderingContexts
  import opened TagBasedViewHelpers

  /** A helper with a rendering context and an injected tag builder whose
      render yields `output`; nothing is registered or supplied yet. */
  method SetUp(output: string) returns (helper: AbstractTagBasedViewHelper, tag: TagBuilder)
    ensures fresh(helper) && fresh(tag)
    ensures helper.tag == tag && helper.renderingContext.Some?
    ensures tag.calls == [] && tag.output == output
    ensures helper.argumentDefinitions == [] && helper.tagAttributes == [] && helper.arguments == []
  {
    tag := new TagBuilder(output);
    helper := new AbstractTagBasedViewHelper();
    helper.SetRenderingContext(RenderingContext([]));
    helper.SetTagBuilder(tag);
  }

  /** A helper built by its constructor owns a tag builder of its own. */
  method ConstructorSetsTagBuilder() returns (helper: AbstractTagBasedViewHelper)
    ensures fresh(helper) && fresh(helper.tag) && helper.tag.calls == []
  {
    helper := new AbstractTagBasedViewHelper();
  }

  /** `render` renders the tag once and returns its output unchanged. */
  method RenderCallsRenderOnTagBuilder() returns (output: string, calls: seq<Call>)
    ensures output == "foobar"
    ensures RenderCount(calls) == 1
  {
    var helper, tag := SetUp("foobar");
    output := helper.Render();
    calls := tag.calls;
    RenderCountAppend([], [Call.Render]);
  }

  /** One registered tag attribute with a supplied value: the tag is rendered
      once and its output is returned. */
  method OneTagAttributeIsRenderedCorrectly() returns (output: string, calls: seq<Call>)
    ensures output == "foobar"
    ensures RenderCount(calls) == 1
  {
    var helper, tag := SetUp("foobar");
    assert helper.Valid();
    var registered := helper.RegisterTagAttribute("foo", "string", "Description");
    helper.SetArguments([("foo", Str("bar"))]);
    output := helper.InitializeArgumentsAndRender();
    calls := tag.calls;
    RenderedExactlyOnce(helper.tagAttributes, helper.arguments);
  }

  /** With only an `additionalAttributes` map supplied, the tag receives that
      identical map in exactly one `addAttributes` call. */
  method RenderAdditionalAttributes(attributes: OrderedMap<Value>) returns (calls: seq<Call>)
    ensures ForwardedMaps(calls) == [attributes]
  {
    var helper, tag := SetUp("");
    var arguments: OrderedMap<Value> := [(AdditionalAttributesArgument, Array(attributes))];
    helper.SetArguments(arguments);
    assert helper.tagAttributes == [] && helper.arguments == arguments && tag.calls == [];
    ghost var before := tag.calls;
    var output := helper.InitializeArgumentsAndRender();
    calls := tag.calls;
    AdditionalAttributesTrace(before, helper.tagAttributes, helper.arguments, attributes, calls);
  }

  lemma AdditionalAttributesTrace(before: seq<Call>, names: seq<string>, arguments: seq<(string, Value)>, attributes: OrderedMap<Value>, calls: seq<Call>)
    requires names == [] && arguments == [(AdditionalAttributesArgument, Array(attributes))]
    requires before == [] && calls == before + InitializeCalls(names, arguments) + [Call.Render]
    ensures ForwardedMaps(calls) == [attributes]
  {
    assert before + InitializeCalls(names, arguments) == InitializeCalls(names, arguments);
    LookupEntry(arguments, 0);
    AdditionalAttributesForwardedOnce([], arguments);
    ForwardedMapsAppend(InitializeCalls([], arguments), [Call.Render]);
    assert ForwardedMaps([Call.Render]) == ForwardedMaps([]) + [];
  }

  /** An `additionalAttributes` map `{foo: bar}` is forwarded in exactly one
      `addAttributes` call, with that identical map. */
  method AdditionalTagAttributesAreRenderedCorrectly() returns (calls: seq<Call>)
    ensures ForwardedMaps(calls) == [[("foo", Str("bar"))]]
  {
    calls := RenderAdditionalAttributes([("foo", Str("bar"))]);
  }

  /** With only a `data` map supplied (the parse-time hook run in between), the
      calls on the tag are one `data-` attribute per entry, in the map's order,
      and then the render. */
  method RenderDataAttributes(data: OrderedMap<Value>) returns (calls: seq<Call>)
    ensures calls == DataCalls(data) + [Call.Render]
  {
    var helper, tag := SetUp("");
    var arguments: OrderedMap<Value> := [(DataArgument, Array(data))];
    helper.SetArguments(arguments);
    helper.PostParse(arguments, ParsingState, RenderingContext([]));
    assert helper.tagAttributes == [] && helper.arguments == arguments && tag.calls == [];
    ghost var before := tag.calls;
    var output := helper.InitializeArgumentsAndRender();
    calls := tag.calls;
    DataAttributesTrace(before, helper.tagAttributes, helper.arguments, data, calls);
  }

  lemma DataAttributesTrace(before: seq<Call>, names: seq<string>, arguments: seq<(string, Value)>, data: OrderedMap<Value>, calls: seq<Call>)
    requires names == [] && arguments == [(DataArgument, Array(data))]
    requires before == [] && calls == before + InitializeCalls(names, arguments) + [Call.Render]
    ensures calls == DataCalls(data) + [Call.Render]
  {
    assert before + InitializeCalls(names, arguments) == InitializeCalls(names, arguments);
    LookupEntry(arguments, 0);
    assert SuppliedMap(arguments, DataArgument) == Some(data);
    assert Lookup(arguments, AdditionalAttributesArgument) == None;
    assert AdditionalAttributesCalls(arguments) == [] && TagAttributeCalls([], arguments) == [];
    var expanded := DataCalls(data);
    assert [] + [] + expanded == expanded;
    assert InitializeCalls([], arguments) == expanded;
  }

  /** A `data` map becomes `data-` attributes: the first two calls on the tag
      are `addAttribute('data-foo', 'bar')` and `addAttribute('data-baz', 'foos')`. */
  method DataAttributesAreRenderedCorrectly() returns (calls: seq<Call>)
    ensures |calls| >= 2
    ensures calls[0] == Call.AddAttribute("data-foo", Str("bar"))
    ensures calls[1] == Call.AddAttribute("data-baz", Str("foos"))
  {
    calls := RenderDataAttributes([("foo", Str("bar")), ("baz", Str("foos"))]);
  }

  /** An additional argument without the `data-` prefix is rejected, and the
      error names it. */
  method ValidateAdditionalArgumentsRejectsNonDataArguments() returns (outcome: Outcome)
    ensures outcome == Fail(UnsupportedArguments(["foo"]))
  {
    var helper, tag := SetUp("");
    var additional: OrderedMap<Value> := [("foo", Str("bar"))];
    outcome := helper.ValidateAdditionalArguments(additional);
    assert !IsDataKey(additional[0].0);
    assert additional[..0] == [];
    assert UnsupportedKeys(additional) == UnsupportedKeys([]) + ["foo"] == ["foo"];
    assert outcome.Fail?;
  }

  /** `data-` arguments reach the tag with their keys unchanged, in order. */
  method HandleAdditionalArgumentsSetsTagAttributesForDataArguments() returns (calls: seq<Call>)
    ensures |calls| >= 2
    ensures calls[0] == Call.AddAttribute("data-foo", Str("foo"))
    ensures calls[1] == Call.AddAttribute("data-bar", Str("bar"))
  {
    var helper, tag := SetUp("");
    var additional: OrderedMap<Value> := [("data-foo", Str("foo")), ("data-bar", Str("bar"))];
    helper.HandleAdditionalArguments(additional);
    calls := tag.calls;
    assert IsDataKey("data-foo") && IsDataKey("data-bar");
    DataKeysHandledVerbatim(additional);
  }

  /** With the universal attributes registered and a value supplied for each of
      them, in their order, the first eight calls on the tag carry those values. */
  method RenderUniversalAttributes(arguments: OrderedMap<Value>) returns (calls: seq<Call>)
    requires |arguments| == |UniversalTagAttributes|
    requires forall i :: 0 <= i < |arguments| ==> arguments[i].0 == UniversalTagAttributes[i]
    ensures |calls| >= 8
    ensures forall i :: 0 <= i < 8 ==> calls[i] == Call.AddAttribute(arguments[i].0, arguments[i].1)
  {
    var helper, tag := SetUp("");
    assert helper.Valid();
    var registered := helper.RegisterUniversalTagAttributes();
    assert registered.Pass?;
    helper.SetArguments(arguments);
    assert helper.tagAttributes == UniversalTagAttributes && helper.arguments == arguments && tag.calls == [];
    ghost var before := tag.calls;
    var output := helper.InitializeArgumentsAndRender();
    calls := tag.calls;
    UniversalNamesAreNotMapArguments();
    UniversalTrace(before, helper.tagAttributes, helper.arguments, calls);
  }

  lemma UniversalTrace(before: seq<Call>, names: seq<string>, arguments: OrderedMap<Value>, calls: seq<Call>)
    requires |names| == 8 && AdditionalAttributesArgument !in names && DataArgument !in names
    requires |arguments| == |names|
    requires forall i :: 0 <= i < |arguments| ==> arguments[i].0 == names[i]
    requires before == [] && calls == before + InitializeCalls(names, arguments) + [Call.Render]
    ensures |calls| >= 8
    ensures forall i :: 0 <= i < 8 ==> calls[i] == Call.AddAttribute(arguments[i].0, arguments[i].1)
  {
    assert before + InitializeCalls(names, arguments) == InitializeCalls(names, arguments);
    forall i | 0 <= i < |names|
      ensures Lookup(arguments, names[i]) == Some(arguments[i].1)
    {
      LookupEntry(arguments, i);
    }
    AbsentKeySuppliesNoMap(arguments, AdditionalAttributesArgument);
    AbsentKeySuppliesNoMap(arguments, DataArgument);
    RegisteredAttributesAloneInOrder(names, arguments);
  }

  /** The universal attributes with the values `<name>Attribute`: the first
      eight calls on the tag set them in the fixed order class, dir, id, lang,
      style, title, accesskey, tabindex. */
  method StandardTagAttributesAreRegistered() returns (calls: seq<Call>)
    ensures |calls| >= 8
    ensures calls[..8] == [
      Call.AddAttribute("class", Str("classAttribute")),
      Call.AddAttribute("dir", Str("dirAttribute")),
      Call.AddAttribute("id", Str("idAttribute")),
      Call.AddAttribute("lang", Str("langAttribute")),
      Call.AddAttribute("style", Str("styleAttribute")),
      Call.AddAttribute("title", Str("titleAttribute")),
      Call.AddAttribute("accesskey", Str("accesskeyAttribute")),
      Call.AddAttribute("tabindex", Str("tabindexAttribute"))
    ]
  {
    var arguments: OrderedMap<Value> := [
      ("class", Str("classAttribute")),
      ("dir", Str("dirAttribute")),
      ("id", Str("idAttribute")),
      ("lang", Str("langAttribute")),
      ("style", Str("styleAttribute")),
      ("title", Str("titleAttribute")),
      ("accesskey", Str("accesskeyAttribute")),
      ("tabindex", Str("tabindexAttribute"))
    ];
    calls := RenderUniversalAttributes(arguments);
  }
}
