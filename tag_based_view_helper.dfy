/** The tag-based view helper: it declares which of its arguments are tag
    attributes, stores the arguments supplied for one invocation, and at render
    time transfers them to the tag builder it owns before rendering that tag. */
module TagBasedViewHelpers {
  import opened PhpArrays
  import opened TagBuilders
  import opened RenderingContexts

  /** One declared argument of a view helper. */
  datatype ArgumentDefinition = ArgumentDefinition(name: string, typeName: string, description: string, required: bool)

  datatype Error =
    | DuplicateArgument(name: string)          // an argument name declared twice
    | UnsupportedArguments(names: seq<string>) // additional arguments the helper cannot take

  datatype Outcome = Pass | Fail(error: Error)

  /** The eight universal attributes, in registration order. */
  const UniversalTagAttributes: seq<string> :=
    ["class", "dir", "id", "lang", "style", "title", "accesskey", "tabindex"]

  /** The argument whose map is handed to the tag as it is. */
  const AdditionalAttributesArgument: string := "additionalAttributes"
  /** The argument whose map is expanded into `data-` attributes. */
  const DataArgument: string := "data"
  const DataPrefix: string := "data-"

  /** The key starts with `data-`. */
  predicate IsDataKey(key: string)
  {
    |key| >= |DataPrefix| && key[..|DataPrefix|] == DataPrefix
  }

  function DeclaredNames(definitions: seq<ArgumentDefinition>): (names: seq<string>)
    ensures |names| == |definitions|
    ensures forall i :: 0 <= i < |definitions| ==> names[i] == definitions[i].name
  {
    seq(|definitions|, i requires 0 <= i < |definitions| => definitions[i].name)
  }

  /** Declaring a second list of arguments after a first declares their names after the first's. */
  lemma DeclaredNamesAppend(first: seq<ArgumentDefinition>, second: seq<ArgumentDefinition>)
    ensures DeclaredNames(first + second) == DeclaredNames(first) + DeclaredNames(second)
  {
  }

  predicate Distinct(names: seq<string>)
  {
    forall i, j :: 0 <= i < j < |names| ==> names[i] != names[j]
  }

  /** The declaration `registerUniversalTagAttributes` makes for a universal
      attribute: an optional string argument. */
  function UniversalDefinition(name: string): ArgumentDefinition
  {
    ArgumentDefinition(name, "string", "universal attribute " + name, false)
  }

  /** The declarations of the first `n` universal attributes, in order. */
  function UniversalDefinitions(n: nat): (definitions: seq<ArgumentDefinition>)
    requires n <= |UniversalTagAttributes|
    ensures DeclaredNames(definitions) == UniversalTagAttributes[..n]
    ensures forall k :: 0 <= k < n ==> definitions[k].typeName == "string" && !definitions[k].required
  {
    seq(n, k requires 0 <= k < n => UniversalDefinition(UniversalTagAttributes[k]))
  }

  // ---------------------------------------------------------------------------
  // What each render-time step sends to the tag builder.

  /** Transfer of registered tag attributes: one `addAttribute(name, value)` per
      registered name that has a supplied value, in registration order. */
  function TagAttributeCalls(names: seq<string>, arguments: seq<(string, Value)>): (calls: seq<Call>)
    ensures |calls| <= |names|
  {
    if names == [] then []
    else
      var name := names[|names| - 1];
      var earlier := TagAttributeCalls(names[..|names| - 1], arguments);
      match Lookup(arguments, name)
      case Some(v) => earlier + [Call.AddAttribute(name, v)]
      case None => earlier
  }

  /** Expansion of a `data` map: one `addAttribute("data-" + key, value)` per
      entry, in the map's order. */
  function DataCalls(data: seq<(string, Value)>): (calls: seq<Call>)
    ensures |calls| == |data|
    ensures forall i :: 0 <= i < |data| ==> calls[i] == Call.AddAttribute(DataPrefix + data[i].0, data[i].1)
  {
    if data == [] then []
    else
      var last := data[|data| - 1];
      DataCalls(data[..|data| - 1]) + [Call.AddAttribute(DataPrefix + last.0, last.1)]
  }

  /** The map supplied under `key`; nothing when the key is absent or its value is not an array. */
  function SuppliedMap(arguments: seq<(string, Value)>, key: string): Option<OrderedMap<Value>>
  {
    var supplied := Lookup(arguments, key);
    if supplied.Some? && supplied.value.Array? then Some(supplied.value.entries) else None
  }

  /** The `additionalAttributes` map, when one is supplied, in a single `addAttributes` call. */
  function AdditionalAttributesCalls(arguments: seq<(string, Value)>): seq<Call>
  {
    match SuppliedMap(arguments, AdditionalAttributesArgument)
    case Some(attributes) => [Call.AddAttributes(attributes)]
    case None => []
  }

  /** The `data` map, when one is supplied, expanded into `data-` attributes. */
  function DataArgumentCalls(arguments: seq<(string, Value)>): seq<Call>
  {
    match SuppliedMap(arguments, DataArgument)
    case Some(data) => DataCalls(data)
    case None => []
  }

  /** Everything `initializeArgumentsAndRender` sends to the tag before rendering it. */
  function InitializeCalls(tagAttributes: seq<string>, arguments: seq<(string, Value)>): seq<Call>
  {
    TagAttributeCalls(tagAttributes, arguments)
      + AdditionalAttributesCalls(arguments)
      + DataArgumentCalls(arguments)
  }

  /** `handleAdditionalArguments`: each `data-` key is passed on unchanged, in
      order; other keys cause no tag call. */
  function HandledCalls(arguments: seq<(string, Value)>): (calls: seq<Call>)
    ensures |calls| <= |arguments|
  {
    if arguments == [] then []
    else
      var last := arguments[|arguments| - 1];
      var earlier := HandledCalls(arguments[..|arguments| - 1]);
      if IsDataKey(last.0) then earlier + [Call.AddAttribute(last.0, last.1)] else earlier
  }

  /** `validateAdditionalArguments`: the keys it rejects, in order. */
  function UnsupportedKeys(arguments: seq<(string, Value)>): (keys: seq<string>)
    ensures |keys| <= |arguments|
  {
    if arguments == [] then []
    else
      var last := arguments[|arguments| - 1];
      var earlier := UnsupportedKeys(arguments[..|arguments| - 1]);
      if IsDataKey(last.0) then earlier else earlier + [last.0]
  }

  // ---------------------------------------------------------------------------
  // Properties of the render-time calls.

  /** When every registered attribute has a supplied value, the tag receives
      exactly one `addAttribute` per registered name, in registration order,
      each carrying the supplied value. */
  lemma {:induction false} TagAttributesTransferredInOrder(names: seq<string>, arguments: seq<(string, Value)>)
    requires forall i :: 0 <= i < |names| ==> Lookup(arguments, names[i]).Some?
    ensures |TagAttributeCalls(names, arguments)| == |names|
    ensures forall i :: 0 <= i < |names| ==>
      TagAttributeCalls(names, arguments)[i] == Call.AddAttribute(names[i], Lookup(arguments, names[i]).value)
  {
    if names != [] {
      var init, last := names[..|names| - 1], names[|names| - 1];
      assert forall i :: 0 <= i < |init| ==> init[i] == names[i];
      TagAttributesTransferredInOrder(init, arguments);
      var earlier := TagAttributeCalls(init, arguments);
      var calls := TagAttributeCalls(names, arguments);
      assert Lookup(arguments, last).Some?;
      TagAttributeStep(names, arguments);
      forall i | 0 <= i < |names|
        ensures calls[i] == Call.AddAttribute(names[i], Lookup(arguments, names[i]).value)
      {
        if i < |init| {
          assert calls[i] == earlier[i] && init[i] == names[i];
        }
      }
    }
  }

  /** Only registered names with a supplied value reach the tag, each with the
      value supplied for it, and only as single-attribute calls. */
  lemma {:induction false} TransferredAttributesAreSupplied(names: seq<string>, arguments: seq<(string, Value)>)
    ensures forall c :: c in TagAttributeCalls(names, arguments) ==>
      c.AddAttribute? && c.name in names && Lookup(arguments, c.name) == Some(c.value)
  {
    if names != [] {
      TransferredAttributesAreSupplied(names[..|names| - 1], arguments);
      assert forall n :: n in names[..|names| - 1] ==> n in names;
    }
  }

  /** `handleAdditionalArguments` passes on only `data-` entries, each exactly
      as it was supplied. */
  lemma {:induction false} HandledCallsAreDataEntries(additional: seq<(string, Value)>)
    ensures forall c :: c in HandledCalls(additional) ==>
      c.AddAttribute? && IsDataKey(c.name) && (c.name, c.value) in additional
  {
    if additional != [] {
      HandledCallsAreDataEntries(additional[..|additional| - 1]);
      assert forall e :: e in additional[..|additional| - 1] ==> e in additional;
    }
  }

  /** `validateAdditionalArguments` reports a key exactly when it is the key of
      a supplied entry and lacks the `data-` prefix. */
  lemma {:induction false} UnsupportedKeysAreNonDataKeys(additional: seq<(string, Value)>)
    ensures forall k :: k in UnsupportedKeys(additional) <==>
      exists i :: 0 <= i < |additional| && additional[i].0 == k && !IsDataKey(k)
  {
    if additional != [] {
      var init := additional[..|additional| - 1];
      UnsupportedKeysAreNonDataKeys(init);
      assert forall i :: 0 <= i < |init| ==> init[i] == additional[i];
    }
  }

  /** A trailing registered name with a supplied value adds exactly its own call. */
  lemma TagAttributeStep(names: seq<string>, arguments: seq<(string, Value)>)
    requires names != [] && Lookup(arguments, names[|names| - 1]).Some?
    ensures TagAttributeCalls(names, arguments) ==
      TagAttributeCalls(names[..|names| - 1], arguments)
        + [Call.AddAttribute(names[|names| - 1], Lookup(arguments, names[|names| - 1]).value)]
  {
  }

  /** With every registered name supplied and neither an `additionalAttributes`
      nor a `data` map supplied, the tag receives exactly one `addAttribute`
      per registered name before it is rendered, in registration order. */
  lemma RegisteredAttributesAloneInOrder(names: seq<string>, arguments: seq<(string, Value)>)
    requires forall i :: 0 <= i < |names| ==> Lookup(arguments, names[i]).Some?
    requires SuppliedMap(arguments, AdditionalAttributesArgument).None? && SuppliedMap(arguments, DataArgument).None?
    ensures |InitializeCalls(names, arguments)| == |names|
    ensures forall i :: 0 <= i < |names| ==>
      InitializeCalls(names, arguments)[i] == Call.AddAttribute(names[i], Lookup(arguments, names[i]).value)
  {
    TagAttributesTransferredInOrder(names, arguments);
    var transferred := TagAttributeCalls(names, arguments);
    assert InitializeCalls(names, arguments) == transferred + [] + [];
    assert transferred + [] + [] == transferred;
  }

  /** With the universal attributes registered, all eight supplied and neither
      an `additionalAttributes` nor a `data` map supplied, the tag receives
      exactly eight `addAttribute` calls before it is rendered, in the order
      class, dir, id, lang, style, title, accesskey, tabindex. */
  lemma UniversalAttributesTransferredInOrder(arguments: seq<(string, Value)>)
    requires forall i :: 0 <= i < |UniversalTagAttributes| ==> Lookup(arguments, UniversalTagAttributes[i]).Some?
    requires SuppliedMap(arguments, AdditionalAttributesArgument).None? && SuppliedMap(arguments, DataArgument).None?
    ensures |InitializeCalls(UniversalTagAttributes, arguments)| == 8
    ensures forall i :: 0 <= i < 8 ==>
      InitializeCalls(UniversalTagAttributes, arguments)[i]
        == Call.AddAttribute(UniversalTagAttributes[i], Lookup(arguments, UniversalTagAttributes[i]).value)
  {
    RegisteredAttributesAloneInOrder(UniversalTagAttributes, arguments);
  }

  /** Neither map argument is a universal attribute. */
  lemma UniversalNamesAreNotMapArguments()
    ensures AdditionalAttributesArgument !in UniversalTagAttributes && DataArgument !in UniversalTagAttributes
  {
  }

  /** A key that no supplied entry has supplies no map. */
  lemma AbsentKeySuppliesNoMap(arguments: seq<(string, Value)>, key: string)
    requires forall i :: 0 <= i < |arguments| ==> arguments[i].0 != key
    ensures SuppliedMap(arguments, key).None?
  {
    LookupFindsKey(arguments, key);
  }

  /** Every call sets a single attribute, and no two calls set the same one. */
  predicate NamesSetOnce(calls: seq<Call>)
  {
    forall i, j :: 0 <= i < j < |calls| ==>
      calls[i].AddAttribute? && calls[j].AddAttribute? && calls[i].name != calls[j].name
  }

  /** Registered names are distinct, so each registered attribute reaches the
      tag at most once. */
  lemma {:induction false} TagAttributesTransferredOnce(names: seq<string>, arguments: seq<(string, Value)>)
    requires Distinct(names)
    ensures NamesSetOnce(TagAttributeCalls(names, arguments))
  {
    if names != [] {
      var init, last := names[..|names| - 1], names[|names| - 1];
      assert Distinct(init);
      TagAttributesTransferredOnce(init, arguments);
      TransferredAttributesAreSupplied(init, arguments);
      var earlier := TagAttributeCalls(init, arguments);
      if Lookup(arguments, last).Some? {
        TagAttributeStep(names, arguments);
        var calls := TagAttributeCalls(names, arguments);
        assert last !in init;
        forall i, j | 0 <= i < j < |calls|
          ensures calls[i].AddAttribute? && calls[j].AddAttribute? && calls[i].name != calls[j].name
        {
          assert calls[i] == earlier[i] && earlier[i] in earlier;
          if j < |earlier| {
            assert calls[j] == earlier[j];
          } else {
            assert calls[j].name == last;
            assert calls[i].name in init;
          }
        }
      } else {
        assert TagAttributeCalls(names, arguments) == earlier;
      }
    } else {
      assert TagAttributeCalls(names, arguments) == [];
    }
  }

  /** Every registered name with a supplied value reaches the tag, carrying that value. */
  lemma {:induction false} SuppliedNameTransferred(names: seq<string>, arguments: seq<(string, Value)>, i: nat)
    requires i < |names| && Lookup(arguments, names[i]).Some?
    ensures Call.AddAttribute(names[i], Lookup(arguments, names[i]).value) in TagAttributeCalls(names, arguments)
  {
    var init, last := names[..|names| - 1], names[|names| - 1];
    if i == |names| - 1 {
      TagAttributeStep(names, arguments);
    } else {
      assert init[i] == names[i];
      SuppliedNameTransferred(init, arguments, i);
      TransferredCallsGrow(names, arguments);
    }
  }

  /** The calls for the registered names without the last one come first. */
  lemma TransferredCallsGrow(names: seq<string>, arguments: seq<(string, Value)>)
    requires names != []
    ensures TagAttributeCalls(names[..|names| - 1], arguments) <= TagAttributeCalls(names, arguments)
  {
    if Lookup(arguments, names[|names| - 1]).Some? {
      TagAttributeStep(names, arguments);
    }
  }

  /** Transfer follows registration order: the calls for the first `k`
      registered names are a prefix of the calls for all of them. */
  lemma {:induction false} TagAttributeCallsPrefix(names: seq<string>, arguments: seq<(string, Value)>, k: nat)
    requires k <= |names|
    ensures TagAttributeCalls(names[..k], arguments) <= TagAttributeCalls(names, arguments)
    decreases |names|
  {
    if k == |names| {
      assert names[..k] == names;
    } else {
      var init := names[..|names| - 1];
      assert init[..k] == names[..k];
      TagAttributeCallsPrefix(init, arguments, k);
      TransferredCallsGrow(names, arguments);
      var a, b, c := TagAttributeCalls(names[..k], arguments), TagAttributeCalls(init, arguments), TagAttributeCalls(names, arguments);
      assert a == b[..|a|] && b == c[..|b|];
      assert c[..|b|][..|a|] == c[..|a|];
    }
  }

  /** Rendering the tag happens exactly once, as the last call. */
  lemma RenderedExactlyOnce(tagAttributes: seq<string>, arguments: seq<(string, Value)>)
    ensures RenderCount(InitializeCalls(tagAttributes, arguments) + [Call.Render]) == 1
  {
    var calls := InitializeCalls(tagAttributes, arguments);
    TransferredAttributesAreSupplied(tagAttributes, arguments);
    SingleAttributeCallsOnly(TagAttributeCalls(tagAttributes, arguments));
    SingleAttributeCallsOnly(DataArgumentCalls(arguments));
    RenderCountAppend(TagAttributeCalls(tagAttributes, arguments), AdditionalAttributesCalls(arguments));
    RenderCountAppend(TagAttributeCalls(tagAttributes, arguments) + AdditionalAttributesCalls(arguments),
      DataArgumentCalls(arguments));
    RenderCountAppend(calls, [Call.Render]);
  }

  /** The `additionalAttributes` map reaches the tag in exactly one
      `addAttributes` call, carrying that identical map; without such a map no
      `addAttributes` call is made. */
  lemma AdditionalAttributesForwardedOnce(tagAttributes: seq<string>, arguments: seq<(string, Value)>)
    ensures ForwardedMaps(InitializeCalls(tagAttributes, arguments)) ==
      match SuppliedMap(arguments, AdditionalAttributesArgument)
      case Some(attributes) => [attributes]
      case None => []
  {
    TransferredAttributesAreSupplied(tagAttributes, arguments);
    SingleAttributeCallsOnly(TagAttributeCalls(tagAttributes, arguments));
    SingleAttributeCallsOnly(DataArgumentCalls(arguments));
    ForwardedMapsAppend(TagAttributeCalls(tagAttributes, arguments), AdditionalAttributesCalls(arguments));
    ForwardedMapsAppend(TagAttributeCalls(tagAttributes, arguments) + AdditionalAttributesCalls(arguments),
      DataArgumentCalls(arguments));
    var forwarded := AdditionalAttributesCalls(arguments);
    if forwarded != [] {
      assert forwarded[..0] == [];
    }
  }

  /** `handleAdditionalArguments` on `data-` keys only: one `addAttribute` per
      entry, with the key unchanged (no second prefix), in the map's order. */
  lemma {:induction false} DataKeysHandledVerbatim(additional: seq<(string, Value)>)
    requires forall i :: 0 <= i < |additional| ==> IsDataKey(additional[i].0)
    ensures |HandledCalls(additional)| == |additional|
    ensures forall i :: 0 <= i < |additional| ==>
      HandledCalls(additional)[i] == Call.AddAttribute(additional[i].0, additional[i].1)
  {
    if additional != [] {
      var init, last := additional[..|additional| - 1], additional[|additional| - 1];
      assert forall i :: 0 <= i < |init| ==> init[i] == additional[i];
      DataKeysHandledVerbatim(init);
      var earlier, calls := HandledCalls(init), HandledCalls(additional);
      assert IsDataKey(last.0);
      HandledDataKeyStep(additional);
      forall i | 0 <= i < |additional|
        ensures calls[i] == Call.AddAttribute(additional[i].0, additional[i].1)
      {
        if i < |init| {
          assert calls[i] == earlier[i] && init[i] == additional[i];
        }
      }
    }
  }

  /** A trailing `data-` entry adds exactly its own call after those of the entries before it. */
  lemma HandledDataKeyStep(additional: seq<(string, Value)>)
    requires additional != [] && IsDataKey(additional[|additional| - 1].0)
    ensures HandledCalls(additional) ==
      HandledCalls(additional[..|additional| - 1])
        + [Call.AddAttribute(additional[|additional| - 1].0, additional[|additional| - 1].1)]
  {
  }

  /** A `data-` entry of the additional arguments reaches the tag unchanged. */
  lemma {:induction false} DataEntryIsHandled(additional: seq<(string, Value)>, i: nat)
    requires i < |additional| && IsDataKey(additional[i].0)
    ensures Call.AddAttribute(additional[i].0, additional[i].1) in HandledCalls(additional)
  {
    var init, last := additional[..|additional| - 1], additional[|additional| - 1];
    var call := Call.AddAttribute(additional[i].0, additional[i].1);
    if i == |additional| - 1 {
      HandledDataKeyStep(additional);
    } else {
      assert init[i] == additional[i];
      DataEntryIsHandled(init, i);
      if IsDataKey(last.0) {
        HandledDataKeyStep(additional);
      } else {
        assert HandledCalls(additional) == HandledCalls(init);
      }
    }
  }

  /** Every additional argument is either passed to the tag by
      `handleAdditionalArguments` or reported by `validateAdditionalArguments`,
      never both: arguments that pass validation all reach the tag. */
  lemma {:induction false} HandledOrRejected(additional: seq<(string, Value)>)
    ensures |HandledCalls(additional)| + |UnsupportedKeys(additional)| == |additional|
    ensures forall i :: 0 <= i < |additional| ==>
      (Call.AddAttribute(additional[i].0, additional[i].1) in HandledCalls(additional) <==>
       additional[i].0 !in UnsupportedKeys(additional))
  {
    if additional != [] {
      HandledOrRejected(additional[..|additional| - 1]);
    }
    HandledCallsAreDataEntries(additional);
    UnsupportedKeysAreNonDataKeys(additional);
    forall i | 0 <= i < |additional| && IsDataKey(additional[i].0)
      ensures Call.AddAttribute(additional[i].0, additional[i].1) in HandledCalls(additional)
    {
      DataEntryIsHandled(additional, i);
    }
  }

  /** The three render-time steps, made one after another on a trace, append
      exactly `InitializeCalls`. */
  lemma InitializeCallsInSequence(before: seq<Call>, tagAttributes: seq<string>, arguments: seq<(string, Value)>)
    ensures before + TagAttributeCalls(tagAttributes, arguments) + AdditionalAttributesCalls(arguments)
      + DataArgumentCalls(arguments) == before + InitializeCalls(tagAttributes, arguments)
  {
  }

  // ---------------------------------------------------------------------------
  // The helper.

  class AbstractTagBasedViewHelper {
    /** The tag builder this helper owns. */
    var tag: TagBuilder
    var renderingContext: Option<RenderingContext>
    /** Declared arguments, in registration order. */
    var argumentDefinitions: seq<ArgumentDefinition>
    /** Names of declared arguments that are transferred to the tag, in registration order. */
    var tagAttributes: seq<string>
    /** The arguments supplied for this invocation. */
    var arguments: OrderedMap<Value>

    /** Declarations are unique and every tag attribute is a declared argument. */
    ghost predicate Valid()
      reads this
    {
      Distinct(DeclaredNames(argumentDefinitions))
      && Distinct(tagAttributes)
      && forall n :: n in tagAttributes ==> n in DeclaredNames(argumentDefinitions)
    }

    /** Registered names are distinct, so each registered attribute reaches
        the tag at most once when the arguments are transferred. */
    lemma EachAttributeTransferredOnce()
      requires Valid()
      ensures NamesSetOnce(TagAttributeCalls(tagAttributes, arguments))
    {
      TagAttributesTransferredOnce(tagAttributes, arguments);
    }

    constructor()
      ensures Valid()
      ensures fresh(tag) && tag.calls == []
      ensures renderingContext == None && argumentDefinitions == [] && tagAttributes == [] && arguments == []
    {
      tag := new TagBuilder("");
      renderingContext := None;
      argumentDefinitions := [];
      tagAttributes := [];
      arguments := [];
    }

    /** Replaces the owned tag builder. */
    method SetTagBuilder(builder: TagBuilder)
      modifies this
      ensures tag == builder
      ensures renderingContext == old(renderingContext) && arguments == old(arguments)
      ensures argumentDefinitions == old(argumentDefinitions) && tagAttributes == old(tagAttributes)
    {
      tag := builder;
    }

    method SetRenderingContext(context: RenderingContext)
      modifies this
      ensures renderingContext == Some(context)
      ensures tag == old(tag) && arguments == old(arguments)
      ensures argumentDefinitions == old(argumentDefinitions) && tagAttributes == old(tagAttributes)
    {
      renderingContext := Some(context);
    }

    /** Stores the supplied arguments, replacing earlier ones. */
    method SetArguments(supplied: OrderedMap<Value>)
      modifies this
      ensures arguments == supplied
      ensures tag == old(tag) && renderingContext == old(renderingContext)
      ensures argumentDefinitions == old(argumentDefinitions) && tagAttributes == old(tagAttributes)
    {
      arguments := supplied;
    }

    /** Declares an argument and marks it for transfer to the tag. Declaring a
        name twice is an error and changes nothing. */
    method RegisterTagAttribute(name: string, typeName: string, description: string, required: bool := false)
      returns (outcome: Outcome)
      requires Valid()
      modifies this
      ensures Valid()
      ensures outcome == if name in old(DeclaredNames(argumentDefinitions)) then Fail(DuplicateArgument(name)) else Pass
      ensures outcome.Pass? ==>
        argumentDefinitions == old(argumentDefinitions) + [ArgumentDefinition(name, typeName, description, required)]
        && tagAttributes == old(tagAttributes) + [name]
      ensures outcome.Fail? ==>
        argumentDefinitions == old(argumentDefinitions) && tagAttributes == old(tagAttributes)
      ensures tag == old(tag) && arguments == old(arguments) && renderingContext == old(renderingContext)
    {
      if name in DeclaredNames(argumentDefinitions) {
        outcome := Fail(DuplicateArgument(name));
      } else {
        ghost var before := DeclaredNames(argumentDefinitions);
        argumentDefinitions := argumentDefinitions + [ArgumentDefinition(name, typeName, description, required)];
        assert DeclaredNames(argumentDefinitions) == before + [name];
        tagAttributes := tagAttributes + [name];
        outcome := Pass;
      }
    }

    /** Registers the eight universal attributes, in their fixed order, as
        optional string arguments; the first name already declared stops the
        registration with an error, leaving the names before it registered. */
    method RegisterUniversalTagAttributes() returns (outcome: Outcome)
      requires Valid()
      modifies this
      ensures Valid()
      ensures outcome.Pass? <==> forall n :: n in UniversalTagAttributes ==> n !in old(DeclaredNames(argumentDefinitions))
      ensures outcome.Pass? ==>
        && argumentDefinitions == old(argumentDefinitions) + UniversalDefinitions(|UniversalTagAttributes|)
        && DeclaredNames(argumentDefinitions) == old(DeclaredNames(argumentDefinitions)) + UniversalTagAttributes
        && tagAttributes == old(tagAttributes) + UniversalTagAttributes
      ensures outcome.Fail? ==>
        exists k ::
          && 0 <= k < |UniversalTagAttributes|
          && outcome == Fail(DuplicateArgument(UniversalTagAttributes[k]))
          && UniversalTagAttributes[k] in old(DeclaredNames(argumentDefinitions))
          && argumentDefinitions == old(argumentDefinitions) + UniversalDefinitions(k)
          && DeclaredNames(argumentDefinitions) == old(DeclaredNames(argumentDefinitions)) + UniversalTagAttributes[..k]
          && tagAttributes == old(tagAttributes) + UniversalTagAttributes[..k]
      ensures tag == old(tag) && arguments == old(arguments) && renderingContext == old(renderingContext)
    {
      ghost var initial, declared := argumentDefinitions, DeclaredNames(argumentDefinitions);
      var i := 0;
      outcome := Pass;
      while i < |UniversalTagAttributes|
        invariant 0 <= i <= |UniversalTagAttributes|
        invariant Valid()
        invariant tagAttributes == old(tagAttributes) + UniversalTagAttributes[..i]
        invariant argumentDefinitions == initial + UniversalDefinitions(i)
        invariant forall k :: 0 <= k < i ==> UniversalTagAttributes[k] !in declared
        invariant tag == old(tag) && arguments == old(arguments) && renderingContext == old(renderingContext)
      {
        var name := UniversalTagAttributes[i];
        assert name !in UniversalTagAttributes[..i];
        DeclaredNamesAppend(initial, UniversalDefinitions(i));
        var result := RegisterTagAttribute(name, "string", "universal attribute " + name);
        if result.Fail? {
          outcome := result;
          assert outcome == Fail(DuplicateArgument(UniversalTagAttributes[i])) && name in declared;
          return;
        }
        assert UniversalTagAttributes[..i + 1] == UniversalTagAttributes[..i] + [name];
        assert UniversalDefinitions(i + 1) == UniversalDefinitions(i) + [UniversalDefinition(name)];
        i := i + 1;
      }
      assert UniversalTagAttributes[..i] == UniversalTagAttributes;
      DeclaredNamesAppend(initial, UniversalDefinitions(i));
    }

    /** The parse-time hook; this helper does nothing in it. */
    method PostParse(supplied: OrderedMap<Value>, parsingState: ParsingState, context: RenderingContext)
      ensures tag.calls == old(tag.calls) && arguments == old(arguments) && tagAttributes == old(tagAttributes)
    {
    }

    /** Renders the owned tag and returns exactly what the tag builder renders. */
    method Render() returns (output: string)
      modifies tag
      ensures output == tag.output
      ensures tag.calls == old(tag.calls) + [Call.Render]
    {
      output := tag.Render();
    }

    /** Transfers the arguments to the tag, then renders it. */
    method InitializeArgumentsAndRender() returns (output: string)
      modifies tag
      ensures output == tag.output
      ensures tag.calls == old(tag.calls) + InitializeCalls(tagAttributes, arguments) + [Call.Render]
    {
      ghost var before := tag.calls;
      TransferTagAttributes();
      ForwardAdditionalAttributes();
      ExpandDataArgument();
      InitializeCallsInSequence(before, tagAttributes, arguments);
      output := Render();
    }

    /** Hands a supplied `additionalAttributes` map to the tag in one `addAttributes` call. */
    method ForwardAdditionalAttributes()
      modifies tag
      ensures tag.calls == old(tag.calls) + AdditionalAttributesCalls(arguments)
    {
      var additional := SuppliedMap(arguments, AdditionalAttributesArgument);
      if additional.Some? {
        tag.AddAttributes(additional.value);
      }
    }

    /** Expands a supplied `data` map into `data-` attributes on the tag. */
    method ExpandDataArgument()
      modifies tag
      ensures tag.calls == old(tag.calls) + DataArgumentCalls(arguments)
    {
      var data := SuppliedMap(arguments, DataArgument);
      if data.Some? {
        ExpandDataAttributes(data.value);
      }
    }

    /** Gives the tag every registered attribute that has a supplied value, in registration order. */
    method TransferTagAttributes()
      modifies tag
      ensures tag.calls == old(tag.calls) + TagAttributeCalls(tagAttributes, arguments)
    {
      var i := 0;
      while i < |tagAttributes|
        invariant 0 <= i <= |tagAttributes|
        invariant tag.calls == old(tag.calls) + TagAttributeCalls(tagAttributes[..i], arguments)
      {
        var name := tagAttributes[i];
        assert tagAttributes[..i + 1][..i] == tagAttributes[..i];
        var supplied := Lookup(arguments, name);
        if supplied.Some? {
          tag.AddAttribute(name, supplied.value);
        }
        i := i + 1;
      }
      assert tagAttributes[..i] == tagAttributes;
    }

    /** Gives the tag one `data-` attribute per entry of `data`, in the map's order. */
    method ExpandDataAttributes(data: OrderedMap<Value>)
      modifies tag
      ensures tag.calls == old(tag.calls) + DataCalls(data)
    {
      var j := 0;
      while j < |data|
        invariant 0 <= j <= |data|
        invariant tag.calls == old(tag.calls) + DataCalls(data[..j])
      {
        assert data[..j + 1][..j] == data[..j];
        tag.AddAttribute(DataPrefix + data[j].0, data[j].1);
        j := j + 1;
      }
      assert data[..j] == data;
    }

    /** Passes every `data-` argument to the tag unchanged, in order. */
    method HandleAdditionalArguments(additional: OrderedMap<Value>)
      modifies tag
      ensures tag.calls == old(tag.calls) + HandledCalls(additional)
    {
      var i := 0;
      while i < |additional|
        invariant 0 <= i <= |additional|
        invariant tag.calls == old(tag.calls) + HandledCalls(additional[..i])
      {
        assert additional[..i + 1][..i] == additional[..i];
        var (name, value) := additional[i];
        if IsDataKey(name) {
          tag.AddAttribute(name, value);
        }
        i := i + 1;
      }
      assert additional[..i] == additional;
    }

    /** Fails, naming the offending keys in order, when some additional argument
        is not a `data-` argument. */
    method ValidateAdditionalArguments(additional: OrderedMap<Value>) returns (outcome: Outcome)
      ensures outcome.Pass? <==> forall i :: 0 <= i < |additional| ==> IsDataKey(additional[i].0)
      ensures outcome.Fail? ==> outcome == Fail(UnsupportedArguments(UnsupportedKeys(additional)))
    {
      var unassigned: seq<string> := [];
      var i := 0;
      while i < |additional|
        invariant 0 <= i <= |additional|
        invariant unassigned == UnsupportedKeys(additional[..i])
      {
        assert additional[..i + 1][..i] == additional[..i];
        if !IsDataKey(additional[i].0) {
          unassigned := unassigned + [additional[i].0];
        }
        i := i + 1;
      }
      assert additional[..i] == additional;
      UnsupportedKeysAreNonDataKeys(additional);
      if unassigned == [] {
        outcome := Pass;
      } else {
        assert unassigned[0] in unassigned;
        outcome := Fail(UnsupportedArguments(unassigned));
      }
    }
  }
}
