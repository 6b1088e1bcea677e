/** The collaborators a view helper is handed but never inspects in this model. */
module RenderingContexts {
  import opened PhpArrays

  /** The per-render bundle of variables; variable lookup, helper resolution and
      escaping are not part of this model, so the context is carried unread. */
  datatype RenderingContext = RenderingContext(variables: OrderedMap<Value>)

  /** The parser's state while a template is parsed, passed to parse-time hooks. */
  datatype ParsingState = ParsingState
}
