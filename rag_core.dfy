/**
 * Prompt selection: which of the two chat prompt templates the chain uses,
 * and the messages that template produces for a chain input. The chain pipes
 * the prompt into the model and a string output parser; the model is kept as
 * a type parameter and its output is not computed here.
 */
module RagCore {
  import opened Wrappers

  /** The chain's input: the dictionary `{"question": ...}`. */
  datatype ChainInput = ChainInput(question: string)

  /**
   * What fills a message slot: a string, or the whole chain input, which the
   * context chain hands through unchanged to the `{question}` placeholder.
   */
  datatype Content = Text(text: string) | WholeInput(input: ChainInput)

  datatype Message = Message(role: string, content: Content)

  /** The two prompt templates; the context one carries the context string. */
  datatype Template = SimpleTemplate | ContextTemplate(context: string)

  /** prompt | llm | StrOutputParser(). */
  datatype Chain<M> = Chain(template: Template, llm: M)

  const Instruction := "You are a helpful AI assistant. Answer the user's questions clearly and concisely."

  const ContextPreamble := " Use the following provided context if relevant:\n\n---\nContext:\n"

  const ContextClose := "\n---\n"

  /** The system text of the context template with `{context}` filled in. */
  function ContextSystemText(context: string): string {
    Instruction + ContextPreamble + context + ContextClose
  }

  /** Python truthiness of an optional string: present and non-empty. */
  predicate Truthy(s: Option<string>) {
    s.Some? && s.value != ""
  }

  /**
   * get_llm_chain: the context template, carrying `contextData`, exactly when
   * `useRagContext` is set and `contextData` is a non-empty string; the simple
   * template otherwise. The model is used as given.
   */
  function GetLlmChain<M>(llm: M, useRagContext: bool := false, contextData: Option<string> := None): (c: Chain<M>)
    ensures c.llm == llm
    ensures c.template.ContextTemplate? <==> useRagContext && Truthy(contextData)
    ensures c.template.ContextTemplate? ==> c.template.context == contextData.value
  {
    if useRagContext && Truthy(contextData) then Chain(ContextTemplate(contextData.value), llm)
    else Chain(SimpleTemplate, llm)
  }

  /**
   * The messages the chain's prompt produces for `input`: a system message
   * and then a user message. The simple template puts the question in the
   * user slot; the context chain puts the whole input there.
   */
  function PromptMessages<M>(c: Chain<M>, input: ChainInput): (msgs: seq<Message>)
    ensures |msgs| == 2 && msgs[0].role == "system" && msgs[1].role == "user"
    ensures msgs[0].content.Text? && Instruction <= msgs[0].content.text
    ensures c.template.SimpleTemplate? ==> msgs[1].content == Text(input.question)
    ensures c.template.ContextTemplate? ==> msgs[1].content == WholeInput(input)
  {
    match c.template
    case SimpleTemplate =>
      [Message("system", Text(Instruction)), Message("user", Text(input.question))]
    case ContextTemplate(context) =>
      [Message("system", Text(ContextSystemText(context))), Message("user", WholeInput(input))]
  }

  /** Called with its defaults, get_llm_chain always chooses the simple template. */
  lemma DefaultChainIsSimple<M>(llm: M, input: ChainInput)
    ensures GetLlmChain(llm).template == SimpleTemplate
    ensures PromptMessages(GetLlmChain(llm), input) ==
            [Message("system", Text(Instruction)), Message("user", Text(input.question))]
  {
  }

  /**
   * The context string can be read back from the system text: it sits
   * between the fixed preamble and the closing rule.
   */
  lemma ContextRecoverable(context: string)
    ensures var t := ContextSystemText(context);
            var start := |Instruction + ContextPreamble|;
            |t| == start + |context| + |ContextClose| && t[start..start + |context|] == context
  {
    var t := ContextSystemText(context);
    var start := |Instruction + ContextPreamble|;
    assert t == (Instruction + ContextPreamble) + context + ContextClose;
    assert t[start..start + |context|] == context;
  }
}
