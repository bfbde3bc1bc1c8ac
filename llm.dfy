/** The language-model collaborator: which LangChain class a model object is, and what one call
    to `ainvoke` hands back. The call itself is an uninterpreted function. */
module Llm {
  import opened PyText
  import opened JsonData

  /** The LangChain classes the source tests a model object against. */
  datatype Family = GoogleGenerativeAI | ChatOpenAI | ChatDeepSeek | OpenAI | OtherModel

  /** `exact` is `type(model) is <class of family>`; when false the object is an instance of a
      subclass (for `OtherModel` it is irrelevant). */
  datatype ModelClass = ModelClass(family: Family, exact: bool)

  /** What `await model.ainvoke(prompt)` returns: the `.text` and `.content` attributes when the
      object has them, `str(response)`, and the outcome of looking up
      `response.response_metadata.get('token_usage').get('completion_tokens')`. */
  datatype ModelResponse = ModelResponse(
    text: Option<string>,
    content: Option<string>,
    shown: string,
    completionTokens: Attempt<Json>)

  /** A model object: its class and its `ainvoke`, which either returns or raises. */
  datatype LanguageModel = LanguageModel(cls: ModelClass, invoke: string -> Attempt<ModelResponse>)

  /** A plain `str` reply, as a completion model returns: it has neither `.text`, `.content`
      nor `.response_metadata`. */
  function PlainReply(s: string): (r: ModelResponse)
    ensures r.text.None? && r.content.None? && r.shown == s && r.completionTokens.Raised?
  {
    ModelResponse(None, None, s, Raised("'str' object has no attribute 'response_metadata'"))
  }
}
