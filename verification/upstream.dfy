/** The collaborators the request handlers depend on: the helpdesk content
    service (fetch one article, search articles, publish a translation) and the
    machine-translation service. Each is an oracle: a function from the
    request it receives to the outcome it returns, so that a handler's
    behaviour can be stated for every possible answer. The HTTP transport,
    URLs and credentials behind them are not part of this model. */
module Upstream {
  import opened Base

  /** An article as the content service returns it; only the fields the
      workflow reads are kept. */
  datatype Article = Article(id: string, title: string, body: string)

  /** One hit of the article search; `enTitle` and `enBody` are read but the
      service need not supply them. */
  datatype SearchHit = SearchHit(
    id: string, title: string, body: string,
    enTitle: Option<string>, enBody: Option<string>)

  /** The content service's answer to a publish, passed on untouched. */
  datatype Record = Record(raw: string)

  /** The `translation` object posted to the content service. */
  datatype Payload = Payload(locale: string, title: string, body: string)

  /** The only locale a translation is ever published in. */
  const TargetLocale: string := "en-us"

  /** The publish payload that `addTranslation(articleId, translatedBody,
      translatedTitle)` builds: note that the body is the first text
      parameter and the title the second, the reverse of the payload. */
  function EnglishPayload(translatedBody: string, translatedTitle: string): Payload
  {
    Payload(TargetLocale, translatedTitle, translatedBody)
  }

  /** One request made to a collaborator. */
  datatype Call =
    | GetArticle(articleId: string)
    | Translate(text: string)
    | PostTranslation(articleId: string, payload: Payload)
    | Search(query: string)

  /** The collaborators, each answering every request it may receive. */
  datatype Services = Services(
    getArticle: string -> Outcome<Article>,
    translate: string -> Outcome<string>,
    postTranslation: (string, Payload) -> Outcome<Record>,
    search: string -> Outcome<seq<SearchHit>>)
}
