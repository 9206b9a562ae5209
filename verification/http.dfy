/** The HTTP surface shared by the two servers and the controllers: what a
    handler writes to `res`, the error texts it uses, and, for each endpoint,
    the contract every implementation of it keeps: which collaborator calls it
    makes, in which order, and which response it writes for every outcome of
    those calls. Each contract comes in two halves: what the endpoint answers,
    and what it asks of the collaborators. */
module Http {
  import opened Base
  import opened Upstream
  import opened DocumentSearch

  /** The JSON a handler writes. */
  datatype Body =
    | ErrorJson(error: string)
    | ArticleJson(article: Article)
    | DraftJson(translatedTitle: string, translatedBody: string)
    | RecordJson(record: Record)
    | DocsJson(docs: seq<MappedDoc>)

  datatype Response = Response(status: int, body: Body)

  /** `res.json(body)` */
  function Json(body: Body): Response { Response(200, body) }

  /** `res.status(400).json({ error })` */
  function BadRequest(error: string): Response { Response(400, ErrorJson(error)) }

  /** `res.status(500).json({ error })` */
  function ServerError(error: string): Response { Response(500, ErrorJson(error)) }

  const ArticleIdRequired: string := "articleId parameter is required"
  const QueryRequired: string := "query parameter is required"
  const FetchFailed: string := "Failed to fetch document"
  const PreviewFailed: string := "Failed to preview translation"
  const PublishFailed: string := "Failed to add translation"
  const SearchFailed: string := "Failed to search documents"

  /** The 400 text of a confirm endpoint that reads the body text from `bodyField`. */
  function FieldsRequired(bodyField: string): string
  {
    "articleId, " + bodyField + ", and translatedTitle are required"
  }

  /** The confirm guard: the article id, the body text (under `bodyField`)
      and the title must all be truthy. */
  predicate ConfirmFieldsPresent(req: map<string, string>, bodyField: string)
  {
    && Truthy(Field(req, "articleId"))
    && Truthy(Field(req, bodyField))
    && Truthy(Field(req, "translatedTitle"))
  }

  /** GET /document, what it answers: without an article id, 400; otherwise
      the fetched article unchanged, or 500 when the fetch fails. */
  ghost predicate FetchAnswer(query: map<string, string>, up: Services, res: Response)
  {
    var id := Field(query, "articleId");
    if !Truthy(id) then
      res == BadRequest(ArticleIdRequired)
    else
      && (up.getArticle(id.value).Ok? ==> res == Json(ArticleJson(up.getArticle(id.value).value)))
      && (up.getArticle(id.value).Err? ==> res == ServerError(FetchFailed))
  }

  /** GET /document, what it asks: nothing without an article id, otherwise
      exactly one fetch of that id. */
  ghost predicate FetchCalls(query: map<string, string>, calls: seq<Call>)
  {
    var id := Field(query, "articleId");
    if !Truthy(id) then calls == [] else calls == [GetArticle(id.value)]
  }

  /** GET /translate/preview, what it answers: without an article id, 400;
      the draft only when the fetch and both translations succeeded; any
      failure is a 500 that carries no part of the draft. */
  ghost predicate PreviewAnswer(query: map<string, string>, up: Services, res: Response)
  {
    var id := Field(query, "articleId");
    if !Truthy(id) then
      res == BadRequest(ArticleIdRequired)
    else
      var fetched := up.getArticle(id.value);
      if && fetched.Ok?
         && up.translate(fetched.value.title).Ok?
         && up.translate(fetched.value.body).Ok?
      then
        res == Json(DraftJson(up.translate(fetched.value.title).value,
                              up.translate(fetched.value.body).value))
      else
        res == ServerError(PreviewFailed)
  }

  /** GET /translate/preview, what it asks: nothing without an article id;
      otherwise the article is fetched, then its title translated, then its
      body, each call made only when the previous one succeeded. */
  ghost predicate PreviewCalls(query: map<string, string>, up: Services, calls: seq<Call>)
  {
    var id := Field(query, "articleId");
    if !Truthy(id) then
      calls == []
    else
      var fetched := up.getArticle(id.value);
      && 1 <= |calls| <= 3
      && calls[0] == GetArticle(id.value)
      && (|calls| >= 2 <==> fetched.Ok?)
      && (fetched.Ok? ==> calls[1] == Translate(fetched.value.title))
      && (|calls| == 3 <==> fetched.Ok? && up.translate(fetched.value.title).Ok?)
      && (|calls| == 3 ==> calls[2] == Translate(fetched.value.body))
  }

  /** POST /translate/confirm reading the body text from `bodyField`, what it
      answers: unless the article id, the body text and the title are all
      truthy, 400; otherwise the content service's answer to publishing that
      title and body in locale en-us, unchanged, or 500 when the publish
      fails. */
  ghost predicate ConfirmAnswer(req: map<string, string>, bodyField: string, up: Services, res: Response)
  {
    if !ConfirmFieldsPresent(req, bodyField) then
      res == BadRequest(FieldsRequired(bodyField))
    else
      var published := up.postTranslation(req["articleId"],
                                           Payload(TargetLocale, req["translatedTitle"], req[bodyField]));
      && (published.Ok? ==> res == Json(RecordJson(published.value)))
      && (published.Err? ==> res == ServerError(PublishFailed))
  }

  /** POST /translate/confirm, what it asks: nothing unless the three fields
      are truthy; otherwise exactly one publish for that article, in locale
      en-us, with the request's title and body text. */
  ghost predicate ConfirmCalls(req: map<string, string>, bodyField: string, calls: seq<Call>)
  {
    if !ConfirmFieldsPresent(req, bodyField) then
      calls == []
    else
      && |calls| == 1
      && calls[0].PostTranslation?
      && calls[0].articleId == req["articleId"]
      && calls[0].payload.locale == TargetLocale
      && calls[0].payload.title == req["translatedTitle"]
      && calls[0].payload.body == req[bodyField]
  }

  /** GET /documents, what it answers: without a query, 400; otherwise the
      hits through the projection, or 500 when the search fails. */
  ghost predicate SearchAnswer(query: map<string, string>, subdomain: string, up: Services, res: Response)
  {
    var q := Field(query, "query");
    if !Truthy(q) then
      res == BadRequest(QueryRequired)
    else
      && (up.search(q.value).Ok? ==> res == Json(DocsJson(MapDocs(subdomain, up.search(q.value).value))))
      && (up.search(q.value).Err? ==> res == ServerError(SearchFailed))
  }

  /** GET /documents, what it asks: nothing without a query, otherwise
      exactly one search. */
  ghost predicate SearchCalls(query: map<string, string>, calls: seq<Call>)
  {
    var q := Field(query, "query");
    if !Truthy(q) then calls == [] else calls == [Search(q.value)]
  }

  /** On every endpoint a request is rejected with 400 exactly when no
      collaborator was consulted: validation happens before any call, and a
      request that passes it is never answered with 400. */
  lemma ValidationPrecedesCalls(query: map<string, string>, req: map<string, string>, bodyField: string,
                                subdomain: string, up: Services, res: Response, calls: seq<Call>)
    ensures FetchAnswer(query, up, res) && FetchCalls(query, calls) ==>
              (res.status == 400 <==> calls == [])
    ensures PreviewAnswer(query, up, res) && PreviewCalls(query, up, calls) ==>
              (res.status == 400 <==> calls == [])
    ensures ConfirmAnswer(req, bodyField, up, res) && ConfirmCalls(req, bodyField, calls) ==>
              (res.status == 400 <==> calls == [])
    ensures SearchAnswer(query, subdomain, up, res) && SearchCalls(query, calls) ==>
              (res.status == 400 <==> calls == [])
  {
  }
}
