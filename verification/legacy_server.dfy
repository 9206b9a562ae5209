/** The stand-alone server (server/server.js): four endpoints that validate
    their input, consult the collaborators in a fixed order and map every
    collaborator failure to a 500. Its confirm endpoint reads the translated
    body from the field `translatedText`. */
module LegacyServer {
  import opened Base
  import opened Upstream
  import opened Http
  import opened DocumentSearch

  /** The field the confirm endpoint reads the translated body from. */
  const BodyField: string := "translatedText"

  /** GET /documents */
  method GetDocuments(query: map<string, string>, subdomain: string, up: Services)
    returns (res: Response, ghost calls: seq<Call>)
    ensures SearchAnswer(query, subdomain, up, res)
    ensures SearchCalls(query, calls)
  {
    var q := Field(query, "query");
    if !Truthy(q) {
      return BadRequest(QueryRequired), [];
    }
    calls := [Search(q.value)];
    match up.search(q.value)
    case Ok(docs) => res := Json(DocsJson(MapDocs(subdomain, docs)));
    case Err(_) => res := ServerError(SearchFailed);
  }

  /** GET /document */
  method GetDocument(query: map<string, string>, up: Services)
    returns (res: Response, ghost calls: seq<Call>)
    ensures FetchAnswer(query, up, res)
    ensures FetchCalls(query, calls)
  {
    var articleId := Field(query, "articleId");
    if !Truthy(articleId) {
      return BadRequest(ArticleIdRequired), [];
    }
    calls := [GetArticle(articleId.value)];
    match up.getArticle(articleId.value)
    case Ok(article) => res := Json(ArticleJson(article));
    case Err(_) => res := ServerError(FetchFailed);
  }

  /** GET /translate/preview */
  method GetTranslatePreview(query: map<string, string>, up: Services)
    returns (res: Response, ghost calls: seq<Call>)
    ensures PreviewAnswer(query, up, res)
    ensures PreviewCalls(query, up, calls)
  {
    var articleId := Field(query, "articleId");
    if !Truthy(articleId) {
      return BadRequest(ArticleIdRequired), [];
    }
    calls := [GetArticle(articleId.value)];
    var fetched := up.getArticle(articleId.value);
    if fetched.Err? {
      return ServerError(PreviewFailed), calls;
    }
    var article := fetched.value;
    calls := calls + [Translate(article.title)];
    var translatedTitle := up.translate(article.title);
    if translatedTitle.Err? {
      return ServerError(PreviewFailed), calls;
    }
    calls := calls + [Translate(article.body)];
    var translatedBody := up.translate(article.body);
    if translatedBody.Err? {
      return ServerError(PreviewFailed), calls;
    }
    res := Json(DraftJson(translatedTitle.value, translatedBody.value));
  }

  /** `addTranslation(articleId, translatedBody, translatedTitle)`: one
      publish of an en-us payload whose title is the third argument and whose
      body is the second. */
  method AddTranslation(up: Services, articleId: string, translatedBody: string, translatedTitle: string)
    returns (result: Outcome<Record>, ghost calls: seq<Call>)
    ensures |calls| == 1 && calls[0].PostTranslation? && calls[0].articleId == articleId
    ensures calls[0].payload.locale == TargetLocale
    ensures calls[0].payload.title == translatedTitle && calls[0].payload.body == translatedBody
    ensures result == up.postTranslation(articleId, Payload(TargetLocale, translatedTitle, translatedBody))
  {
    var payload := EnglishPayload(translatedBody, translatedTitle);
    calls := [PostTranslation(articleId, payload)];
    result := up.postTranslation(articleId, payload);
  }

  /** POST /translate/confirm */
  method PostTranslateConfirm(req: map<string, string>, up: Services)
    returns (res: Response, ghost calls: seq<Call>)
    ensures ConfirmAnswer(req, BodyField, up, res)
    ensures ConfirmCalls(req, BodyField, calls)
  {
    var articleId := Field(req, "articleId");
    var translatedText := Field(req, BodyField);
    var translatedTitle := Field(req, "translatedTitle");
    if !Truthy(articleId) || !Truthy(translatedText) || !Truthy(translatedTitle) {
      return BadRequest(FieldsRequired(BodyField)), [];
    }
    var result;
    result, calls := AddTranslation(up, articleId.value, translatedText.value, translatedTitle.value);
    match result
    case Ok(record) => res := Json(RecordJson(record));
    case Err(_) => res := ServerError(PublishFailed);
  }
}
