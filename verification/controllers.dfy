/** The controller for GET /document (api/controllers/documentController.js):
    a guard, one call to the content service, and a response on each branch. */
module DocumentController {
  import opened Base
  import opened Upstream
  import opened Http

  /** `getSingleDocument` */
  method GetSingleDocument(query: map<string, string>, up: Services)
    returns (res: Response, ghost calls: seq<Call>)
    ensures FetchAnswer(query, up, res)
    ensures FetchCalls(query, calls)
  {
    var articleId := Field(query, "articleId");
    if !Truthy(articleId) {
      return BadRequest(ArticleIdRequired), [];
    }
    calls := [GetArticle(articleId.value)];
    var article := up.getArticle(articleId.value);
    if article.Err? {
      return ServerError(FetchFailed), calls;
    }
    res := Json(ArticleJson(article.value));
  }
}

/** The controllers for the translation endpoints
    (api/controllers/translateController.js). The confirm controller reads
    the translated body from `translatedBody` and publishes through the
    content service's `addTranslation(articleId, translatedBody,
    translatedTitle)`, which posts an en-us payload with that title and body. */
module TranslateController {
  import opened Base
  import opened Upstream
  import opened Http

  /** The field the confirm controller reads the translated body from. */
  const BodyField: string := "translatedBody"

  /** `previewTranslation` */
  method PreviewTranslation(query: map<string, string>, up: Services)
    returns (res: Response, ghost calls: seq<Call>)
    ensures PreviewAnswer(query, up, res)
    ensures PreviewCalls(query, up, calls)
  {
    var articleId := Field(query, "articleId");
    if !Truthy(articleId) {
      return BadRequest(ArticleIdRequired), [];
    }
    calls := [GetArticle(articleId.value)];
    var article := up.getArticle(articleId.value);
    if article.Err? {
      return ServerError(PreviewFailed), calls;
    }
    calls := calls + [Translate(article.value.title)];
    var translatedTitle := up.translate(article.value.title);
    if translatedTitle.Err? {
      return ServerError(PreviewFailed), calls;
    }
    calls := calls + [Translate(article.value.body)];
    var translatedBody := up.translate(article.value.body);
    if translatedBody.Err? {
      return ServerError(PreviewFailed), calls;
    }
    res := Json(DraftJson(translatedTitle.value, translatedBody.value));
  }

  /** `confirmTranslation` */
  method ConfirmTranslation(req: map<string, string>, up: Services)
    returns (res: Response, ghost calls: seq<Call>)
    ensures ConfirmAnswer(req, BodyField, up, res)
    ensures ConfirmCalls(req, BodyField, calls)
  {
    var articleId := Field(req, "articleId");
    var translatedBody := Field(req, BodyField);
    var translatedTitle := Field(req, "translatedTitle");
    if !Truthy(articleId) || !Truthy(translatedBody) || !Truthy(translatedTitle) {
      return BadRequest(FieldsRequired(BodyField)), [];
    }
    var payload := EnglishPayload(translatedBody.value, translatedTitle.value);
    calls := [PostTranslation(articleId.value, payload)];
    var result := up.postTranslation(articleId.value, payload);
    if result.Err? {
      return ServerError(PublishFailed), calls;
    }
    res := Json(RecordJson(result.value));
  }
}
