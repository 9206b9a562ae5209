/** The whole workflow, client and server together: the admin session's
    requests are answered by one of the two servers, whose answers come back
    to the session the way axios delivers them. The client and the two
    servers disagree on the name of the field that carries the translated
    body, and this module states what that does to a save. */
module Workflow {
  import opened Base
  import opened Upstream
  import opened Http
  import Admin
  import LegacyServer
  import ApiServer
  import TranslateController

  /** The query string of the client's GET requests. */
  function QueryOf(articleId: string): map<string, string>
  {
    map["articleId" := articleId]
  }

  /** What a failed request reports: the server's `error` text. */
  function ErrorText(res: Response): string
  {
    if res.body.ErrorJson? then res.body.error else ""
  }

  /** axios resolves with the payload of a 200 and throws otherwise. */
  function ArticleReply(res: Response): Outcome<Article>
  {
    if res.status == 200 && res.body.ArticleJson? then Ok(res.body.article) else Err(ErrorText(res))
  }

  function DraftReply(res: Response): Outcome<Admin.Draft>
  {
    if res.status == 200 && res.body.DraftJson? then
      Ok(Admin.Draft(res.body.translatedTitle, res.body.translatedBody))
    else
      Err(ErrorText(res))
  }

  function RecordReply(res: Response): Outcome<Record>
  {
    if res.status == 200 && res.body.RecordJson? then Ok(res.body.record) else Err(ErrorText(res))
  }

  /** The body of every save the client can send carries the English body
      under `translatedText`: the stand-alone server's guard accepts it, the
      refactored server's and the controller's guards reject it. */
  lemma SaveBodyMeetsOnlyLegacyGuard(d: Admin.Document)
    requires Admin.CanSave(Some(d)) && d.id != ""
    ensures ConfirmFieldsPresent(Admin.ConfirmRequestBody(d), LegacyServer.BodyField)
    ensures !ConfirmFieldsPresent(Admin.ConfirmRequestBody(d), ApiServer.BodyField)
    ensures !ConfirmFieldsPresent(Admin.ConfirmRequestBody(d), TranslateController.BodyField)
  {
    var body := Admin.ConfirmRequestBody(d);
    assert "translatedBody" !in body;
  }

  /** A session that fetches an article, translates it and saves the draft,
      served by the stand-alone server, when every collaborator but the
      publish succeeds and the translations are non-empty: the content service
      sees the fetch twice, the translator the title then the body, and the
      publish of exactly the draft that was previewed; the session records the
      translation as saved exactly when the publish succeeds. */
  method PublishViaLegacyServer(articleId: string, up: Services)
    returns (saved: bool, ghost calls: seq<Call>)
    requires articleId != ""
    requires up.getArticle(articleId).Ok? && up.getArticle(articleId).value.id == articleId
    requires var a := up.getArticle(articleId).value;
      && up.translate(a.title).Ok? && up.translate(a.title).value != ""
      && up.translate(a.body).Ok? && up.translate(a.body).value != ""
    ensures var a := up.getArticle(articleId).value;
      var payload := Payload(TargetLocale, up.translate(a.title).value, up.translate(a.body).value);
      calls == [GetArticle(articleId), GetArticle(articleId), Translate(a.title), Translate(a.body),
                PostTranslation(articleId, payload)]
    ensures var a := up.getArticle(articleId).value;
      var payload := Payload(TargetLocale, up.translate(a.title).value, up.translate(a.body).value);
      saved == up.postTranslation(articleId, payload).Ok?
  {
    ghost var a := up.getArticle(articleId).value;
    ghost var title, text := up.translate(a.title).value, up.translate(a.body).value;
    var session := new Admin.TranslationAdmin();
    session.SetDocIdInput(articleId);

    var res;
    ghost var c;
    res, c := LegacyServer.GetDocument(QueryOf(articleId), up);
    assert res == Json(ArticleJson(a));
    var sent := session.FetchDocumentById(ArticleReply(res));
    assert sent == Some(Admin.GetDocument(articleId));
    assert session.document == Some(Admin.Document(articleId, a.title, a.body, None, None, false));
    calls := c;

    res, c := LegacyServer.GetTranslatePreview(QueryOf(session.document.value.id), up);
    assert res == Json(DraftJson(title, text));
    sent := session.TranslateDocument(DraftReply(res));
    assert sent == Some(Admin.GetPreview(articleId));
    assert session.document == Some(Admin.Document(articleId, a.title, a.body, Some(title), Some(text), false));
    calls := calls + c;

    var body := Admin.ConfirmRequestBody(session.document.value);
    SaveBodyMeetsOnlyLegacyGuard(session.document.value);
    res, c := LegacyServer.PostTranslateConfirm(body, up);
    assert c == [PostTranslation(articleId, Payload(TargetLocale, title, text))];
    sent := session.SaveTranslation(RecordReply(res));
    assert sent == Some(Admin.PostConfirm(body));
    calls := calls + c;

    saved := session.document.value.translationSaved;
  }

  /** The same session served by the refactored server: the fetch and the
      preview succeed, but the save is answered with 400 because the client
      names the body field `translatedText`; nothing is published, the
      translation is not recorded as saved, and the last log line reports the
      400's text. */
  method PublishViaApiServer(articleId: string, up: Services)
    returns (saved: bool, lastLog: Admin.LogEntry, ghost calls: seq<Call>)
    requires articleId != ""
    requires up.getArticle(articleId).Ok? && up.getArticle(articleId).value.id == articleId
    requires var a := up.getArticle(articleId).value;
      && up.translate(a.title).Ok? && up.translate(a.title).value != ""
      && up.translate(a.body).Ok? && up.translate(a.body).value != ""
    ensures var a := up.getArticle(articleId).value;
      calls == [GetArticle(articleId), GetArticle(articleId), Translate(a.title), Translate(a.body)]
    ensures !saved
    ensures lastLog == Admin.Entry(Admin.Save, articleId, Admin.Failed(FieldsRequired(ApiServer.BodyField)))
  {
    var session := new Admin.TranslationAdmin();
    session.SetDocIdInput(articleId);

    var res;
    ghost var c;
    res, c := ApiServer.GetDocument(QueryOf(articleId), up);
    var sent := session.FetchDocumentById(ArticleReply(res));
    assert sent == Some(Admin.GetDocument(articleId));
    calls := c;

    res, c := ApiServer.GetTranslatePreview(QueryOf(session.document.value.id), up);
    sent := session.TranslateDocument(DraftReply(res));
    assert sent == Some(Admin.GetPreview(articleId));
    calls := calls + c;

    var body := Admin.ConfirmRequestBody(session.document.value);
    SaveBodyMeetsOnlyLegacyGuard(session.document.value);
    res, c := ApiServer.PostTranslateConfirm(body, up);
    sent := session.SaveTranslation(RecordReply(res));
    assert sent == Some(Admin.PostConfirm(body));
    calls := calls + c;

    saved := session.document.value.translationSaved;
    lastLog := session.logs[|session.logs| - 1];
  }
}
