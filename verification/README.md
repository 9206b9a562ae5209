# Document translation workflow, modelled in Dafny

A localisation team pulls a Korean help-centre article from the content
service, gets a machine-translated English draft, reviews it, and publishes
it back as the `en-us` translation of the article. Two pieces of logic make
up that workflow, and this project models both:

- **The admin session** (`client/src/components/TranslationAdmin.js`). It is
  a screen holding the loaded document, the id typed by the user, a loading
  flag and an append-only status log. Three operations update it: fetch,
  translate and save. Each one checks a guard, logs a start line, issues one
  request and logs how the request ended. This is modelled as the class
  `Admin.TranslationAdmin`, with those four fields. Each method takes the
  outcome of its HTTP request as a parameter and returns the request it
  issued. Its class invariant is that nothing is loading between operations
  and that the log is a succession of completed rounds.
- **The request handlers**. There are three copies:
  - `server/server.js`, modelled as `LegacyServer`;
  - `api/server.js`, modelled as `ApiServer`;
  - `api/controllers/*.js`, modelled as `DocumentController` and
    `TranslateController`.

  Each handler checks its required fields, calls its collaborators in a
  fixed order and maps any failure to a 500. Each one is a method that
  returns the response together with a ghost log of the collaborator calls it
  made. The collaborators are the content service and the translation
  service. They are oracles: function-valued fields of `Upstream.Services`.
  All copies of an endpoint satisfy one contract, defined in `Http` in two
  halves: what the endpoint answers (`FetchAnswer`, `PreviewAnswer`,
  `ConfirmAnswer`, `SearchAnswer`) and what it asks of its collaborators
  (`FetchCalls`, `PreviewCalls`, `ConfirmCalls`, `SearchCalls`).

`Workflow` joins the two pieces. The client sends the translated body under
the field `translatedText`. The stand-alone server reads that field. The
refactored server and its controller read `translatedBody` instead, so every
save the client sends them is answered with 400 and nothing is published.

JavaScript's `!x` on a string field is modelled as "absent or empty"
(`Base.Truthy`). Request queries and bodies are maps from field names to
strings. Article ids are strings.

## Model

| member | source | states |
|---|---|---|
| `Base.OrEmpty` | server/server.js:54-55 | the `''` default of a string field gives the field's text when it is truthy and `''` when it is absent or empty |
| `DocumentSearch.MapDocs` | server/server.js:50-57 | the `/documents` projection yields exactly one record per search hit |
| `DocumentSearch.MapDocsAt` | server/server.js:50-57 | record k comes from hit k. Its id, title and body are kept; `enTitle`/`enBody` default to `''` when missing or empty; `articleUrl` is the article-page prefix followed by the hit's id |
| `DocumentSearch.ArticleUrlDeterminesId` | server/server.js:56 | the derived `articleUrl` identifies the article: equal links on one help centre mean equal ids |
| `Http.ValidationPrecedesCalls` | server/server.js:69-72 | on all four endpoints a response is 400 exactly when no collaborator was called |
| `LegacyServer.GetDocuments` | server/server.js:43-62 | no `query`: 400 and no call. Otherwise exactly one search with that query; its hits are answered through the projection, and a failure gives 500 "Failed to search documents" |
| `LegacyServer.GetDocument` | server/server.js:68-90 | no `articleId`: 400 and no call. Otherwise exactly one fetch of that id; the article is returned unchanged, and a failure gives 500 "Failed to fetch document" |
| `LegacyServer.GetTranslatePreview` | server/server.js:96-121 | no `articleId`: 400 and no call. Otherwise: fetch, then translate the title, then translate the body, each only after the previous one succeeded. `{translatedTitle, translatedBody}` is answered only when all three succeed; any failure gives 500 "Failed to preview translation" with no part of the draft |
| `LegacyServer.AddTranslation` | server/server.js:143-170 | exactly one publish for the article, with locale `en-us`, title = third argument and body = second argument; the upstream answer is passed through |
| `LegacyServer.PostTranslateConfirm` | server/server.js:176-195 | 400 and no call unless `articleId`, `translatedText` and `translatedTitle` are all truthy. Otherwise exactly one publish with locale `en-us`, title = `translatedTitle` and body = `translatedText`. The upstream record is returned unchanged; a failure gives 500 "Failed to add translation" |
| `ApiServer.GetDocuments` | api/server.js:41-59 | as `LegacyServer.GetDocuments` |
| `ApiServer.GetDocument` | api/server.js:62-82 | as `LegacyServer.GetDocument` |
| `ApiServer.GetTranslatePreview` | api/server.js:97-120 | as `LegacyServer.GetTranslatePreview` |
| `ApiServer.AddTranslation` | api/server.js:123-147 | as `LegacyServer.AddTranslation` |
| `ApiServer.PostTranslateConfirm` | api/server.js:149-166 | as `LegacyServer.PostTranslateConfirm`, except that it requires and publishes `translatedBody` (not `translatedText`), and its 400 text names `translatedBody` |
| `DocumentController.GetSingleDocument` | api/controllers/documentController.js:4-16 | no `articleId`: 400 and `getDocument` is not called. Otherwise `getDocument` is called exactly once with that id; its article is returned unchanged, and a failure gives 500 "Failed to fetch document" |
| `TranslateController.PreviewTranslation` | api/controllers/translateController.js:18-30 | no `articleId`: 400 and no call. Otherwise `getDocument`, then `translateText(title)`, then `translateText(body)`, each at most once and in that order. The response is exactly `{translatedTitle, translatedBody}` when all succeed, else 500 with no partial draft |
| `TranslateController.ConfirmTranslation` | api/controllers/translateController.js:32-48 | any of `articleId`, `translatedBody`, `translatedTitle` empty or missing: 400 and `addTranslation` is not called. Otherwise exactly one `addTranslation` (an en-us payload with that title and body); its result is returned unchanged, and a failure gives 500 |
| `Admin.BalancedConcat` | client/src/components/TranslationAdmin.js:14-31 | appending complete rounds to a balanced log keeps it balanced. A round is a lone "enter an id" warning, or a start line directly followed by the same operation's success or failure line |
| `Admin.BalancedEndsClosed` | client/src/components/TranslationAdmin.js:18-31 | a balanced log never ends on a start line: every started operation has logged its outcome |
| `Admin.ConfirmRequestBody` | client/src/components/TranslationAdmin.js:72-76 | the save request carries exactly the fields `articleId`, `translatedText` and `translatedTitle` |
| `Admin.TranslationAdmin.constructor` | client/src/components/TranslationAdmin.js:6-9 | the session starts with no document, an empty id, not loading and an empty log |
| `Admin.TranslationAdmin.SetDocIdInput` | client/src/components/TranslationAdmin.js:113 | typing changes only the id field |
| `Admin.TranslationAdmin.FetchDocumentById` | client/src/components/TranslationAdmin.js:12-34 | empty id: no request, `document` and `loading` unchanged, exactly one warning appended. Otherwise it requests the typed id and appends a start line and then one outcome line. Success: `document` becomes the fetched article with no draft and `translationSaved = false`. Failure: `document` is unchanged. Afterwards nothing is loading |
| `Admin.TranslationAdmin.TranslateDocument` | client/src/components/TranslationAdmin.js:37-64 | no document: a complete no-op (no request, no log). Otherwise it requests the preview by `document.id`, not by the typed id. Success sets `enTitle`/`enBody` from the reply and keeps every other field. Failure leaves `document` unchanged. Exactly a start line and one outcome line are appended |
| `Admin.TranslationAdmin.SaveTranslation` | client/src/components/TranslationAdmin.js:67-90 | a no-op unless a document with truthy `enBody` and `enTitle` is loaded. Otherwise it posts `articleId = id`, `translatedText = enBody`, `translatedTitle = enTitle`. Success changes only `translationSaved`, to true; failure changes nothing in `document`. Exactly a start line and one outcome line are appended |
| `Admin.ButtonsAgreeWithGuards` | client/src/components/TranslationAdmin.js:124-139 | the save button can be pressed exactly when the save guard passes and nothing is loading; the translate button exactly when its guard passes and nothing is loading |
| `Workflow.SaveBodyMeetsOnlyLegacyGuard` | client/src/components/TranslationAdmin.js:72-76 | every save body the client sends for a document with a non-empty id passes the stand-alone server's confirm guard and fails the refactored server's and the controller's |
| `Workflow.PublishViaLegacyServer` | server/server.js:176-195 | fetch, translate and save against the stand-alone server publishes exactly the previewed draft (en-us, translated title, translated body) after the calls fetch, fetch, translate title, translate body. The session records the translation as saved exactly when the publish succeeds |
| `Workflow.PublishViaApiServer` | api/server.js:149-155 | the same session against the refactored server never publishes and never records the translation as saved. Its last log line is the save failure carrying the 400 text that names `translatedBody` |

Facts about the handlers that the contracts above make visible:
- The servers keep no per-article state. Each request is answered from its
  own fields and the collaborators' answers alone.
- A confirm for an article that was never fetched or previewed is accepted,
  and a repeated confirm publishes again.
- Every collaborator failure is answered with 500.
- The stand-alone server's confirm reads `translatedText`, not
  `translatedBody`.
- `addTranslation` takes the body before the title.

## Left out

- HTTP transport, URL and credential construction, environment loading,
  `cors`, `express.json` and `app.listen` are not modelled. The collaborators
  appear only through what they answer.
- `searchDocuments`, `translateText`, `getDocument` and the publish POST are
  oracles. How an answer is read from the upstream JSON
  (`data.results`, `translations[0].translatedText`, `data.article`) is left
  out; a malformed answer counts as a failed call. For GET /document this is
  not what the source does: when the content service's reply has no
  `article`, server/server.js:82, api/server.js:74 and
  api/controllers/documentController.js:11 answer 200 with an empty body, and
  the client then loads a document with no id
  (client/src/components/TranslationAdmin.js:23). The model does not capture
  this answer or that document.
- The content-service wrapper `api/services/zendeskService.js` is used only
  as a collaborator contract: `addTranslation(id, body, title)` posts an
  en-us payload with that title and body.
- The route wiring files are not part of this model. They contain no logic.
- `client/src/components/MyGoogleLogin.js` is not part of this model. It is
  login callbacks around one e-mail suffix check.
- JSX rendering, the fallback texts for a missing draft and the HTML body
  display are left out. Only the buttons' shown and disabled conditions are
  kept. The log is kept as structured lines; `LogEntry.Text` gives the text
  each line shows.
- `console.error` diagnostics are left out.
- Admin.TranslationAdmin.FetchDocumentById: runs from start to end in one
  step. So the model does not show `loading = true` and the start line while
  the request is outstanding, nor two operations in flight at once.
- Admin.TranslationAdmin.TranslateDocument: runs in one step, as fetch does.
- Admin.TranslationAdmin.SaveTranslation: runs in one step, as fetch does.
- The client builds its query string without URL encoding. The model passes
  the typed id to the server unchanged.
- `Workflow.PublishViaLegacyServer` and `Workflow.PublishViaApiServer` take a
  failed response's `error` text as the reason the client logs. They cover
  only responses the handlers can produce.
- An article carries only its id, title and body. The client spreads the
  whole upstream article into its document; other fields, such as a link to
  the article page, are not modelled.
- JSON values that are not strings are not modelled. Examples are numeric
  ids and `0` or `false` in a required field.
