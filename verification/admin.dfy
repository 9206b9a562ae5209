/** The translation admin screen (client/src/components/TranslationAdmin.js):
    a session holding the loaded document, the id typed by the user, a
    loading flag and an append-only log, updated by three operations that
    each guard, log a start, issue one request and log its outcome.

    Each operation takes the outcome of the HTTP request it issues as a
    parameter and returns the request it issued (None when its guard stopped
    it), so that every answer the server may give is covered. An operation
    runs from its start to its end in one step: what the screen shows while
    the request is outstanding is not modelled. */
module Admin {
  import opened Base
  import Upstream

  /** The loaded article together with the English draft under review. */
  datatype Document = Document(
    id: string, title: string, body: string,
    enTitle: Option<string>, enBody: Option<string>,
    translationSaved: bool)

  /** The body of a successful preview. */
  datatype Draft = Draft(translatedTitle: string, translatedBody: string)

  /** The request an operation sends to the server. */
  datatype ClientRequest =
    | GetDocument(articleId: string)
    | GetPreview(articleId: string)
    | PostConfirm(body: map<string, string>)

  datatype Op = Fetch | Translate | Save

  datatype Phase = Started | Done | Failed(reason: string)

  /** One line of the status log. */
  datatype LogEntry =
    | IdMissing
    | Entry(op: Op, docId: string, phase: Phase)
  {
    /** The text the screen shows for this line. */
    function Text(): string
    {
      match this
      case IdMissing => "문서 ID를 입력하세요."
      case Entry(Fetch, id, Started) => "문서 " + id + " 불러오는 중..."
      case Entry(Fetch, id, Done) => "문서 " + id + " 불러오기 완료"
      case Entry(Fetch, id, Failed(why)) => "문서 " + id + " 불러오기 실패: " + why
      case Entry(Translate, id, Started) => "문서 " + id + " 번역 요청 중..."
      case Entry(Translate, id, Done) => "문서 " + id + " 번역 완료"
      case Entry(Translate, id, Failed(why)) => "문서 " + id + " 번역 실패: " + why
      case Entry(Save, id, Started) => "문서 " + id + " 번역 저장 요청 중..."
      case Entry(Save, id, Done) => "문서 " + id + " 번역 저장 완료"
      case Entry(Save, id, Failed(why)) => "문서 " + id + " 번역 저장 실패: " + why
    }
  }

  /** `finish` closes the operation that `start` opened. */
  predicate Closes(start: LogEntry, finish: LogEntry)
  {
    && start.Entry? && finish.Entry?
    && start.phase.Started? && !finish.phase.Started?
    && finish.op == start.op && finish.docId == start.docId
  }

  /** The log is a succession of rounds: a lone "enter an id" warning, or a
      start line immediately followed by the success or failure line of the
      same operation on the same document. */
  ghost predicate Balanced(logs: seq<LogEntry>)
    decreases |logs|
  {
    if logs == [] then true
    else if logs[0].IdMissing? then Balanced(logs[1..])
    else |logs| >= 2 && Closes(logs[0], logs[1]) && Balanced(logs[2..])
  }

  /** Rounds can be appended to a balanced log one after the other. */
  lemma {:induction false} BalancedConcat(a: seq<LogEntry>, b: seq<LogEntry>)
    requires Balanced(a) && Balanced(b)
    ensures Balanced(a + b)
    decreases |a|
  {
    if a == [] {
      assert a + b == b;
    } else if a[0].IdMissing? {
      BalancedConcat(a[1..], b);
      assert (a + b)[1..] == a[1..] + b;
    } else {
      BalancedConcat(a[2..], b);
      assert (a + b)[2..] == a[2..] + b;
    }
  }

  /** A log that is balanced never ends in the middle of an operation. */
  lemma {:induction false} BalancedEndsClosed(logs: seq<LogEntry>)
    requires Balanced(logs) && logs != []
    ensures !(logs[|logs| - 1].Entry? && logs[|logs| - 1].phase.Started?)
    decreases |logs|
  {
    if logs[0].IdMissing? {
      if |logs| > 1 {
        BalancedEndsClosed(logs[1..]);
      }
    } else if |logs| > 2 {
      BalancedEndsClosed(logs[2..]);
    }
  }

  /** The save guard: a document is loaded and both halves of its draft are
      truthy. */
  predicate CanSave(document: Option<Document>)
  {
    document.Some? && Truthy(document.value.enBody) && Truthy(document.value.enTitle)
  }

  /** The body the save operation posts: the document's id, its English body
      under `translatedText`, and its English title. */
  function ConfirmRequestBody(d: Document): (body: map<string, string>)
    requires CanSave(Some(d))
    ensures body.Keys == {"articleId", "translatedText", "translatedTitle"}
  {
    map["articleId" := d.id, "translatedText" := d.enBody.value, "translatedTitle" := d.enTitle.value]
  }

  class TranslationAdmin {
    var document: Option<Document>
    var docIdInput: string
    var loading: bool
    var logs: seq<LogEntry>

    /** Between operations nothing is loading and the log is balanced. */
    ghost predicate Valid()
      reads this
    {
      !loading && Balanced(logs)
    }

    constructor ()
      ensures Valid()
      ensures document == None && docIdInput == "" && !loading && logs == []
    {
      document := None;
      docIdInput := "";
      loading := false;
      logs := [];
    }

    /** The id field's `onChange`. */
    method SetDocIdInput(value: string)
      modifies this
      ensures docIdInput == value
      ensures document == old(document) && loading == old(loading) && logs == old(logs)
    {
      docIdInput := value;
    }

    /** The fetch button is disabled exactly while loading. */
    predicate FetchButtonDisabled()
      reads this
    {
      loading
    }

    /** The translate and save buttons are shown only once a document is loaded. */
    predicate DocumentButtonsShown()
      reads this
    {
      document.Some?
    }

    predicate TranslateButtonDisabled()
      reads this
    {
      loading
    }

    predicate SaveButtonDisabled()
      reads this
      requires DocumentButtonsShown()
    {
      loading || !Truthy(document.value.enBody) || !Truthy(document.value.enTitle)
    }

    /** `fetchDocumentById` */
    method FetchDocumentById(reply: Outcome<Upstream.Article>) returns (sent: Option<ClientRequest>)
      requires Valid()
      modifies this
      ensures Valid()
      ensures docIdInput == old(docIdInput)
      ensures old(docIdInput) == "" ==>
        sent == None && document == old(document) && logs == old(logs) + [IdMissing]
      ensures old(docIdInput) != "" ==>
        && sent == Some(GetDocument(old(docIdInput)))
        && (reply.Ok? ==>
              && document == Some(Document(reply.value.id, reply.value.title, reply.value.body, None, None, false))
              && logs == old(logs) + [Entry(Fetch, old(docIdInput), Started), Entry(Fetch, old(docIdInput), Done)])
        && (reply.Err? ==>
              && document == old(document)
              && logs == old(logs) + [Entry(Fetch, old(docIdInput), Started), Entry(Fetch, old(docIdInput), Failed(reply.msg))])
    {
      if docIdInput == "" {
        logs := logs + [IdMissing];
        assert [IdMissing][1..] == [];
        BalancedConcat(old(logs), [IdMissing]);
        return None;
      }
      loading := true;
      logs := logs + [Entry(Fetch, docIdInput, Started)];
      sent := Some(GetDocument(docIdInput));
      var finish;
      match reply {
        case Ok(article) =>
          document := Some(Document(article.id, article.title, article.body, None, None, false));
          finish := Entry(Fetch, docIdInput, Done);
        case Err(reason) =>
          finish := Entry(Fetch, docIdInput, Failed(reason));
      }
      logs := logs + [finish];
      loading := false;
      assert logs == old(logs) + [Entry(Fetch, docIdInput, Started), finish];
      assert [Entry(Fetch, docIdInput, Started), finish][2..] == [];
      BalancedConcat(old(logs), [Entry(Fetch, docIdInput, Started), finish]);
    }

    /** `translateDocument` */
    method TranslateDocument(reply: Outcome<Draft>) returns (sent: Option<ClientRequest>)
      requires Valid()
      modifies this
      ensures Valid()
      ensures docIdInput == old(docIdInput)
      ensures old(document) == None ==>
        sent == None && document == None && logs == old(logs)
      ensures old(document) != None ==>
        var d := old(document).value;
        && sent == Some(GetPreview(d.id))
        && (reply.Ok? ==>
              && document == Some(d.(enTitle := Some(reply.value.translatedTitle),
                                     enBody := Some(reply.value.translatedBody)))
              && logs == old(logs) + [Entry(Translate, d.id, Started), Entry(Translate, d.id, Done)])
        && (reply.Err? ==>
              && document == old(document)
              && logs == old(logs) + [Entry(Translate, d.id, Started), Entry(Translate, d.id, Failed(reply.msg))])
    {
      if document == None {
        return None;
      }
      var id := document.value.id;
      loading := true;
      logs := logs + [Entry(Translate, id, Started)];
      sent := Some(GetPreview(id));
      var finish;
      match reply {
        case Ok(draft) =>
          document := Some(document.value.(enTitle := Some(draft.translatedTitle),
                                           enBody := Some(draft.translatedBody)));
          finish := Entry(Translate, id, Done);
        case Err(reason) =>
          finish := Entry(Translate, id, Failed(reason));
      }
      logs := logs + [finish];
      loading := false;
      assert logs == old(logs) + [Entry(Translate, id, Started), finish];
      assert [Entry(Translate, id, Started), finish][2..] == [];
      BalancedConcat(old(logs), [Entry(Translate, id, Started), finish]);
    }

    /** `saveTranslation` */
    method SaveTranslation(reply: Outcome<Upstream.Record>) returns (sent: Option<ClientRequest>)
      requires Valid()
      modifies this
      ensures Valid()
      ensures docIdInput == old(docIdInput)
      ensures !CanSave(old(document)) ==>
        sent == None && document == old(document) && logs == old(logs)
      ensures CanSave(old(document)) ==>
        var d := old(document).value;
        && sent == Some(PostConfirm(ConfirmRequestBody(d)))
        && (reply.Ok? ==>
              && document == Some(d.(translationSaved := true))
              && logs == old(logs) + [Entry(Save, d.id, Started), Entry(Save, d.id, Done)])
        && (reply.Err? ==>
              && document == old(document)
              && logs == old(logs) + [Entry(Save, d.id, Started), Entry(Save, d.id, Failed(reply.msg))])
    {
      if document == None || !Truthy(document.value.enBody) || !Truthy(document.value.enTitle) {
        return None;
      }
      var id := document.value.id;
      loading := true;
      logs := logs + [Entry(Save, id, Started)];
      sent := Some(PostConfirm(ConfirmRequestBody(document.value)));
      var finish;
      match reply {
        case Ok(_) =>
          document := Some(document.value.(translationSaved := true));
          finish := Entry(Save, id, Done);
        case Err(reason) =>
          finish := Entry(Save, id, Failed(reason));
      }
      logs := logs + [finish];
      loading := false;
      assert logs == old(logs) + [Entry(Save, id, Started), finish];
      assert [Entry(Save, id, Started), finish][2..] == [];
      BalancedConcat(old(logs), [Entry(Save, id, Started), finish]);
    }
  }

  /** The save button can be pressed exactly when the save guard passes and
      nothing is loading; the translate button exactly when a document is
      loaded and nothing is loading, which is when its guard passes. */
  lemma ButtonsAgreeWithGuards(a: TranslationAdmin)
    ensures (a.DocumentButtonsShown() && !a.SaveButtonDisabled()) <==> (!a.loading && CanSave(a.document))
    ensures (a.DocumentButtonsShown() && !a.TranslateButtonDisabled()) <==> (!a.loading && a.document.Some?)
  {
  }
}
