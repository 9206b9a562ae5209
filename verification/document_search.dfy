/** The projection the `/documents` endpoint applies to search hits before
    answering: every hit becomes a flat record with empty-string defaults for
    the English fields and a link to the article's public page. Both servers
    carry the same projection. */
module DocumentSearch {
  import opened Base
  import opened Upstream

  datatype MappedDoc = MappedDoc(
    id: string, title: string, body: string,
    enTitle: string, enBody: string, articleUrl: string)

  /** The public page of an article is this prefix followed by its id. */
  function ArticleUrlPrefix(subdomain: string): string
  {
    "https://" + subdomain + ".zendesk.com/hc/ko/articles/"
  }

  function ArticleUrl(subdomain: string, id: string): string
  {
    ArticleUrlPrefix(subdomain) + id
  }

  /** The record one search hit is mapped to. */
  function Project(subdomain: string, hit: SearchHit): MappedDoc
  {
    MappedDoc(hit.id, hit.title, hit.body, OrEmpty(hit.enTitle), OrEmpty(hit.enBody),
              ArticleUrl(subdomain, hit.id))
  }

  /** `docs.map(...)`: one record per hit. */
  function MapDocs(subdomain: string, hits: seq<SearchHit>): (docs: seq<MappedDoc>)
    ensures |docs| == |hits|
  {
    if hits == [] then [] else [Project(subdomain, hits[0])] + MapDocs(subdomain, hits[1..])
  }

  /** The k-th record comes from the k-th hit: ids, titles and bodies are kept,
      a missing or empty English field becomes '', and the link is derived
      from the hit's id. */
  lemma {:induction false} MapDocsAt(subdomain: string, hits: seq<SearchHit>, k: nat)
    requires k < |hits|
    ensures var d := MapDocs(subdomain, hits)[k];
      && d.id == hits[k].id && d.title == hits[k].title && d.body == hits[k].body
      && (Truthy(hits[k].enTitle) ==> d.enTitle == hits[k].enTitle.value)
      && (!Truthy(hits[k].enTitle) ==> d.enTitle == "")
      && (Truthy(hits[k].enBody) ==> d.enBody == hits[k].enBody.value)
      && (!Truthy(hits[k].enBody) ==> d.enBody == "")
      && d.articleUrl == ArticleUrl(subdomain, hits[k].id)
  {
    if k > 0 {
      MapDocsAt(subdomain, hits[1..], k - 1);
    }
  }

  /** The link determines the article: two records with the same link on the
      same help centre come from the same id. */
  lemma ArticleUrlDeterminesId(subdomain: string, a: string, b: string)
    requires ArticleUrl(subdomain, a) == ArticleUrl(subdomain, b)
    ensures a == b
  {
    var n := |ArticleUrlPrefix(subdomain)|;
    assert a == ArticleUrl(subdomain, a)[n..];
    assert b == ArticleUrl(subdomain, b)[n..];
  }
}
