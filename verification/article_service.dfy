/**
 * ArticleApplicationService: `sync_articles_from_ecc` asks the ECC client
 * once for the articles of all (supplier GLN, GTIN) pairs and, unless that
 * yields nothing, saves the articles one by one through the article
 * repository. An exception from the fetch or from a save is not caught: it
 * ends the sync and later articles are not saved.
 *
 * The service sees its repository only through the `IArticleRepository`
 * interface, so the repository is the answer `save_article` gives for each
 * article; the client is the ECC client of this model, with its own request
 * log. The collaborator calls are recorded, in order, in the ghost log
 * `calls`.
 */
module ArticleService {
  import opened Wrappers
  import opened Exceptions
  import opened ArticleDtos
  import opened EccClient
  import opened SeqFacts
  import opened SaveLoop

  /** A call the service makes to one of its collaborators. */
  datatype Call =
    | FetchedArticles(pairs: seq<(string, string)>)
    | SavedArticle(dto: ArticleDataDto)

  /** The log entry of a `save_article` call. */
  function SaveCall(dto: ArticleDataDto): (c: Call)
    ensures c.SavedArticle? && c.dto == dto
  {
    SavedArticle(dto)
  }

  /**
   * The sync once the fetch has answered `fetched`: the early return when
   * it raised or yields nothing, then the save loop.
   */
  function SyncOf(save: ArticleDataDto -> Result<(), Error>, pairs: seq<(string, string)>,
                  fetched: Result<seq<ArticleDataDto>, Error>): Run<Call> {
    var afterFetch := Run(Success(()), [FetchedArticles(pairs)]);
    match fetched
    case Failure(e) => afterFetch.(result := Failure(e))
    case Success(dtos) => if dtos == [] then afterFetch else SaveEach(save, SaveCall, afterFetch, dtos)
  }

  class ArticleApplicationService {
    /** `article_repo.save_article`: completes, or the exception it raises. */
    const saveArticle: ArticleDataDto -> Result<(), Error>
    const eccApiClient: EccApiClient
    /** The collaborator calls made by this service, in order. */
    ghost var calls: seq<Call>

    constructor (saveArticle: ArticleDataDto -> Result<(), Error>, eccApiClient: EccApiClient)
      ensures this.saveArticle == saveArticle && this.eccApiClient == eccApiClient && calls == []
    {
      this.saveArticle := saveArticle;
      this.eccApiClient := eccApiClient;
      calls := [];
    }

    /** `sync_articles_from_ecc(pairs)`. */
    function SyncSpec(pairs: seq<(string, string)>): Run<Call> {
      SyncOf(saveArticle, pairs, eccApiClient.FetchSpec(pairs).result)
    }

    /** `sync_articles_from_ecc`. */
    method SyncArticlesFromEcc(pairs: seq<(string, string)>) returns (r: Result<(), Error>)
      modifies this`calls, eccApiClient`requests
      ensures r == SyncSpec(pairs).result && calls == old(calls) + SyncSpec(pairs).calls
      ensures eccApiClient.requests == old(eccApiClient.requests) + eccApiClient.FetchSpec(pairs).requests
    {
      var fetched := eccApiClient.FetchArticlesByGtin(pairs);
      calls := calls + [FetchedArticles(pairs)];
      if fetched.Failure? {
        return Failure(fetched.error);
      }
      var dtos := fetched.value;
      if dtos == [] {
        return Success(());
      }
      r := SaveArticles(dtos, old(calls), Run(Success(()), [FetchedArticles(pairs)]));
    }

    /**
     * The loop `for article_dto in article_dtos: save_article(article_dto)`,
     * once the calls `log + s0.calls` were made.
     */
    method SaveArticles(dtos: seq<ArticleDataDto>, ghost log: seq<Call>, ghost s0: Run<Call>) returns (r: Result<(), Error>)
      requires s0.result == Success(()) && calls == log + s0.calls
      modifies this`calls
      ensures r == SaveEach(saveArticle, SaveCall, s0, dtos).result
      ensures calls == log + SaveEach(saveArticle, SaveCall, s0, dtos).calls
    {
      ghost var s := s0;
      var last: Result<(), Error> := Success(());
      var i := 0;
      while i < |dtos|
        invariant 0 <= i <= |dtos|
        invariant s == SaveEach(saveArticle, SaveCall, s0, dtos[..i])
        invariant s.result == last && last.Success? && calls == log + s.calls
      {
        SaveEachSnoc(saveArticle, SaveCall, s0, dtos, i);
        var saved := saveArticle(dtos[i]);
        calls := calls + [SavedArticle(dtos[i])];
        Associative(log, s.calls, [SavedArticle(dtos[i])]);
        s := Step(saveArticle, SaveCall, s, dtos[i]);
        if saved.Failure? {
          SaveEachSticky(saveArticle, SaveCall, s0, dtos, i + 1);
          return saved;
        }
        last := saved;
        i := i + 1;
      }
      Whole(dtos);
      r := last;
    }
  }
}
