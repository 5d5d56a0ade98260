/**
 * What `sync_articles_from_ecc` promises, for any repository answers and
 * any fetch result: the fetch is the first call and the only one, nothing
 * is saved when it raised or yields nothing, and the articles are saved
 * once each, in order, up to the first save that raises.
 */
module ArticleServiceProperties {
  import opened Wrappers
  import opened Exceptions
  import opened ArticleDtos
  import opened SaveLoop
  import opened ArticleService

  /** The fetch is the first collaborator call and the only fetch; every later call is a save. */
  lemma FetchedOnce(save: ArticleDataDto -> Result<(), Error>, pairs: seq<(string, string)>,
                    fetched: Result<seq<ArticleDataDto>, Error>)
    ensures var s := SyncOf(save, pairs, fetched);
      |s.calls| >= 1 && s.calls[0] == FetchedArticles(pairs) &&
      forall k :: 1 <= k < |s.calls| ==> s.calls[k].SavedArticle?
  {
    if fetched.Success? && fetched.value != [] {
      SaveEachMeaning(save, SaveCall, Run(Success(()), [FetchedArticles(pairs)]), fetched.value);
    }
  }

  /** A fetch that raises ends the sync with that exception; nothing is saved. */
  lemma FetchErrorPropagates(save: ArticleDataDto -> Result<(), Error>, pairs: seq<(string, string)>, e: Error)
    ensures SyncOf(save, pairs, Failure(e)) == Run(Failure(e), [FetchedArticles(pairs)])
  {
  }

  /** An empty fetch result completes the sync without any save. */
  lemma NoArticlesNoSaves(save: ArticleDataDto -> Result<(), Error>, pairs: seq<(string, string)>)
    ensures SyncOf(save, pairs, Success([])) == Run(Success(()), [FetchedArticles(pairs)])
  {
  }

  /**
   * With articles fetched, `save_article` is called for a prefix of them,
   * once each and in order. The sync completes exactly when every save
   * completes, and then all articles were saved; otherwise the exception of
   * the first save that raised ends it and no later article is saved.
   */
  lemma ArticlesSavedInOrder(save: ArticleDataDto -> Result<(), Error>, pairs: seq<(string, string)>, dtos: seq<ArticleDataDto>)
    requires dtos != []
    ensures var s := SyncOf(save, pairs, Success(dtos));
      var m := |s.calls| - 1;
      0 < m <= |dtos| &&
      s.calls == [FetchedArticles(pairs)] + Calls(SaveCall, dtos[..m]) &&
      (s.result.Success? <==> forall k :: 0 <= k < |dtos| ==> save(dtos[k]).Success?) &&
      (s.result.Success? ==> m == |dtos|) &&
      (s.result.Failure? ==>
        (forall k :: 0 <= k < m - 1 ==> save(dtos[k]).Success?) && s.result == save(dtos[m - 1]))
  {
    SaveEachMeaning(save, SaveCall, Run(Success(()), [FetchedArticles(pairs)]), dtos);
  }
}
