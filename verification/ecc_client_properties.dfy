/**
 * What `fetch_articles_by_gtin` promises: the token check comes before any
 * request, one request per pair in pair order, failed requests and answers
 * without articles add nothing, and the result is the answers' articles
 * concatenated in pair order.
 */
module EccClientProperties {
  import opened Wrappers
  import opened JsonModel
  import opened Exceptions
  import opened PyJson
  import opened ArticleDtos
  import opened EccClient
  import opened SeqFacts
  import opened ResultSeq

  /** Without a token the call raises APIError and requests nothing, whatever the pairs. */
  lemma MissingTokenRequestsNothing(c: EccApiClient, pairs: seq<(string, string)>)
    requires !c.HasToken()
    ensures var f := c.FetchSpec(pairs);
      f.requests == [] && f.result.Failure? && f.result.error.App? &&
      f.result.error.exception == ApiError(ApiPrefix + MissingTokenText, None, None)
  {
  }

  /** With a token, no pairs means no request and an empty result. */
  lemma NoPairsNoRequests(c: EccApiClient)
    requires c.HasToken()
    ensures c.FetchSpec([]) == Progress(Success([]), [])
  {
  }

  /**
   * The requests are the URLs of a prefix of the pairs, in order. The loop
   * stops early only because the last pair requested raised, and that
   * exception is the result; every earlier pair read without raising.
   */
  lemma RequestsFollowPairs(c: EccApiClient, pairs: seq<(string, string)>)
    ensures var p := c.PairsRun(pairs);
      var n := |p.requests|;
      n <= |pairs| &&
      (forall k :: 0 <= k < n ==> p.requests[k] == c.PairUrl(pairs[k])) &&
      (forall k :: 0 <= k < n - 1 ==> c.PairResult(pairs[k]).Success?) &&
      (p.result.Success? ==> n == |pairs|) &&
      (p.result.Failure? ==> 0 < n && p.result == c.PairResult(pairs[n - 1]))
  {
    PairsFoldRequests(c.PairResult, c.PairUrl, pairs);
    PairsFoldStops(c.PairResult, c.PairUrl, pairs);
  }

  /**
   * The loop completes exactly when no pair raises, and then returns what
   * every pair's answer yields, concatenated in pair order.
   */
  lemma PairsRunCollects(c: EccApiClient, pairs: seq<(string, string)>)
    ensures c.PairsRun(pairs).result.Success? <==> forall k :: 0 <= k < |pairs| ==> c.PairResult(pairs[k]).Success?
    ensures c.PairsRun(pairs).result.Success? ==> c.PairsRun(pairs).result.value == Concat(Outputs(c.PairResult, pairs))
  {
    PairsFoldResult(c.PairResult, c.PairUrl, pairs);
    FlatMapAllMeaning(c.PairResult, pairs);
  }

  /** A failed request adds nothing. */
  lemma FailedRequestAddsNothing(c: EccApiClient, pair: (string, string))
    requires c.respond(c.PairUrl(pair)).RequestFailed?
    ensures c.PairResult(pair) == Success([])
  {
  }

  /** A dict answer whose `articles` is missing, None or empty adds nothing. */
  lemma NoArticlesAddNothing(data: Json, decode: Json -> Result<ArticleDataDto, Error>)
    requires data.JObj? && !Truthy(Get(data.fields, ArticlesKey))
    ensures ArticlesRead(data, decode) == Success([])
  {
  }

  /** A dict answer with a non-empty `articles` list adds the reading of each item, in order. */
  lemma ArticleListIsMapped(data: Json, decode: Json -> Result<ArticleDataDto, Error>)
    requires data.JObj? && Get(data.fields, ArticlesKey).JArr? && Get(data.fields, ArticlesKey).items != []
    ensures ArticlesRead(data, decode) == MapAll(decode, Get(data.fields, ArticlesKey).items)
  {
    assert Lookup(data.fields, ArticlesKey).Some?;
  }

  /**
   * Answers that are not dicts: a list or a str raises TypeError when it
   * holds "articles" and adds nothing otherwise; any other value raises
   * TypeError at the `in` test.
   */
  lemma NonDictAnswers(data: Json, decode: Json -> Result<ArticleDataDto, Error>)
    requires !data.JObj?
    ensures data.JArr? ==>
      ArticlesRead(data, decode) == if JStr(ArticlesKey) in data.items
        then Failure(Builtin(TypeError, "list indices must be integers or slices, not str")) else Success([])
    ensures data.JStr? ==>
      ArticlesRead(data, decode) == if IsSubstring(ArticlesKey, data.s)
        then Failure(Builtin(TypeError, "string indices must be integers, not 'str'")) else Success([])
    ensures !data.JArr? && !data.JStr? ==>
      ArticlesRead(data, decode) == Failure(Builtin(TypeError, "argument of type '" + TypeName(data) + "' is not iterable"))
  {
  }

  /** Two texts each followed by a slash split the same way when neither text holds a slash. */
  lemma SlashSplit(x: string, y: string, x': string, y': string)
    requires '/' !in x && '/' !in x'
    requires x + "/" + y == x' + "/" + y'
    ensures x == x' && y == y'
  {
    var s := x + "/" + y;
    assert s[|x|] == '/' && s[|x'|] == '/';
    assert forall i :: 0 <= i < |x| ==> s[i] == x[i];
    assert forall i :: 0 <= i < |x'| ==> s[i] == x'[i];
    assert |x| == |x'|;
    assert x == s[..|x|] == x';
    assert y == s[|x| + 1..] == y';
  }

  /**
   * Distinct pairs are asked for at distinct URLs, as long as the GTIN holds
   * no slash: the GTIN and the GLN can be read back from the URL.
   */
  lemma ArticleUrlInjective(baseUrl: string, suGln: string, ean: string, suGln': string, ean': string)
    requires '/' !in ean && '/' !in ean'
    requires ArticleUrl(baseUrl, suGln, ean) == ArticleUrl(baseUrl, suGln', ean')
    ensures suGln == suGln' && ean == ean'
  {
    var head := baseUrl + ArticlePath;
    var tail := "/" + CountryCode;
    assert ArticleUrl(baseUrl, suGln, ean) == head + (ean + "/" + (suGln + tail));
    assert ArticleUrl(baseUrl, suGln', ean') == head + (ean' + "/" + (suGln' + tail));
    var rest := ArticleUrl(baseUrl, suGln, ean)[|head|..];
    assert rest == ean + "/" + (suGln + tail);
    assert rest == ean' + "/" + (suGln' + tail);
    SlashSplit(ean, suGln + tail, ean', suGln' + tail);
    assert suGln == (suGln + tail)[..|suGln + tail| - |tail|];
    assert suGln' == (suGln' + tail)[..|suGln' + tail| - |tail|];
  }
}
