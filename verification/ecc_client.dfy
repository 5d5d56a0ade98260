/**
 * ECCApiClient: one article-data request per (supplier GLN, GTIN) pair, the
 * `articles` of each answer mapped into ArticleDataDTOs and concatenated in
 * pair order. A request that fails (connection error, error status, body
 * that is not JSON) contributes nothing and the loop goes on; anything
 * else raised while reading an answer ends the whole call.
 *
 * The HTTP endpoint is an oracle fixed when the client is built, keyed by
 * the request URL; the URLs requested are recorded, in order, in the ghost
 * log `requests`.
 */
module EccClient {
  import opened Wrappers
  import opened JsonModel
  import opened Exceptions
  import opened PyJson
  import opened ArticleDtos
  import opened SeqFacts
  import opened ResultSeq

  /** How the request for one pair ended. */
  datatype Reply =
    | Received(data: Json)
      /** A requests exception: connection error, timeout, error status or an undecodable body. */
    | RequestFailed

  const MissingTokenText: string := "ECC_API_TOKEN is not set in environment variables."
  const ArticlesKey: string := "articles"
  const ArticlePath: string := "/articleData/byEanAndSuGln/"
  const CountryCode: string := "de"

  /** The request URL for a pair: the GTIN comes before the supplier GLN. */
  function ArticleUrl(baseUrl: string, suGln: string, ean: string): string {
    baseUrl + ArticlePath + ean + "/" + suGln + "/" + CountryCode
  }

  /**
   * The DTOs of one decoded answer, each article read by `decode`: none
   * unless `"articles" in data and data["articles"]`.
   */
  function ArticlesRead(data: Json, decode: Json -> Result<ArticleDataDto, Error>): Result<seq<ArticleDataDto>, Error> {
    match Contains(data, ArticlesKey)
    case Failure(e) => Failure(e)
    case Success(present) =>
      if !present then Success([])
      else match Subscript(data, ArticlesKey)
        case Failure(e) => Failure(e)
        case Success(articles) =>
          if !Truthy(articles) then Success([])
          else match Elements(articles)
            case None => Failure(NotIterable(articles))
            case Some(items) => MapAll(decode, items)
  }

  /** The client reads each article with `ArticleDataDTO.from_api_response`. */
  function ArticlesOf(data: Json): Result<seq<ArticleDataDto>, Error> {
    ArticlesRead(data, FromApi)
  }

  /** What one request adds to the result: nothing when it failed. */
  function ReplyArticles(reply: Reply): Result<seq<ArticleDataDto>, Error> {
    match reply
    case RequestFailed => Success([])
    case Received(data) => ArticlesOf(data)
  }

  /** The state of the loop over pairs: the DTOs so far or the exception that ended it, and the URLs requested. */
  datatype Progress = Progress(result: Result<seq<ArticleDataDto>, Error>, requests: seq<string>)

  const Start: Progress := Progress(Success([]), [])

  /** The pair type: (supplier GLN, GTIN). */
  type Pair = (string, string)

  /**
   * One more pair of the loop, unless an exception already ended it:
   * `url` is the pair's request and `read` what the answer adds.
   */
  function PairStep(read: Pair -> Result<seq<ArticleDataDto>, Error>, url: Pair -> string, p: Progress, pair: Pair): Progress {
    if p.result.Failure? then p
    else Progress(FlatStep(p.result, read(pair)), p.requests + [url(pair)])
  }

  /** The loop over `pairs`. */
  function PairsFold(read: Pair -> Result<seq<ArticleDataDto>, Error>, url: Pair -> string, pairs: seq<Pair>): Progress
    decreases |pairs|
  {
    if pairs == [] then Start
    else PairStep(read, url, PairsFold(read, url, pairs[..|pairs| - 1]), pairs[|pairs| - 1])
  }

  lemma PairsFoldSnoc(read: Pair -> Result<seq<ArticleDataDto>, Error>, url: Pair -> string, pairs: seq<Pair>, i: nat)
    requires i < |pairs|
    ensures PairsFold(read, url, pairs[..i + 1]) == PairStep(read, url, PairsFold(read, url, pairs[..i]), pairs[i])
  {
    PrefixStep(pairs, i);
  }

  lemma {:induction false} PairsFoldSticky(read: Pair -> Result<seq<ArticleDataDto>, Error>, url: Pair -> string, pairs: seq<Pair>, i: nat)
    requires i <= |pairs|
    requires PairsFold(read, url, pairs[..i]).result.Failure?
    ensures PairsFold(read, url, pairs) == PairsFold(read, url, pairs[..i])
    decreases |pairs| - i
  {
    if i < |pairs| {
      PrefixStep(pairs, i);
      PairsFoldSticky(read, url, pairs, i + 1);
    } else {
      Whole(pairs);
    }
  }

  /** The loop's result is the pairs' articles concatenated, up to the first pair that raises. */
  lemma {:induction false} PairsFoldResult(read: Pair -> Result<seq<ArticleDataDto>, Error>, url: Pair -> string, pairs: seq<Pair>)
    ensures PairsFold(read, url, pairs).result == FlatMapAll(read, pairs)
    decreases |pairs|
  {
    if pairs != [] {
      PairsFoldResult(read, url, pairs[..|pairs| - 1]);
    }
  }

  /**
   * The requests are the URLs of a prefix of the pairs, in order; when the
   * loop completes, the prefix is all of the pairs.
   */
  lemma {:induction false} PairsFoldRequests(read: Pair -> Result<seq<ArticleDataDto>, Error>, url: Pair -> string, pairs: seq<Pair>)
    ensures var p := PairsFold(read, url, pairs);
      var n := |p.requests|;
      n <= |pairs| &&
      (forall k :: 0 <= k < n ==> p.requests[k] == url(pairs[k])) &&
      (p.result.Success? ==> n == |pairs|)
    decreases |pairs|
  {
    if pairs != [] {
      var init := pairs[..|pairs| - 1];
      PairsFoldRequests(read, url, init);
      assert forall k :: 0 <= k < |init| ==> init[k] == pairs[k];
    }
  }

  /**
   * The loop stops early only because the last pair requested raised, and
   * that exception is the result; every earlier pair read without raising.
   */
  lemma {:induction false} PairsFoldStops(read: Pair -> Result<seq<ArticleDataDto>, Error>, url: Pair -> string, pairs: seq<Pair>)
    ensures |PairsFold(read, url, pairs).requests| <= |pairs|
    ensures var p := PairsFold(read, url, pairs);
      var n := |p.requests|;
      (forall k :: 0 <= k < n - 1 ==> read(pairs[k]).Success?) &&
      (p.result.Failure? ==> 0 < n && p.result == read(pairs[n - 1]))
    decreases |pairs|
  {
    if pairs != [] {
      var init := pairs[..|pairs| - 1];
      PairsFoldStops(read, url, init);
      PairsFoldRequests(read, url, init);
      assert forall k :: 0 <= k < |init| ==> init[k] == pairs[k];
    }
  }

  class EccApiClient {
    const baseUrl: string
    const token: Option<string>
    /** The article-data endpoint, for a request URL. */
    const respond: string -> Reply

    ghost var requests: seq<string>

    constructor (baseUrl: string, token: Option<string>, respond: string -> Reply)
      ensures this.baseUrl == baseUrl && this.token == token && this.respond == respond
      ensures requests == []
    {
      this.baseUrl := baseUrl;
      this.token := token;
      this.respond := respond;
      requests := [];
    }

    /** `if not self.token`: None and "" both count as missing. */
    predicate HasToken() {
      token.Some? && token.value != ""
    }

    function MissingToken(): Error {
      App(NewApiError(MissingTokenText, None, None))
    }

    function PairUrl(pair: (string, string)): string {
      ArticleUrl(baseUrl, pair.0, pair.1)
    }

    /** What the request for one pair adds to the result, or the exception it ends the call with. */
    function PairResult(pair: (string, string)): Result<seq<ArticleDataDto>, Error> {
      ReplyArticles(respond(PairUrl(pair)))
    }

    /** The loop of `fetch_articles_by_gtin` over `pairs`. */
    function PairsRun(pairs: seq<Pair>): Progress {
      PairsFold(PairResult, PairUrl, pairs)
    }

    /** `fetch_articles_by_gtin`: the token check, then the loop. */
    function FetchSpec(pairs: seq<(string, string)>): Progress {
      if !HasToken() then Progress(Failure(MissingToken()), []) else PairsRun(pairs)
    }

    /** `fetch_articles_by_gtin`. */
    method FetchArticlesByGtin(pairs: seq<(string, string)>) returns (r: Result<seq<ArticleDataDto>, Error>)
      modifies this`requests
      ensures r == FetchSpec(pairs).result
      ensures requests == old(requests) + FetchSpec(pairs).requests
    {
      if !HasToken() {
        assert old(requests) + [] == old(requests);
        return Failure(MissingToken());
      }
      var allFetched: seq<ArticleDataDto> := [];
      ghost var run := Start;
      var i := 0;
      while i < |pairs|
        invariant 0 <= i <= |pairs|
        invariant run == PairsRun(pairs[..i])
        invariant run.result == Success(allFetched)
        invariant requests == old(requests) + run.requests
      {
        var more := FetchPair(pairs[i]);
        PairsFoldSnoc(PairResult, PairUrl, pairs, i);
        Associative(old(requests), run.requests, [PairUrl(pairs[i])]);
        if more.Failure? {
          PairsFoldSticky(PairResult, PairUrl, pairs, i + 1);
          return Failure(more.error);
        }
        allFetched := allFetched + more.value;
        run := PairStep(PairResult, PairUrl, run, pairs[i]);
        i := i + 1;
      }
      Whole(pairs);
      r := Success(allFetched);
    }

    /** The body of the loop for one pair: the request, then the articles of the answer. */
    method FetchPair(pair: (string, string)) returns (r: Result<seq<ArticleDataDto>, Error>)
      modifies this`requests
      ensures r == PairResult(pair)
      ensures requests == old(requests) + [PairUrl(pair)]
    {
      var url := ArticleUrl(baseUrl, pair.0, pair.1);
      requests := requests + [url];
      match respond(url)
      case RequestFailed =>
        r := Success([]);
      case Received(data) =>
        r := ReadArticles(data);
    }
  }

  /** `if "articles" in data and data["articles"]:` and the list comprehension. */
  method ReadArticles(data: Json) returns (r: Result<seq<ArticleDataDto>, Error>)
    ensures r == ArticlesOf(data)
  {
    var present := Contains(data, ArticlesKey);
    if present.Failure? {
      return Failure(present.error);
    }
    if !present.value {
      return Success([]);
    }
    var articles := Subscript(data, ArticlesKey);
    if articles.Failure? {
      return Failure(articles.error);
    }
    if !Truthy(articles.value) {
      return Success([]);
    }
    match Elements(articles.value)
    case None =>
      r := Failure(NotIterable(articles.value));
    case Some(items) =>
      r := MapArticleItems(items);
  }

  /** `[ArticleDataDTO.from_api_response(item) for item in data["articles"]]`. */
  method MapArticleItems(items: seq<Json>) returns (r: Result<seq<ArticleDataDto>, Error>)
    ensures r == MapAll(FromApi, items)
  {
    r := MapEach(FromApi, items);
  }
}
