/**
 * MySQLArticleRepository: the SQL text and parameters each operation sends
 * to the `pds_articles` table, and how the rows that come back are turned
 * into ArticleDataDTOs.
 *
 * The server is an oracle fixed when the repository is built: its answer to
 * the n-th statement of this repository. The statements sent, in order, are
 * kept in `executed`. `datetime`/`date` parsing and `json.dumps`/`json.loads`
 * are oracles as well.
 */
module ArticleRepository {
  import opened Wrappers
  import opened JsonModel
  import opened Exceptions
  import opened PyJson
  import opened Text
  import opened ArticleDtos
  import opened ResultSeq

  /** A value bound to one `%s` placeholder. */
  datatype Param = Value(value: Json) | AttributeObjects(attributes: AttributeField)

  datatype Statement = Statement(query: string, params: seq<Param>)

  /** A row of a dictionary cursor: column name and value, in column order. */
  type Row = seq<(string, Json)>

  /** The server's answer to a statement (and, for a write, to its commit). */
  datatype DbReply = Done(rowCount: int, rows: seq<Row>) | DriverError(text: string)

  const SelectArticles: string := "SELECT * FROM pds_articles"
  const PageClause: string := " LIMIT %s OFFSET %s"
  const ByEccIdQuery: string := "SELECT * FROM pds_articles WHERE eccId = %s"
  const DeleteQuery: string := "DELETE FROM pds_articles WHERE eccId = %s"
  const NotSerializableText: string := "Object of type ImageDTO is not JSON serializable"

  /** The keys of a DTO's `__dict__`: every field, in declaration order. */
  function ColumnNames(): seq<string> { seq(|Fields|, k requires 0 <= k < |Fields| => Name(Fields[k])) }

  function Placeholders(n: nat): seq<string> {
    seq(n, k => "%s")
  }

  function Assignments(columns: seq<string>): seq<string> {
    seq(|columns|, k requires 0 <= k < |columns| => columns[k] + " = %s")
  }

  /** The upsert `save_article` sends for a dict with these keys. */
  function UpsertQuery(columns: seq<string>): string {
    "INSERT INTO pds_articles (" + Join(columns, ", ") + ") VALUES (" + Join(Placeholders(|columns|), ", ") +
    ") ON DUPLICATE KEY UPDATE " + Join(Assignments(columns), ", ")
  }

  /**
   * `format_datetime_for_db`: None for a falsy value; a str is read after
   * `replace("Z", "+00:00")`, and one that does not parse gives None; any
   * other value has no `replace` and raises AttributeError.
   */
  function FormatDatetime(v: Json, parse: string -> Option<string>): (r: Result<Json, Error>)
    ensures r.Failure? <==> Truthy(v) && !v.JStr?
    ensures r.Success? ==> r.value == JNull || r.value.JStr?
  {
    if !Truthy(v) then Success(JNull)
    else if !v.JStr? then Failure(Builtin(AttributeError, "'" + TypeName(v) + "' object has no attribute 'replace'"))
    else match parse(ReplaceZ(v.s))
      case None => Success(JNull)
      case Some(text) => Success(JStr(text))
  }

  /** `format_date_for_db`: None for a falsy value, a value that is not a str, or a str that does not parse. */
  function FormatDate(v: Json, parse: string -> Option<string>): (r: Json)
    ensures r != JNull ==> v.JStr? && r.JStr? && parse(v.s) == Some(r.s)
    ensures r == JNull ==> !v.JStr? || v.s == "" || parse(v.s).None?
  {
    if Truthy(v) && v.JStr? && parse(v.s).Some? then JStr(parse(v.s).value) else JNull
  }

  /**
   * The `images` column: `json.dumps` of a truthy value, "[]" otherwise;
   * ImageDTO objects are not JSON serialisable.
   */
  function ImagesText(images: Images, dumps: Json -> string): (r: Result<string, Error>)
    ensures r.Failure? <==> images.ImageList? && images.items != []
  {
    match images
    case ImageList(items) => if items == [] then Success("[]") else Failure(Builtin(TypeError, NotSerializableText))
    case DecodedImages(v) => if Truthy(v) then Success(dumps(v)) else Success("[]")
  }

  /** The value `save_article` binds for field `f`, given the rewritten date and images values. */
  function ColumnValue(dto: ArticleDataDto, f: FieldName, changed: Json, from: Json, to: Json, images: string): Param {
    match f
    case DateChanged => Value(changed)
    case SeasonDateFrom => Value(from)
    case SeasonDateTo => Value(to)
    case Attributes => AttributeObjects(dto.attributes)
    case Images => Value(JStr(images))
    case _ => Value(Field(dto, f))
  }

  function ColumnValues(dto: ArticleDataDto, changed: Json, from: Json, to: Json, images: string): (values: seq<Param>)
    ensures |values| == |Fields|
  {
    seq(|Fields|, k requires 0 <= k < |Fields| => ColumnValue(dto, Fields[k], changed, from, to, images))
  }

  /** The filters that bind a parameter: those whose value is not None, in order. */
  function Kept(filters: seq<(string, Json)>): seq<(string, Json)>
    decreases |filters|
  {
    if filters == [] then []
    else
      var last := filters[|filters| - 1];
      Kept(filters[..|filters| - 1]) + (if last.1 != JNull then [last] else [])
  }

  function Conditions(kept: seq<(string, Json)>): seq<string> {
    seq(|kept|, k requires 0 <= k < |kept| => kept[k].0 + " = %s")
  }

  function Bindings(kept: seq<(string, Json)>): seq<Param> {
    seq(|kept|, k requires 0 <= k < |kept| => Value(kept[k].1))
  }

  /** The query of `search_articles` for the given conditions. */
  function SearchQuery(conditions: seq<string>): string {
    if conditions == [] then SelectArticles else SelectArticles + " WHERE " + Join(conditions, " AND ")
  }

  function SearchStatement(filters: seq<(string, Json)>): Statement {
    Statement(SearchQuery(Conditions(Kept(filters))), Bindings(Kept(filters)))
  }

  /** The statement of `get_all_articles`: a page clause exactly when a limit is given. */
  function PageStatement(limit: Json, offset: Json): Statement {
    if limit == JNull then Statement(SelectArticles, [])
    else Statement(SelectArticles + PageClause, [Value(limit), Value(offset)])
  }

  /** `ArticleDataDTO.__init__` takes a keyword named `k`. */
  predicate IsFieldName(k: string) {
    exists f: FieldName :: Name(f) == k
  }

  /** The first key of the row that `ArticleDataDTO.__init__` does not take, if any. */
  function FirstUnexpected(row: Row): (r: Option<string>)
    ensures r.None? <==> forall i :: 0 <= i < |row| ==> IsFieldName(row[i].0)
    ensures r.Some? ==> exists i :: (0 <= i < |row| && row[i].0 == r.value && !IsFieldName(r.value) &&
      forall j :: 0 <= j < i ==> IsFieldName(row[j].0))
    decreases |row|
  {
    if row == [] then None
    else if !IsFieldName(row[0].0) then Some(row[0].0)
    else
      var r := FirstUnexpected(row[1..]);
      assert forall i :: 0 < i < |row| ==> row[i] == row[1..][i - 1];
      if r.Some? then
        var i :| (0 <= i < |row[1..]| && row[1..][i].0 == r.value && !IsFieldName(r.value) &&
          forall j :: 0 <= j < i ==> IsFieldName(row[1..][j].0));
        assert row[i + 1].0 == r.value;
        r
      else r
  }

  function UnexpectedKeyword(k: string): Error {
    Builtin(TypeError, "ArticleDataDTO.__init__() got an unexpected keyword argument '" + k + "'")
  }

  /** The optional fields a row supplies: those of its columns that are not NULL. */
  function RowOptional(row: Row): map<FieldName, Json> {
    map f: FieldName | IsOptional(f) && Get(row, Name(f)) != JNull :: Get(row, Name(f))
  }

  /** The `attributes` keyword: the row's value when it has the column, the empty default otherwise. */
  function RowAttributeField(row: Row): AttributeField {
    if Lookup(row, "attributes").Some? then RowAttributes(Get(row, "attributes")) else AttributeList([])
  }

  /** The failure `ArticleDataDTO.__init__` raises for the keys of a row, if any; images are always supplied. */
  function KeywordError(row: Row): Option<Error> {
    match FirstUnexpected(row)
    case Some(k) => Some(UnexpectedKeyword(k))
    case None => if Lookup(row, "eccId").None? then Some(Builtin(TypeError, MissingEccIdText)) else None
  }

  /**
   * `r` is the DatabaseError raised for the driver exception whose `str` is
   * `text`: that exception is its original exception, and `str` of it is the
   * prefixed message, the driver text, and the driver text again in parentheses.
   */
  ghost predicate DriverFailure<T>(r: Result<T, Error>, message: string, text: string) {
    r.Failure? && r.error.App? && r.error.exception.DatabaseError? &&
    r.error.exception.originalException == Some(text) &&
    ErrorText(r.error) == DatabasePrefix + message + text + OriginalOpen + text + ")"
  }

  /**
   * `raise DatabaseError(f"{message}{e}", original_exception=e)` for the
   * driver exception `e` whose `str` is `text`.
   */
  function DatabaseFailure<T>(message: string, text: string): (r: Result<T, Error>)
    ensures DriverFailure(r, message, text)
  {
    Failure(App(NewDatabaseError(message + text, Some(text))))
  }

  class MySqlArticleRepository {
    /** The server's answer to the n-th statement. */
    const database: (nat, Statement) -> DbReply
    /** `datetime.fromisoformat(...).strftime("%Y-%m-%d %H:%M:%S")`; None for a text it rejects. */
    const parseDatetime: string -> Option<string>
    /** `date.fromisoformat(...).strftime("%Y-%m-%d")`; None for a text it rejects. */
    const parseDate: string -> Option<string>
    const dumps: Json -> string
    /** `json.loads`; None for a text that is not JSON. */
    const loads: string -> Option<Json>

    /** The statements sent to the server, in order. */
    var executed: seq<Statement>

    constructor (database: (nat, Statement) -> DbReply, parseDatetime: string -> Option<string>,
                 parseDate: string -> Option<string>, dumps: Json -> string, loads: string -> Option<Json>)
      ensures this.database == database && this.parseDatetime == parseDatetime && this.parseDate == parseDate
      ensures this.dumps == dumps && this.loads == loads
      ensures executed == []
    {
      this.database := database;
      this.parseDatetime := parseDatetime;
      this.parseDate := parseDate;
      this.dumps := dumps;
      this.loads := loads;
      executed := [];
    }

    /** The upsert of `save_article`, or the exception raised while building it. */
    function SaveStatement(dto: ArticleDataDto): Result<Statement, Error> {
      match FormatDatetime(Field(dto, DateChanged), parseDatetime)
      case Failure(e) => Failure(e)
      case Success(changed) =>
        match ImagesText(dto.images, dumps)
        case Failure(e) => Failure(e)
        case Success(images) =>
          var values := ColumnValues(dto, changed, FormatDate(Field(dto, SeasonDateFrom), parseDate),
                                     FormatDate(Field(dto, SeasonDateTo), parseDate), images);
          Success(Statement(UpsertQuery(ColumnNames()), values + values))
    }

    /** What `save_article` returns or raises when its statement is the n-th. */
    function SaveOutcome(dto: ArticleDataDto, n: nat): (r: Result<(), Error>)
      ensures SaveStatement(dto).Failure? ==> r == Failure(SaveStatement(dto).error)
      ensures SaveStatement(dto).Success? ==>
        (r.Success? <==> database(n, SaveStatement(dto).value).Done?)
      ensures SaveStatement(dto).Success? && database(n, SaveStatement(dto).value).DriverError? ==>
        DriverFailure(r, "Error saving article " + Str(dto.eccId) + ": ", database(n, SaveStatement(dto).value).text)
    {
      match SaveStatement(dto)
      case Failure(e) => Failure(e)
      case Success(st) =>
        match database(n, st)
        case DriverError(text) => DatabaseFailure("Error saving article " + Str(dto.eccId) + ": ", text)
        case Done(_, _) => Success(())
    }

    /** `row["images"]` after the rewrite: the decoded value, or [] when it is falsy or does not decode. */
    function RowImages(row: Row): Images {
      var v := Get(row, "images");
      if Truthy(v) && v.JStr? && loads(v.s).Some? then DecodedImages(loads(v.s).value) else ImageList([])
    }

    /** `ArticleDataDTO(**row)` after the images rewrite. */
    function RowDto(row: Row): (r: Result<ArticleDataDto, Error>)
      ensures r.Failure? <==> KeywordError(row).Some?
    {
      match KeywordError(row)
      case Some(e) => Failure(e)
      case None => Success(ArticleDataDto(Get(row, "eccId"), RowOptional(row), RowAttributeField(row), RowImages(row)))
    }

    /** The DTOs of a select, or the DatabaseError its failure raises. */
    function RowsOutcome(reply: DbReply, context: string): (r: Result<seq<ArticleDataDto>, Error>)
      ensures reply.DriverError? ==> DriverFailure(r, context, reply.text)
      ensures reply.Done? ==> r == MapAll(RowDto, reply.rows)
    {
      match reply
      case DriverError(text) => DatabaseFailure(context, text)
      case Done(_, rows) => MapAll(RowDto, rows)
    }

    function GetAllOutcome(limit: Json, offset: Json, n: nat): Result<seq<ArticleDataDto>, Error> {
      RowsOutcome(database(n, PageStatement(limit, offset)), "Error fetching articles: ")
    }

    function SearchOutcome(filters: seq<(string, Json)>, n: nat): Result<seq<ArticleDataDto>, Error> {
      RowsOutcome(database(n, SearchStatement(filters)), "Error searching articles: ")
    }

    /** `get_article_by_ecc_id`: `fetchone()` gives None when no row matches, and None has no `get`. */
    function ByEccIdOutcome(eccId: Json, n: nat): (r: Result<ArticleDataDto, Error>)
      ensures database(n, Statement(ByEccIdQuery, [Value(eccId)])).Done? ==>
        (r == Failure(NoGet(JNull)) <==> database(n, Statement(ByEccIdQuery, [Value(eccId)])).rows == [])
      ensures database(n, Statement(ByEccIdQuery, [Value(eccId)])).DriverError? ==>
        DriverFailure(r, "Error fetching article by eccId " + Str(eccId) + ": ",
                      database(n, Statement(ByEccIdQuery, [Value(eccId)])).text)
    {
      match database(n, Statement(ByEccIdQuery, [Value(eccId)]))
      case DriverError(text) => DatabaseFailure("Error fetching article by eccId " + Str(eccId) + ": ", text)
      case Done(_, rows) => if rows == [] then Failure(NoGet(JNull)) else RowDto(rows[0])
    }

    /** `delete_article`: whatever the row count, only a server error raises. */
    function DeleteOutcome(eccId: Json, n: nat): (r: Result<(), Error>)
      ensures r.Success? <==> database(n, Statement(DeleteQuery, [Value(eccId)])).Done?
      ensures database(n, Statement(DeleteQuery, [Value(eccId)])).DriverError? ==>
        DriverFailure(r, "Error deleting article " + Str(eccId) + ": ", database(n, Statement(DeleteQuery, [Value(eccId)])).text)
    {
      match database(n, Statement(DeleteQuery, [Value(eccId)]))
      case DriverError(text) => DatabaseFailure("Error deleting article " + Str(eccId) + ": ", text)
      case Done(_, _) => Success(())
    }

    /** `cursor.execute` with its commit: one more statement sent. */
    method Execute(st: Statement) returns (reply: DbReply)
      modifies this`executed
      ensures reply == database(|old(executed)|, st)
      ensures executed == old(executed) + [st]
    {
      reply := database(|executed|, st);
      executed := executed + [st];
    }

    /** `save_article`. */
    method SaveArticle(dto: ArticleDataDto) returns (r: Result<(), Error>)
      modifies this`executed
      ensures r == SaveOutcome(dto, |old(executed)|)
      ensures SaveStatement(dto).Failure? ==> executed == old(executed)
      ensures SaveStatement(dto).Success? ==> executed == old(executed) + [SaveStatement(dto).value]
    {
      var changed := FormatDatetime(Field(dto, DateChanged), parseDatetime);
      if changed.Failure? {
        return Failure(changed.error);
      }
      var from := FormatDate(Field(dto, SeasonDateFrom), parseDate);
      var to := FormatDate(Field(dto, SeasonDateTo), parseDate);
      var images := ImagesText(dto.images, dumps);
      if images.Failure? {
        return Failure(images.error);
      }
      var values := ColumnValues(dto, changed.value, from, to, images.value);
      var reply := Execute(Statement(UpsertQuery(ColumnNames()), values + values));
      match reply
      case DriverError(text) =>
        r := DatabaseFailure("Error saving article " + Str(dto.eccId) + ": ", text);
      case Done(_, _) =>
        r := Success(());
    }

    /** `get_all_articles`. */
    method GetAllArticles(limit: Json, offset: Json) returns (r: Result<seq<ArticleDataDto>, Error>)
      modifies this`executed
      ensures r == GetAllOutcome(limit, offset, |old(executed)|)
      ensures executed == old(executed) + [PageStatement(limit, offset)]
    {
      var st := Statement(SelectArticles, []);
      if limit != JNull {
        st := Statement(SelectArticles + PageClause, [Value(limit), Value(offset)]);
      }
      var reply := Execute(st);
      r := ReadRows(reply, "Error fetching articles: ");
    }

    /** `search_articles`. */
    method SearchArticles(filters: seq<(string, Json)>) returns (r: Result<seq<ArticleDataDto>, Error>)
      modifies this`executed
      ensures r == SearchOutcome(filters, |old(executed)|)
      ensures executed == old(executed) + [SearchStatement(filters)]
    {
      var st := BuildSearch(filters);
      var reply := Execute(st);
      r := ReadRows(reply, "Error searching articles: ");
    }

    /** `get_article_by_ecc_id`. */
    method GetArticleByEccId(eccId: Json) returns (r: Result<ArticleDataDto, Error>)
      modifies this`executed
      ensures r == ByEccIdOutcome(eccId, |old(executed)|)
      ensures executed == old(executed) + [Statement(ByEccIdQuery, [Value(eccId)])]
    {
      var reply := Execute(Statement(ByEccIdQuery, [Value(eccId)]));
      match reply
      case DriverError(text) =>
        r := DatabaseFailure("Error fetching article by eccId " + Str(eccId) + ": ", text);
      case Done(_, rows) =>
        if rows == [] {
          r := Failure(NoGet(JNull));
        } else {
          r := DecodeRow(rows[0]);
        }
    }

    /** `delete_article`. */
    method DeleteArticle(eccId: Json) returns (r: Result<(), Error>)
      modifies this`executed
      ensures r == DeleteOutcome(eccId, |old(executed)|)
      ensures executed == old(executed) + [Statement(DeleteQuery, [Value(eccId)])]
    {
      var reply := Execute(Statement(DeleteQuery, [Value(eccId)]));
      if reply.DriverError? {
        r := DatabaseFailure("Error deleting article " + Str(eccId) + ": ", reply.text);
      } else {
        r := Success(());
      }
    }

    /** The `try` around `fetchall()` and the row loop. */
    method ReadRows(reply: DbReply, context: string) returns (r: Result<seq<ArticleDataDto>, Error>)
      ensures r == RowsOutcome(reply, context)
    {
      match reply
      case DriverError(text) =>
        r := DatabaseFailure(context, text);
      case Done(_, rows) =>
        r := DecodeRows(rows);
    }

    /** The loop over the fetched rows. */
    method DecodeRows(rows: seq<Row>) returns (r: Result<seq<ArticleDataDto>, Error>)
      ensures r == MapAll(RowDto, rows)
    {
      var articles: seq<ArticleDataDto> := [];
      var i := 0;
      while i < |rows|
        invariant 0 <= i <= |rows|
        invariant MapAll(RowDto, rows[..i]) == Success(articles)
      {
        MapAllSnoc(RowDto, rows, i);
        var dto := DecodeRow(rows[i]);
        if dto.Failure? {
          MapAllSticky(RowDto, rows, i + 1);
          return Failure(dto.error);
        }
        articles := articles + [dto.value];
        i := i + 1;
      }
      assert rows[..|rows|] == rows;
      r := Success(articles);
    }

    /** One row: the images rewrite, then `ArticleDataDTO(**row)`. */
    method DecodeRow(row: Row) returns (r: Result<ArticleDataDto, Error>)
      ensures r == RowDto(row)
    {
      var images := ImageList([]);
      var v := Get(row, "images");
      if Truthy(v) && v.JStr? {
        match loads(v.s)
        case Some(decoded) =>
          images := DecodedImages(decoded);
        case None =>
      }
      var failure := KeywordError(row);
      if failure.Some? {
        return Failure(failure.value);
      }
      r := Success(ArticleDataDto(Get(row, "eccId"), RowOptional(row), RowAttributeField(row), images));
    }
  }

  /** The loop of `search_articles` that collects the conditions and their parameters. */
  method BuildSearch(filters: seq<(string, Json)>) returns (st: Statement)
    ensures st == SearchStatement(filters)
  {
    var conditions: seq<string> := [];
    var params: seq<Param> := [];
    ghost var kept: seq<(string, Json)> := [];
    var i := 0;
    while i < |filters|
      invariant 0 <= i <= |filters|
      invariant kept == Kept(filters[..i])
      invariant conditions == Conditions(kept) && params == Bindings(kept)
    {
      var (field, value) := filters[i];
      assert filters[..i + 1][..i] == filters[..i];
      if value != JNull {
        conditions := conditions + [field + " = %s"];
        params := params + [Value(value)];
        kept := kept + [filters[i]];
      }
      i := i + 1;
    }
    assert filters[..|filters|] == filters;
    var query := SelectArticles;
    if conditions != [] {
      query := query + " WHERE " + Join(conditions, " AND ");
    }
    st := Statement(query, params);
  }
}
