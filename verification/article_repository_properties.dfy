/**
 * What MySQLArticleRepository promises about the statements it sends and
 * the DTOs it reads back: one placeholder per bound parameter in every
 * query, the upsert binding each column's value twice, a page clause only
 * with a limit, one condition per filter that is not None, and rows read
 * back column by column.
 */
module ArticleRepositoryProperties {
  import opened Wrappers
  import opened JsonModel
  import opened Exceptions
  import opened Text
  import opened ArticleDtos
  import opened ArticleRepository

  /** No field name holds a `%`. */
  lemma NameHasNoPercent(f: FieldName)
    ensures '%' !in Name(f)
  {
    match f
    case EccId => assert Name(EccId) == "eccId";
    case Ean => assert Name(Ean) == "ean";
    case MainArticleEccId => assert Name(MainArticleEccId) == "mainArticleEccId";
    case SuGln => assert Name(SuGln) == "suGln";
    case MfGln => assert Name(MfGln) == "mfGln";
    case SuArticleNumber => assert Name(SuArticleNumber) == "suArticleNumber";
    case MfArticleNumber => assert Name(MfArticleNumber) == "mfArticleNumber";
    case BrandOriginal => assert Name(BrandOriginal) == "brandOriginal";
    case BrandCleared => assert Name(BrandCleared) == "brandCleared";
    case ModelName => assert Name(ModelName) == "modelName";
    case ArticleName => assert Name(ArticleName) == "articleName";
    case CatalogId => assert Name(CatalogId) == "catalogId";
    case CatalogName => assert Name(CatalogName) == "catalogName";
    case DateChanged => assert Name(DateChanged) == "dateChanged";
    case Status => assert Name(Status) == "status";
    case TextShort => assert Name(TextShort) == "textShort";
    case TextLong => assert Name(TextLong) == "textLong";
    case TextHtml => assert Name(TextHtml) == "textHtml";
    case SeasonEccId => assert Name(SeasonEccId) == "seasonEccId";
    case SeasonName => assert Name(SeasonName) == "seasonName";
    case SeasonDateFrom => assert Name(SeasonDateFrom) == "seasonDateFrom";
    case SeasonDateTo => assert Name(SeasonDateTo) == "seasonDateTo";
    case Gender => assert Name(Gender) == "gender";
    case AgeGroup => assert Name(AgeGroup) == "ageGroup";
    case ProductCategoryEccId => assert Name(ProductCategoryEccId) == "productCategoryEccId";
    case ProductCategoryName => assert Name(ProductCategoryName) == "productCategoryName";
    case ProductGroupEccId => assert Name(ProductGroupEccId) == "productGroupEccId";
    case ProductGroupName => assert Name(ProductGroupName) == "productGroupName";
    case ProductSubGroupEccId => assert Name(ProductSubGroupEccId) == "productSubGroupEccId";
    case ProductSubGroupName => assert Name(ProductSubGroupName) == "productSubGroupName";
    case ProductFamilyEccId => assert Name(ProductFamilyEccId) == "productFamilyEccId";
    case ProductFamilyName => assert Name(ProductFamilyName) == "productFamilyName";
    case PricePricat => assert Name(PricePricat) == "pricePricat";
    case PriceRetail => assert Name(PriceRetail) == "priceRetail";
    case PriceBase => assert Name(PriceBase) == "priceBase";
    case TaxClass => assert Name(TaxClass) == "taxClass";
    case Currency => assert Name(Currency) == "currency";
    case CountryIso => assert Name(CountryIso) == "countryIso";
    case OriginCountry => assert Name(OriginCountry) == "originCountry";
    case Attributes => assert Name(Attributes) == "attributes";
    case Images => assert Name(Images) == "images";
  }

  /**
   * For columns free of `%`, the upsert holds exactly two placeholders per
   * column: one in the VALUES list and one in the update list.
   */
  lemma UpsertPlaceholders(columns: seq<string>)
    requires forall k :: 0 <= k < |columns| ==> '%' !in columns[k]
    ensures CountChar(UpsertQuery(columns), '%') == 2 * |columns|
  {
    var head := "INSERT INTO pds_articles (";
    var mid := ") VALUES (";
    var tail := ") ON DUPLICATE KEY UPDATE ";
    var cols := Join(columns, ", ");
    var marks := Join(Placeholders(|columns|), ", ");
    var sets := Join(Assignments(columns), ", ");
    ColumnListPlaceholders(columns);
    ValuesListPlaceholders(|columns|);
    UpdateListPlaceholders(columns);
    CountCharAbsent(head, '%');
    CountCharAbsent(mid, '%');
    CountCharAbsent(tail, '%');
    assert UpsertQuery(columns) == head + cols + mid + marks + tail + sets;
    CountCharAppend(head + cols + mid + marks + tail, sets, '%');
    CountCharAppend(head + cols + mid + marks, tail, '%');
    CountCharAppend(head + cols + mid, marks, '%');
    CountCharAppend(head + cols, mid, '%');
    CountCharAppend(head, cols, '%');
  }

  /** The column list of the upsert has no placeholder when its columns have none. */
  lemma ColumnListPlaceholders(columns: seq<string>)
    requires forall k :: 0 <= k < |columns| ==> '%' !in columns[k]
    ensures CountChar(Join(columns, ", "), '%') == 0
  {
    forall k | 0 <= k < |columns|
      ensures CountChar(columns[k], '%') == 0
    {
      CountCharAbsent(columns[k], '%');
    }
    CountJoin(columns, ", ", '%', 0);
  }

  /** The VALUES list holds one placeholder per column. */
  lemma ValuesListPlaceholders(n: nat)
    ensures CountChar(Join(Placeholders(n), ", "), '%') == n
  {
    forall k | 0 <= k < n
      ensures CountChar(Placeholders(n)[k], '%') == 1
    {
      assert Placeholders(n)[k] == [] + ['%'] + "s";
      CountSingle([], '%', "s");
    }
    CountJoin(Placeholders(n), ", ", '%', 1);
  }

  /** The update list holds one placeholder per column when the columns have none. */
  lemma UpdateListPlaceholders(columns: seq<string>)
    requires forall k :: 0 <= k < |columns| ==> '%' !in columns[k]
    ensures CountChar(Join(Assignments(columns), ", "), '%') == |columns|
  {
    forall k | 0 <= k < |columns|
      ensures CountChar(Assignments(columns)[k], '%') == 1
    {
      assert Assignments(columns)[k] == columns[k] + " = " + ['%'] + "s";
      CountSingle(columns[k] + " = ", '%', "s");
    }
    CountJoin(Assignments(columns), ", ", '%', 1);
  }

  /** The upsert's columns are the DTO's fields, by name, in declaration order. */
  lemma ColumnsAreFields()
    ensures |ColumnNames()| == |Fields|
    ensures forall k :: 0 <= k < |Fields| ==> ColumnNames()[k] == Name(Fields[k]) && '%' !in ColumnNames()[k]
  {
    forall k | 0 <= k < |Fields|
      ensures '%' !in ColumnNames()[k]
    {
      NameHasNoPercent(Fields[k]);
    }
  }

  /** A field `save_article` binds as the DTO holds it. */
  predicate BoundAsIs(f: FieldName) {
    f != DateChanged && f != SeasonDateFrom && f != SeasonDateTo && f != Attributes && f != Images
  }

  /**
   * The upsert names every field as a column; its parameters are the
   * column values twice over, so their number is twice the number of
   * columns and equals the number of placeholders; the fields that are not
   * rewritten are bound as the DTO holds them.
   */
  lemma SaveStatementShape(repo: MySqlArticleRepository, dto: ArticleDataDto)
    requires repo.SaveStatement(dto).Success?
    ensures var st := repo.SaveStatement(dto).value;
      st.query == UpsertQuery(ColumnNames()) &&
      |st.params| == 2 * |Fields| && CountChar(st.query, '%') == |st.params| &&
      (forall k :: 0 <= k < |Fields| ==> st.params[k] == st.params[k + |Fields|]) &&
      (forall k :: 0 <= k < |Fields| && BoundAsIs(Fields[k]) ==> st.params[k] == Value(Field(dto, Fields[k])))
  {
    ColumnsAreFields();
    UpsertPlaceholders(ColumnNames());
  }

  /**
   * `save_article` raises before sending anything exactly when `dateChanged`
   * is truthy but not a str (AttributeError) or the images are a non-empty
   * list of ImageDTO objects (TypeError); the date check comes first.
   */
  lemma SaveRaisesBeforeExecuting(repo: MySqlArticleRepository, dto: ArticleDataDto)
    ensures repo.SaveStatement(dto).Failure? <==>
      (Truthy(Field(dto, DateChanged)) && !Field(dto, DateChanged).JStr?) ||
      (dto.images.ImageList? && dto.images.items != [])
    ensures Truthy(Field(dto, DateChanged)) && !Field(dto, DateChanged).JStr? ==>
      repo.SaveStatement(dto).error.Builtin? && repo.SaveStatement(dto).error.kind == AttributeError
    ensures !(Truthy(Field(dto, DateChanged)) && !Field(dto, DateChanged).JStr?) && repo.SaveStatement(dto).Failure? ==>
      repo.SaveStatement(dto).error == Builtin(TypeError, NotSerializableText)
  {
  }

  /** Missing or empty images are stored as the text "[]", in both halves of the parameters. */
  lemma EmptyImagesStoredAsEmptyList(repo: MySqlArticleRepository, dto: ArticleDataDto)
    requires repo.SaveStatement(dto).Success?
    requires dto.images == ImageList([]) || (dto.images.DecodedImages? && !Truthy(dto.images.value))
    ensures var st := repo.SaveStatement(dto).value;
      Fields[|Fields| - 1] == Images &&
      st.params[|Fields| - 1] == Value(JStr("[]")) && st.params[2 * |Fields| - 1] == Value(JStr("[]"))
  {
  }

  /** A select with a limit pages with LIMIT and OFFSET; without one it binds nothing. Placeholders match parameters. */
  lemma PageStatementShape(limit: Json, offset: Json)
    ensures var st := PageStatement(limit, offset);
      (st.params == [] <==> limit == JNull) &&
      (limit != JNull ==> st.params == [Value(limit), Value(offset)]) &&
      CountChar(st.query, '%') == |st.params|
  {
    CountCharAbsent(SelectArticles, '%');
    if limit != JNull {
      PageClausePlaceholders();
      CountCharAppend(SelectArticles, PageClause, '%');
    }
  }

  /** The page clause holds two placeholders, LIMIT's and OFFSET's. */
  lemma PageClausePlaceholders()
    ensures CountChar(PageClause, '%') == 2
  {
    assert PageClause == " LIMIT " + ['%'] + ("s OFFSET " + ['%'] + "s");
    CountSingle("s OFFSET ", '%', "s");
    CountCharAbsent(" LIMIT ", '%');
    CountCharAppend(" LIMIT " + ['%'], "s OFFSET " + ['%'] + "s", '%');
    CountCharAppend(" LIMIT ", ['%'], '%');
    assert ['%'][..0] == [];
  }

  /** Keeping the filters that are not None commutes with concatenation. */
  lemma {:induction false} KeptAppend(a: seq<(string, Json)>, b: seq<(string, Json)>)
    ensures Kept(a + b) == Kept(a) + Kept(b)
    decreases |b|
  {
    if b == [] {
      assert a + b == a;
    } else {
      var init := b[..|b| - 1];
      KeptAppend(a, init);
      assert (a + b)[..|a + b| - 1] == a + init;
    }
  }

  /** The kept filters are exactly the filters whose value is not None. */
  lemma {:induction false} KeptMembers(filters: seq<(string, Json)>)
    ensures forall p :: p in Kept(filters) <==> p in filters && p.1 != JNull
    decreases |filters|
  {
    if filters != [] {
      var init := filters[..|filters| - 1];
      KeptMembers(init);
      assert filters == init + [filters[|filters| - 1]];
    }
  }

  /**
   * `search_articles` binds one parameter per kept filter, in filter order,
   * and has a WHERE clause exactly when some filter is kept.
   */
  lemma SearchStatementShape(filters: seq<(string, Json)>)
    ensures var st := SearchStatement(filters);
      var kept := Kept(filters);
      |st.params| == |kept| &&
      (forall k :: 0 <= k < |kept| ==> st.params[k] == Value(kept[k].1)) &&
      (st.query == SelectArticles <==> kept == [])
  {
    var kept := Kept(filters);
    if kept != [] {
      assert |SelectArticles + " WHERE " + Join(Conditions(kept), " AND ")| > |SelectArticles|;
    }
  }

  /** Conditions on names free of `%` hold one placeholder each, however they are joined. */
  lemma ConditionPlaceholders(kept: seq<(string, Json)>)
    requires forall k :: 0 <= k < |kept| ==> '%' !in kept[k].0
    ensures CountChar(Join(Conditions(kept), " AND "), '%') == |kept|
  {
    var conditions := Conditions(kept);
    forall k | 0 <= k < |conditions|
      ensures CountChar(conditions[k], '%') == 1
    {
      assert conditions[k] == kept[k].0 + " = " + ['%'] + "s";
      CountSingle(kept[k].0 + " = ", '%', "s");
    }
    CountJoin(conditions, " AND ", '%', 1);
  }

  /** For filter names free of `%`, the search query holds one placeholder per bound parameter. */
  lemma SearchPlaceholders(filters: seq<(string, Json)>)
    requires forall k :: 0 <= k < |filters| ==> '%' !in filters[k].0
    ensures CountChar(SearchStatement(filters).query, '%') == |SearchStatement(filters).params|
  {
    var kept := Kept(filters);
    KeptMembers(filters);
    CountCharAbsent(SelectArticles, '%');
    if kept != [] {
      forall k | 0 <= k < |kept|
        ensures '%' !in kept[k].0
      {
        assert kept[k] in filters;
      }
      ConditionPlaceholders(kept);
      CountCharAbsent(" WHERE ", '%');
      CountCharAppend(SelectArticles + " WHERE ", Join(Conditions(kept), " AND "), '%');
      CountCharAppend(SelectArticles, " WHERE ", '%');
    }
  }

  /** The images a row reads back: the decoded column when it is a non-empty str that decodes, [] otherwise. */
  lemma RowImagesMeaning(repo: MySqlArticleRepository, row: Row)
    ensures var v := Get(row, "images");
      repo.RowImages(row).DecodedImages? <==> v.JStr? && v.s != "" && repo.loads(v.s).Some?
    ensures var v := Get(row, "images");
      repo.RowImages(row).DecodedImages? ==> repo.RowImages(row).value == repo.loads(v.s).value
    ensures repo.RowImages(row).ImageList? ==> repo.RowImages(row).items == []
  {
  }

  /** Each scalar field of a DTO read from a row is that row's column, NULL reading as None. */
  lemma RowFieldsReadBack(repo: MySqlArticleRepository, row: Row, f: FieldName)
    requires repo.RowDto(row).Success?
    requires f != Attributes && f != Images
    ensures Field(repo.RowDto(row).value, f) == Get(row, Name(f))
  {
    var dto := repo.RowDto(row).value;
    assert dto.eccId == Get(row, "eccId") && dto.optional == RowOptional(row);
    if f != EccId {
      RowOptionalReads(row, f);
    }
  }

  /** An optional field of the row's map is the row's column, a NULL column leaving it out. */
  lemma RowOptionalReads(row: Row, f: FieldName)
    requires IsOptional(f)
    ensures (if f in RowOptional(row) then RowOptional(row)[f] else JNull) == Get(row, Name(f))
  {
  }

  /** A row with a column that is not a DTO field raises TypeError, naming the first such column. */
  lemma UnknownColumnRaises(repo: MySqlArticleRepository, row: Row, i: nat)
    requires i < |row| && !IsFieldName(row[i].0)
    ensures repo.RowDto(row).Failure?
    ensures exists j :: (0 <= j <= i && !IsFieldName(row[j].0) &&
      repo.RowDto(row).error == UnexpectedKeyword(row[j].0) &&
      forall m :: 0 <= m < j ==> IsFieldName(row[m].0))
  {
    var r := FirstUnexpected(row);
    assert r.Some?;
    var j :| (0 <= j < |row| && row[j].0 == r.value && !IsFieldName(r.value) &&
      forall m :: 0 <= m < j ==> IsFieldName(row[m].0));
    assert j <= i;
  }

  /** A row whose columns are all fields but that has no `eccId` raises TypeError for the missing argument. */
  lemma MissingEccIdRaises(repo: MySqlArticleRepository, row: Row)
    requires forall i :: 0 <= i < |row| ==> IsFieldName(row[i].0)
    requires Lookup(row, "eccId").None?
    ensures repo.RowDto(row) == Failure(Builtin(TypeError, MissingEccIdText))
  {
  }

  /** `colorCode`, a column of the table `create_tables` declares, is not an ArticleDataDTO field. */
  lemma ColorCodeIsNoField()
    ensures !IsFieldName("colorCode")
  {
    forall f: FieldName
      ensures Name(f) != "colorCode"
    {
    }
  }

  /** So a row of that table, which has the column, never reads back as a DTO. */
  lemma TableRowRaises(repo: MySqlArticleRepository, row: Row, i: nat)
    requires i < |row| && row[i].0 == "colorCode"
    ensures repo.RowDto(row).Failure? && repo.RowDto(row).error.Builtin? && repo.RowDto(row).error.kind == TypeError
  {
    ColorCodeIsNoField();
    UnknownColumnRaises(repo, row, i);
  }

  /**
   * Every database failure of the repository keeps the driver's exception:
   * `str` of the raised DatabaseError ends with that exception's text in
   * parentheses, and its message ends with the same text.
   */
  lemma DriverErrorIsOriginal<T>(r: Result<T, Error>, message: string, text: string)
    requires DriverFailure(r, message, text)
    ensures var s := ErrorText(r.error);
      var tail := OriginalOpen + text + ")";
      |s| >= |tail| && s[|s| - |tail|..] == tail
    ensures r.error.exception.message == DatabasePrefix + message + text
  {
    var e := r.error.exception;
    RenderShape(e);
    assert ErrorText(r.error) == e.message + OriginalOpen + text + ")";
    assert DatabasePrefix + message + text + OriginalOpen + text + ")" == (DatabasePrefix + message + text) + (OriginalOpen + text + ")");
    assert e.message + OriginalOpen + text + ")" == e.message + (OriginalOpen + text + ")");
  }

  /** A delete the server rejects with `boom` raises the DatabaseError that keeps `boom` as its original error. */
  lemma DeleteRejectedKeepsDriverError(repo: MySqlArticleRepository, eccId: Json, n: nat)
    requires repo.database(n, Statement(DeleteQuery, [Value(eccId)])) == DriverError("boom")
    ensures var r := repo.DeleteOutcome(eccId, n);
      r.Failure? && r.error == App(DatabaseError(DatabasePrefix + "Error deleting article " + Str(eccId) + ": boom", Some("boom")))
  {
  }
}
