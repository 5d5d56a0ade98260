/**
 * ArticleDataDTO and its construction from one entry of the ECC article
 * API's `articles` list (`ArticleDataDTO.from_api_response`).
 *
 * The DTO keeps its required `eccId` apart and its optional scalar fields in
 * a map: a field missing from the map holds the dataclass default None, so a
 * field dropped for being None and a field never supplied read the same.
 */
module ArticleDtos {
  import opened Wrappers
  import opened JsonModel
  import opened Exceptions
  import opened PyJson
  import opened SeqFacts

  datatype AttributeDto = AttributeDto(key: string, value: Option<string>, unit: Option<string>)

  /**
   * The `attributes` field: AttributeDTO objects (the default empty list and
   * the API mapping), or whatever a database row held under that key.
   */
  datatype AttributeField = AttributeList(items: seq<AttributeDto>) | RowAttributes(value: Json)

  datatype ImageDto = ImageDto(url: Json, imageType: string, sortIndex: int)

  /**
   * The `images` field: ImageDTO objects when built from the API, or
   * whatever `json.loads` gave back when read from the database.
   */
  datatype Images = ImageList(items: seq<ImageDto>) | DecodedImages(value: Json)

  /** The dataclass fields of ArticleDataDTO, in declaration order. */
  datatype FieldName =
    | EccId | Ean | MainArticleEccId | SuGln | MfGln | SuArticleNumber | MfArticleNumber
    | BrandOriginal | BrandCleared | ModelName | ArticleName | CatalogId | CatalogName
    | DateChanged | Status | TextShort | TextLong | TextHtml | SeasonEccId | SeasonName
    | SeasonDateFrom | SeasonDateTo | Gender | AgeGroup | ProductCategoryEccId
    | ProductCategoryName | ProductGroupEccId | ProductGroupName | ProductSubGroupEccId
    | ProductSubGroupName | ProductFamilyEccId | ProductFamilyName | PricePricat | PriceRetail
    | PriceBase | TaxClass | Currency | CountryIso | OriginCountry | Attributes | Images

  /** The fields with a None default. */
  predicate IsOptional(f: FieldName) {
    f != EccId && f != Attributes && f != Images
  }

  datatype ArticleDataDto = ArticleDataDto(
    eccId: Json,
    optional: map<FieldName, Json>,
    attributes: AttributeField,
    images: Images)

  /** The fields in declaration order, which is also the order of `__dict__`. */
  const Fields: seq<FieldName> := [
    EccId, Ean, MainArticleEccId, SuGln, MfGln, SuArticleNumber, MfArticleNumber,
    BrandOriginal, BrandCleared, ModelName, ArticleName, CatalogId, CatalogName,
    DateChanged, Status, TextShort, TextLong, TextHtml, SeasonEccId, SeasonName,
    SeasonDateFrom, SeasonDateTo, Gender, AgeGroup, ProductCategoryEccId,
    ProductCategoryName, ProductGroupEccId, ProductGroupName, ProductSubGroupEccId,
    ProductSubGroupName, ProductFamilyEccId, ProductFamilyName, PricePricat, PriceRetail,
    PriceBase, TaxClass, Currency, CountryIso, OriginCountry, Attributes, Images]

  /** The Python name of a field, which is also its column name. */
  function Name(f: FieldName): string {
    match f
    case EccId => "eccId"
    case Ean => "ean"
    case MainArticleEccId => "mainArticleEccId"
    case SuGln => "suGln"
    case MfGln => "mfGln"
    case SuArticleNumber => "suArticleNumber"
    case MfArticleNumber => "mfArticleNumber"
    case BrandOriginal => "brandOriginal"
    case BrandCleared => "brandCleared"
    case ModelName => "modelName"
    case ArticleName => "articleName"
    case CatalogId => "catalogId"
    case CatalogName => "catalogName"
    case DateChanged => "dateChanged"
    case Status => "status"
    case TextShort => "textShort"
    case TextLong => "textLong"
    case TextHtml => "textHtml"
    case SeasonEccId => "seasonEccId"
    case SeasonName => "seasonName"
    case SeasonDateFrom => "seasonDateFrom"
    case SeasonDateTo => "seasonDateTo"
    case Gender => "gender"
    case AgeGroup => "ageGroup"
    case ProductCategoryEccId => "productCategoryEccId"
    case ProductCategoryName => "productCategoryName"
    case ProductGroupEccId => "productGroupEccId"
    case ProductGroupName => "productGroupName"
    case ProductSubGroupEccId => "productSubGroupEccId"
    case ProductSubGroupName => "productSubGroupName"
    case ProductFamilyEccId => "productFamilyEccId"
    case ProductFamilyName => "productFamilyName"
    case PricePricat => "pricePricat"
    case PriceRetail => "priceRetail"
    case PriceBase => "priceBase"
    case TaxClass => "taxClass"
    case Currency => "currency"
    case CountryIso => "countryIso"
    case OriginCountry => "originCountry"
    case Attributes => "attributes"
    case Images => "images"
  }

  /** Reading a scalar field of the DTO. */
  function Field(dto: ArticleDataDto, f: FieldName): Json {
    if f == EccId then dto.eccId
    else if f in dto.optional then dto.optional[f]
    else JNull
  }

  const MissingEccIdText: string := "ArticleDataDTO.__init__() missing 1 required positional argument: 'eccId'"
  const ImageType: string := "product_image"

  /** The API key the `mapped_data` dict literal reads for a field, if it reads one. */
  function Source(f: FieldName): Option<string> {
    match f
    case EccId => Some("eccId")
    case SuGln => Some("suGln")
    case MfGln => Some("mfGln")
    case SuArticleNumber => Some("suArticleNumber")
    case MfArticleNumber => Some("mfArticleNumber")
    case BrandOriginal => Some("brand")
    case BrandCleared => Some("brand")
    case ModelName => Some("model")
    case ArticleName => Some("articleName")
    case Currency => Some("currency")
    case SeasonName => Some("seasonTxt")
    case _ => None
  }

  /** The `mapped_data` dict literal: `data.get(key)` for each field that has a source key. */
  function MappedData(data: seq<(string, Json)>): map<FieldName, Json> {
    map f: FieldName | Source(f).Some? :: Get(data, Source(f).value)
  }

  /** A truthy dict under `season` supplies the season id and name. */
  function WithSeason(mapped: map<FieldName, Json>, data: seq<(string, Json)>): map<FieldName, Json> {
    var season := Get(data, "season");
    if Truthy(season) && season.JObj? then
      mapped[SeasonEccId := Get(season.fields, "id")][SeasonName := Get(season.fields, "value")]
    else mapped
  }

  /**
   * `assortment["de"][0]` supplies ean and prices when `assortment` and its
   * `de` entry are truthy; each wrong shape fails as Python does.
   */
  function WithAssortment(mapped: map<FieldName, Json>, data: seq<(string, Json)>): Result<map<FieldName, Json>, Error> {
    var assortment := Get(data, "assortment");
    if !Truthy(assortment) then Success(mapped)
    else if !assortment.JObj? then Failure(NoGet(assortment))
    else
      var items := Get(assortment.fields, "de");
      if !Truthy(items) then Success(mapped)
      else match items
        case JArr(xs) =>
          if !xs[0].JObj? then Failure(NoGet(xs[0]))
          else
            var first := xs[0].fields;
            Success(mapped[Ean := Get(first, "ean")][PricePricat := Get(first, "primeCost")]
                          [PriceRetail := Get(first, "retailPrice")])
        case JStr(_) => Failure(NoGet(JStr("")))
        case JObj(_) => Failure(Builtin(KeyError, "0"))
        case _ => Failure(Builtin(TypeError, "object of type '" + TypeName(items) + "' has no len()"))
  }

  /** The ImageDTO of one media item: its `file`, or "" when the key is absent. */
  function MediaImage(item: seq<(string, Json)>): ImageDto {
    ImageDto(Lookup(item, "file").GetOr(JStr("")), ImageType, 0)
  }

  /** The inner loop: one image per media item, in order; an item that is not a dict fails. */
  function MediaImages(items: seq<Json>): Result<seq<ImageDto>, Error>
    decreases |items|
  {
    if items == [] then Success([])
    else MediaStep(MediaImages(items[..|items| - 1]), items[|items| - 1])
  }

  function MediaStep(acc: Result<seq<ImageDto>, Error>, item: Json): Result<seq<ImageDto>, Error> {
    if acc.Failure? then acc
    else if !item.JObj? then Failure(NoGet(item))
    else Success(acc.value + [MediaImage(item.fields)])
  }

  /** The images of one group: none when its `media` is falsy. */
  function GroupImages(group: Json): Result<seq<ImageDto>, Error> {
    if !group.JObj? then Failure(NoGet(group))
    else
      var media := Get(group.fields, "media");
      if !Truthy(media) then Success([])
      else match Elements(media)
        case None => Failure(NotIterable(media))
        case Some(items) => MediaImages(items)
  }

  /** The outer loop: the groups' images concatenated in order, up to the first failure. */
  function GroupsImages(groups: seq<Json>): Result<seq<ImageDto>, Error>
    decreases |groups|
  {
    if groups == [] then Success([])
    else GroupsStep(GroupsImages(groups[..|groups| - 1]), groups[|groups| - 1])
  }

  function GroupsStep(acc: Result<seq<ImageDto>, Error>, group: Json): Result<seq<ImageDto>, Error> {
    if acc.Failure? then acc
    else match GroupImages(group)
      case Failure(e) => Failure(e)
      case Success(more) => Success(acc.value + more)
  }

  /** The images of the whole entry: none when `images` is falsy. */
  function ArticleImages(data: seq<(string, Json)>): Result<seq<ImageDto>, Error> {
    var groups := Get(data, "images");
    if !Truthy(groups) then Success([])
    else match Elements(groups)
      case None => Failure(NotIterable(groups))
      case Some(gs) => GroupsImages(gs)
  }

  /** `cls(**filtered_data, attributes=[], images=images)` with the None values filtered out. */
  function Construct(mapped: map<FieldName, Json>, images: seq<ImageDto>): Result<ArticleDataDto, Error> {
    var filtered := map k | k in mapped && mapped[k] != JNull :: mapped[k];
    if EccId !in filtered then Failure(Builtin(TypeError, MissingEccIdText))
    else Success(ArticleDataDto(filtered[EccId], filtered - {EccId}, AttributeList([]), ImageList(images)))
  }

  /** The `mapped_data` dict after the season and assortment updates. */
  function Updated(data: seq<(string, Json)>): Result<map<FieldName, Json>, Error> {
    WithAssortment(WithSeason(MappedData(data), data), data)
  }

  /** `ArticleDataDTO.from_api_response(data)`, as a value. */
  function FromApi(data: Json): Result<ArticleDataDto, Error> {
    if !data.JObj? then Failure(NoGet(data))
    else
      match Updated(data.fields)
      case Failure(e) => Failure(e)
      case Success(mapped') =>
        match ArticleImages(data.fields)
        case Failure(e) => Failure(e)
        case Success(images) => Construct(mapped', images)
  }

  lemma MediaImagesSnoc(items: seq<Json>, j: nat)
    requires j < |items|
    ensures MediaImages(items[..j + 1]) == MediaStep(MediaImages(items[..j]), items[j])
  {
    PrefixStep(items, j);
  }

  lemma GroupsImagesSnoc(groups: seq<Json>, i: nat)
    requires i < |groups|
    ensures GroupsImages(groups[..i + 1]) == GroupsStep(GroupsImages(groups[..i]), groups[i])
  {
    PrefixStep(groups, i);
  }

  lemma {:induction false} MediaImagesSticky(items: seq<Json>, j: nat)
    requires j <= |items| && MediaImages(items[..j]).Failure?
    ensures MediaImages(items) == MediaImages(items[..j])
    decreases |items| - j
  {
    if j < |items| {
      MediaImagesSnoc(items, j);
      MediaImagesSticky(items, j + 1);
    } else {
      Whole(items);
    }
  }

  lemma {:induction false} GroupsImagesSticky(groups: seq<Json>, i: nat)
    requires i <= |groups| && GroupsImages(groups[..i]).Failure?
    ensures GroupsImages(groups) == GroupsImages(groups[..i])
    decreases |groups| - i
  {
    if i < |groups| {
      GroupsImagesSnoc(groups, i);
      GroupsImagesSticky(groups, i + 1);
    } else {
      Whole(groups);
    }
  }

  /** The nested loop over image groups and their media items. */
  method CollectImages(groups: seq<Json>) returns (r: Result<seq<ImageDto>, Error>)
    ensures r == GroupsImages(groups)
  {
    var images: seq<ImageDto> := [];
    var i := 0;
    while i < |groups|
      invariant 0 <= i <= |groups|
      invariant GroupsImages(groups[..i]) == Success(images)
    {
      GroupsImagesSnoc(groups, i);
      var group := groups[i];
      if !group.JObj? {
        GroupsImagesSticky(groups, i + 1);
        return Failure(NoGet(group));
      }
      var media := Get(group.fields, "media");
      if Truthy(media) {
        if Elements(media).None? {
          GroupsImagesSticky(groups, i + 1);
          return Failure(NotIterable(media));
        }
        var items := Elements(media).value;
        var added := CollectMedia(items);
        if added.Failure? {
          GroupsImagesSticky(groups, i + 1);
          return added;
        }
        images := images + added.value;
      } else {
        assert images + [] == images;
      }
      i := i + 1;
    }
    Whole(groups);
    r := Success(images);
  }

  /** The inner loop over one group's media items. */
  method CollectMedia(items: seq<Json>) returns (r: Result<seq<ImageDto>, Error>)
    ensures r == MediaImages(items)
  {
    var images: seq<ImageDto> := [];
    var j := 0;
    while j < |items|
      invariant 0 <= j <= |items|
      invariant MediaImages(items[..j]) == Success(images)
    {
      MediaImagesSnoc(items, j);
      var item := items[j];
      if !item.JObj? {
        MediaImagesSticky(items, j + 1);
        return Failure(NoGet(item));
      }
      images := images + [MediaImage(item.fields)];
      j := j + 1;
    }
    Whole(items);
    r := Success(images);
  }

  /** `ArticleDataDTO.from_api_response`. */
  method FromApiResponse(data: Json) returns (r: Result<ArticleDataDto, Error>)
    ensures r == FromApi(data)
  {
    if !data.JObj? {
      return Failure(NoGet(data));
    }
    var mapped := WithSeason(MappedData(data.fields), data.fields);
    var assorted := WithAssortment(mapped, data.fields);
    if assorted.Failure? {
      return Failure(assorted.error);
    }
    var images: seq<ImageDto> := [];
    var groups := Get(data.fields, "images");
    if Truthy(groups) {
      if Elements(groups).None? {
        return Failure(NotIterable(groups));
      }
      var collected := CollectImages(Elements(groups).value);
      if collected.Failure? {
        return Failure(collected.error);
      }
      images := collected.value;
    }
    r := Construct(assorted.value, images);
  }
}
