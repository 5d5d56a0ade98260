/**
 * What `ArticleDataDTO.from_api_response` promises about the DTO it builds:
 * which API key each field comes from, the season and assortment overrides,
 * the image list, the dropped None values and the required `eccId`.
 */
module ArticleDtoProperties {
  import opened Wrappers
  import opened JsonModel
  import opened Exceptions
  import opened PyJson
  import opened ArticleDtos

  /** The value a mapped dict gives a field once None values are dropped: None either way. */
  function MappedField(mapped: map<FieldName, Json>, name: FieldName): Json {
    if name in mapped then mapped[name] else JNull
  }

  /**
   * The constructed DTO reads every field as the mapped dict holds it, keeps
   * no None value, and has no attributes; it fails exactly when `eccId` is
   * missing or None.
   */
  lemma ConstructReadsMapped(mapped: map<FieldName, Json>, images: seq<ImageDto>)
    ensures Construct(mapped, images).Success? <==> MappedField(mapped, EccId) != JNull
    ensures Construct(mapped, images).Failure? ==> Construct(mapped, images).error == Builtin(TypeError, MissingEccIdText)
    ensures Construct(mapped, images).Success? ==>
      var dto := Construct(mapped, images).value;
      dto.attributes == AttributeList([]) && dto.images == ImageList(images) &&
      (forall name :: Field(dto, name) == MappedField(mapped, name)) &&
      (forall k :: k in dto.optional ==> dto.optional[k] != JNull && k in mapped && k != EccId)
  {
  }

  /** When the mapped dict has no attributes or images, the constructed DTO keeps only optional fields. */
  lemma ConstructKeepsOptional(mapped: map<FieldName, Json>, images: seq<ImageDto>)
    requires MappedField(mapped, Attributes) == JNull && MappedField(mapped, Images) == JNull
    ensures Construct(mapped, images).Success? ==>
      var dto := Construct(mapped, images).value;
      dto.attributes == AttributeList([]) && dto.images == ImageList(images) &&
      forall k :: k in dto.optional ==> dto.optional[k] != JNull && IsOptional(k)
  {
  }

  /** The media items of a group all yield an image exactly when they are all dicts, one image each, in order. */
  lemma {:induction false} MediaImagesMeaning(items: seq<Json>)
    ensures MediaImages(items).Success? <==> forall k :: 0 <= k < |items| ==> items[k].JObj?
    ensures MediaImages(items).Success? ==>
      var images := MediaImages(items).value;
      |images| == |items| &&
      forall k :: 0 <= k < |items| ==> images[k] == MediaImage(items[k].fields)
    decreases |items|
  {
    if items != [] {
      var init := items[..|items| - 1];
      MediaImagesMeaning(init);
      assert forall k :: 0 <= k < |init| ==> init[k] == items[k];
    }
  }

  /** Every image built from the API has the fixed type "product_image" and sort index 0. */
  lemma {:induction false} GroupsImagesAreProductImages(groups: seq<Json>)
    ensures GroupsImages(groups).Success? ==>
      forall img :: img in GroupsImages(groups).value ==> img.imageType == ImageType && img.sortIndex == 0
    decreases |groups|
  {
    if groups != [] {
      var last := groups[|groups| - 1];
      GroupsImagesAreProductImages(groups[..|groups| - 1]);
      if last.JObj? && Truthy(Get(last.fields, "media")) && Elements(Get(last.fields, "media")).Some? {
        MediaImagesMeaning(Elements(Get(last.fields, "media")).value);
      }
    }
  }

  /** A successful mapping is the construction from the season- and assortment-updated dict. */
  lemma FromApiSteps(data: Json)
    requires FromApi(data).Success?
    ensures data.JObj?
    ensures Updated(data.fields).Success?
    ensures ArticleImages(data.fields).Success?
    ensures FromApi(data) ==
      Construct(Updated(data.fields).value,
                ArticleImages(data.fields).value)
  {
  }

  /** The dict literal: a field with a source key holds that key's value, any other field is unset. */
  lemma MappedDataFields(data: seq<(string, Json)>, f: FieldName)
    ensures MappedField(MappedData(data), f) == if Source(f).Some? then Get(data, Source(f).value) else JNull
  {
  }

  /** The fields the season or assortment update may set. */
  predicate Overridden(f: FieldName) {
    f == SeasonEccId || f == SeasonName || f == Ean || f == PricePricat || f == PriceRetail
  }

  /** The season update leaves every other field as it was. */
  lemma WithSeasonKeeps(m: map<FieldName, Json>, data: seq<(string, Json)>, f: FieldName)
    requires f != SeasonEccId && f != SeasonName
    ensures MappedField(WithSeason(m, data), f) == MappedField(m, f)
  {
  }

  /** A truthy dict under `season` sets the season id and name; anything else leaves them. */
  lemma WithSeasonSets(m: map<FieldName, Json>, data: seq<(string, Json)>)
    ensures var season := Get(data, "season");
      var m' := WithSeason(m, data);
      if Truthy(season) && season.JObj? then
        MappedField(m', SeasonEccId) == Get(season.fields, "id") && MappedField(m', SeasonName) == Get(season.fields, "value")
      else
        MappedField(m', SeasonEccId) == MappedField(m, SeasonEccId) && MappedField(m', SeasonName) == MappedField(m, SeasonName)
  {
  }

  /** A successful assortment update leaves every field but ean and the prices as it was. */
  lemma WithAssortmentKeeps(m: map<FieldName, Json>, data: seq<(string, Json)>, f: FieldName)
    requires WithAssortment(m, data).Success?
    requires f != Ean && f != PricePricat && f != PriceRetail
    ensures MappedField(WithAssortment(m, data).value, f) == MappedField(m, f)
  {
  }

  /**
   * The assortment update sets ean and the two prices only when `assortment`
   * and its `de` entry are truthy; it then succeeds exactly when `de` is a
   * list whose first entry is a dict.
   */
  lemma WithAssortmentSets(m: map<FieldName, Json>, data: seq<(string, Json)>)
    ensures var assortment := Get(data, "assortment");
      var r := WithAssortment(m, data);
      r.Success? ==>
        if Truthy(assortment) && Truthy(Get(assortment.fields, "de")) then
          var items := Get(assortment.fields, "de");
          items.JArr? && items.items[0].JObj? &&
          MappedField(r.value, Ean) == Get(items.items[0].fields, "ean") &&
          MappedField(r.value, PricePricat) == Get(items.items[0].fields, "primeCost") &&
          MappedField(r.value, PriceRetail) == Get(items.items[0].fields, "retailPrice")
        else
          r.value == m
  {
  }

  /** A field neither update sets holds what the dict literal gave it. */
  lemma UpdatedKeeps(data: seq<(string, Json)>, f: FieldName)
    requires Updated(data).Success? && !Overridden(f)
    ensures MappedField(Updated(data).value, f) == MappedField(MappedData(data), f)
  {
    WithSeasonKeeps(MappedData(data), data, f);
    WithAssortmentKeeps(WithSeason(MappedData(data), data), data, f);
  }

  /** Every field of a successfully mapped entry reads as the updated dict holds it. */
  lemma FromApiField(data: Json, f: FieldName)
    requires FromApi(data).Success?
    ensures data.JObj? && Updated(data.fields).Success?
    ensures Field(FromApi(data).value, f) == MappedField(Updated(data.fields).value, f)
  {
    FromApiSteps(data);
    ConstructReadsMapped(Updated(data.fields).value,
                         ArticleImages(data.fields).value);
  }

  /**
   * The plain copies: a field with a source key that neither the season nor
   * the assortment update sets holds the value under that key.
   */
  lemma FromApiCopiesField(data: Json, f: FieldName)
    requires FromApi(data).Success?
    requires Source(f).Some? && !Overridden(f)
    ensures Field(FromApi(data).value, f) == Get(data.fields, Source(f).value)
  {
    FromApiField(data, f);
    UpdatedKeeps(data.fields, f);
    MappedDataFields(data.fields, f);
  }

  /** Both brand fields read the same key, and no update sets them. */
  lemma BrandsShareSource()
    ensures Source(BrandOriginal).Some? && Source(BrandOriginal) == Source(BrandCleared)
    ensures !Overridden(BrandOriginal) && !Overridden(BrandCleared)
  {
  }

  /** Both brand fields come from `brand`, so they always agree. */
  lemma FromApiBrandsAgree(data: Json)
    requires FromApi(data).Success?
    ensures Field(FromApi(data).value, BrandOriginal) == Field(FromApi(data).value, BrandCleared)
  {
    BrandsShareSource();
    FromApiField(data, BrandOriginal);
    FromApiField(data, BrandCleared);
    UpdatedKeeps(data.fields, BrandOriginal);
    UpdatedKeeps(data.fields, BrandCleared);
    MappedDataFields(data.fields, BrandOriginal);
    MappedDataFields(data.fields, BrandCleared);
  }

  /** The mapping copies no key into the season id and `seasonTxt` into the season name. */
  lemma SeasonSources()
    ensures Source(SeasonEccId) == None && Source(SeasonName) == Some("seasonTxt")
  {
  }

  /**
   * A truthy dict under `season` decides the season fields, even when it has
   * no `value`; otherwise the name comes from `seasonTxt` and there is no id.
   */
  lemma FromApiSeason(data: Json)
    requires FromApi(data).Success?
    ensures var dto := FromApi(data).value;
      var season := Get(data.fields, "season");
      if Truthy(season) && season.JObj? then
        Field(dto, SeasonEccId) == Get(season.fields, "id") && Field(dto, SeasonName) == Get(season.fields, "value")
      else
        Field(dto, SeasonEccId) == JNull && Field(dto, SeasonName) == Get(data.fields, "seasonTxt")
  {
    SeasonSources();
    FromApiField(data, SeasonEccId);
    FromApiField(data, SeasonName);
    var m := MappedData(data.fields);
    MappedDataFields(data.fields, SeasonEccId);
    MappedDataFields(data.fields, SeasonName);
    WithSeasonSets(m, data.fields);
    WithAssortmentKeeps(WithSeason(m, data.fields), data.fields, SeasonEccId);
    WithAssortmentKeeps(WithSeason(m, data.fields), data.fields, SeasonName);
  }

  /** The mapping copies no key into ean or the two prices. */
  lemma AssortmentSources()
    ensures Source(Ean) == None && Source(PricePricat) == None && Source(PriceRetail) == None
  {
  }

  /**
   * `ean` and the two prices come from the first entry of `assortment["de"]`
   * when `assortment` and its `de` entry are truthy (that entry is then a
   * list whose first item is a dict), and are None otherwise.
   */
  lemma FromApiAssortment(data: Json)
    requires FromApi(data).Success?
    ensures var dto := FromApi(data).value;
      var assortment := Get(data.fields, "assortment");
      if Truthy(assortment) && Truthy(Get(assortment.fields, "de")) then
        var items := Get(assortment.fields, "de");
        items.JArr? && items.items[0].JObj? &&
        Field(dto, Ean) == Get(items.items[0].fields, "ean") &&
        Field(dto, PricePricat) == Get(items.items[0].fields, "primeCost") &&
        Field(dto, PriceRetail) == Get(items.items[0].fields, "retailPrice")
      else
        Field(dto, Ean) == JNull && Field(dto, PricePricat) == JNull && Field(dto, PriceRetail) == JNull
  {
    AssortmentSources();
    FromApiField(data, Ean);
    FromApiField(data, PricePricat);
    FromApiField(data, PriceRetail);
    var m := MappedData(data.fields);
    MappedDataFields(data.fields, Ean);
    MappedDataFields(data.fields, PricePricat);
    MappedDataFields(data.fields, PriceRetail);
    WithSeasonKeeps(m, data.fields, Ean);
    WithSeasonKeeps(m, data.fields, PricePricat);
    WithSeasonKeeps(m, data.fields, PriceRetail);
    WithAssortmentSets(WithSeason(m, data.fields), data.fields);
  }

  /** The attribute and image lists have no source key and no update sets them. */
  lemma ListsUnsourced()
    ensures Source(Attributes).None? && !Overridden(Attributes)
    ensures Source(Images).None? && !Overridden(Images)
  {
  }

  /** A field that has no source key and that neither update sets stays unset. */
  lemma UpdatedLeavesUnset(data: seq<(string, Json)>, f: FieldName)
    requires Updated(data).Success? && Source(f).None? && !Overridden(f)
    ensures MappedField(Updated(data).value, f) == JNull
  {
    UpdatedKeeps(data, f);
    MappedDataFields(data, f);
  }

  /** The DTO has no attributes, carries the entry's images, and keeps no None value. */
  lemma FromApiImagesAndAttributes(data: Json)
    requires FromApi(data).Success?
    ensures var dto := FromApi(data).value;
      dto.attributes == AttributeList([]) &&
      dto.images == ImageList(ArticleImages(data.fields).value) &&
      (forall k :: k in dto.optional ==> dto.optional[k] != JNull && IsOptional(k))
  {
    FromApiSteps(data);
    ListsUnsourced();
    UpdatedLeavesUnset(data.fields, Attributes);
    UpdatedLeavesUnset(data.fields, Images);
    ConstructKeepsOptional(Updated(data.fields).value,
                           ArticleImages(data.fields).value);
  }

  /** Every image of an entry has the fixed type "product_image" and sort index 0. */
  lemma ArticleImagesAreProductImages(data: seq<(string, Json)>)
    requires ArticleImages(data).Success?
    ensures forall img :: img in ArticleImages(data).value ==> img.imageType == ImageType && img.sortIndex == 0
  {
    var groups := Get(data, "images");
    if Truthy(groups) {
      GroupsImagesAreProductImages(Elements(groups).value);
    }
  }

  /**
   * An entry that is a dict and whose assortment and images have the shapes
   * the code expects fails exactly when its `eccId` is missing or None, with
   * the TypeError of the dataclass constructor.
   */
  lemma FromApiRequiresEccId(data: Json)
    requires data.JObj?
    requires Updated(data.fields).Success?
    requires ArticleImages(data.fields).Success?
    ensures FromApi(data).Success? <==> Get(data.fields, "eccId") != JNull
    ensures FromApi(data).Failure? ==> FromApi(data).error == Builtin(TypeError, MissingEccIdText)
  {
    UpdatedKeeps(data.fields, EccId);
    MappedDataFields(data.fields, EccId);
    ConstructReadsMapped(Updated(data.fields).value, ArticleImages(data.fields).value);
  }

  /** An entry that is not a dict fails at the first `data.get`. */
  lemma FromApiNeedsDict(data: Json)
    requires !data.JObj?
    ensures FromApi(data) == Failure(NoGet(data))
  {
  }
}
