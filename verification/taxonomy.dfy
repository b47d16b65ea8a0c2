/** The static filter taxonomy of the search page: three categories holding
    eight content types, each with the sub-types the search API knows it by,
    and the lookup table from a content type's name to its definition. */
module Taxonomy {

  /** A kind of search result. `typeName` is the value the page uses in its
      `filter` parameter; `subTypes` are the search API's finer types. */
  datatype ContentType = ContentType(
    localiseKeyName: string,
    count: int,
    typeName: string,
    subTypes: seq<string>)

  /** A facet group of content types shown together on the search page. */
  datatype Category = Category(
    localiseKeyName: string,
    count: int,
    contentTypes: seq<ContentType>)

  const Bulletin := ContentType("StatisticalBulletin", 0, "bulletin", ["bulletin"])
  const Article := ContentType("Article", 0, "article", ["article", "article_download"])
  const Compendium := ContentType("Compendium", 0, "compendia", ["compendium_landing_page"])
  const TimeSeries := ContentType("TimeSeries", 0, "time_series", ["timeseries"])
  const Datasets := ContentType("Datasets", 0, "datasets", ["dataset_landing_page", "reference_tables"])
  const UserRequestedData := ContentType("UserRequestedData", 0, "user_requested_data", ["static_adhoc"])
  const Methodology := ContentType("Methodology", 0, "methodology",
    ["static_methodology", "static_methodology_download", "static_qmi"])
  const CorporateInformation := ContentType("CorporateInformation", 0, "corporate_information",
    ["static_foi", "static_page", "static_landing_page", "static_article"])

  const Publication := Category("Publication", 0, [Bulletin, Article, Compendium])
  const Data := Category("Data", 0, [TimeSeries, Datasets, UserRequestedData])
  const Other := Category("Other", 0, [Methodology, CorporateInformation])

  /** All categories, in the order the page shows them. */
  const Categories: seq<Category> := [Publication, Data, Other]

  /** Every filter the search page accepts, keyed by content-type name. */
  const FilterOptions: map<string, ContentType> := map[
    Article.typeName := Article,
    Bulletin.typeName := Bulletin,
    Compendium.typeName := Compendium,
    CorporateInformation.typeName := CorporateInformation,
    Datasets.typeName := Datasets,
    Methodology.typeName := Methodology,
    TimeSeries.typeName := TimeSeries,
    UserRequestedData.typeName := UserRequestedData
  ]

  /** The content types of the given categories, category by category. */
  function AllContentTypes(cats: seq<Category>): (r: seq<ContentType>)
    ensures forall ct :: ct in r <==> exists i :: 0 <= i < |cats| && ct in cats[i].contentTypes
    decreases |cats|
  {
    if |cats| == 0 then []
    else cats[0].contentTypes + AllContentTypes(cats[1..])
  }

  /** Every category and every content type in it has count zero. */
  predicate CountsZero(cats: seq<Category>)
  {
    forall i :: 0 <= i < |cats| ==>
      && cats[i].count == 0
      && forall j :: 0 <= j < |cats[i].contentTypes| ==> cats[i].contentTypes[j].count == 0
  }

  /** All the categories and their content types, where every count is
      zero. Dafny values are immutable, so the copy shares nothing a caller
      could change. */
  function GetCategories(): (r: seq<Category>)
    ensures |r| == 3
    ensures r[0].localiseKeyName == "Publication"
    ensures r[1].localiseKeyName == "Data"
    ensures r[2].localiseKeyName == "Other"
    ensures r[0].contentTypes == [Bulletin, Article, Compendium]
    ensures r[1].contentTypes == [TimeSeries, Datasets, UserRequestedData]
    ensures r[2].contentTypes == [Methodology, CorporateInformation]
    ensures CountsZero(r)
    ensures forall ct :: ct in AllContentTypes(r) ==>
      ct.typeName in FilterOptions && FilterOptions[ct.typeName] == ct
    ensures forall k :: k in FilterOptions ==> FilterOptions[k] in AllContentTypes(r)
  {
    StaticCountsZero();
    TaxonomyInFilterOptions();
    FilterOptionsInTaxonomy();
    Categories
  }

  /** The static definitions never set a count. */
  lemma StaticCountsZero()
    ensures CountsZero(Categories)
  {
  }

  /** Read category by category, the categories list the eight content
      types in their static order. */
  lemma AllContentTypesOfCategories()
    ensures AllContentTypes(Categories) == [
      Bulletin, Article, Compendium,
      TimeSeries, Datasets, UserRequestedData,
      Methodology, CorporateInformation]
  {
    assert Categories[1..] == [Data, Other];
    assert [Data, Other][1..] == [Other];
    assert [Other][1..] == [];
    assert AllContentTypes([Other]) == Other.contentTypes;
    assert AllContentTypes([Data, Other]) == Data.contentTypes + Other.contentTypes;
  }

  /** Each key of `options` is the name of the content type it maps to. */
  predicate KeyedByType(options: map<string, ContentType>)
  {
    forall k :: k in options ==> options[k].typeName == k
  }

  /** Each key of the lookup table is the name of the content type it maps
      to. */
  lemma FilterOptionsKeyedByType()
    ensures KeyedByType(FilterOptions)
  {
  }

  /** Every content type listed in the three categories is found in the
      lookup table under its own name. */
  lemma TaxonomyInFilterOptions()
    ensures forall ct :: ct in AllContentTypes(Categories) ==>
      ct.typeName in FilterOptions && FilterOptions[ct.typeName] == ct
  {
    forall ct | ct in AllContentTypes(Categories)
      ensures ct.typeName in FilterOptions && FilterOptions[ct.typeName] == ct
    {
      assert ct in Publication.contentTypes || ct in Data.contentTypes || ct in Other.contentTypes by {
        AllContentTypesOfCategories();
      }
      if ct in Publication.contentTypes {
        CategoryInFilterOptions(Publication);
      } else if ct in Data.contentTypes {
        CategoryInFilterOptions(Data);
      } else {
        CategoryInFilterOptions(Other);
      }
    }
  }

  /** Each content type of one category is in the lookup table under its
      own name. */
  lemma CategoryInFilterOptions(c: Category)
    requires c == Publication || c == Data || c == Other
    ensures forall ct :: ct in c.contentTypes ==>
      ct.typeName in FilterOptions && FilterOptions[ct.typeName] == ct
  {
  }

  /** Every entry of the lookup table is a content type listed in one of the
      three categories, so the table holds nothing beyond the taxonomy. */
  lemma FilterOptionsInTaxonomy()
    ensures forall k :: k in FilterOptions ==> FilterOptions[k] in AllContentTypes(Categories)
  {
    forall k | k in FilterOptions
      ensures FilterOptions[k] in AllContentTypes(Categories)
    {
      AllContentTypesOfCategories();
    }
  }

  /** The key set of the lookup table is exactly the set of names of the
      content types listed in the three categories. */
  lemma FilterOptionsKeysAreTaxonomyTypes()
    ensures FilterOptions.Keys == set ct | ct in AllContentTypes(Categories) :: ct.typeName
  {
    FilterOptionsKeyedByType();
    TaxonomyInFilterOptions();
    FilterOptionsInTaxonomy();
  }

  /** No two content types of the taxonomy share a name, so no filter value
      is ambiguous. */
  lemma TaxonomyTypeNamesDistinct()
    ensures |AllContentTypes(Categories)| == 8
    ensures var all := AllContentTypes(Categories);
      forall i, j :: 0 <= i < j < |all| ==> all[i].typeName != all[j].typeName
  {
    AllContentTypesOfCategories();
  }

  /** No sub-type of `ct` contains a comma. */
  predicate SubTypesCommaFree(ct: ContentType)
  {
    forall i :: 0 <= i < |ct.subTypes| ==> ',' !in ct.subTypes[i]
  }

  /** No sub-type contains a comma, so the comma-joined sub-type list the
      search API receives can be split back into the sub-types. */
  lemma SubTypesHaveNoComma()
    ensures forall k :: k in FilterOptions ==> SubTypesCommaFree(FilterOptions[k])
  {
    PublicationSubTypesHaveNoComma();
    DataSubTypesHaveNoComma();
    OtherSubTypesHaveNoComma();
  }

  lemma PublicationSubTypesHaveNoComma()
    ensures SubTypesCommaFree(Bulletin) && SubTypesCommaFree(Article) && SubTypesCommaFree(Compendium)
  {
  }

  lemma DataSubTypesHaveNoComma()
    ensures SubTypesCommaFree(TimeSeries) && SubTypesCommaFree(Datasets)
    ensures SubTypesCommaFree(UserRequestedData)
  {
  }

  lemma OtherSubTypesHaveNoComma()
    ensures SubTypesCommaFree(Methodology) && SubTypesCommaFree(CorporateInformation)
  {
  }
}
