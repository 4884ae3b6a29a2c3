/** The provider router of lib/router.ts: the five upscale categories, the three provider
    names and the constant routing table from category to a primary and a fallback provider. */
module Router {
  import opened Common

  datatype Category = Portrait | Clarity | Product | Anime | Restoration

  datatype ProviderName = Claid | Fal | Runware

  datatype RouteEntry = RouteEntry(primary: ProviderName, fallback: ProviderName)

  /** The string literal that names a category in requests and in the database. */
  function CategoryName(c: Category): string {
    match c
    case Portrait => "portrait"
    case Clarity => "clarity"
    case Product => "product"
    case Anime => "anime"
    case Restoration => "restoration"
  }

  /** `VALID_CATEGORIES` of the upscale route, in its order. */
  const ValidCategories: seq<Category> := [Portrait, Clarity, Product, Anime, Restoration]

  /** Linear search for `name` in a list of categories, as `Array.prototype.includes`. */
  function FindCategory(cats: seq<Category>, name: string): (r: Option<Category>)
    ensures r.Some? ==> r.value in cats && CategoryName(r.value) == name
    ensures r.None? ==> forall c :: c in cats ==> CategoryName(c) != name
  {
    if cats == [] then None
    else if CategoryName(cats[0]) == name then Some(cats[0])
    else FindCategory(cats[1..], name)
  }

  /** Every category is in `VALID_CATEGORIES`. */
  lemma AllCategoriesValid()
    ensures forall c: Category :: c in ValidCategories
  {
    forall c: Category ensures c in ValidCategories {
      match c
      case Portrait => assert ValidCategories[0] == c;
      case Clarity => assert ValidCategories[1] == c;
      case Product => assert ValidCategories[2] == c;
      case Anime => assert ValidCategories[3] == c;
      case Restoration => assert ValidCategories[4] == c;
    }
  }

  /** A request's category string accepted by `VALID_CATEGORIES.includes(category)`,
      as the typed category it is then cast to. */
  function ParseCategory(name: string): (r: Option<Category>)
    ensures r.Some? ==> CategoryName(r.value) == name
    ensures r.None? ==> forall c :: CategoryName(c) != name
  {
    AllCategoriesValid();
    FindCategory(ValidCategories, name)
  }

  /** The names are pairwise distinct, so parsing a category's name gives it back. */
  lemma ParseCategoryName(c: Category)
    ensures ParseCategory(CategoryName(c)) == Some(c)
  {
    var r := ParseCategory(CategoryName(c));
    assert r.Some?;
    match c
    case Portrait => assert CategoryName(r.value) == "portrait";
    case Clarity => assert CategoryName(r.value) == "clarity";
    case Product => assert CategoryName(r.value) == "product";
    case Anime => assert CategoryName(r.value) == "anime";
    case Restoration => assert CategoryName(r.value) == "restoration";
  }

  /** `ROUTING_TABLE`. */
  const RoutingTable: map<Category, RouteEntry> := map[
    Portrait := RouteEntry(Claid, Fal),
    Clarity := RouteEntry(Fal, Runware),
    Product := RouteEntry(Claid, Fal),
    Anime := RouteEntry(Fal, Runware),
    Restoration := RouteEntry(Fal, Runware)
  ]

  /** The table is total over exactly the five categories. */
  lemma RoutingTableTotal()
    ensures forall c: Category :: c in RoutingTable
    ensures RoutingTable.Keys == set c | c in ValidCategories
    ensures |RoutingTable| == 5
  {
    AllCategoriesValid();
    assert RoutingTable.Keys == {Portrait, Clarity, Product, Anime, Restoration};
    assert (set c | c in ValidCategories) == {Portrait, Clarity, Product, Anime, Restoration};
  }

  /** `getProviderForCategory`: the table entry of the category; no route names one
      provider twice. */
  function GetProviderForCategory(c: Category): (r: RouteEntry)
    ensures c in RoutingTable && r == RoutingTable[c]
    ensures r.primary != r.fallback
  {
    RoutingTableTotal();
    RoutingTable[c]
  }

  /** The routes the router tests pin. */
  lemma PinnedRoutes()
    ensures GetProviderForCategory(Portrait) == RouteEntry(Claid, Fal)
    ensures GetProviderForCategory(Clarity) == RouteEntry(Fal, Runware)
    ensures GetProviderForCategory(Product) == RouteEntry(Claid, Fal)
    ensures GetProviderForCategory(Anime) == RouteEntry(Fal, Runware)
    ensures GetProviderForCategory(Restoration) == RouteEntry(Fal, Runware)
  {
  }
}
