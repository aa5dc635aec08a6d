/**
 * The search settings of FoodTinder/ViewModels/RestaurantViewModel.swift
 * that are sent to Yelp: the category picker and the sort picker, each a
 * closed enumeration with a total table to the Yelp query token.
 */
module SearchOptions {
  import opened Wrappers

  datatype FoodCategory =
    | All | RestaurantCategory | Japanese | Korean | Italian | Thai | Chinese | American
    | Cafe | FastFood | Hotpot | Bbq | Ramen | Izakaya | Breakfast | Dessert | BubbleTea
    | Vegetarian

  /** `FoodCategory.yelpCategory`: the Yelp category alias (list) to search. */
  function CategoryToken(c: FoodCategory): (token: string)
    ensures token != []
  {
    match c
    case All => "restaurants"
    case RestaurantCategory => "restaurants"
    case Japanese => "japanese"
    case Korean => "korean"
    case Italian => "italian"
    case Thai => "thai"
    case Chinese => "chinese"
    case American => "newamerican,tradamerican"
    case Cafe => "cafes"
    case FastFood => "hotdogs"
    case Hotpot => "hotpot"
    case Bbq => "bbq"
    case Ramen => "ramen"
    case Izakaya => "izakaya"
    case Breakfast => "breakfast_brunch"
    case Dessert => "desserts"
    case BubbleTea => "bubbletea"
    case Vegetarian => "vegetarian"
  }

  /** "All" and "restaurant" are the same search; every other category is its own. */
  function SameSearch(c: FoodCategory): FoodCategory {
    if c == RestaurantCategory then All else c
  }

  /** Reads a query token back as the category it searches for. */
  function CategoryOfToken(token: string): Option<FoodCategory> {
    if token == [] then None
    else match token[0]
      case 'b' =>
        if token == "bbq" then Some(Bbq)
        else if token == "breakfast_brunch" then Some(Breakfast)
        else if token == "bubbletea" then Some(BubbleTea)
        else None
      case 'c' =>
        if token == "chinese" then Some(Chinese)
        else if token == "cafes" then Some(Cafe)
        else None
      case 'd' => if token == "desserts" then Some(Dessert) else None
      case 'h' =>
        if token == "hotdogs" then Some(FastFood)
        else if token == "hotpot" then Some(Hotpot)
        else None
      case 'i' =>
        if token == "italian" then Some(Italian)
        else if token == "izakaya" then Some(Izakaya)
        else None
      case 'j' => if token == "japanese" then Some(Japanese) else None
      case 'k' => if token == "korean" then Some(Korean) else None
      case 'n' => if token == "newamerican,tradamerican" then Some(American) else None
      case 'r' =>
        if token == "restaurants" then Some(All)
        else if token == "ramen" then Some(Ramen)
        else None
      case 't' => if token == "thai" then Some(Thai) else None
      case 'v' => if token == "vegetarian" then Some(Vegetarian) else None
      case _ => None
  }

  /** The token a category sends identifies the search it asks for. */
  lemma TokenIdentifiesSearch(c: FoodCategory)
    ensures CategoryOfToken(CategoryToken(c)) == Some(SameSearch(c))
  {
  }

  /** A category sends the same token as the search it stands for. */
  lemma TokenFollowsSearch(c: FoodCategory)
    ensures CategoryToken(c) == CategoryToken(SameSearch(c))
  {
  }

  /**
   * The table is one-to-one except that "all" and "restaurant" both search
   * the generic `restaurants` alias.
   */
  lemma CategoryTokenCollisions(a: FoodCategory, b: FoodCategory)
    ensures CategoryToken(a) == CategoryToken(b) <==> SameSearch(a) == SameSearch(b)
  {
    TokenIdentifiesSearch(a);
    TokenIdentifiesSearch(b);
    TokenFollowsSearch(a);
    TokenFollowsSearch(b);
  }

  /** Two categories are the same search only when equal or both generic. */
  lemma SameSearchIsAllOrEqual(a: FoodCategory, b: FoodCategory)
    ensures SameSearch(a) == SameSearch(b) <==>
      a == b || ((a == All || a == RestaurantCategory) && (b == All || b == RestaurantCategory))
  {
  }

  datatype SortOption = BestMatch | Distance

  /** `SortOption.yelpSortBy`: the `sort_by` query value. */
  function YelpSortBy(s: SortOption): (token: string)
    ensures token == "best_match" <==> s == BestMatch
    ensures token == "distance" <==> s == Distance
  {
    match s
    case BestMatch => "best_match"
    case Distance => "distance"
  }

  lemma YelpSortByIsOneToOne(a: SortOption, b: SortOption)
    ensures YelpSortBy(a) == YelpSortBy(b) <==> a == b
  {
  }
}
