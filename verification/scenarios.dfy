/**
 * Worked examples of the candidate pipeline and the view model: the
 * best-match order of three restaurants, the minimum-rating filter on the
 * same three, liking a restaurant that comes back in a later search, and
 * the card a load-more leaves under the cursor.
 */
module Scenarios {
  import opened Wrappers
  import opened Restaurants
  import opened YelpModels
  import opened SearchOptions
  import opened CandidatePipeline
  import opened ViewModel

  // ---------------------------------------------------------------------------
  // Ranking three restaurants

  /** Rated 4.5, with an image, 500 m away: score 11.75. */
  const A: Restaurant := Restaurant("A", "Alpha", None, Some(Url("https://img/a")), 0.0, 0.0, 500.0, None, None, Some(4.5), true)
  /** Unrated, with an image, 100 m away: score 2.95. */
  const B: Restaurant := Restaurant("B", "Beta", None, Some(Url("https://img/b")), 0.0, 0.0, 100.0, None, None, None, true)
  /** Rated 5, no image, 2 km away: score 9. */
  const C: Restaurant := Restaurant("C", "Gamma", None, None, 0.0, 0.0, 2000.0, None, None, Some(5.0), true)

  lemma ThreeScores()
    ensures Score(A) == 11.75 && Score(B) == 2.95 && Score(C) == 9.0
  {
  }

  /** Nothing has been seen and no minimum is set, so all three are candidates. */
  lemma NothingFiltered()
    ensures Filtered([A, B, C], {}, 0.0) == [A, B, C]
  {
    UnseenKeepsUnseen([A, B, C], {});
  }

  /** No two of the three share a score. */
  lemma ThreeScoresDiffer()
    ensures NoTiesBy([A, C, B], Score) && NoTiesBy([A, C], Score)
  {
    ThreeScores();
  }

  lemma ACBDescends()
    ensures NonIncreasingBy([A, C, B], Score)
  {
    ThreeScores();
  }

  /** Any score-sorted arrangement of the three is A, C, B. */
  lemma OnlyACB(rs: seq<Restaurant>)
    requires multiset(rs) == multiset([A, B, C]) && NonIncreasingBy(rs, Score)
    ensures rs == [A, C, B]
  {
    assert NonIncreasingBy([A, C, B], Score) by { ACBDescends(); }
    assert multiset([A, C, B]) == multiset(rs);
    ThreeScoresDiffer();
    SortedWithoutTiesIsUnique([A, C, B], rs, Score);
  }

  /** Best match ranks the three as A, C, B; the unrated B is kept, not dropped. */
  lemma BestMatchRanksACB(rs: seq<Restaurant>)
    requires IsRanking(rs, [A, B, C], {}, 0.0, BestMatch)
    ensures rs == [A, C, B]
  {
    NothingFiltered();
    OnlyACB(rs);
  }

  /** A minimum of four stars leaves A and C, and the unrated B is gone. */
  lemma FourStarsFiltered()
    ensures Filtered([A, B, C], {}, 4.0) == [A, C]
  {
    UnseenKeepsUnseen([A, B, C], {});
    FourStarsKeepAC();
  }

  lemma FourStarsKeepAC()
    ensures RatedAtLeast([A, B, C], 4.0) == [A, C]
  {
    assert [A, B, C][1..] == [B, C] && [B, C][1..] == [C] && [C][1..] == [];
    assert RatedAtLeast([C], 4.0) == [C];
    assert RatedAtLeast([B, C], 4.0) == [C];
  }

  /** Ranked by best match under a four-star minimum, the list is A, C. */
  lemma MinimumFourStarsRanksAC(rs: seq<Restaurant>)
    requires IsRanking(rs, [A, B, C], {}, 4.0, BestMatch)
    ensures rs == [A, C]
  {
    FourStarsFiltered();
    assert NonIncreasingBy([A, C], Score) by { ThreeScores(); }
    ThreeScoresDiffer();
    SortedWithoutTiesIsUnique([A, C], rs, Score);
  }

  // ---------------------------------------------------------------------------
  // The view model over a scripted Yelp API

  const Here: Coordinate := Coordinate(25.0, 121.5)

  function Business(id: string): YelpBusiness {
    YelpBusiness(id, id, None, Some(false), None, Some(4.0), None, None, YelpCoordinates(25.0, 121.5),
                 None, YelpLocation(None, None, None, None, None, None, None, None), None, None, None)
  }

  /** The first page holds A; every later page holds B and C. */
  function TwoPages(req: SearchRequest): SearchOutcome {
    if req.offset == 0 then Page([Business("A")]) else Page([Business("B"), Business("C")])
  }

  function Flat(p: Coordinate, q: Coordinate): real { 0.0 }

  /** The pool after the first page: A alone. */
  function FirstPage(): seq<Restaurant> {
    MapYelpBusinesses([Business("A")], Here, Flat)
  }

  /** The pool added by a load-more: B and C. */
  function SecondPage(): seq<Restaurant> {
    MapYelpBusinesses([Business("B"), Business("C")], Here, Flat)
  }

  lemma PageIds()
    ensures |FirstPage()| == 1 && FirstPage()[0].id == "A"
    ensures |SecondPage()| == 2 && SecondPage()[0].id == "B" && SecondPage()[1].id == "C"
  {
  }

  /** A fresh search from a view model with nothing seen shows the first page. */
  method StartAtFirstPage(vm: RestaurantViewModel)
    requires vm.Valid() && vm.currentLocation == None && vm.viewedRestaurantIDs == {}
    requires vm.minimumRating == 0.0 && vm.sortOption == SortOption.Distance
    modifies vm
    ensures vm.Valid() && vm.currentLocation == Some(Here)
    ensures vm.allRestaurants == FirstPage() && vm.restaurants == FirstPage()
    ensures vm.currentIndex == 0 && vm.currentOffset == 0
    ensures vm.viewedRestaurantIDs == {} && vm.likedRestaurants == old(vm.likedRestaurants)
    ensures vm.saveCount == old(vm.saveCount) && vm.minimumRating == 0.0 && vm.sortOption == SortOption.Distance
  {
    vm.DidUpdateLocations([Here], TwoPages, Flat);
    UnseenKeepsUnseen(FirstPage(), {});
  }

  /** Swiping right on A with nothing liked yet likes it and saves. */
  method LikeFirstCard(vm: RestaurantViewModel)
    requires vm.Valid() && vm.restaurants == FirstPage() && vm.currentIndex == 0 && vm.likedRestaurants == []
    modifies vm
    ensures vm.Valid() && vm.likedRestaurants == FirstPage() && vm.saveCount == old(vm.saveCount) + 1
    ensures vm.currentLocation == old(vm.currentLocation)
    ensures vm.minimumRating == old(vm.minimumRating) && vm.sortOption == old(vm.sortOption)
  {
    PageIds();
    vm.HandleSwipe(Right);
    assert vm.likedRestaurants == [FirstPage()[0]];
  }

  /** Swiping right on A when A is already liked changes nothing and does not save. */
  method LikeFirstCardAgain(vm: RestaurantViewModel)
    requires vm.Valid() && vm.restaurants == FirstPage() && vm.currentIndex == 0 && vm.likedRestaurants == FirstPage()
    modifies vm
    ensures vm.likedRestaurants == FirstPage() && vm.saveCount == old(vm.saveCount)
  {
    PageIds();
    assert HasId(vm.likedRestaurants, FirstPage()[0].id);
    vm.HandleSwipe(Right);
  }

  /**
   * Like A, start over with a search that forgets what was seen, and like A
   * again when it comes back: the liked list still holds A once, and it was
   * written to storage once.
   */
  method LikeAgainAfterNewSearch() returns (liked: seq<Restaurant>)
    ensures |liked| == 1 && liked[0].id == "A"
  {
    var vm := new RestaurantViewModel(None);
    PageIds();
    StartAtFirstPage(vm);
    LikeFirstCard(vm);
    assert vm.likedRestaurants == FirstPage() && vm.saveCount == 1;
    vm.RequestLocationAndSearch(true, AuthorizedWhenInUse);
    StartAtFirstPage(vm);
    LikeFirstCardAgain(vm);
    assert vm.likedRestaurants == FirstPage() && vm.saveCount == 1;
    liked := vm.likedRestaurants;
  }

  /** The seen first page drops out and the new page stays in order. */
  lemma SeenFirstPageDropsOut()
    ensures Filtered(FirstPage() + SecondPage(), {"A"}, 0.0) == SecondPage()
  {
    PageIds();
    var pool := FirstPage() + SecondPage();
    assert pool[1..] == SecondPage();
    UnseenKeepsUnseen(SecondPage(), {"A"});
  }

  /** A load-more after passing on A offers the second page, cursor untouched. */
  method LoadSecondPage(vm: RestaurantViewModel)
    requires vm.Valid() && vm.currentLocation == Some(Here) && vm.viewedRestaurantIDs == {"A"}
    requires vm.allRestaurants == FirstPage() && vm.currentOffset == 0
    requires vm.minimumRating == 0.0 && vm.sortOption == SortOption.Distance
    modifies vm
    ensures vm.restaurants == SecondPage() && vm.currentIndex == old(vm.currentIndex)
  {
    MapKeepsEmptiness([Business("B"), Business("C")], Here, Flat);
    vm.LoadMoreRestaurants(TwoPages, Flat);
    assert vm.allRestaurants == FirstPage() + SecondPage();
    SeenFirstPageDropsOut();
  }

  /**
   * Pass on A, then load more: the new page B, C becomes the candidate list
   * but the cursor stays at 1, so C is shown and B is never offered.
   */
  method LoadMoreSkipsACard() returns (shown: Option<Restaurant>)
    ensures shown.Some? && shown.value.id == "C"
  {
    var vm := new RestaurantViewModel(None);
    PageIds();
    StartAtFirstPage(vm);
    vm.HandleSwipe(Left);
    assert vm.currentIndex == 1 && vm.viewedRestaurantIDs == {"A"};
    LoadSecondPage(vm);
    shown := if vm.currentIndex < |vm.restaurants| then Some(vm.restaurants[vm.currentIndex]) else None;
  }
}
