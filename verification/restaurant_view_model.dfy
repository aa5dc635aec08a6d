/**
 * The state machine of FoodTinder/ViewModels/RestaurantViewModel.swift:
 * the pool of fetched restaurants, the ranked candidates, the swipe cursor,
 * the pagination offset, the seen set and the liked list, together with the
 * settings the views bind to.
 *
 * The Yelp request, the device location and the geodesic distance are
 * inputs: a search receives `gateway`, the response the Yelp API gives to
 * each request, and `distanceBetween`, the distance in metres between two
 * coordinates. The persisted liked list is the `storedLiked` slot, and
 * `saveCount` counts the writes to it.
 */
module ViewModel {
  import opened Wrappers
  import opened Restaurants
  import opened YelpModels
  import opened SearchOptions
  import opened CandidatePipeline

  /** The page size of every search. */
  const PageSize: int := 50

  /** The radius the settings start with, in metres. */
  const DefaultSearchRadius: real := 3000.0

  /** A card leaves the stack to the left (pass) or to the right (like). */
  datatype SwipeDirection = Left | Right

  /** `CLAuthorizationStatus`, as far as `requestLocationAndSearch` tells its cases apart. */
  datatype AuthorizationStatus = NotDetermined | AuthorizedWhenInUse | AuthorizedAlways | Denied | Restricted

  /** The failures `YelpAPIService.searchBusinesses` throws, plus any other error. */
  datatype FetchError = InvalidURL | RequestFailed | InvalidResponse | DecodingError | OtherError

  /** What `errorMessage` reports; the message text itself is presentation. */
  datatype ErrorKind = LocationDenied | LocationFailed | SearchFailed(cause: FetchError)

  /** The parameters of one `searchBusinesses` call. */
  datatype SearchRequest = SearchRequest(
    center: Coordinate,
    radius: int,
    categories: string,
    limit: int,
    offset: int,
    sortBy: string,
    openNow: bool)

  /** A search either returns a page of businesses or throws. */
  datatype SearchOutcome = Page(businesses: seq<YelpBusiness>) | Failed(error: FetchError)

  /** Swift's `Int(_:)` on a `Double`: truncation toward zero. */
  function TruncateToInt(x: real): (n: int)
    ensures 0.0 <= x ==> n as real <= x < n as real + 1.0
    ensures x < 0.0 ==> n as real - 1.0 < x <= n as real
  {
    if x >= 0.0 then x.Floor else -((-x).Floor)
  }

  class RestaurantViewModel {
    var restaurants: seq<Restaurant>
    var currentIndex: nat
    var errorMessage: Option<ErrorKind>
    var likedRestaurants: seq<Restaurant>

    var searchRadius: real
    var selectedCategory: FoodCategory
    var sortOption: SortOption
    var showOnlyOpen: bool
    var minimumRating: real

    var currentLocation: Option<Coordinate>
    var allRestaurants: seq<Restaurant>
    var currentOffset: int
    var viewedRestaurantIDs: set<string>

    /** The liked list as persisted under the `likedRestaurants` key, if any. */
    var storedLiked: Option<seq<Restaurant>>
    ghost var saveCount: nat

    /**
     * Candidates come from the pool, the offset counts whole pages, and the
     * persisted liked list never lags behind the one in memory.
     */
    ghost predicate Valid()
      reads this
    {
      && (forall x :: x in restaurants ==> x in allRestaurants)
      && PoolValid()
    }

    /** The part of `Valid` that does not involve the candidates. */
    ghost predicate PoolValid()
      reads this
    {
      && currentOffset >= 0 && currentOffset % PageSize == 0
      && likedRestaurants == storedLiked.GetOr([])
    }

    /** `init` with `loadLikedRestaurants`: start from whatever liked list was persisted. */
    constructor (stored: Option<seq<Restaurant>>)
      ensures Valid()
      ensures likedRestaurants == stored.GetOr([]) && storedLiked == stored
      ensures restaurants == [] && allRestaurants == [] && currentIndex == 0 && currentOffset == 0
      ensures viewedRestaurantIDs == {} && currentLocation == None && errorMessage == None
      ensures searchRadius == DefaultSearchRadius && selectedCategory == All
      ensures sortOption == SortOption.Distance && !showOnlyOpen && minimumRating == 0.0
      ensures saveCount == 0
    {
      restaurants := [];
      currentIndex := 0;
      errorMessage := None;
      likedRestaurants := [];
      searchRadius := DefaultSearchRadius;
      selectedCategory := All;
      sortOption := SortOption.Distance;
      showOnlyOpen := false;
      minimumRating := 0.0;
      currentLocation := None;
      allRestaurants := [];
      currentOffset := 0;
      viewedRestaurantIDs := {};
      storedLiked := stored;
      saveCount := 0;
      new;
      if stored.Some? {
        likedRestaurants := stored.value;
      }
    }

    /** `saveLikedRestaurants`. */
    method SaveLikedRestaurants()
      modifies this`storedLiked, this`saveCount
      ensures storedLiked == Some(likedRestaurants)
      ensures saveCount == old(saveCount) + 1
    {
      storedLiked := Some(likedRestaurants);
      saveCount := saveCount + 1;
    }

    /**
     * `applyFiltersAndSort`: rebuild the candidates from the pool, and put
     * the cursor back on the first card only when asked to.
     */
    method ApplyFiltersAndSort(resetIndex: bool)
      requires PoolValid()
      modifies this`restaurants, this`currentIndex
      ensures Valid()
      ensures IsRanking(restaurants, allRestaurants, viewedRestaurantIDs, minimumRating, sortOption)
      ensures forall x :: x in restaurants ==> x in allRestaurants && x.id !in viewedRestaurantIDs
      ensures minimumRating > 0.0 ==> forall x :: x in restaurants ==> x.rating.Some? && x.rating.value >= minimumRating
      ensures currentIndex == if resetIndex then 0 else old(currentIndex)
    {
      var filtered := allRestaurants;
      filtered := Unseen(filtered, viewedRestaurantIDs);
      if minimumRating > 0.0 {
        filtered := RatedAtLeast(filtered, minimumRating);
      }
      assert filtered == Filtered(allRestaurants, viewedRestaurantIDs, minimumRating);
      if sortOption == BestMatch {
        filtered := SortByScore(filtered);
      }
      restaurants := filtered;
      if resetIndex {
        currentIndex := 0;
      }
      RankingMembers(restaurants, allRestaurants, viewedRestaurantIDs, minimumRating, sortOption);
    }

    /**
     * `handleSwipe`: with a card under the cursor, mark it seen, like it on
     * a right swipe unless its id is already liked, and move to the next card.
     */
    method HandleSwipe(direction: SwipeDirection)
      requires Valid()
      modifies this`viewedRestaurantIDs, this`likedRestaurants, this`currentIndex, this`storedLiked, this`saveCount
      ensures Valid()
      ensures old(currentIndex) >= |restaurants| ==>
        && viewedRestaurantIDs == old(viewedRestaurantIDs) && likedRestaurants == old(likedRestaurants)
        && currentIndex == old(currentIndex) && saveCount == old(saveCount)
      ensures old(currentIndex) < |restaurants| ==>
        var card := restaurants[old(currentIndex)];
        var isNewLike := direction == Right && !HasId(old(likedRestaurants), card.id);
        && viewedRestaurantIDs == old(viewedRestaurantIDs) + {card.id}
        && currentIndex == old(currentIndex) + 1
        && likedRestaurants == (if direction == Right then LikeOnce(old(likedRestaurants), card) else old(likedRestaurants))
        && saveCount == old(saveCount) + (if isNewLike then 1 else 0)
      ensures UniqueIds(old(likedRestaurants)) ==> UniqueIds(likedRestaurants)
      ensures direction == Left ==> likedRestaurants == old(likedRestaurants)
    {
      if currentIndex >= |restaurants| {
        return;
      }
      var card := restaurants[currentIndex];
      LikeOnceKeepsIdsUnique(likedRestaurants, card);
      viewedRestaurantIDs := viewedRestaurantIDs + {card.id};
      if direction == Right {
        if !HasId(likedRestaurants, card.id) {
          likedRestaurants := likedRestaurants + [card];
          SaveLikedRestaurants();
        }
      }
      currentIndex := currentIndex + 1;
    }

    /**
     * `removeLikedRestaurant`: drop the first liked entry with the given
     * id and persist the list, or do nothing when no entry has that id.
     */
    method RemoveLikedRestaurant(restaurant: Restaurant)
      requires Valid()
      modifies this`likedRestaurants, this`storedLiked, this`saveCount
      ensures Valid()
      ensures likedRestaurants == RemoveFirstWithId(old(likedRestaurants), restaurant.id)
      ensures saveCount == old(saveCount) + (if HasId(old(likedRestaurants), restaurant.id) then 1 else 0)
      ensures UniqueIds(old(likedRestaurants)) ==> !HasId(likedRestaurants, restaurant.id) && UniqueIds(likedRestaurants)
    {
      ghost var before := likedRestaurants;
      if UniqueIds(before) {
        RemoveFirstWithIdUnlikes(before, restaurant.id);
      }
      var index := FirstIndexWithId(likedRestaurants, restaurant.id);
      if index.Some? {
        var i := index.value;
        likedRestaurants := likedRestaurants[..i] + likedRestaurants[i + 1..];
        SaveLikedRestaurants();
      }
    }

    /**
     * The reset part of `requestLocationAndSearch`: forget the location and
     * the error, clear the seen set when asked to, and report a refused
     * permission. Asking for permission or for a fix is left to the
     * platform, which answers through `DidUpdateLocations`.
     */
    method RequestLocationAndSearch(resetViewed: bool, status: AuthorizationStatus)
      requires Valid()
      modifies this`currentLocation, this`errorMessage, this`viewedRestaurantIDs
      ensures Valid()
      ensures currentLocation == None
      ensures viewedRestaurantIDs == if resetViewed then {} else old(viewedRestaurantIDs)
      ensures errorMessage == if status == Denied || status == Restricted then Some(LocationDenied) else None
    {
      currentLocation := None;
      errorMessage := None;
      if resetViewed {
        viewedRestaurantIDs := {};
      }
      match status
      case NotDetermined =>
      case AuthorizedWhenInUse =>
      case AuthorizedAlways =>
      case Denied =>
        errorMessage := Some(LocationDenied);
      case Restricted =>
        errorMessage := Some(LocationDenied);
    }

    /**
     * The request `searchNearbyRestaurants` sends: one page of the selected
     * category and sort order, from the start for a fresh search and one
     * page past the current offset for a load-more.
     */
    function RequestFor(location: Coordinate, isLoadMore: bool): (req: SearchRequest)
      reads this
      ensures req.center == location && req.limit == PageSize
      ensures req.offset == if isLoadMore then currentOffset + PageSize else 0
      ensures currentOffset % PageSize == 0 ==> req.offset % PageSize == 0
      ensures searchRadius >= 0.0 ==> req.radius as real <= searchRadius < req.radius as real + 1.0
      ensures req.categories == SearchOptions.CategoryToken(selectedCategory) && req.categories != []
      ensures req.sortBy == YelpSortBy(sortOption) && req.openNow == showOnlyOpen
    {
      SearchRequest(
        center := location,
        radius := TruncateToInt(searchRadius),
        categories := SearchOptions.CategoryToken(selectedCategory),
        limit := PageSize,
        offset := if isLoadMore then currentOffset + PageSize else 0,
        sortBy := YelpSortBy(sortOption),
        openNow := showOnlyOpen)
    }

    /** How a page of results changes the pool, the offset and the cursor. */
    twostate predicate PageMerged(page: seq<Restaurant>, isLoadMore: bool)
      reads this
    {
      && (!isLoadMore ==>
            && allRestaurants == page && currentOffset == 0 && currentIndex == 0
            && IsRanking(restaurants, allRestaurants, viewedRestaurantIDs, minimumRating, sortOption))
      && (isLoadMore && page == [] ==>
            && allRestaurants == old(allRestaurants) && restaurants == old(restaurants)
            && currentIndex == old(currentIndex) && currentOffset == old(currentOffset))
      && (isLoadMore && page != [] ==>
            && allRestaurants == old(allRestaurants) + page
            && currentOffset == old(currentOffset) + PageSize
            && currentIndex == old(currentIndex)
            && IsRanking(restaurants, allRestaurants, viewedRestaurantIDs, minimumRating, sortOption))
    }

    /**
     * The merge branches of `searchNearbyRestaurants`. A fresh search
     * replaces the pool and starts over; a load-more with results appends
     * them and keeps the cursor where it was; an empty load-more changes
     * nothing.
     */
    method MergePage(page: seq<Restaurant>, isLoadMore: bool)
      requires Valid()
      modifies this`allRestaurants, this`currentOffset, this`restaurants, this`currentIndex
      ensures Valid()
      ensures PageMerged(page, isLoadMore)
    {
      if isLoadMore {
        if page != [] {
          allRestaurants := allRestaurants + page;
          currentOffset := currentOffset + PageSize;
          ApplyFiltersAndSort(false);
        }
      } else {
        allRestaurants := page;
        currentOffset := 0;
        ApplyFiltersAndSort(true);
      }
    }

    /**
     * `searchNearbyRestaurants`: ask for one page and merge it, or record
     * the failure and leave the pool, the candidates, the cursor and the
     * offset as they were.
     */
    method SearchNearbyRestaurants(location: Coordinate, isLoadMore: bool,
                                   gateway: SearchRequest -> SearchOutcome,
                                   distanceBetween: (Coordinate, Coordinate) -> real)
      requires Valid()
      modifies this`allRestaurants, this`currentOffset, this`restaurants, this`currentIndex, this`errorMessage
      ensures Valid()
      ensures gateway(old(RequestFor(location, isLoadMore))).Failed? ==>
        && errorMessage == Some(SearchFailed(gateway(old(RequestFor(location, isLoadMore))).error))
        && allRestaurants == old(allRestaurants) && restaurants == old(restaurants)
        && currentIndex == old(currentIndex) && currentOffset == old(currentOffset)
      ensures gateway(old(RequestFor(location, isLoadMore))).Page? ==>
        && errorMessage == old(errorMessage)
        && PageMerged(MapYelpBusinesses(gateway(old(RequestFor(location, isLoadMore))).businesses, location, distanceBetween), isLoadMore)
    {
      var request := RequestFor(location, isLoadMore);
      var outcome := gateway(request);
      match outcome
      case Failed(e) =>
        errorMessage := Some(SearchFailed(e));
      case Page(businesses) =>
        var mapped := MapYelpBusinesses(businesses, location, distanceBetween);
        MergePage(mapped, isLoadMore);
    }

    /** `loadMoreRestaurants`: fetch the next page around the known location, if any. */
    method LoadMoreRestaurants(gateway: SearchRequest -> SearchOutcome,
                               distanceBetween: (Coordinate, Coordinate) -> real)
      requires Valid()
      modifies this`allRestaurants, this`currentOffset, this`restaurants, this`currentIndex, this`errorMessage
      ensures Valid()
      ensures old(currentLocation) == None ==>
        && allRestaurants == old(allRestaurants) && restaurants == old(restaurants)
        && currentIndex == old(currentIndex) && currentOffset == old(currentOffset)
        && errorMessage == old(errorMessage)
      ensures old(currentLocation).Some? ==>
        var outcome := gateway(old(RequestFor(currentLocation.value, true)));
        && old(RequestFor(currentLocation.value, true)).offset == old(currentOffset) + PageSize
        && (outcome.Failed? ==> errorMessage == Some(SearchFailed(outcome.error)) && PageMerged([], true))
        && (outcome.Page? ==>
              errorMessage == old(errorMessage) && PageMerged(MapYelpBusinesses(outcome.businesses, currentLocation.value, distanceBetween), true))
    {
      if currentLocation.None? {
        return;
      }
      var location := currentLocation.value;
      SearchNearbyRestaurants(location, true, gateway, distanceBetween);
    }

    /**
     * The `didUpdateLocations` callback: take the newest fix and start a
     * fresh search from it, unless a location is already in use.
     */
    method DidUpdateLocations(locations: seq<Coordinate>,
                              gateway: SearchRequest -> SearchOutcome,
                              distanceBetween: (Coordinate, Coordinate) -> real)
      requires Valid()
      modifies this`currentLocation, this`allRestaurants, this`currentOffset, this`restaurants, this`currentIndex, this`errorMessage
      ensures Valid()
      ensures locations == [] || old(currentLocation).Some? ==>
        && currentLocation == old(currentLocation) && errorMessage == old(errorMessage)
        && allRestaurants == old(allRestaurants) && restaurants == old(restaurants)
        && currentIndex == old(currentIndex) && currentOffset == old(currentOffset)
      ensures locations != [] && old(currentLocation) == None ==>
        var location := locations[|locations| - 1];
        var outcome := gateway(old(RequestFor(location, false)));
        && currentLocation == Some(location)
        && (outcome.Failed? ==>
              && errorMessage == Some(SearchFailed(outcome.error))
              && allRestaurants == old(allRestaurants) && restaurants == old(restaurants)
              && currentIndex == old(currentIndex) && currentOffset == old(currentOffset))
        && (outcome.Page? ==>
              errorMessage == old(errorMessage) && PageMerged(MapYelpBusinesses(outcome.businesses, location, distanceBetween), false))
    {
      if locations == [] {
        return;
      }
      var location := locations[|locations| - 1];
      if currentLocation.Some? {
        return;
      }
      currentLocation := Some(location);
      SearchNearbyRestaurants(location, false, gateway, distanceBetween);
    }

    /** The `didFailWithError` callback: report that locating failed. */
    method DidFailWithError()
      requires Valid()
      modifies this`errorMessage
      ensures Valid()
      ensures errorMessage == Some(LocationFailed)
    {
      errorMessage := Some(LocationFailed);
    }

    /** The category picker: a new category starts a search that forgets what was seen. */
    method SelectCategory(category: FoodCategory, status: AuthorizationStatus)
      requires Valid()
      modifies this`selectedCategory, this`currentLocation, this`errorMessage, this`viewedRestaurantIDs
      ensures Valid()
      ensures selectedCategory == category
      ensures category != old(selectedCategory) ==> viewedRestaurantIDs == {} && currentLocation == None
      ensures category != old(selectedCategory) ==>
        errorMessage == if status == Denied || status == Restricted then Some(LocationDenied) else None
      ensures category == old(selectedCategory) ==>
        viewedRestaurantIDs == old(viewedRestaurantIDs) && currentLocation == old(currentLocation) && errorMessage == old(errorMessage)
    {
      if category != selectedCategory {
        selectedCategory := category;
        RequestLocationAndSearch(true, status);
      }
    }

    /** The sort picker: a new option re-ranks the pool and rewinds the cursor. */
    method SelectSortOption(option: SortOption)
      requires Valid()
      modifies this`sortOption, this`restaurants, this`currentIndex
      ensures Valid()
      ensures sortOption == option
      ensures option != old(sortOption) ==>
        currentIndex == 0 && IsRanking(restaurants, allRestaurants, viewedRestaurantIDs, minimumRating, option)
      ensures option == old(sortOption) ==> restaurants == old(restaurants) && currentIndex == old(currentIndex)
    {
      if option != sortOption {
        sortOption := option;
        ApplyFiltersAndSort(true);
      }
    }

    /** The open-only toggle: a change starts a search that keeps the seen set. */
    method SetShowOnlyOpen(openOnly: bool, status: AuthorizationStatus)
      requires Valid()
      modifies this`showOnlyOpen, this`currentLocation, this`errorMessage, this`viewedRestaurantIDs
      ensures Valid()
      ensures showOnlyOpen == openOnly
      ensures viewedRestaurantIDs == old(viewedRestaurantIDs)
      ensures openOnly != old(showOnlyOpen) ==>
        && currentLocation == None
        && errorMessage == (if status == Denied || status == Restricted then Some(LocationDenied) else None)
      ensures openOnly == old(showOnlyOpen) ==> currentLocation == old(currentLocation) && errorMessage == old(errorMessage)
    {
      if openOnly != showOnlyOpen {
        showOnlyOpen := openOnly;
        RequestLocationAndSearch(false, status);
      }
    }

    /** The minimum-rating slider: a change re-filters the pool and rewinds the cursor. */
    method SetMinimumRating(rating: real)
      requires Valid()
      modifies this`minimumRating, this`restaurants, this`currentIndex
      ensures Valid()
      ensures minimumRating == rating
      ensures rating != old(minimumRating) ==>
        currentIndex == 0 && IsRanking(restaurants, allRestaurants, viewedRestaurantIDs, rating, sortOption)
      ensures rating == old(minimumRating) ==> restaurants == old(restaurants) && currentIndex == old(currentIndex)
    {
      if rating != minimumRating {
        minimumRating := rating;
        ApplyFiltersAndSort(true);
      }
    }

    /** The radius slider: a change starts a search that keeps the seen set. */
    method SetSearchRadius(radius: real, status: AuthorizationStatus)
      requires Valid()
      modifies this`searchRadius, this`currentLocation, this`errorMessage, this`viewedRestaurantIDs
      ensures Valid()
      ensures searchRadius == radius
      ensures viewedRestaurantIDs == old(viewedRestaurantIDs)
      ensures radius != old(searchRadius) ==>
        && currentLocation == None
        && errorMessage == (if status == Denied || status == Restricted then Some(LocationDenied) else None)
      ensures radius == old(searchRadius) ==> currentLocation == old(currentLocation) && errorMessage == old(errorMessage)
    {
      if radius != searchRadius {
        searchRadius := radius;
        RequestLocationAndSearch(false, status);
      }
    }
  }
}
