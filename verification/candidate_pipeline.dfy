/**
 * The pure parts of the candidate pipeline in
 * FoodTinder/ViewModels/RestaurantViewModel.swift: normalising search
 * results into restaurants, the seen and minimum-rating filters, the
 * best-match score and ordering, and the id-based operations on the liked
 * list. The view model's methods are specified with these functions.
 */
module CandidatePipeline {
  import opened Wrappers
  import opened Restaurants
  import opened YelpModels
  import opened SearchOptions

  // ---------------------------------------------------------------------------
  // Order-preserving selection

  /** `xs` is `ys` with some elements left out and the rest in their order. */
  predicate SubsequenceOf(xs: seq<Restaurant>, ys: seq<Restaurant>)
    decreases |ys|
  {
    xs == [] || (ys != [] && ((xs[0] == ys[0] && SubsequenceOf(xs[1..], ys[1..])) || SubsequenceOf(xs, ys[1..])))
  }

  lemma {:induction false} SubsequenceTransitive(a: seq<Restaurant>, b: seq<Restaurant>, c: seq<Restaurant>)
    requires SubsequenceOf(a, b) && SubsequenceOf(b, c)
    ensures SubsequenceOf(a, c)
    decreases |c|
  {
    if a != [] {
      if b[0] == c[0] && SubsequenceOf(b[1..], c[1..]) {
        if a[0] == b[0] && SubsequenceOf(a[1..], b[1..]) {
          SubsequenceTransitive(a[1..], b[1..], c[1..]);
        } else {
          SubsequenceTransitive(a, b[1..], c[1..]);
        }
      } else {
        SubsequenceTransitive(a, b, c[1..]);
      }
    }
  }

  // ---------------------------------------------------------------------------
  // Filters

  /** The seen filter: drop every restaurant whose id has been swiped on. */
  function Unseen(pool: seq<Restaurant>, seen: set<string>): (r: seq<Restaurant>)
    ensures forall x :: x in r ==> x in pool && x.id !in seen
    ensures forall x :: x in pool && x.id !in seen ==> x in r
    ensures forall x :: multiset(r)[x] == if x.id in seen then 0 else multiset(pool)[x]
    ensures SubsequenceOf(r, pool)
  {
    if pool == [] then []
    else
      assert pool == [pool[0]] + pool[1..];
      if pool[0].id in seen then Unseen(pool[1..], seen)
      else [pool[0]] + Unseen(pool[1..], seen)
  }

  /** A restaurant passes a positive minimum only with a rating at least that high. */
  predicate MeetsMinimumRating(r: Restaurant, minimumRating: real) {
    r.rating.Some? && r.rating.value >= minimumRating
  }

  /** The minimum-rating filter: unrated restaurants never pass. */
  function RatedAtLeast(xs: seq<Restaurant>, minimumRating: real): (r: seq<Restaurant>)
    ensures forall x :: x in r ==> x in xs && MeetsMinimumRating(x, minimumRating)
    ensures forall x :: x in xs && MeetsMinimumRating(x, minimumRating) ==> x in r
    ensures forall x :: multiset(r)[x] == if MeetsMinimumRating(x, minimumRating) then multiset(xs)[x] else 0
    ensures SubsequenceOf(r, xs)
  {
    if xs == [] then []
    else
      assert xs == [xs[0]] + xs[1..];
      if MeetsMinimumRating(xs[0], minimumRating) then [xs[0]] + RatedAtLeast(xs[1..], minimumRating)
      else RatedAtLeast(xs[1..], minimumRating)
  }

  /**
   * The filtering half of `applyFiltersAndSort`: unseen restaurants of the
   * pool, and when the minimum rating is positive only those rated at least
   * that high, in pool order.
   */
  function Filtered(pool: seq<Restaurant>, seen: set<string>, minimumRating: real): (r: seq<Restaurant>)
    ensures forall x :: x in r ==> x in pool && x.id !in seen
    ensures minimumRating > 0.0 ==> forall x :: x in r ==> MeetsMinimumRating(x, minimumRating)
    ensures forall x :: x in pool && x.id !in seen && (minimumRating <= 0.0 || MeetsMinimumRating(x, minimumRating)) ==> x in r
    ensures minimumRating <= 0.0 ==> r == Unseen(pool, seen)
    ensures forall x :: multiset(r)[x] == if x.id !in seen && (minimumRating <= 0.0 || MeetsMinimumRating(x, minimumRating)) then multiset(pool)[x] else 0
    ensures SubsequenceOf(r, pool)
  {
    var unseen := Unseen(pool, seen);
    if minimumRating > 0.0 then
      var r := RatedAtLeast(unseen, minimumRating);
      SubsequenceTransitive(r, unseen, pool);
      r
    else unseen
  }

  lemma {:induction false} UnseenKeepsUnseen(xs: seq<Restaurant>, seen: set<string>)
    requires forall x :: x in xs ==> x.id !in seen
    ensures Unseen(xs, seen) == xs
  {
    if xs != [] {
      UnseenKeepsUnseen(xs[1..], seen);
    }
  }

  lemma {:induction false} RatedAtLeastKeepsRated(xs: seq<Restaurant>, minimumRating: real)
    requires forall x :: x in xs ==> MeetsMinimumRating(x, minimumRating)
    ensures RatedAtLeast(xs, minimumRating) == xs
  {
    if xs != [] {
      RatedAtLeastKeepsRated(xs[1..], minimumRating);
    }
  }

  /** The candidates already pass the filters: filtering them again changes nothing. */
  lemma FilteredIsIdempotent(pool: seq<Restaurant>, seen: set<string>, minimumRating: real)
    ensures Filtered(Filtered(pool, seen, minimumRating), seen, minimumRating) == Filtered(pool, seen, minimumRating)
  {
    var once := Filtered(pool, seen, minimumRating);
    UnseenKeepsUnseen(once, seen);
    if minimumRating > 0.0 {
      RatedAtLeastKeepsRated(once, minimumRating);
    }
  }

  // ---------------------------------------------------------------------------
  // Best-match score and ordering

  /**
   * `calculateScore`: twice a positive rating, 3 for having an image, minus
   * half a point per kilometre of distance.
   */
  function Score(r: Restaurant): (s: real)
    ensures (r.rating.None? || r.rating.value <= 0.0) && r.imageUrl.None? ==> s == -(r.distance / 2000.0)
    ensures r.rating.Some? && r.rating.value > 0.0 && r.imageUrl.Some? ==> s == 2.0 * r.rating.value + 3.0 - r.distance / 2000.0
  {
    (if r.rating.Some? && r.rating.value > 0.0 then r.rating.value * 2.0 else 0.0)
    + (if r.imageUrl.Some? then 3.0 else 0.0)
    - (r.distance / 1000.0) * 0.5
  }

  /** With a rating in [0, 5] and a non-negative distance the score is at most 13. */
  lemma ScoreBounds(r: Restaurant)
    requires r.rating.Some? ==> 0.0 <= r.rating.value <= 5.0
    requires r.distance >= 0.0
    ensures Score(r) <= 13.0
    ensures Score(r) >= -r.distance / 2000.0
  {
  }

  /**
   * Each term of the score on its own: a positive rating adds twice the
   * rating, a non-positive or absent one adds nothing, an image adds 3, and
   * what is left is the distance penalty.
   */
  lemma ScoreWeights(r: Restaurant)
    ensures r.rating.Some? && r.rating.value > 0.0 ==> Score(r) == Score(r.(rating := None)) + 2.0 * r.rating.value
    ensures r.rating.Some? && r.rating.value <= 0.0 ==> Score(r) == Score(r.(rating := None))
    ensures r.imageUrl.Some? ==> Score(r) == Score(r.(imageUrl := None)) + 3.0
    ensures Score(r.(rating := None, imageUrl := None)) == -(r.distance / 2000.0)
  {
  }

  /** Every pair in order has a key at least as high first. */
  predicate NonIncreasingBy<T>(xs: seq<T>, key: T -> real) {
    forall i, j :: 0 <= i < j < |xs| ==> key(xs[i]) >= key(xs[j])
  }

  /** Whatever is inserted below the head of a sorted list stays below it. */
  lemma BelowHead<T>(head: T, x: T, pool: seq<T>, rest: seq<T>, key: T -> real)
    requires key(x) <= key(head)
    requires forall k :: 0 <= k < |pool| ==> key(pool[k]) <= key(head)
    requires multiset(rest) == multiset(pool) + multiset{x}
    ensures forall k :: 0 <= k < |rest| ==> key(rest[k]) <= key(head)
  {
    forall k | 0 <= k < |rest|
      ensures key(rest[k]) <= key(head)
    {
      assert rest[k] in multiset(rest);
      if rest[k] != x {
        assert rest[k] in multiset(pool);
      }
    }
  }

  lemma ConsKeepsOrder<T>(head: T, rest: seq<T>, key: T -> real)
    requires NonIncreasingBy(rest, key)
    requires forall k :: 0 <= k < |rest| ==> key(rest[k]) <= key(head)
    ensures NonIncreasingBy([head] + rest, key)
  {
  }

  function InsertBy<T>(x: T, xs: seq<T>, key: T -> real): (r: seq<T>)
    requires NonIncreasingBy(xs, key)
    ensures NonIncreasingBy(r, key)
    ensures multiset(r) == multiset(xs) + multiset{x}
  {
    if xs == [] || key(x) >= key(xs[0]) then [x] + xs
    else
      var rest := InsertBy(x, xs[1..], key);
      BelowHead(xs[0], x, xs[1..], rest, key);
      ConsKeepsOrder(xs[0], rest, key);
      assert xs == [xs[0]] + xs[1..];
      [xs[0]] + rest
  }

  /** An insertion sort by descending key, standing for the library `sort`. */
  function SortBy<T>(xs: seq<T>, key: T -> real): (r: seq<T>)
    ensures NonIncreasingBy(r, key)
    ensures multiset(r) == multiset(xs)
  {
    if xs == [] then []
    else
      assert xs == [xs[0]] + xs[1..];
      InsertBy(xs[0], SortBy(xs[1..], key), key)
  }

  /**
   * The best-match `sort`. Swift does not promise stability, so only the
   * order of scores and the permutation are stated, never the order of ties.
   */
  function SortByScore(xs: seq<Restaurant>): (r: seq<Restaurant>)
    ensures NonIncreasingBy(r, Score)
    ensures multiset(r) == multiset(xs)
  {
    SortBy(xs, Score)
  }

  /** No two distinct elements of `xs` share a key. */
  ghost predicate NoTiesBy<T>(xs: seq<T>, key: T -> real) {
    forall x, y :: x in xs && y in xs && key(x) == key(y) ==> x == y
  }

  /** Two sorted permutations without ties start with the same element. */
  lemma SortedWithoutTiesSameHead<T>(a: seq<T>, b: seq<T>, key: T -> real)
    requires a != [] && multiset(a) == multiset(b)
    requires NonIncreasingBy(a, key) && NonIncreasingBy(b, key) && NoTiesBy(a, key)
    ensures b != [] && a[0] == b[0]
  {
    assert a[0] in multiset(b);
    var j :| 0 <= j < |b| && b[j] == a[0];
    assert b[0] in multiset(a);
    var i :| 0 <= i < |a| && a[i] == b[0];
    assert key(a[0]) >= key(a[i]) == key(b[0]) >= key(b[j]) == key(a[0]);
  }

  lemma SameHeadSameTail<T>(a: seq<T>, b: seq<T>)
    requires a != [] && b != [] && a[0] == b[0] && multiset(a) == multiset(b)
    ensures multiset(a[1..]) == multiset(b[1..])
  {
    assert a == [a[0]] + a[1..] && b == [b[0]] + b[1..];
    assert multiset(a[1..]) == multiset(a) - multiset{a[0]};
    assert multiset(b[1..]) == multiset(b) - multiset{b[0]};
  }

  lemma TailKeepsOrder<T>(a: seq<T>, key: T -> real)
    requires a != [] && NonIncreasingBy(a, key) && NoTiesBy(a, key)
    ensures NonIncreasingBy(a[1..], key) && NoTiesBy(a[1..], key)
  {
    assert forall i :: 0 <= i < |a| - 1 ==> a[1..][i] == a[i + 1];
    assert forall x :: x in a[1..] ==> x in a;
  }

  lemma TailKeepsOrderOnly<T>(b: seq<T>, key: T -> real)
    requires b != [] && NonIncreasingBy(b, key)
    ensures NonIncreasingBy(b[1..], key)
  {
    assert forall i :: 0 <= i < |b| - 1 ==> b[1..][i] == b[i + 1];
  }

  /**
   * When no two elements share a key, the order is fully determined:
   * any two key-sorted permutations of the same elements are equal.
   */
  lemma {:induction false} SortedWithoutTiesIsUnique<T>(a: seq<T>, b: seq<T>, key: T -> real)
    requires multiset(a) == multiset(b)
    requires NonIncreasingBy(a, key) && NonIncreasingBy(b, key)
    requires NoTiesBy(a, key)
    ensures a == b
    decreases |a|
  {
    if a == [] {
      assert |b| == |multiset(b)| == 0;
    } else {
      SortedWithoutTiesSameHead(a, b, key);
      SameHeadSameTail(a, b);
      TailKeepsOrder(a, key);
      TailKeepsOrderOnly(b, key);
      SortedWithoutTiesIsUnique(a[1..], b[1..], key);
      assert a == [a[0]] + a[1..] && b == [b[0]] + b[1..];
    }
  }

  // ---------------------------------------------------------------------------
  // The liked list, identified by id

  /** `contains(where: { $0.id == id })`. */
  predicate HasId(xs: seq<Restaurant>, id: string) {
    exists i :: 0 <= i < |xs| && xs[i].id == id
  }

  predicate UniqueIds(xs: seq<Restaurant>) {
    forall i, j :: 0 <= i < j < |xs| ==> xs[i].id != xs[j].id
  }

  /** The like step of `handleSwipe`: append unless an entry with that id is there. */
  function LikeOnce(liked: seq<Restaurant>, r: Restaurant): (result: seq<Restaurant>)
    ensures |result| == |liked| + (if HasId(liked, r.id) then 0 else 1)
    ensures result[..|liked|] == liked
    ensures !HasId(liked, r.id) ==> result[|liked|] == r
  {
    if HasId(liked, r.id) then liked else liked + [r]
  }

  /** After a like the id is liked, and liked ids stay unique. */
  lemma LikeOnceKeepsIdsUnique(liked: seq<Restaurant>, r: Restaurant)
    ensures HasId(LikeOnce(liked, r), r.id)
    ensures UniqueIds(liked) ==> UniqueIds(LikeOnce(liked, r))
  {
    var result := LikeOnce(liked, r);
    if !HasId(liked, r.id) {
      assert result[|liked|].id == r.id;
      assert forall i :: 0 <= i < |liked| ==> result[i] == liked[i];
    }
  }

  /** Liking twice is liking once. */
  lemma LikeOnceIsIdempotent(liked: seq<Restaurant>, r: Restaurant)
    ensures LikeOnce(LikeOnce(liked, r), r) == LikeOnce(liked, r)
  {
  }

  /** `firstIndex(where: { $0.id == id })`. */
  function FirstIndexWithId(xs: seq<Restaurant>, id: string): (r: Option<nat>)
    ensures r.None? <==> !HasId(xs, id)
    ensures r.Some? ==> r.value < |xs| && xs[r.value].id == id
    ensures r.Some? ==> forall j :: 0 <= j < r.value ==> xs[j].id != id
  {
    if xs == [] then None
    else if xs[0].id == id then Some(0)
    else
      match FirstIndexWithId(xs[1..], id)
      case None =>
        assert forall k :: 1 <= k < |xs| ==> xs[k] == xs[1..][k - 1];
        None
      case Some(i) => Some(i + 1)
  }

  /**
   * `removeLikedRestaurant`'s list update: find the first entry with the id
   * and remove it at that index.
   */
  function RemoveFirstWithId(xs: seq<Restaurant>, id: string): (r: seq<Restaurant>)
    ensures FirstIndexWithId(xs, id).None? ==> r == xs
    ensures FirstIndexWithId(xs, id).Some? ==>
      var i := FirstIndexWithId(xs, id).value;
      && |r| == |xs| - 1
      && (forall k :: 0 <= k < i ==> r[k] == xs[k])
      && (forall k :: i <= k < |r| ==> r[k] == xs[k + 1])
  {
    match FirstIndexWithId(xs, id)
    case None => xs
    case Some(i) => xs[..i] + xs[i + 1..]
  }

  /** With unique ids, removing an id removes it completely and keeps ids unique. */
  lemma RemoveFirstWithIdUnlikes(xs: seq<Restaurant>, id: string)
    requires UniqueIds(xs)
    ensures !HasId(RemoveFirstWithId(xs, id), id)
    ensures UniqueIds(RemoveFirstWithId(xs, id))
    ensures |RemoveFirstWithId(xs, id)| == |xs| - (if HasId(xs, id) then 1 else 0)
  {
    var r := RemoveFirstWithId(xs, id);
    if FirstIndexWithId(xs, id).Some? {
      var i := FirstIndexWithId(xs, id).value;
      assert forall k :: 0 <= k < |r| ==> r[k] == xs[if k < i then k else k + 1];
    }
  }

  /** Liking and then unliking a new id gives back the original list. */
  lemma UnlikeUndoesLike(liked: seq<Restaurant>, r: Restaurant)
    requires !HasId(liked, r.id)
    ensures RemoveFirstWithId(LikeOnce(liked, r), r.id) == liked
  {
    var l := LikeOnce(liked, r);
    assert forall k :: 0 <= k < |liked| ==> l[k].id != r.id;
    assert FirstIndexWithId(l, r.id) == Some(|liked|);
  }

  // ---------------------------------------------------------------------------
  // Normalising search results

  /** `business.categories?.first?.title`. */
  function FirstCategoryTitle(categories: Option<seq<YelpCategory>>): (t: Option<string>)
    ensures t.Some? ==> categories.Some? && |categories.value| > 0 && categories.value[0].title == t
    ensures categories.Some? && categories.value != [] ==> t == categories.value[0].title
    ensures categories.None? || categories.value == [] ==> t.None?
  {
    match categories
    case None => None
    case Some(cs) => if cs == [] then None else cs[0].title
  }

  /**
   * One business as a restaurant; `distanceBetween` stands for
   * `CLLocation.distance(from:)`, measured from the search centre `from`.
   */
  function ToRestaurant(b: YelpBusiness, from: Coordinate, distanceBetween: (Coordinate, Coordinate) -> real): (r: Restaurant)
    ensures r.id == b.id && r.name == b.name && r.rating == b.rating && r.imageUrl == b.imageUrl
    ensures r.Location() == Coordinate(b.coordinates.latitude, b.coordinates.longitude)
    ensures r.distance == distanceBetween(from, r.Location())
    ensures r.phoneNumber == b.displayPhone && r.rawPhoneNumber == b.phone
    ensures r.isOpenNow <==> b.isClosed == Some(false)
    ensures r.category == FirstCategoryTitle(b.categories)
  {
    var spot := Coordinate(b.coordinates.latitude, b.coordinates.longitude);
    Restaurant(
      id := b.id,
      name := b.name,
      category := FirstCategoryTitle(b.categories),
      imageUrl := b.imageUrl,
      latitude := b.coordinates.latitude,
      longitude := b.coordinates.longitude,
      distance := distanceBetween(from, spot),
      phoneNumber := b.displayPhone,
      rawPhoneNumber := b.phone,
      rating := b.rating,
      isOpenNow := b.isClosed == Some(false))
  }

  /**
   * `mapYelpBusinesses`: one restaurant per business, in order. An absent
   * `is_closed` makes the restaurant count as not open.
   */
  function MapYelpBusinesses(businesses: seq<YelpBusiness>, from: Coordinate, distanceBetween: (Coordinate, Coordinate) -> real): (rs: seq<Restaurant>)
    ensures |rs| == |businesses|
    ensures forall i :: 0 <= i < |rs| ==>
      var b, r := businesses[i], rs[i];
      && r.id == b.id && r.name == b.name
      && r.rating == b.rating && r.imageUrl == b.imageUrl
      && r.Location() == Coordinate(b.coordinates.latitude, b.coordinates.longitude)
      && r.distance == distanceBetween(from, r.Location())
      && r.phoneNumber == b.displayPhone && r.rawPhoneNumber == b.phone
      && (r.isOpenNow <==> b.isClosed == Some(false))
      && (b.categories == None || b.categories == Some([]) ==> r.category == None)
      && (b.categories.Some? && b.categories.value != [] ==> r.category == b.categories.value[0].title)
  {
    seq(|businesses|, i requires 0 <= i < |businesses| => ToRestaurant(businesses[i], from, distanceBetween))
  }

  /** Mapping a page that has businesses gives a page that has restaurants. */
  lemma MapKeepsEmptiness(businesses: seq<YelpBusiness>, from: Coordinate, distanceBetween: (Coordinate, Coordinate) -> real)
    ensures MapYelpBusinesses(businesses, from, distanceBetween) == [] <==> businesses == []
  {
  }

  // ---------------------------------------------------------------------------
  // The ranked candidate list

  /**
   * What `applyFiltersAndSort` leaves in `restaurants`: the filtered pool,
   * as is under `.distance` and rearranged by non-increasing score under
   * `.bestMatch`.
   */
  ghost predicate IsRanking(rs: seq<Restaurant>, pool: seq<Restaurant>, seen: set<string>, minimumRating: real, sortOption: SortOption) {
    && multiset(rs) == multiset(Filtered(pool, seen, minimumRating))
    && (sortOption == BestMatch ==> NonIncreasingBy(rs, Score))
    && (sortOption == SortOption.Distance ==> rs == Filtered(pool, seen, minimumRating))
  }

  /** A ranking holds exactly the restaurants that pass the filters. */
  lemma RankingMembers(rs: seq<Restaurant>, pool: seq<Restaurant>, seen: set<string>, minimumRating: real, sortOption: SortOption)
    requires IsRanking(rs, pool, seen, minimumRating, sortOption)
    ensures forall x :: x in rs <==> x in Filtered(pool, seen, minimumRating)
    ensures forall x :: x in rs ==> x in pool && x.id !in seen
    ensures minimumRating > 0.0 ==> forall x :: x in rs ==> x.rating.Some? && x.rating.value >= minimumRating
  {
    var f := Filtered(pool, seen, minimumRating);
    assert forall x :: x in rs <==> x in multiset(rs);
    assert forall x :: x in f <==> x in multiset(f);
  }

  /**
   * Without ties in score the best-match ranking is unique, so the order a
   * ranking shows is the order `SortByScore` computes.
   */
  lemma BestMatchRankingIsDetermined(rs: seq<Restaurant>, pool: seq<Restaurant>, seen: set<string>, minimumRating: real)
    requires IsRanking(rs, pool, seen, minimumRating, BestMatch)
    requires NoTiesBy(pool, Score)
    ensures rs == SortByScore(Filtered(pool, seen, minimumRating))
  {
    var sorted := SortByScore(Filtered(pool, seen, minimumRating));
    RankingMembers(rs, pool, seen, minimumRating, BestMatch);
    assert NoTiesBy(rs, Score);
    SortedWithoutTiesIsUnique(rs, sorted, Score);
  }
}
