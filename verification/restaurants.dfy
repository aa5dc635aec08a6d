/**
 * The normalised venue record shown on a card (`Restaurant` in
 * FoodTinder/Models/Restaurant.swift). Its identity is its Yelp id alone:
 * equality and hashing ignore every other field.
 */
module Restaurants {
  import opened Wrappers

  /** A parsed URL; its inner structure plays no part in the pipeline. */
  datatype Url = Url(absoluteString: string)

  /** A latitude/longitude pair (`CLLocationCoordinate2D`). */
  datatype Coordinate = Coordinate(latitude: real, longitude: real)

  datatype Restaurant = Restaurant(
    id: string,
    name: string,
    category: Option<string>,
    imageUrl: Option<Url>,
    latitude: real,
    longitude: real,
    distance: real,
    phoneNumber: Option<string>,
    rawPhoneNumber: Option<string>,
    rating: Option<real>,
    isOpenNow: bool)
  {
    /** The `coordinate` computed property. */
    function Location(): (c: Coordinate)
      ensures c.latitude == latitude && c.longitude == longitude
    {
      Coordinate(latitude, longitude)
    }
  }

  /** The custom `==`: two records are the same venue when their ids agree. */
  predicate SameVenue(a: Restaurant, b: Restaurant): (same: bool)
    ensures same <==> HashInput(a) == HashInput(b)
  {
    a.id == b.id
  }

  /** What `hash(into:)` feeds to the hasher: the id and nothing else. */
  function HashInput(r: Restaurant): (h: seq<string>)
    ensures |h| == 1 && h[0] == r.id
  {
    [r.id]
  }

  /** Records that differ in every field but the id are still `==`. */
  lemma SameVenueIgnoresOtherFields(a: Restaurant, b: Restaurant)
    requires a.id == b.id
    ensures SameVenue(a, b)
    ensures SameVenue(a, b.(name := a.name + "x", rating := None, distance := b.distance + 1.0))
  {
  }

  /** `==` is exactly id equality, in both directions. */
  lemma SameVenueIffSameId(a: Restaurant, b: Restaurant)
    ensures SameVenue(a, b) <==> a.id == b.id
  {
  }

  /** `==` is an equivalence relation. */
  lemma SameVenueIsEquivalence(a: Restaurant, b: Restaurant, c: Restaurant)
    ensures SameVenue(a, a)
    ensures SameVenue(a, b) ==> SameVenue(b, a)
    ensures SameVenue(a, b) && SameVenue(b, c) ==> SameVenue(a, c)
  {
  }
}
