/**
 * The Yelp search-response records and the decoding rules of
 * FoodTinder/Models/YelpModels.swift: which keys are required, which are
 * optional, the snake-case key names, and the special rule for `image_url`.
 */
module YelpModels {
  import opened Wrappers
  import opened JsonValue
  import opened Restaurants

  /** Why decoding failed, with the key being decoded ("" for the root value). */
  datatype DecodeError =
    | KeyNotFound(key: string)
    | ValueNotFound(key: string)
    | TypeMismatch(key: string)
    | NumberDoesNotFit(key: string)

  datatype YelpCategory = YelpCategory(alias: Option<string>, title: Option<string>)

  datatype YelpCoordinates = YelpCoordinates(latitude: real, longitude: real)

  datatype YelpLocation = YelpLocation(
    address1: Option<string>,
    address2: Option<string>,
    address3: Option<string>,
    city: Option<string>,
    zipCode: Option<string>,
    country: Option<string>,
    state: Option<string>,
    displayAddress: Option<seq<string>>)

  datatype YelpBusiness = YelpBusiness(
    id: string,
    name: string,
    imageUrl: Option<Url>,
    isClosed: Option<bool>,
    url: Option<string>,
    rating: Option<real>,
    reviewCount: Option<int>,
    categories: Option<seq<YelpCategory>>,
    coordinates: YelpCoordinates,
    price: Option<string>,
    location: YelpLocation,
    phone: Option<string>,
    displayPhone: Option<string>,
    distance: Option<real>)

  datatype YelpSearchResponse = YelpSearchResponse(businesses: seq<YelpBusiness>, total: int)

  // ---------------------------------------------------------------------------
  // Coding keys

  /** A non-empty key of lower-case letters, digits and underscores, starting with a letter. */
  predicate IsSnakeCase(key: string) {
    && key != [] && 'a' <= key[0] <= 'z'
    && forall c :: c in key ==> SnakeCaseChar(c)
  }

  predicate SnakeCaseChar(c: char) {
    'a' <= c <= 'z' || '0' <= c <= '9' || c == '_'
  }

  /** The stored properties of `YelpBusiness`, one per coding key. */
  datatype BusinessKey =
    | Id | Name | ImageUrl | IsClosed | UrlKey | Rating | ReviewCount
    | Categories | Coordinates | Price | LocationKey | Phone | DisplayPhone | Distance

  /** `YelpBusiness.CodingKeys`: the JSON key each property is read from. */
  function BusinessKeyName(k: BusinessKey): (name: string)
    ensures IsSnakeCase(name)
  {
    match k
    case Id => "id"
    case Name => "name"
    case ImageUrl => "image_url"
    case IsClosed => "is_closed"
    case UrlKey => "url"
    case Rating => "rating"
    case ReviewCount => "review_count"
    case Categories => "categories"
    case Coordinates => "coordinates"
    case Price => "price"
    case LocationKey => "location"
    case Phone => "phone"
    case DisplayPhone => "display_phone"
    case Distance => "distance"
  }

  /** The stored properties of `YelpLocation`, one per coding key. */
  datatype LocationField =
    | Address1 | Address2 | Address3 | City | Country | State | ZipCode | DisplayAddress

  /** The string-valued address field `l` of a location (none for `displayAddress`). */
  function LocationValue(loc: YelpLocation, l: LocationField): Option<string> {
    match l
    case Address1 => loc.address1
    case Address2 => loc.address2
    case Address3 => loc.address3
    case City => loc.city
    case Country => loc.country
    case State => loc.state
    case ZipCode => loc.zipCode
    case DisplayAddress => None
  }

  /** `YelpLocation.CodingKeys`. */
  function LocationKeyName(k: LocationField): (name: string)
    ensures IsSnakeCase(name)
  {
    match k
    case Address1 => "address1"
    case Address2 => "address2"
    case Address3 => "address3"
    case City => "city"
    case Country => "country"
    case State => "state"
    case ZipCode => "zip_code"
    case DisplayAddress => "display_address"
  }

  /** Reads a JSON key back as the business property decoded from it. */
  function BusinessKeyOfName(name: string): Option<BusinessKey> {
    if name == "id" then Some(Id)
    else if name == "name" then Some(Name)
    else if name == "image_url" then Some(ImageUrl)
    else if name == "is_closed" then Some(IsClosed)
    else if name == "url" then Some(UrlKey)
    else if name == "rating" then Some(Rating)
    else if name == "review_count" then Some(ReviewCount)
    else if name == "categories" then Some(Categories)
    else if name == "coordinates" then Some(Coordinates)
    else if name == "price" then Some(Price)
    else if name == "location" then Some(LocationKey)
    else if name == "phone" then Some(Phone)
    else if name == "display_phone" then Some(DisplayPhone)
    else if name == "distance" then Some(Distance)
    else None
  }

  /** Reads a JSON key back as the location property decoded from it. */
  function LocationKeyOfName(name: string): Option<LocationField> {
    if name == "address1" then Some(Address1)
    else if name == "address2" then Some(Address2)
    else if name == "address3" then Some(Address3)
    else if name == "city" then Some(City)
    else if name == "country" then Some(Country)
    else if name == "state" then Some(State)
    else if name == "zip_code" then Some(ZipCode)
    else if name == "display_address" then Some(DisplayAddress)
    else None
  }

  /** Each business property is decoded from exactly the key that names it. */
  lemma BusinessKeyNameRoundTrip(k: BusinessKey, name: string)
    ensures BusinessKeyName(k) == name <==> BusinessKeyOfName(name) == Some(k)
  {
  }

  /** Each location property is decoded from exactly the key that names it. */
  lemma LocationKeyNameRoundTrip(k: LocationField, name: string)
    ensures LocationKeyName(k) == name <==> LocationKeyOfName(name) == Some(k)
  {
  }

  /** The camel-case properties are read from their snake-case keys. */
  lemma SnakeCaseKeys()
    ensures BusinessKeyName(ImageUrl) == "image_url"
    ensures BusinessKeyName(IsClosed) == "is_closed"
    ensures BusinessKeyName(ReviewCount) == "review_count"
    ensures BusinessKeyName(DisplayPhone) == "display_phone"
    ensures LocationKeyName(ZipCode) == "zip_code"
    ensures LocationKeyName(DisplayAddress) == "display_address"
  {
  }

  /** No two properties share a JSON key, so each field is read from its own key. */
  lemma KeyNamesAreDistinct(a: BusinessKey, b: BusinessKey, c: LocationField, d: LocationField)
    ensures BusinessKeyName(a) == BusinessKeyName(b) ==> a == b
    ensures LocationKeyName(c) == LocationKeyName(d) ==> c == d
  {
  }

  // Keyed-container primitives

  /**
   * The value stored under `key`, or none when the key is absent or holds
   * null: the two cases `decodeIfPresent` treats as "no value".
   */
  function Present(c: map<string, Json>, key: string): (v: Option<Json>)
    ensures v.Some? <==> key in c && c[key] != JNull
    ensures v.Some? ==> v.value == c[key]
  {
    if key in c && c[key] != JNull then Some(c[key]) else None
  }

  /** The lookup of `decode(_:forKey:)`: a missing key and a null value are distinct errors. */
  function RequiredValue(c: map<string, Json>, key: string): (r: Result<Json, DecodeError>)
    ensures key !in c ==> r == Failure(KeyNotFound(key))
    ensures key in c && c[key] == JNull ==> r == Failure(ValueNotFound(key))
    ensures r.Success? <==> key in c && c[key] != JNull
    ensures r.Success? ==> r.value == c[key]
  {
    if key !in c then Failure(KeyNotFound(key))
    else if c[key] == JNull then Failure(ValueNotFound(key))
    else Success(c[key])
  }

  function StringValue(key: string, j: Json): (r: Result<string, DecodeError>)
    ensures r.Success? <==> j.JString?
    ensures r.Success? ==> j == JString(r.value)
  {
    if j.JString? then Success(j.s) else Failure(TypeMismatch(key))
  }

  function BoolValue(key: string, j: Json): (r: Result<bool, DecodeError>)
    ensures r.Success? <==> j.JBool?
    ensures r.Success? ==> j == JBool(r.value)
  {
    if j.JBool? then Success(j.b) else Failure(TypeMismatch(key))
  }

  function DoubleValue(key: string, j: Json): (r: Result<real, DecodeError>)
    ensures r.Success? <==> j.JNumber?
    ensures r.Success? ==> j == JNumber(r.value)
  {
    if j.JNumber? then Success(j.n) else Failure(TypeMismatch(key))
  }

  /** Swift `Int` is 64 bits wide. */
  const IntMin: int := -0x8000_0000_0000_0000
  const IntMax: int := 0x7FFF_FFFF_FFFF_FFFF

  /** A JSON number decodes as `Int` only if it is integral and fits in 64 bits. */
  function IntValue(key: string, j: Json): (r: Result<int, DecodeError>)
    ensures r.Success? <==> j.JNumber? && j.n.Floor as real == j.n && IntMin <= j.n.Floor <= IntMax
    ensures r.Success? ==> j == JNumber(r.value as real)
  {
    if !j.JNumber? then Failure(TypeMismatch(key))
    else if j.n.Floor as real == j.n && IntMin <= j.n.Floor <= IntMax then Success(j.n.Floor)
    else Failure(NumberDoesNotFit(key))
  }

  /** `[String]`: every element must be a string; a null element is an error. */
  function StringItems(key: string, items: seq<Json>): (r: Result<seq<string>, DecodeError>)
    ensures r.Success? <==> AllStrings(items)
    ensures r.Success? ==> |r.value| == |items|
    ensures r.Success? ==> forall i :: 0 <= i < |items| ==> items[i] == JString(r.value[i])
  {
    if items == [] then Success([])
    else if items[0] == JNull then Failure(ValueNotFound(key))
    else
      var first :- StringValue(key, items[0]);
      var rest :- StringItems(key, items[1..]);
      Success([first] + rest)
  }

  function StringArrayValue(key: string, j: Json): Result<seq<string>, DecodeError> {
    if j.JArray? then StringItems(key, j.items) else Failure(TypeMismatch(key))
  }

  // ---------------------------------------------------------------------------
  // Well-formed JSON, stated independently of the decoders

  /** A JSON number that Swift accepts as an `Int`. */
  predicate IsIntNumber(j: Json) {
    j.JNumber? && j.n.Floor as real == j.n && IntMin <= j.n.Floor <= IntMax
  }

  predicate StringOrAbsent(c: map<string, Json>, key: string) {
    key !in c || c[key] == JNull || c[key].JString?
  }

  predicate BoolOrAbsent(c: map<string, Json>, key: string) {
    key !in c || c[key] == JNull || c[key].JBool?
  }

  predicate NumberOrAbsent(c: map<string, Json>, key: string) {
    key !in c || c[key] == JNull || c[key].JNumber?
  }

  predicate IntOrAbsent(c: map<string, Json>, key: string) {
    key !in c || c[key] == JNull || IsIntNumber(c[key])
  }

  predicate AllStrings(items: seq<Json>) {
    forall i :: 0 <= i < |items| ==> items[i].JString?
  }

  predicate StringListOrAbsent(c: map<string, Json>, key: string) {
    key !in c || c[key] == JNull || (c[key].JArray? && AllStrings(c[key].items))
  }

  /** A category object: `alias` and `title` each a string, null or absent. */
  predicate WellFormedCategory(j: Json) {
    j.JObject? && StringOrAbsent(j.fields, "alias") && StringOrAbsent(j.fields, "title")
  }

  predicate AllCategories(items: seq<Json>) {
    forall i :: 0 <= i < |items| ==> WellFormedCategory(items[i])
  }

  predicate CategoryListOrAbsent(c: map<string, Json>, key: string) {
    key !in c || c[key] == JNull || (c[key].JArray? && AllCategories(c[key].items))
  }

  /** A coordinates object with numeric `latitude` and `longitude`. */
  predicate WellFormedCoordinates(c: map<string, Json>, key: string) {
    && key in c && c[key].JObject?
    && "latitude" in c[key].fields && c[key].fields["latitude"].JNumber?
    && "longitude" in c[key].fields && c[key].fields["longitude"].JNumber?
  }

  /** A location object whose address fields are each of the right type, null or absent. */
  predicate WellFormedLocation(c: map<string, Json>, key: string) {
    && key in c && c[key].JObject?
    && StringOrAbsent(c[key].fields, LocationKeyName(Address1))
    && StringOrAbsent(c[key].fields, LocationKeyName(Address2))
    && StringOrAbsent(c[key].fields, LocationKeyName(Address3))
    && StringOrAbsent(c[key].fields, LocationKeyName(City))
    && StringOrAbsent(c[key].fields, LocationKeyName(ZipCode))
    && StringOrAbsent(c[key].fields, LocationKeyName(Country))
    && StringOrAbsent(c[key].fields, LocationKeyName(State))
    && StringListOrAbsent(c[key].fields, LocationKeyName(DisplayAddress))
  }

  /**
   * A business object `YelpBusiness.init(from:)` accepts: the four required
   * keys hold values of their types, and every optional key holds a value
   * of its type, null, or nothing.
   */
  predicate WellFormedBusiness(c: map<string, Json>) {
    && BusinessKeyName(Id) in c && c[BusinessKeyName(Id)].JString?
    && BusinessKeyName(Name) in c && c[BusinessKeyName(Name)].JString?
    && BoolOrAbsent(c, BusinessKeyName(IsClosed))
    && StringOrAbsent(c, BusinessKeyName(UrlKey))
    && NumberOrAbsent(c, BusinessKeyName(Rating))
    && IntOrAbsent(c, BusinessKeyName(ReviewCount))
    && CategoryListOrAbsent(c, BusinessKeyName(Categories))
    && WellFormedCoordinates(c, BusinessKeyName(Coordinates))
    && StringOrAbsent(c, BusinessKeyName(Price))
    && WellFormedLocation(c, BusinessKeyName(LocationKey))
    && StringOrAbsent(c, BusinessKeyName(Phone))
    && StringOrAbsent(c, BusinessKeyName(DisplayPhone))
    && NumberOrAbsent(c, BusinessKeyName(Distance))
    && StringOrAbsent(c, BusinessKeyName(ImageUrl))
  }

  /** A JSON value `YelpBusiness.init(from:)` accepts. */
  predicate IsBusiness(j: Json) {
    j.JObject? && WellFormedBusiness(j.fields)
  }

  // ---------------------------------------------------------------------------
  // `decodeIfPresent` per value type

  function OptionalString(c: map<string, Json>, key: string): (r: Result<Option<string>, DecodeError>)
    ensures Present(c, key) == None ==> r == Success(None)
    ensures r.Success? <==> StringOrAbsent(c, key)
    ensures key in c && c[key].JString? ==> r == Success(Some(c[key].s))
    ensures r.Success? && r.value.Some? ==> key in c && c[key] == JString(r.value.value)
  {
    match Present(c, key)
    case None => Success(None)
    case Some(v) => var s :- StringValue(key, v); Success(Some(s))
  }

  function OptionalBool(c: map<string, Json>, key: string): (r: Result<Option<bool>, DecodeError>)
    ensures Present(c, key) == None ==> r == Success(None)
    ensures r.Success? <==> BoolOrAbsent(c, key)
    ensures key in c && c[key].JBool? ==> r == Success(Some(c[key].b))
    ensures r.Success? && r.value.Some? ==> key in c && c[key] == JBool(r.value.value)
  {
    match Present(c, key)
    case None => Success(None)
    case Some(v) => var b :- BoolValue(key, v); Success(Some(b))
  }

  function OptionalDouble(c: map<string, Json>, key: string): (r: Result<Option<real>, DecodeError>)
    ensures Present(c, key) == None ==> r == Success(None)
    ensures r.Success? <==> NumberOrAbsent(c, key)
    ensures key in c && c[key].JNumber? ==> r == Success(Some(c[key].n))
    ensures r.Success? && r.value.Some? ==> key in c && c[key] == JNumber(r.value.value)
  {
    match Present(c, key)
    case None => Success(None)
    case Some(v) => var n :- DoubleValue(key, v); Success(Some(n))
  }

  function OptionalInt(c: map<string, Json>, key: string): (r: Result<Option<int>, DecodeError>)
    ensures Present(c, key) == None ==> r == Success(None)
    ensures r.Success? <==> IntOrAbsent(c, key)
    ensures key in c && IsIntNumber(c[key]) ==> r == Success(Some(c[key].n.Floor))
    ensures r.Success? && r.value.Some? ==> key in c && c[key] == JNumber(r.value.value as real)
  {
    match Present(c, key)
    case None => Success(None)
    case Some(v) => var n :- IntValue(key, v); Success(Some(n))
  }

  function OptionalStrings(c: map<string, Json>, key: string): (r: Result<Option<seq<string>>, DecodeError>)
    ensures Present(c, key) == None ==> r == Success(None)
    ensures r.Success? <==> StringListOrAbsent(c, key)
    ensures r.Success? && Present(c, key).Some? ==>
      && r.value.Some? && |r.value.value| == |c[key].items|
      && forall i :: 0 <= i < |c[key].items| ==> c[key].items[i] == JString(r.value.value[i])
  {
    match Present(c, key)
    case None => Success(None)
    case Some(v) => var ss :- StringArrayValue(key, v); Success(Some(ss))
  }

  // ---------------------------------------------------------------------------
  // Synthesised and custom decoders

  /** `YelpCategory`: both fields optional. */
  function CategoryValue(key: string, j: Json): (r: Result<YelpCategory, DecodeError>)
    ensures !j.JObject? ==> r == Failure(TypeMismatch(key))
    ensures r.Success? <==> WellFormedCategory(j)
    ensures r.Success? ==> (Present(j.fields, "alias") == None <==> r.value.alias == None)
    ensures r.Success? ==> (Present(j.fields, "title") == None <==> r.value.title == None)
    ensures r.Success? && r.value.alias.Some? ==> j.fields["alias"] == JString(r.value.alias.value)
    ensures r.Success? && r.value.title.Some? ==> j.fields["title"] == JString(r.value.title.value)
  {
    if !j.JObject? then Failure(TypeMismatch(key))
    else
      var alias :- OptionalString(j.fields, "alias");
      var title :- OptionalString(j.fields, "title");
      Success(YelpCategory(alias, title))
  }

  function CategoryItems(key: string, items: seq<Json>): (r: Result<seq<YelpCategory>, DecodeError>)
    ensures r.Success? <==> AllCategories(items)
    ensures r.Success? ==> |r.value| == |items|
    ensures r.Success? ==> forall i :: 0 <= i < |items| ==> CategoryValue(key, items[i]) == Success(r.value[i])
  {
    if items == [] then Success([])
    else if items[0] == JNull then Failure(ValueNotFound(key))
    else
      var first :- CategoryValue(key, items[0]);
      var rest :- CategoryItems(key, items[1..]);
      Success([first] + rest)
  }

  function OptionalCategories(c: map<string, Json>, key: string): (r: Result<Option<seq<YelpCategory>>, DecodeError>)
    ensures Present(c, key) == None ==> r == Success(None)
    ensures r.Success? <==> CategoryListOrAbsent(c, key)
    ensures r.Success? && Present(c, key).Some? ==>
      && r.value.Some? && |r.value.value| == |c[key].items|
      && forall i :: 0 <= i < |c[key].items| ==> CategoryValue(key, c[key].items[i]) == Success(r.value.value[i])
  {
    match Present(c, key)
    case None => Success(None)
    case Some(v) =>
      if !v.JArray? then Failure(TypeMismatch(key))
      else var cs :- CategoryItems(key, v.items); Success(Some(cs))
  }

  /** `YelpCoordinates`: both fields required. */
  function RequiredCoordinates(c: map<string, Json>, key: string): (r: Result<YelpCoordinates, DecodeError>)
    ensures key !in c ==> r == Failure(KeyNotFound(key))
    ensures r.Success? <==> WellFormedCoordinates(c, key)
    ensures r.Success? ==>
      r.value == YelpCoordinates(c[key].fields["latitude"].n, c[key].fields["longitude"].n)
  {
    var v :- RequiredValue(c, key);
    if !v.JObject? then Failure(TypeMismatch(key))
    else
      var lat :- RequiredValue(v.fields, "latitude");
      var latitude :- DoubleValue("latitude", lat);
      var lon :- RequiredValue(v.fields, "longitude");
      var longitude :- DoubleValue("longitude", lon);
      Success(YelpCoordinates(latitude, longitude))
  }

  /** `YelpLocation`: every field optional, two of them under snake-case keys. */
  function RequiredLocation(c: map<string, Json>, key: string): (r: Result<YelpLocation, DecodeError>)
    ensures key !in c ==> r == Failure(KeyNotFound(key))
    ensures r.Success? <==> WellFormedLocation(c, key)
    ensures r.Success? ==> forall l :: l != DisplayAddress ==>
      (Present(c[key].fields, LocationKeyName(l)) == None <==> LocationValue(r.value, l) == None)
    ensures r.Success? ==> forall l :: l != DisplayAddress && LocationKeyName(l) in c[key].fields && c[key].fields[LocationKeyName(l)].JString? ==>
      LocationValue(r.value, l) == Some(c[key].fields[LocationKeyName(l)].s)
    ensures r.Success? ==> (Present(c[key].fields, LocationKeyName(DisplayAddress)) == None <==> r.value.displayAddress == None)
    ensures r.Success? ==> OptionalStrings(c[key].fields, LocationKeyName(DisplayAddress)) == Success(r.value.displayAddress)
  {
    var v :- RequiredValue(c, key);
    if !v.JObject? then Failure(TypeMismatch(key))
    else
      var f := v.fields;
      var address1 :- OptionalString(f, LocationKeyName(Address1));
      var address2 :- OptionalString(f, LocationKeyName(Address2));
      var address3 :- OptionalString(f, LocationKeyName(Address3));
      var city :- OptionalString(f, LocationKeyName(City));
      var zipCode :- OptionalString(f, LocationKeyName(ZipCode));
      var country :- OptionalString(f, LocationKeyName(Country));
      var state :- OptionalString(f, LocationKeyName(State));
      var displayAddress :- OptionalStrings(f, LocationKeyName(DisplayAddress));
      Success(YelpLocation(address1, address2, address3, city, zipCode, country, state, displayAddress))
  }

  function RequiredString(c: map<string, Json>, key: string): (r: Result<string, DecodeError>)
    ensures key !in c ==> r == Failure(KeyNotFound(key))
    ensures key in c && c[key] == JNull ==> r == Failure(ValueNotFound(key))
    ensures r.Success? <==> key in c && c[key].JString?
    ensures r.Success? ==> key in c && c[key] == JString(r.value)
  {
    var v :- RequiredValue(c, key);
    StringValue(key, v)
  }

  /**
   * The non-empty-string rule for `image_url`: an absent, null or empty
   * string gives no URL; otherwise the result of URL parsing, which may
   * itself give none.
   */
  function ImageUrlFrom(s: Option<string>, parseUrl: string -> Option<Url>): (u: Option<Url>)
    ensures s == None || s == Some("") ==> u == None
    ensures s.Some? && s.value != "" ==> u == parseUrl(s.value)
  {
    if s.Some? && s.value != "" then parseUrl(s.value) else None
  }

  /**
   * What a successful `YelpBusiness.init(from:)` establishes about the
   * container `c` and the decoded business `b`: each property is what its
   * own key decodes to. It is split in three so that each property can be
   * used without the others.
   */
  ghost predicate DecodedFrom(c: map<string, Json>, parseUrl: string -> Option<Url>, b: YelpBusiness) {
    RequiredDecodedFrom(c, b) && OptionalDecodedFrom(c, b) && ImageDecodedFrom(c, parseUrl, b)
  }

  /** The four required properties. */
  ghost predicate RequiredDecodedFrom(c: map<string, Json>, b: YelpBusiness) {
    && RequiredString(c, BusinessKeyName(Id)) == Success(b.id)
    && RequiredString(c, BusinessKeyName(Name)) == Success(b.name)
    && RequiredCoordinates(c, BusinessKeyName(Coordinates)) == Success(b.coordinates)
    && RequiredLocation(c, BusinessKeyName(LocationKey)) == Success(b.location)
  }

  /** The nine optional properties read with `decodeIfPresent`. */
  ghost predicate OptionalDecodedFrom(c: map<string, Json>, b: YelpBusiness) {
    && OptionalBool(c, BusinessKeyName(IsClosed)) == Success(b.isClosed)
    && OptionalString(c, BusinessKeyName(UrlKey)) == Success(b.url)
    && OptionalDouble(c, BusinessKeyName(Rating)) == Success(b.rating)
    && OptionalInt(c, BusinessKeyName(ReviewCount)) == Success(b.reviewCount)
    && OptionalCategories(c, BusinessKeyName(Categories)) == Success(b.categories)
    && OptionalString(c, BusinessKeyName(Price)) == Success(b.price)
    && OptionalString(c, BusinessKeyName(Phone)) == Success(b.phone)
    && OptionalString(c, BusinessKeyName(DisplayPhone)) == Success(b.displayPhone)
    && OptionalDouble(c, BusinessKeyName(Distance)) == Success(b.distance)
  }

  /** The image URL, read as an optional string and then parsed. */
  ghost predicate ImageDecodedFrom(c: map<string, Json>, parseUrl: string -> Option<Url>, b: YelpBusiness) {
    && OptionalString(c, BusinessKeyName(ImageUrl)).Success?
    && b.imageUrl == ImageUrlFrom(OptionalString(c, BusinessKeyName(ImageUrl)).value, parseUrl)
  }

  /**
   * `YelpBusiness.init(from:)`. The properties are decoded in the source's
   * order, so the first failing key is the one reported; `image_url` is read
   * last. `parseUrl` stands for `URL(string:)`.
   */
  function DecodeBusiness(j: Json, parseUrl: string -> Option<Url>): (r: Result<YelpBusiness, DecodeError>)
    ensures !j.JObject? ==> r == Failure(TypeMismatch(""))
    ensures r.Success? <==> IsBusiness(j)
    ensures r.Success? ==> j.JObject? && DecodedFrom(j.fields, parseUrl, r.value)
  {
    if !j.JObject? then Failure(TypeMismatch(""))
    else
      var c := j.fields;
      var id :- RequiredString(c, BusinessKeyName(Id));
      var name :- RequiredString(c, BusinessKeyName(Name));
      var isClosed :- OptionalBool(c, BusinessKeyName(IsClosed));
      var url :- OptionalString(c, BusinessKeyName(UrlKey));
      var rating :- OptionalDouble(c, BusinessKeyName(Rating));
      var reviewCount :- OptionalInt(c, BusinessKeyName(ReviewCount));
      var categories :- OptionalCategories(c, BusinessKeyName(Categories));
      var coordinates :- RequiredCoordinates(c, BusinessKeyName(Coordinates));
      var price :- OptionalString(c, BusinessKeyName(Price));
      var location :- RequiredLocation(c, BusinessKeyName(LocationKey));
      var phone :- OptionalString(c, BusinessKeyName(Phone));
      var displayPhone :- OptionalString(c, BusinessKeyName(DisplayPhone));
      var distance :- OptionalDouble(c, BusinessKeyName(Distance));
      var imageUrlString :- OptionalString(c, BusinessKeyName(ImageUrl));
      Success(YelpBusiness(id, name, ImageUrlFrom(imageUrlString, parseUrl), isClosed, url, rating,
                           reviewCount, categories, coordinates, price, location, phone,
                           displayPhone, distance))
  }

  function BusinessItems(items: seq<Json>, parseUrl: string -> Option<Url>): (r: Result<seq<YelpBusiness>, DecodeError>)
    ensures r.Success? <==> forall i :: 0 <= i < |items| ==> IsBusiness(items[i])
    ensures r.Success? ==> |r.value| == |items|
    ensures r.Success? ==> forall i :: 0 <= i < |items| ==> DecodeBusiness(items[i], parseUrl) == Success(r.value[i])
  {
    if items == [] then Success([])
    else if items[0] == JNull then Failure(ValueNotFound("businesses"))
    else
      var first :- DecodeBusiness(items[0], parseUrl);
      var rest :- BusinessItems(items[1..], parseUrl);
      Success([first] + rest)
  }

  /** `YelpSearchResponse`: `businesses` and `total` are both required. */
  function DecodeSearchResponse(j: Json, parseUrl: string -> Option<Url>): (r: Result<YelpSearchResponse, DecodeError>)
    ensures r.Success? <==>
      && j.JObject? && "businesses" in j.fields && j.fields["businesses"].JArray?
      && (forall i :: 0 <= i < |j.fields["businesses"].items| ==> IsBusiness(j.fields["businesses"].items[i]))
      && "total" in j.fields && IsIntNumber(j.fields["total"])
    ensures r.Success? ==> |r.value.businesses| == |j.fields["businesses"].items|
    ensures r.Success? ==> forall i :: 0 <= i < |r.value.businesses| ==>
      DecodeBusiness(j.fields["businesses"].items[i], parseUrl) == Success(r.value.businesses[i])
    ensures r.Success? ==> r.value.total == j.fields["total"].n.Floor
  {
    if !j.JObject? then Failure(TypeMismatch(""))
    else
      var list :- RequiredValue(j.fields, "businesses");
      if !list.JArray? then Failure(TypeMismatch("businesses"))
      else
        var businesses :- BusinessItems(list.items, parseUrl);
        var totalValue :- RequiredValue(j.fields, "total");
        var total :- IntValue("total", totalValue);
        Success(YelpSearchResponse(businesses, total))
  }

  // ---------------------------------------------------------------------------
  // Properties of the business decoder

  /** A business without an id, a name, coordinates or a location does not decode. */
  lemma RequiredFieldsMissingFails(j: Json, parseUrl: string -> Option<Url>)
    requires j.JObject?
    requires "id" !in j.fields || "name" !in j.fields || "coordinates" !in j.fields || "location" !in j.fields
    ensures DecodeBusiness(j, parseUrl).Failure?
  {
    var r := DecodeBusiness(j, parseUrl);
    if r.Success? {
      RequiredFieldsAreCopied(j.fields, r.value);
    }
  }

  /** The id is decoded first, so a missing id is the error reported. */
  lemma MissingIdIsReported(j: Json, parseUrl: string -> Option<Url>)
    requires j.JObject? && "id" !in j.fields
    ensures DecodeBusiness(j, parseUrl) == Failure(KeyNotFound("id"))
  {
  }

  /** Absent or null optional flags and numbers decode to none, never to a default value. */
  lemma OptionalScalarsAbsentAreNone(c: map<string, Json>, b: YelpBusiness)
    requires OptionalDecodedFrom(c, b)
    ensures Present(c, BusinessKeyName(IsClosed)) == None ==> b.isClosed == None
    ensures Present(c, BusinessKeyName(Rating)) == None ==> b.rating == None
    ensures Present(c, BusinessKeyName(ReviewCount)) == None ==> b.reviewCount == None
    ensures Present(c, BusinessKeyName(Distance)) == None ==> b.distance == None
    ensures Present(c, BusinessKeyName(Categories)) == None ==> b.categories == None
  {
  }

  /** Absent or null optional strings decode to none, never to an empty string. */
  lemma OptionalStringsAbsentAreNone(c: map<string, Json>, b: YelpBusiness)
    requires OptionalDecodedFrom(c, b)
    ensures Present(c, BusinessKeyName(UrlKey)) == None ==> b.url == None
    ensures Present(c, BusinessKeyName(Price)) == None ==> b.price == None
    ensures Present(c, BusinessKeyName(Phone)) == None ==> b.phone == None
    ensures Present(c, BusinessKeyName(DisplayPhone)) == None ==> b.displayPhone == None
  {
  }

  /** The decoded id and name are exactly the JSON strings. */
  lemma RequiredFieldsAreCopied(c: map<string, Json>, b: YelpBusiness)
    requires RequiredDecodedFrom(c, b)
    ensures "id" in c && c["id"] == JString(b.id)
    ensures "name" in c && c["name"] == JString(b.name)
    ensures "coordinates" in c && "location" in c
  {
  }

  /** Present optional values are exactly the JSON values. */
  lemma OptionalFieldsAreCopied(c: map<string, Json>, b: YelpBusiness)
    requires OptionalDecodedFrom(c, b)
    ensures b.rating.Some? ==> BusinessKeyName(Rating) in c && c[BusinessKeyName(Rating)] == JNumber(b.rating.value)
    ensures b.isClosed.Some? ==> BusinessKeyName(IsClosed) in c && c[BusinessKeyName(IsClosed)] == JBool(b.isClosed.value)
    ensures b.displayPhone.Some? ==> BusinessKeyName(DisplayPhone) in c && c[BusinessKeyName(DisplayPhone)] == JString(b.displayPhone.value)
    ensures b.distance.Some? ==> BusinessKeyName(Distance) in c && c[BusinessKeyName(Distance)] == JNumber(b.distance.value)
    ensures BusinessKeyName(Rating) in c && c[BusinessKeyName(Rating)].JNumber? ==> b.rating == Some(c[BusinessKeyName(Rating)].n)
    ensures BusinessKeyName(IsClosed) in c && c[BusinessKeyName(IsClosed)].JBool? ==> b.isClosed == Some(c[BusinessKeyName(IsClosed)].b)
    ensures BusinessKeyName(DisplayPhone) in c && c[BusinessKeyName(DisplayPhone)].JString? ==> b.displayPhone == Some(c[BusinessKeyName(DisplayPhone)].s)
    ensures BusinessKeyName(Phone) in c && c[BusinessKeyName(Phone)].JString? ==> b.phone == Some(c[BusinessKeyName(Phone)].s)
    ensures BusinessKeyName(Distance) in c && c[BusinessKeyName(Distance)].JNumber? ==> b.distance == Some(c[BusinessKeyName(Distance)].n)
  {
  }

  /** The `image_url` rule: absent, null or empty gives no URL, a non-empty string is parsed. */
  lemma ImageUrlRule(c: map<string, Json>, parseUrl: string -> Option<Url>, b: YelpBusiness)
    requires ImageDecodedFrom(c, parseUrl, b)
    ensures Present(c, BusinessKeyName(ImageUrl)) == None ==> b.imageUrl == None
    ensures BusinessKeyName(ImageUrl) in c && c[BusinessKeyName(ImageUrl)] == JString("") ==> b.imageUrl == None
    ensures forall s :: BusinessKeyName(ImageUrl) in c && c[BusinessKeyName(ImageUrl)] == JString(s) && s != "" ==> b.imageUrl == parseUrl(s)
  {
  }

  /** A present `image_url` that is not a string is an error, not "no image". */
  lemma ImageUrlWrongTypeFails(j: Json, parseUrl: string -> Option<Url>)
    requires j.JObject? && "image_url" in j.fields
    requires !j.fields["image_url"].JString? && j.fields["image_url"] != JNull
    ensures DecodeBusiness(j, parseUrl).Failure?
  {
  }

  /** The properties read with `decodeIfPresent`, all of which may be missing. */
  const OptionalKeys: set<BusinessKey> := {IsClosed, UrlKey, Rating, ReviewCount, Categories, Price, Phone, DisplayPhone, Distance}

  /**
   * A business with only its required keys decodes: missing or null
   * optional keys are no error, and neither is an empty `image_url`. Every
   * optional property is then none, and so is the image.
   */
  lemma MinimalBusinessDecodes(c: map<string, Json>, parseUrl: string -> Option<Url>)
    requires "id" in c && c["id"].JString? && "name" in c && c["name"].JString?
    requires WellFormedCoordinates(c, "coordinates")
    requires "location" in c && c["location"].JObject?
    requires forall l :: Present(c["location"].fields, LocationKeyName(l)) == None
    requires forall k :: k in OptionalKeys ==> Present(c, BusinessKeyName(k)) == None
    requires Present(c, "image_url") == None || c["image_url"] == JString("")
    ensures DecodeBusiness(JObject(c), parseUrl).Success?
    ensures var b := DecodeBusiness(JObject(c), parseUrl).value;
      && b.isClosed == None && b.url == None && b.rating == None && b.reviewCount == None
      && b.categories == None && b.price == None && b.phone == None && b.displayPhone == None
      && b.distance == None && b.imageUrl == None
  {
    MinimalBusinessIsWellFormed(c);
    var b := DecodeBusiness(JObject(c), parseUrl).value;
    OptionalScalarsAbsentAreNone(c, b);
    OptionalStringsAbsentAreNone(c, b);
    ImageUrlRule(c, parseUrl, b);
  }

  lemma MinimalBusinessIsWellFormed(c: map<string, Json>)
    requires "id" in c && c["id"].JString? && "name" in c && c["name"].JString?
    requires WellFormedCoordinates(c, "coordinates")
    requires "location" in c && c["location"].JObject?
    requires forall l :: Present(c["location"].fields, LocationKeyName(l)) == None
    requires forall k :: k in OptionalKeys ==> Present(c, BusinessKeyName(k)) == None
    requires Present(c, "image_url") == None || c["image_url"] == JString("")
    ensures WellFormedBusiness(c)
  {
    OptionalKeysAbsent(c);
    MissingAddressIsWellFormed(c, "location");
    assert BusinessKeyName(Id) == "id" && BusinessKeyName(Name) == "name";
    assert BusinessKeyName(Coordinates) == "coordinates" && BusinessKeyName(LocationKey) == "location";
    assert BusinessKeyName(ImageUrl) == "image_url";
    assert StringOrAbsent(c, BusinessKeyName(ImageUrl));
  }

  lemma OptionalKeysAbsent(c: map<string, Json>)
    requires forall k :: k in OptionalKeys ==> Present(c, BusinessKeyName(k)) == None
    ensures Present(c, BusinessKeyName(IsClosed)) == None && Present(c, BusinessKeyName(UrlKey)) == None
    ensures Present(c, BusinessKeyName(Rating)) == None && Present(c, BusinessKeyName(ReviewCount)) == None
    ensures Present(c, BusinessKeyName(Categories)) == None && Present(c, BusinessKeyName(Price)) == None
    ensures Present(c, BusinessKeyName(Phone)) == None && Present(c, BusinessKeyName(DisplayPhone)) == None
    ensures Present(c, BusinessKeyName(Distance)) == None
  {
    assert IsClosed in OptionalKeys && UrlKey in OptionalKeys && Rating in OptionalKeys;
    assert ReviewCount in OptionalKeys && Categories in OptionalKeys && Price in OptionalKeys;
    assert Phone in OptionalKeys && DisplayPhone in OptionalKeys && Distance in OptionalKeys;
  }

  /** A location object with no address fields at all is well formed. */
  lemma MissingAddressIsWellFormed(c: map<string, Json>, key: string)
    requires key in c && c[key].JObject?
    requires forall l :: Present(c[key].fields, LocationKeyName(l)) == None
    ensures WellFormedLocation(c, key)
  {
    var f := c[key].fields;
    assert Present(f, LocationKeyName(Address1)) == None && Present(f, LocationKeyName(Address2)) == None;
    assert Present(f, LocationKeyName(Address3)) == None && Present(f, LocationKeyName(City)) == None;
    assert Present(f, LocationKeyName(ZipCode)) == None && Present(f, LocationKeyName(Country)) == None;
    assert Present(f, LocationKeyName(State)) == None && Present(f, LocationKeyName(DisplayAddress)) == None;
  }
}
