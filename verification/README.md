# FoodTinder candidate pipeline, modelled in Dafny

FoodTinder is an iOS app that shows nearby restaurants one card at a time.
A right swipe likes a card and a left swipe passes it. Its core is
`RestaurantViewModel`, a single-threaded state machine over six things:

- the pool of fetched restaurants (`allRestaurants`);
- the filtered and ranked candidates (`restaurants`);
- the swipe cursor (`currentIndex`);
- the pagination offset (`currentOffset`);
- the set of ids already swiped on (`viewedRestaurantIDs`);
- the persisted liked list (`likedRestaurants`).

The project models that state machine as a class whose methods change those
fields. Each method is specified with pure functions, and the properties the
app relies on are proved about those functions. Four supporting pieces are
modelled too:

- the `Restaurant` record, whose equality and hash use only the Yelp id;
- the Yelp business decoder's field rules;
- the category and sort-order tables sent to Yelp;
- the API-key validator.

Files:

- `wrappers.dfy`: `Option` and `Result`.
- `restaurants.dfy`: the `Restaurant` record, its `coordinate`, and its id-only `==` and `hash`.
- `json_value.dfy`: a JSON value. A keyed decoding container is a map from key to value.
- `yelp_models.dfy`: the `YelpBusiness` decoder and its CodingKeys. Required and optional fields and the `image_url` rule are modelled; URL parsing is a parameter.
- `api_key_manager.dfy`: `yelpAPIKey`. It trims whitespace and newlines, then rejects an empty key and the `YOUR_` placeholder.
- `search_options.dfy`: `FoodCategory.yelpCategory` and `SortOption.yelpSortBy`.
- `candidate_pipeline.dfy`:
  - the seen and minimum-rating filters;
  - `calculateScore` and the best-match ordering;
  - liking once by id and removing the first entry with an id;
  - `mapYelpBusinesses`.
- `restaurant_view_model.dfy`: the `RestaurantViewModel` class. It holds the state fields, `applyFiltersAndSort`, `handleSwipe`, `removeLikedRestaurant`, the reset part of `requestLocationAndSearch`, the merge, offset and error branches of `searchNearbyRestaurants`, `loadMoreRestaurants`, the location callbacks, and the settings changes that `SettingsView` wires to these operations.
- `scenarios.dfy`: worked examples. Three restaurants are ranked and filtered, a like is repeated across searches, and a load-more moves the cursor.

The Yelp API is an input. A search receives `gateway`, a function from the
request it sends to the outcome it gets back, either a page of businesses
or an error. The device's geodesic distance is the input
`distanceBetween`. `UserDefaults` is the `storedLiked` slot, and a ghost
counter `saveCount` counts the writes to it.

## Model

| member | source | states |
|---|---|---|
| Restaurants.Restaurant.Location | FoodTinder/Models/Restaurant.swift:17-19 | `coordinate` is exactly (latitude, longitude) |
| Restaurants.HashInput | FoodTinder/Models/Restaurant.swift:35-37 | the hasher is fed exactly one component, and that component is the id |
| Restaurants.SameVenueIgnoresOtherFields | FoodTinder/Models/Restaurant.swift:31-33 | records with the same id are `==` even when name, rating and distance differ |
| Restaurants.SameVenueIffSameId | FoodTinder/Models/Restaurant.swift:31-33 | `==` holds if and only if the ids are equal |
| Restaurants.SameVenueIsEquivalence | FoodTinder/Models/Restaurant.swift:31-33 | `==` is reflexive, symmetric and transitive |
| Restaurants.SameVenue | FoodTinder/Models/Restaurant.swift:31-37 | the custom `==` holds if and only if the two records feed the hasher the same input, so `==` records hash alike and the Hashable contract holds |
| YelpModels.SnakeCaseKeys | FoodTinder/Models/YelpModels.swift:32-96 | imageUrl, isClosed, reviewCount, displayPhone, zipCode and displayAddress are read from the snake-case keys image_url, is_closed, review_count, display_phone, zip_code and display_address |
| YelpModels.KeyNamesAreDistinct | FoodTinder/Models/YelpModels.swift:32-47 | no two business or location properties share a JSON key |
| YelpModels.BusinessKeyName | FoodTinder/Models/YelpModels.swift:32-47 | every business coding key is a snake-case JSON key (lower-case letters, digits and underscores, starting with a letter) |
| YelpModels.LocationKeyName | FoodTinder/Models/YelpModels.swift:92-96 | every location coding key is a snake-case JSON key |
| YelpModels.BusinessKeyNameRoundTrip | FoodTinder/Models/YelpModels.swift:32-47 | each business property is read from exactly the key that names it (`rating` from rating, `distance` from distance, and so on), checked against the reverse table `BusinessKeyOfName` |
| YelpModels.LocationKeyNameRoundTrip | FoodTinder/Models/YelpModels.swift:92-96 | each location property is read from exactly the key that names it (`city` from city, `state` from state, and so on), checked against the reverse table `LocationKeyOfName` |
| YelpModels.Present | FoodTinder/Models/YelpModels.swift:55-65 | `decodeIfPresent` sees a value exactly when the key is there and not null, and then sees the stored value |
| YelpModels.RequiredValue | FoodTinder/Models/YelpModels.swift:53-54 | `decode` reports a missing key as keyNotFound and a null as valueNotFound, and otherwise yields the stored value |
| YelpModels.StringValue | FoodTinder/Models/YelpModels.swift:53-54 | a String decodes if and only if the value is a JSON string, and yields that string |
| YelpModels.BoolValue | FoodTinder/Models/YelpModels.swift:55 | a Bool decodes if and only if the value is a JSON boolean, and yields it |
| YelpModels.DoubleValue | FoodTinder/Models/YelpModels.swift:57 | a Double decodes if and only if the value is a JSON number, and yields it |
| YelpModels.IntValue | FoodTinder/Models/YelpModels.swift:58 | an Int decodes if and only if the number is integral and fits in 64 bits, and yields it |
| YelpModels.StringItems | FoodTinder/Models/YelpModels.swift:90 | a `[String]` decodes if and only if every JSON element is a string, and then has one string per element, each equal to that element |
| YelpModels.CategoryValue | FoodTinder/Models/YelpModels.swift:11-14 | a category decodes if and only if it is a JSON object whose alias and title are each a string, null or absent (a non-object is a type mismatch); alias and title are none exactly when their key is absent or null, and otherwise the JSON strings under them |
| YelpModels.OptionalString | FoodTinder/Models/YelpModels.swift:56 | decoding succeeds if and only if the key is absent, null or a string; absent or null gives none, and a present string gives exactly that string |
| YelpModels.OptionalBool | FoodTinder/Models/YelpModels.swift:55 | decoding succeeds if and only if the key is absent, null or a boolean; absent or null gives none, and a present boolean gives exactly that boolean |
| YelpModels.OptionalDouble | FoodTinder/Models/YelpModels.swift:57 | decoding succeeds if and only if the key is absent, null or a number; absent or null gives none, and a present number gives exactly that number |
| YelpModels.OptionalInt | FoodTinder/Models/YelpModels.swift:58 | decoding succeeds if and only if the key is absent, null or an integral number that fits in 64 bits; absent or null gives none, and such a number gives exactly that integer |
| YelpModels.OptionalStrings | FoodTinder/Models/YelpModels.swift:90 | decoding succeeds if and only if the key is absent, null or an array of strings; absent or null gives none, not an empty list, and a present array gives its strings one for one |
| YelpModels.CategoryItems | FoodTinder/Models/YelpModels.swift:11-14 | a category list decodes if and only if every element is a well-formed category, and then has one category per element, each decoded from that element |
| YelpModels.OptionalCategories | FoodTinder/Models/YelpModels.swift:59 | `categories` decodes if and only if it is absent, null or an array of well-formed categories; absent or null gives none, not an empty list, and a present array gives one category per element |
| YelpModels.RequiredCoordinates | FoodTinder/Models/YelpModels.swift:60 | `coordinates` decodes if and only if it is an object with numeric `latitude` and `longitude`, and then holds exactly those numbers; a missing key is keyNotFound |
| YelpModels.RequiredLocation | FoodTinder/Models/YelpModels.swift:62 | `location` decodes if and only if it is an object whose address fields are each of their type, null or absent; each decoded address field is none exactly when its key is absent or null, and otherwise the JSON string under it; `display_address` is decoded as an optional string list; a missing key is keyNotFound |
| YelpModels.RequiredString | FoodTinder/Models/YelpModels.swift:53-54 | a required string decodes if and only if the key holds a JSON string, and then yields that string; a missing key is keyNotFound and a null is valueNotFound |
| YelpModels.ImageUrlFrom | FoodTinder/Models/YelpModels.swift:67-73 | an absent or empty image string gives no URL, and a non-empty one gives what URL parsing returns |
| YelpModels.DecodeBusiness | FoodTinder/Models/YelpModels.swift:50-74 | a business decodes if and only if it is an object whose required keys hold values of their types and whose optional keys each hold a value of their type, null or nothing; a non-object fails, and a decoded business has its required, optional and image fields each taken from its own key by the rules above |
| YelpModels.BusinessItems | FoodTinder/Models/YelpModels.swift:7 | a business list decodes if and only if every element is a well-formed business, and then has one business per element, each decoded from that element |
| YelpModels.DecodeSearchResponse | FoodTinder/Models/YelpModels.swift:6-9 | a response decodes if and only if it is an object with a `businesses` array of well-formed businesses and an integral `total`; it then has one business per element, each decoded from that element, and that total |
| YelpModels.RequiredFieldsMissingFails | FoodTinder/Models/YelpModels.swift:53-62 | decoding fails when any of id, name, coordinates or location is missing |
| YelpModels.MissingIdIsReported | FoodTinder/Models/YelpModels.swift:53 | a missing id is reported as keyNotFound("id") |
| YelpModels.OptionalScalarsAbsentAreNone | FoodTinder/Models/YelpModels.swift:55-65 | absent is_closed, rating, review_count, distance and categories decode to none, not to a default |
| YelpModels.OptionalStringsAbsentAreNone | FoodTinder/Models/YelpModels.swift:56-64 | absent url, price, phone and display_phone decode to none |
| YelpModels.RequiredFieldsAreCopied | FoodTinder/Models/YelpModels.swift:53-62 | a decoded business's id and name are the JSON strings under `id` and `name`, and `coordinates` and `location` are present |
| YelpModels.OptionalFieldsAreCopied | FoodTinder/Models/YelpModels.swift:55-65 | present rating, is_closed, display_phone and distance are the JSON values under their keys, and a rating, is_closed, phone, display_phone or distance of the right type in the JSON is the decoded value |
| YelpModels.ImageUrlRule | FoodTinder/Models/YelpModels.swift:67-73 | an absent or empty image_url gives no image, and a non-empty one gives the parsed URL |
| YelpModels.ImageUrlWrongTypeFails | FoodTinder/Models/YelpModels.swift:68 | an image_url that is neither a string nor null makes decoding fail |
| YelpModels.MinimalBusinessDecodes | FoodTinder/Models/YelpModels.swift:50-74 | a business with only id, name, coordinates and a location (every optional key absent or null, image_url absent, null or empty) decodes, with every optional property none and no image |
| APIKeyManager.TrimStart | FoodTinder/Utils/APIKeyManager.swift:10 | the result is a suffix of the input, what was dropped is all whitespace, and it does not start with whitespace |
| APIKeyManager.TrimEnd | FoodTinder/Utils/APIKeyManager.swift:10 | the result is a prefix of the input, what was dropped is all whitespace, and it does not end with whitespace |
| APIKeyManager.Trim | FoodTinder/Utils/APIKeyManager.swift:10 | the result is a middle slice with whitespace-only ends cut off, and it has no whitespace at either end |
| APIKeyManager.TrimIdempotent | FoodTinder/Utils/APIKeyManager.swift:10 | trimming twice is trimming once |
| APIKeyManager.TrimmedIsFixed | FoodTinder/Utils/APIKeyManager.swift:10 | a string with no whitespace at its ends is its own trim |
| APIKeyManager.TrimBlank | FoodTinder/Utils/APIKeyManager.swift:10-14 | an all-whitespace string trims to empty |
| APIKeyManager.TrimStartDropsPadding | FoodTinder/Utils/APIKeyManager.swift:10 | leading whitespace before a non-blank start is exactly what is removed |
| APIKeyManager.TrimEndDropsPadding | FoodTinder/Utils/APIKeyManager.swift:10 | trailing whitespace after a non-blank end is exactly what is removed |
| APIKeyManager.TrimDropsPadding | FoodTinder/Utils/APIKeyManager.swift:10 | whitespace padding around a trimmed core trims to that core |
| APIKeyManager.YelpAPIKey | FoodTinder/Utils/APIKeyManager.swift:4-21 | success if and only if the entry is a string whose trim is non-empty and does not start with `YOUR_`; the key is then that trim; a missing dictionary, entry or string is MissingKey |
| APIKeyManager.BlankValueIsEmptyKey | FoodTinder/Utils/APIKeyManager.swift:10-14 | a key made only of whitespace and newlines is refused as empty |
| APIKeyManager.PaddedPlaceholderIsRefused | FoodTinder/Utils/APIKeyManager.swift:10-18 | a whitespace-padded `YOUR_...` value is refused as a placeholder |
| APIKeyManager.PaddedPlaceholderTrims | FoodTinder/Utils/APIKeyManager.swift:10-18 | a padded `YOUR_...` value trims to `YOUR_...`, which starts with the placeholder |
| SearchOptions.CategoryToken | FoodTinder/ViewModels/RestaurantViewModel.swift:27-48 | every category has a non-empty Yelp alias |
| SearchOptions.TokenIdentifiesSearch | FoodTinder/ViewModels/RestaurantViewModel.swift:27-48 | each category's alias can be read back as the search it stands for |
| SearchOptions.TokenFollowsSearch | FoodTinder/ViewModels/RestaurantViewModel.swift:29-30 | "all" and "restaurant" send the same alias |
| SearchOptions.CategoryTokenCollisions | FoodTinder/ViewModels/RestaurantViewModel.swift:27-48 | two categories send the same alias if and only if they are the same search |
| SearchOptions.SameSearchIsAllOrEqual | FoodTinder/ViewModels/RestaurantViewModel.swift:29-30 | two categories are the same search if and only if they are equal or both are "all"/"restaurant" |
| SearchOptions.YelpSortBy | FoodTinder/ViewModels/RestaurantViewModel.swift:58-64 | Best Match sends exactly `best_match` and Distance sends exactly `distance` |
| SearchOptions.YelpSortByIsOneToOne | FoodTinder/ViewModels/RestaurantViewModel.swift:58-64 | different sort options send different sort_by values |
| CandidatePipeline.SubsequenceTransitive | FoodTinder/ViewModels/RestaurantViewModel.swift:216-236 | filtering a filtered list still keeps the original's order |
| CandidatePipeline.Unseen | FoodTinder/ViewModels/RestaurantViewModel.swift:219 | exactly the pool entries whose id is unseen, in pool order, each kept as many times as it occurs in the pool, and seen entries not at all |
| CandidatePipeline.RatedAtLeast | FoodTinder/ViewModels/RestaurantViewModel.swift:229-236 | exactly the entries with a present rating at least the minimum, in order and with every copy kept; unrated entries never pass |
| CandidatePipeline.Filtered | FoodTinder/ViewModels/RestaurantViewModel.swift:216-236 | every result is an unseen pool entry; a positive minimum admits only ratings at least that high; a non-positive minimum filters nothing else; each qualifying entry is kept exactly as many times as it occurs in the pool (a restaurant returned on two pages is shown twice), and pool order is kept |
| CandidatePipeline.UnseenKeepsUnseen | FoodTinder/ViewModels/RestaurantViewModel.swift:219 | a list with no seen id is left as is |
| CandidatePipeline.RatedAtLeastKeepsRated | FoodTinder/ViewModels/RestaurantViewModel.swift:229-236 | a list that meets the minimum is left as is |
| CandidatePipeline.FilteredIsIdempotent | FoodTinder/ViewModels/RestaurantViewModel.swift:216-236 | filtering the candidates again changes nothing |
| CandidatePipeline.Score | FoodTinder/ViewModels/RestaurantViewModel.swift:244-261 | with no positive rating and no image the score is only the distance penalty, half a point per km; with both it is twice the rating plus 3 minus that penalty |
| CandidatePipeline.ScoreWeights | FoodTinder/ViewModels/RestaurantViewModel.swift:244-261 | each term on its own: a positive rating adds twice the rating, an absent or non-positive one adds nothing, an image adds 3, and without both the score is minus half a point per km |
| CandidatePipeline.ScoreBounds | FoodTinder/ViewModels/RestaurantViewModel.swift:244-261 | with a rating in [0, 5] and a non-negative distance, the score is at most 13 and at least minus half a point per km |
| CandidatePipeline.BelowHead | FoodTinder/ViewModels/RestaurantViewModel.swift:242-264 | inserting an element no higher than the head keeps everything below the head |
| CandidatePipeline.ConsKeepsOrder | FoodTinder/ViewModels/RestaurantViewModel.swift:242-264 | a head at least as high as a sorted tail gives a sorted list |
| CandidatePipeline.InsertBy | FoodTinder/ViewModels/RestaurantViewModel.swift:242-264 | inserting into a score-sorted list keeps it sorted and adds exactly that element |
| CandidatePipeline.SortBy | FoodTinder/ViewModels/RestaurantViewModel.swift:242-264 | the result is in non-increasing key order and is a permutation of the input |
| CandidatePipeline.SortByScore | FoodTinder/ViewModels/RestaurantViewModel.swift:242-264 | the best-match `sort` gives non-increasing score and a permutation |
| CandidatePipeline.SortedWithoutTiesSameHead | FoodTinder/ViewModels/RestaurantViewModel.swift:242-264 | two sorted permutations without tied keys start alike |
| CandidatePipeline.SameHeadSameTail | FoodTinder/ViewModels/RestaurantViewModel.swift:242-264 | permutations with the same head have permuted tails |
| CandidatePipeline.TailKeepsOrder | FoodTinder/ViewModels/RestaurantViewModel.swift:242-264 | the tail of a sorted list without ties is sorted without ties |
| CandidatePipeline.TailKeepsOrderOnly | FoodTinder/ViewModels/RestaurantViewModel.swift:242-264 | the tail of a sorted list is sorted |
| CandidatePipeline.SortedWithoutTiesIsUnique | FoodTinder/ViewModels/RestaurantViewModel.swift:242-264 | without tied keys, any two sorted permutations of the same elements are equal |
| CandidatePipeline.LikeOnce | FoodTinder/ViewModels/RestaurantViewModel.swift:281-286 | the liked list grows by one, with the card at the end, if and only if no entry had that id; earlier entries are untouched |
| CandidatePipeline.LikeOnceKeepsIdsUnique | FoodTinder/ViewModels/RestaurantViewModel.swift:281-286 | after a like the id is liked, and unique liked ids stay unique |
| CandidatePipeline.LikeOnceIsIdempotent | FoodTinder/ViewModels/RestaurantViewModel.swift:282 | liking the same restaurant twice is liking it once |
| CandidatePipeline.FirstIndexWithId | FoodTinder/ViewModels/RestaurantViewModel.swift:292 | none if and only if no entry has the id; otherwise the index of the first entry that has it |
| CandidatePipeline.RemoveFirstWithId | FoodTinder/ViewModels/RestaurantViewModel.swift:291-296 | an absent id changes nothing; otherwise the list is one shorter, the entries before the first match are kept and the rest shift down by one |
| CandidatePipeline.RemoveFirstWithIdUnlikes | FoodTinder/ViewModels/RestaurantViewModel.swift:291-296 | with unique ids, the id is gone afterwards, ids stay unique, and the list shrinks by one exactly when the id was liked |
| CandidatePipeline.UnlikeUndoesLike | FoodTinder/ViewModels/RestaurantViewModel.swift:281-296 | liking a new restaurant and then removing it restores the liked list |
| CandidatePipeline.FirstCategoryTitle | FoodTinder/ViewModels/RestaurantViewModel.swift:202 | a non-empty list gives its first category's title, and an absent or empty list gives none |
| CandidatePipeline.ToRestaurant | FoodTinder/ViewModels/RestaurantViewModel.swift:189-211 | one business becomes a restaurant with the same id, name, rating, image, coordinates and phones, the distance from the search centre, open if and only if is_closed is present and false, and the first category's title |
| CandidatePipeline.MapYelpBusinesses | FoodTinder/ViewModels/RestaurantViewModel.swift:188-213 | same length and order; id, name, rating, image, coordinates and phones are copied; the distance is measured from the search centre; open if and only if is_closed is present and false; the category is the first category's title or none |
| CandidatePipeline.MapKeepsEmptiness | FoodTinder/ViewModels/RestaurantViewModel.swift:155-159 | a page maps to an empty list if and only if it has no businesses |
| CandidatePipeline.RankingMembers | FoodTinder/ViewModels/RestaurantViewModel.swift:216-267 | a ranking holds exactly the filtered restaurants: unseen pool entries that meet a positive minimum |
| CandidatePipeline.BestMatchRankingIsDetermined | FoodTinder/ViewModels/RestaurantViewModel.swift:242-267 | without tied scores, every best-match ranking equals the sorted filtered list |
| ViewModel.TruncateToInt | FoodTinder/ViewModels/RestaurantViewModel.swift:147 | `Int(searchRadius)` truncates toward zero |
| ViewModel.RestaurantViewModel.constructor | FoodTinder/ViewModels/RestaurantViewModel.swift:90-110 | the app starts with the persisted liked list (or none), an empty pool and seen set, offset and cursor 0, and the default settings |
| ViewModel.RestaurantViewModel.SaveLikedRestaurants | FoodTinder/ViewModels/RestaurantViewModel.swift:99-103 | the persisted list becomes the liked list |
| ViewModel.RestaurantViewModel.ApplyFiltersAndSort | FoodTinder/ViewModels/RestaurantViewModel.swift:215-271 | the candidates are a ranking of the pool: unseen, meeting a positive minimum, in pool order under distance and by non-increasing score under best match; the cursor goes to 0 only when resetIndex |
| ViewModel.RestaurantViewModel.HandleSwipe | FoodTinder/ViewModels/RestaurantViewModel.swift:273-289 | past the end nothing changes; otherwise the card's id is marked seen, the cursor moves by one, a right swipe likes once by id and saves only a new like, and a left swipe keeps the liked list; unique liked ids stay unique |
| ViewModel.RestaurantViewModel.RemoveLikedRestaurant | FoodTinder/ViewModels/RestaurantViewModel.swift:291-296 | drops exactly the first liked entry with the id and saves, or does nothing and saves nothing when the id is absent |
| ViewModel.RestaurantViewModel.RequestLocationAndSearch | FoodTinder/ViewModels/RestaurantViewModel.swift:112-130 | the location and error are cleared, the seen set is cleared only when resetViewed, and a refused permission sets the error |
| ViewModel.RestaurantViewModel.RequestFor | FoodTinder/ViewModels/RestaurantViewModel.swift:142-153 | 50 results from offset 0, or one page past the current offset on load-more, with the truncated radius and the category, sort and open-now settings |
| ViewModel.RestaurantViewModel.MergePage | FoodTinder/ViewModels/RestaurantViewModel.swift:157-168 | a fresh search replaces the pool, sets the offset to 0 and rewinds the cursor; a non-empty load-more appends, advances the offset by 50 and keeps the cursor; an empty load-more changes nothing |
| ViewModel.RestaurantViewModel.SearchNearbyRestaurants | FoodTinder/ViewModels/RestaurantViewModel.swift:141-186 | an error is recorded and leaves pool, candidates, cursor and offset untouched; a page is mapped and merged as above |
| ViewModel.RestaurantViewModel.LoadMoreRestaurants | FoodTinder/ViewModels/RestaurantViewModel.swift:132-139 | without a location nothing happens; otherwise the next page, at offset + 50, is fetched; a failure is reported, and a page, even an empty one, is merged as a load-more and leaves the error as it was |
| ViewModel.RestaurantViewModel.DidUpdateLocations | FoodTinder/ViewModels/RestaurantViewModel.swift:300-316 | with no fix or a location already in use nothing changes, the error included; otherwise the newest fix becomes the location and starts a fresh search, whose failure is reported and leaves pool, candidates, cursor and offset untouched, and whose page is merged as a fresh search with the error left as it was |
| ViewModel.RestaurantViewModel.DidFailWithError | FoodTinder/ViewModels/RestaurantViewModel.swift:318-321 | a location failure is reported |
| ViewModel.RestaurantViewModel.SelectCategory | FoodTinder/Views/SettingsView.swift:17-19 | a new category starts a search that clears the seen set, forgets the location, and clears the error or reports a refused permission; the same category changes nothing |
| ViewModel.RestaurantViewModel.SelectSortOption | FoodTinder/Views/SettingsView.swift:34-36 | a new sort option re-ranks the pool and rewinds the cursor |
| ViewModel.RestaurantViewModel.SetShowOnlyOpen | FoodTinder/Views/SettingsView.swift:47-49 | a new open-only setting starts a search that keeps the seen set, forgets the location, and clears the error or reports a refused permission; the same setting changes nothing |
| ViewModel.RestaurantViewModel.SetMinimumRating | FoodTinder/Views/SettingsView.swift:70-72 | a new minimum re-filters the pool and rewinds the cursor |
| ViewModel.RestaurantViewModel.SetSearchRadius | FoodTinder/Views/SettingsView.swift:103-105 | a new radius starts a search that keeps the seen set, forgets the location, and clears the error or reports a refused permission; the same radius changes nothing |
| Scenarios.ThreeScores | FoodTinder/ViewModels/RestaurantViewModel.swift:244-261 | the scores of the three example restaurants are 11.75, 2.95 and 9 |
| Scenarios.NothingFiltered | FoodTinder/ViewModels/RestaurantViewModel.swift:216-236 | with nothing seen and no minimum, all three are candidates in pool order |
| Scenarios.ThreeScoresDiffer | FoodTinder/ViewModels/RestaurantViewModel.swift:244-261 | no two of the three examples share a score |
| Scenarios.ACBDescends | FoodTinder/ViewModels/RestaurantViewModel.swift:242-264 | A, C, B is in non-increasing score order |
| Scenarios.OnlyACB | FoodTinder/ViewModels/RestaurantViewModel.swift:242-264 | the only score-sorted arrangement of the three is A, C, B |
| Scenarios.BestMatchRanksACB | FoodTinder/ViewModels/RestaurantViewModel.swift:215-271 | best match ranks the three as A, C, B and keeps the unrated B |
| Scenarios.FourStarsFiltered | FoodTinder/ViewModels/RestaurantViewModel.swift:229-236 | a four-star minimum keeps A and C and drops the unrated B |
| Scenarios.FourStarsKeepAC | FoodTinder/ViewModels/RestaurantViewModel.swift:229-236 | the rating filter at four stars keeps A and C in order |
| Scenarios.MinimumFourStarsRanksAC | FoodTinder/ViewModels/RestaurantViewModel.swift:215-271 | under a four-star minimum, best match ranks A, C |
| Scenarios.PageIds | FoodTinder/ViewModels/RestaurantViewModel.swift:188-213 | the scripted pages map to restaurants A, then B and C |
| Scenarios.StartAtFirstPage | FoodTinder/ViewModels/RestaurantViewModel.swift:300-316 | a first fix with nothing seen shows the first page from its first card |
| Scenarios.LikeFirstCard | FoodTinder/ViewModels/RestaurantViewModel.swift:273-289 | liking the first card puts it in the liked list and saves once |
| Scenarios.LikeFirstCardAgain | FoodTinder/ViewModels/RestaurantViewModel.swift:281-286 | liking an already-liked id changes nothing and does not save |
| Scenarios.LikeAgainAfterNewSearch | FoodTinder/ViewModels/RestaurantViewModel.swift:112-118 | after a new search that clears the seen set, liking the same restaurant again leaves one liked entry |
| Scenarios.SeenFirstPageDropsOut | FoodTinder/ViewModels/RestaurantViewModel.swift:219 | once A is seen, the pool of both pages yields only B and C |
| Scenarios.LoadSecondPage | FoodTinder/ViewModels/RestaurantViewModel.swift:157-163 | a load-more after swiping A leaves B and C as candidates and keeps the cursor |
| Scenarios.LoadMoreSkipsACard | FoodTinder/ViewModels/RestaurantViewModel.swift:157-163 | after swiping A and loading more, the card under the cursor is C: B is skipped |

## Left out

- Network and HTTP. `YelpAPIService` is not part of this model. A search is the function parameter `gateway` from request to outcome, with an abstract error. The service's re-wrapping of response and decoding errors as request failures is not modelled.
- Location plumbing. `CLLocationManager` calls are left out: asking for permission, starting and stopping updates, and `locationManagerDidChangeAuthorization`. `RequestLocationAndSearch` takes the authorization status as a parameter, and the platform answers through `DidUpdateLocations` or `DidFailWithError`.
- Geodesic distance. `CLLocation.distance(from:)` is the parameter `distanceBetween`.
- Concurrency. `Task`, `@MainActor` and the `isLoading` flag are not modelled. Each fetch outcome is applied as one sequential step.
- Persistence. JSON encoding to `UserDefaults` is the `storedLiked` slot plus a ghost write counter. A failing encode, which skips the write, is not modelled. A stored list that fails to decode is the same as no stored list.
- Error text. `errorMessage` is an abstract kind; the message strings are not modelled.
- Views, gestures, the 150-point swipe threshold, image loading, maps and dialing are not modelled.
- Numbers. Swift `Double` is `real`, so there is no NaN, infinity or rounding. The `Int(searchRadius)` trap on a radius too large for `Int` is not modelled. `currentIndex` is unbounded.
- ViewModel.RestaurantViewModel.ApplyFiltersAndSort: the order of best-match ties is deliberately left unspecified. Swift's `sort` is not guaranteed stable, so only non-increasing score and "is a permutation of the filtered list" are promised. Without ties, `BestMatchRankingIsDetermined` fixes the order completely.
- APIKeyManager.YelpAPIKey: `fatalError` is modelled as a failure value rather than stopping the process.
- APIKeyManager.YelpAPIKey: the `YOUR_` placeholder test compares single characters, not Swift's extended grapheme clusters. A key such as `YOUR_` followed by a combining accent and more text does not start with the placeholder in Swift and is accepted there, but the model refuses it as a placeholder.
- APIKeyManager.Trim: the whitespace-and-newline character set is written out as a list of Unicode scalars rather than taken from a character-property table.
- YelpModels.DecodeBusiness: URL parsing is the parameter `parseUrl`. Error positions (coding paths) are reduced to the key, and a non-object at the top level is reported with an empty key.
- The load-more cursor is modelled as written: the cursor is not rewound after a load-more while swiped cards drop out of the candidates. As a result the cursor can skip an unseen card (`Scenarios.LoadMoreSkipsACard`) or land past the end.
- Sort order. The code is followed: best match sorts with a strict `>` under an unstable sort, and distance mode keeps pool order.
