/** The menu page: the cached item list, the search/veg/availability filter
    over it, and the state updates of fetching the list and saving an edit. */
module FoodList {

  import opened Model
  import opened Text
  import Seqs
  import ItemSync

  /** The veg selector: 'all', 'veg' or 'nonveg'. */
  datatype VegFilter = AllTypes | VegOnly | NonVegOnly

  /** The availability selector: 'all' or 'available'. */
  datatype AvailabilityFilter = AllItems | AvailableOnly

  datatype Settings = Settings(query: string, veg: VegFilter, availability: AvailabilityFilter)

  /** The settings the page starts with: an empty search and both selectors on 'all'. */
  const ShowAll: Settings := Settings("", AllTypes, AllItems)

  /** The query occurs, ignoring case, in the name or the description; the
      empty query occurs in every item. */
  function MatchesSearch(food: Food, query: string): (b: bool)
    ensures b <==> (exists i :: OccursAt(Lower(food.name), Lower(query), i))
                   || (exists i :: OccursAt(Lower(food.description), Lower(query), i))
    ensures query == "" ==> b
  {
    IncludesEmpty(Lower(food.name));
    Includes(Lower(food.name), Lower(query)) || Includes(Lower(food.description), Lower(query))
  }

  /** 'all' keeps every item; 'veg' keeps the items whose `isVeg` is true;
      'nonveg' keeps the items whose `isVeg` is not true (false or unset). */
  function MatchesVeg(food: Food, veg: VegFilter): (b: bool)
    ensures veg == AllTypes ==> b
    ensures veg == VegOnly ==> (b <==> food.isVeg == Some(true))
    ensures veg == NonVegOnly ==> (b <==> food.isVeg != Some(true))
  {
    || veg == AllTypes
    || (veg == VegOnly && Truthy(food.isVeg))
    || (veg == NonVegOnly && !Truthy(food.isVeg))
  }

  /** 'all' keeps every item; 'available' keeps the items whose
      `isAvailable` is true. */
  function MatchesAvailability(food: Food, availability: AvailabilityFilter): (b: bool)
    ensures availability == AllItems ==> b
    ensures availability == AvailableOnly ==> (b <==> food.isAvailable == Some(true))
  {
    availability == AllItems || (availability == AvailableOnly && Truthy(food.isAvailable))
  }

  /** An item is shown when all three tests pass: every item passes the
      default settings, and a passing item satisfies each selector. */
  function Matches(food: Food, settings: Settings): (b: bool)
    ensures settings == ShowAll ==> b
    ensures b && settings.veg == VegOnly ==> food.isVeg == Some(true)
    ensures b && settings.veg == NonVegOnly ==> food.isVeg != Some(true)
    ensures b && settings.availability == AvailableOnly ==> food.isAvailable == Some(true)
  {
    && MatchesSearch(food, settings.query)
    && MatchesVeg(food, settings.veg)
    && MatchesAvailability(food, settings.availability)
  }

  /** The filter callback of `filteredFoods`. */
  function Keep(settings: Settings): Food -> bool {
    food => Matches(food, settings)
  }

  /** `filteredFoods`: the cached items that match all three predicates. */
  function FilteredFoods(foods: seq<Food>, settings: Settings): (r: seq<Food>)
    ensures |r| <= |foods|
    ensures forall k :: 0 <= k < |r| ==> r[k] in foods && Matches(r[k], settings)
  {
    Seqs.Filter(foods, Keep(settings))
  }

  /** The result is the list itself with the non-matching items taken out:
      the items at exactly the matching positions, in their order. */
  lemma FilterKeepsOrder(foods: seq<Food>, settings: Settings) returns (idx: seq<nat>)
    ensures Seqs.Embeds(FilteredFoods(foods, settings), foods, idx)
    ensures forall i :: 0 <= i < |foods| ==> (Matches(foods[i], settings) <==> i in idx)
  {
    idx := Seqs.FilterSelects(foods, Keep(settings));
  }

  /** An item is shown exactly when it is cached and matches. */
  lemma FilterMembers(foods: seq<Food>, settings: Settings)
    ensures forall f :: f in FilteredFoods(foods, settings) <==> f in foods && Matches(f, settings)
  {
    Seqs.FilterMembers(foods, Keep(settings));
  }

  /** With an empty search and both selectors on 'all', every item is shown. */
  lemma ShowAllIsIdentity(foods: seq<Food>)
    ensures FilteredFoods(foods, ShowAll) == foods
  {
    Seqs.FilterKeepsAll(foods, Keep(ShowAll));
  }

  /** 'veg' shows only vegetarian items; 'nonveg' only items not marked
      vegetarian (false or unset). */
  lemma VegSelectorHolds(foods: seq<Food>, settings: Settings)
    ensures settings.veg == VegOnly ==>
              forall f :: f in FilteredFoods(foods, settings) ==> f.isVeg == Some(true)
    ensures settings.veg == NonVegOnly ==>
              forall f :: f in FilteredFoods(foods, settings) ==> f.isVeg != Some(true)
  {
    FilterMembers(foods, settings);
  }

  /** 'available' shows only available items. */
  lemma AvailabilitySelectorHolds(foods: seq<Food>, settings: Settings)
    ensures settings.availability == AvailableOnly ==>
              forall f :: f in FilteredFoods(foods, settings) ==> f.isAvailable == Some(true)
  {
    FilterMembers(foods, settings);
  }

  /** Filtering the shown list again with the same settings changes nothing. */
  lemma FilterIdempotent(foods: seq<Food>, settings: Settings)
    ensures FilteredFoods(FilteredFoods(foods, settings), settings) == FilteredFoods(foods, settings)
  {
    Seqs.FilterIdempotent(foods, Keep(settings));
  }

  /** The search ignores the case of the query: queries equal up to case
      show the same items. */
  lemma SearchIgnoresCase(foods: seq<Food>, settings: Settings, query: string)
    requires Lower(query) == Lower(settings.query)
    ensures FilteredFoods(foods, settings.(query := query)) == FilteredFoods(foods, settings)
  {
    Seqs.FilterAgrees(foods, Keep(settings.(query := query)),
                      Keep(settings));
  }

  /** `foods.map(f => f.id === updated.id ? updated : f)`. */
  function ReplaceById(foods: seq<Food>, updated: Food): (r: seq<Food>)
    ensures |r| == |foods|
  {
    seq(|foods|, i requires 0 <= i < |foods| => if foods[i].id == updated.id then updated else foods[i])
  }

  /** Every item with the saved item's id becomes the saved item; every
      other item stays where it was. */
  lemma ReplaceByIdEffect(foods: seq<Food>, updated: Food)
    ensures forall i :: 0 <= i < |foods| && foods[i].id == updated.id ==>
              ReplaceById(foods, updated)[i] == updated
    ensures forall i :: 0 <= i < |foods| && foods[i].id != updated.id ==>
              ReplaceById(foods, updated)[i] == foods[i]
  {
  }

  /** The ids, and so the positions of all items, are unchanged. */
  lemma ReplaceKeepsIds(foods: seq<Food>, updated: Food)
    ensures forall i :: 0 <= i < |foods| ==> ReplaceById(foods, updated)[i].id == foods[i].id
  {
  }

  /** Saving an item whose id is not cached leaves the cache as it was. */
  lemma ReplaceUnknownId(foods: seq<Food>, updated: Food)
    requires forall i :: 0 <= i < |foods| ==> foods[i].id != updated.id
    ensures ReplaceById(foods, updated) == foods
  {
  }

  /** Applying the same save twice is applying it once. */
  lemma ReplaceIdempotent(foods: seq<Food>, updated: Food)
    ensures ReplaceById(ReplaceById(foods, updated), updated) == ReplaceById(foods, updated)
  {
  }

  /** The page's state: the cached list, the loading flag, the error of the
      last fetch and the notification on show. */
  class FoodListPage {
    var foods: seq<Food>
    var loading: bool
    var error: Option<string>
    var notification: Option<Notification>

    constructor ()
      ensures foods == [] && loading && error == None && notification == None
    {
      foods := [];
      loading := true;
      error := None;
      notification := None;
    }

    /** `fetchFoods`: on success the cache is replaced wholesale by the
        normalised list; on failure the cache is kept and the error shown. */
    method FetchFoods(response: Response)
      modifies this
      ensures !loading
      ensures ItemSync.LoadError(response).None? ==>
                var items := response.body.data.items;
                && error == None && notification == old(notification)
                && |foods| == |items|
                && (forall i :: 0 <= i < |items| ==> ItemSync.NormalisedFrom(foods[i], items[i]))
      ensures ItemSync.LoadError(response).Some? ==>
                var msg := ItemSync.LoadError(response).value;
                && foods == old(foods)
                && error == Some(msg)
                && notification == Some(Notification("Error: " + msg, Error))
    {
      loading := true;
      error := None;
      var r := ItemSync.Load(response);
      match r {
        case Done(items) =>
          foods := items;
        case Thrown(msg) =>
          error := Some(msg);
          notification := Some(Notification("Error: " + msg, Error));
      }
      loading := false;
    }

    /** `handleSave`: sends the update payload; an OK answer replaces the
        saved item in the cache by id, any other answer leaves the cache as
        it was and shows the chosen error message. */
    method HandleSave(updated: Food, response: Response) returns (payload: seq<Entry>)
      requires |updated.units| > 0
      modifies this
      ensures ItemSync.Keys(payload) == ItemSync.ItemFields + (if updated.image.Upload? then ["image"] else [])
      ensures ItemSync.ValueOf(payload, "name") == Some(TextValue(updated.name))
      ensures ItemSync.ValueOf(payload, "description") == Some(TextValue(updated.description))
      ensures ItemSync.ValueOf(payload, "veg") == Some(FlagValue(updated.isVeg))
      ensures ItemSync.ValueOf(payload, "unit") == Some(TextValue(updated.units[0].name))
      ensures ItemSync.ValueOf(payload, "price") == Some(ParsedPrice(updated.units[0].price))
      ensures ItemSync.ValueOf(payload, "is_available") == Some(FlagValue(updated.isAvailable))
      ensures updated.image.Upload? ==> ItemSync.ValueOf(payload, "image") == Some(FileValue(updated.image.file))
      ensures Ok(response) ==>
                && foods == ReplaceById(old(foods), updated)
                && notification == Some(Notification("Food item updated successfully!", Success))
      ensures !Ok(response) ==>
                var msg := ItemSync.ErrorMessage(ItemSync.ReadData(response.body), "Failed to update food item");
                && foods == old(foods)
                && notification == Some(Notification("Error: " + msg, Error))
      ensures loading == old(loading) && error == old(error)
    {
      payload := ItemSync.UpdatePayload(updated);
      var data := ItemSync.ReadData(response.body);
      if !Ok(response) {
        var msg := ItemSync.ErrorMessage(data, "Failed to update food item");
        notification := Some(Notification("Error: " + msg, Error));
      } else {
        foods := ReplaceById(foods, updated);
        notification := Some(Notification("Food item updated successfully!", Success));
      }
    }
  }
}
