/** One item's card: the unit selector, the price of the selected unit, and
    which callback the action buttons invoke. */
module FoodCard {

  import opened Model

  /** The callback a button click invokes, with its arguments. */
  datatype Action =
    | Order(food: Food, unit: string, price: Price)
    | Edit(food: Food)
    | ViewIngredients(food: Food)
    | Nothing

  /** `units.find(unit => unit.name === name)`, as a position. */
  function FirstNamed(units: seq<Unit>, name: string): (r: Option<nat>)
    reads units
    ensures r.Some? ==> r.value < |units| && units[r.value].name == name
    ensures r.Some? ==> forall j :: 0 <= j < r.value ==> units[j].name != name
    ensures r.None? ==> forall j :: 0 <= j < |units| ==> units[j].name != name
  {
    if units == [] then None
    else if units[0].name == name then Some(0)
    else match FirstNamed(units[1..], name)
      case None => None
      case Some(k) => Some(k + 1)
  }

  /** `find(...)?.price || 0`: the matching unit's price, or 0 when no unit
      matches or its price is falsy. */
  function PriceOf(units: seq<Unit>, name: string): (p: Price)
    reads units
    ensures FirstNamed(units, name).None? ==> p == Num(0.0)
    ensures FirstNamed(units, name).Some? ==>
              var u := units[FirstNamed(units, name).value];
              p == if Falsy(u.price) then Num(0.0) else u.price
    ensures !Falsy(p) || p == Num(0.0)
  {
    match FirstNamed(units, name)
    case None => Num(0.0)
    case Some(k) => if Falsy(units[k].price) then Num(0.0) else units[k].price
  }

  /** A unit that comes first with its name is the one priced, whatever
      units follow it. */
  lemma {:induction false} FirstUnitWins(units: seq<Unit>, name: string, rest: seq<Unit>)
    requires |units| > 0 && units[0].name == name
    ensures PriceOf(units + rest, name) == PriceOf(units, name)
  {
    assert (units + rest)[0] == units[0];
  }

  /** A name that no unit has is priced 0. */
  lemma UnknownUnitIsFree(units: seq<Unit>, name: string)
    requires forall j :: 0 <= j < |units| ==> units[j].name != name
    ensures PriceOf(units, name) == Num(0.0)
  {
  }

  class Card {
    const food: Food
    const showOrderButton: bool
    const hasOnOrder: bool
    const hasOnEdit: bool
    const hasOnViewIngredients: bool
    var selectedUnit: string

    /** The first unit is selected when the card appears. */
    constructor (food: Food, showOrderButton: bool, hasOnOrder: bool, hasOnEdit: bool,
                 hasOnViewIngredients: bool)
      requires |food.units| > 0
      ensures this.food == food && this.showOrderButton == showOrderButton
      ensures this.hasOnOrder == hasOnOrder && this.hasOnEdit == hasOnEdit
      ensures this.hasOnViewIngredients == hasOnViewIngredients
      ensures selectedUnit == food.units[0].name
    {
      this.food := food;
      this.showOrderButton := showOrderButton;
      this.hasOnOrder := hasOnOrder;
      this.hasOnEdit := hasOnEdit;
      this.hasOnViewIngredients := hasOnViewIngredients;
      selectedUnit := food.units[0].name;
    }

    /** `currentPrice`: the price of the first unit named as the selection,
        or 0. */
    function CurrentPrice(): (p: Price)
      reads this, food.units
      ensures FirstNamed(food.units, selectedUnit).None? ==> p == Num(0.0)
      ensures FirstNamed(food.units, selectedUnit).Some? ==>
                var u := food.units[FirstNamed(food.units, selectedUnit).value];
                p == if Falsy(u.price) then Num(0.0) else u.price
    {
      PriceOf(food.units, selectedUnit)
    }

    /** `handleUnitChange`: the selector's value becomes the selected unit. */
    method UnitChange(value: string)
      modifies this
      ensures selectedUnit == value
    {
      selectedUnit := value;
    }

    /** `handleActionClick`: order with the selected unit and its price when
        ordering is shown and possible; otherwise edit, if editing is
        possible; otherwise nothing. */
    function ActionClick(): (a: Action)
      reads this, food.units
      ensures showOrderButton && hasOnOrder ==> a == Order(food, selectedUnit, CurrentPrice())
      ensures !(showOrderButton && hasOnOrder) && hasOnEdit ==> a == Edit(food)
      ensures !(showOrderButton && hasOnOrder) && !hasOnEdit ==> a == Nothing
    {
      if showOrderButton && hasOnOrder then Order(food, selectedUnit, CurrentPrice())
      else if hasOnEdit then Edit(food)
      else Nothing
    }

    /** The ingredients button: the callback only when one was passed. */
    function IngredientsClick(): (a: Action)
      reads this
      ensures hasOnViewIngredients ==> a == ViewIngredients(food)
      ensures !hasOnViewIngredients ==> a == Nothing
    {
      if hasOnViewIngredients then ViewIngredients(food) else Nothing
    }
  }

  /** A freshly shown card orders the first unit at the first unit's price
      (0 if that price is falsy). */
  method NewCardOrdersFirstUnit(food: Food) returns (card: Card, action: Action)
    requires |food.units| > 0
    ensures action == card.ActionClick()
    ensures card.showOrderButton && card.hasOnOrder
    ensures action == Order(food, food.units[0].name,
                            if Falsy(food.units[0].price) then Num(0.0) else food.units[0].price)
  {
    card := new Card(food, true, true, false, true);
    action := card.ActionClick();
  }
}
