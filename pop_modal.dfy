/** The edit modal: a form initialised from the item being edited, field
    and unit edits, and the submitted item. The form's unit list holds the
    very unit objects of the cached item, so editing a unit in place edits
    the cached item too. */
module PopModal {

  import opened Model
  import Seqs
  import ItemSync
  import FoodList

  datatype ModalForm = ModalForm(
    name: string,
    description: string,
    isVeg: bool,
    isAvailable: bool,
    image: Image,
    units: seq<Unit>,
    ingredients: string)

  /** The text inputs handled by `handleInputChange`. */
  datatype TextField = Name | Description | Ingredients

  /** An input event: a text input's new value, or the availability
      checkbox's new `checked` state (the one checkbox of the form). */
  datatype Change = TextInput(field: TextField, value: string) | AvailableCheckbox(checked: bool)

  function TextOf(form: ModalForm, field: TextField): string {
    match field
    case Name => form.name
    case Description => form.description
    case Ingredients => form.ingredients
  }

  /** `handleInputChange`: the named field takes the event's value (its
      `checked` state for the checkbox) and every other field is kept. */
  function ApplyChange(form: ModalForm, change: Change): (r: ModalForm)
    ensures change.TextInput? ==> TextOf(r, change.field) == change.value && r.isAvailable == form.isAvailable
    ensures forall f: TextField :: !(change.TextInput? && change.field == f) ==> TextOf(r, f) == TextOf(form, f)
    ensures change.AvailableCheckbox? ==> r.isAvailable == change.checked
    ensures r.isVeg == form.isVeg && r.image == form.image && r.units == form.units
  {
    match change
    case TextInput(Name, value) => form.(name := value)
    case TextInput(Description, value) => form.(description := value)
    case TextInput(Ingredients, value) => form.(ingredients := value)
    case AvailableCheckbox(checked) => form.(isAvailable := checked)
  }

  /** `b ?? fallback`: the fallback only for `null`/`undefined`. */
  function Coalesce(b: Option<bool>, fallback: bool): (r: bool)
    ensures b.None? ==> r == fallback
    ensures b == Some(false) ==> !r
    ensures b == Some(true) ==> r
  {
    if b.Some? then b.value else fallback
  }

  /** The form the modal shows for `food`. The flags default to true only
      when unset, so an explicit `false` is kept. Text and image are taken
      as they are (a cached item's text is never missing, so `|| ''` never
      applies), and the unit list is the item's own list, not a copy. */
  function FormFrom(food: Food): (form: ModalForm)
    ensures form.isVeg <==> food.isVeg != Some(false)
    ensures form.isAvailable <==> food.isAvailable != Some(false)
    ensures form.units == food.units
    ensures form.name == food.name && form.description == food.description
    ensures form.image == food.image && form.ingredients == food.ingredients
  {
    ModalForm(
      food.name,
      food.description,
      Coalesce(food.isVeg, true),
      Coalesce(food.isAvailable, true),
      food.image,
      food.units,
      food.ingredients)
  }

  /** `{ ...food, ...formData }`: every form field wins, and the id, which
      only the item has, is kept. */
  function Merged(food: Food, form: ModalForm): (r: Food)
    ensures r.id == food.id
    ensures r.name == form.name && r.description == form.description && r.ingredients == form.ingredients
    ensures r.isVeg == Some(form.isVeg) && r.isAvailable == Some(form.isAvailable)
    ensures r.image == form.image && r.units == form.units
  {
    Food(food.id, form.name, form.description, form.image,
         Some(form.isVeg), Some(form.isAvailable), form.ingredients, form.units)
  }

  /** Submitting the form untouched saves the item unchanged, when its flags
      are set. */
  lemma UntouchedSubmitIsIdentity(food: Food)
    requires food.isVeg.Some? && food.isAvailable.Some?
    ensures Merged(food, FormFrom(food)) == food
  {
  }

  /** Re-opening the modal on a submitted item shows the submitted form. */
  lemma ReopenShowsSubmittedForm(food: Food, form: ModalForm)
    ensures FormFrom(Merged(food, form)) == form
  {
  }

  /** The units the form keeps after `removeUnit(index)`. */
  function RemainingUnits(units: seq<Unit>, index: nat): (r: seq<Unit>)
    ensures |units| <= 1 ==> r == units
    ensures |units| > 1 && index < |units| ==> r == units[..index] + units[index + 1..]
    ensures |units| > 1 && index >= |units| ==> r == units
  {
    if |units| > 1 then Seqs.FilterOutIndex(units, index, 0) else units
  }

  /** `removeUnit` never empties a non-empty unit list. */
  lemma RemoveKeepsAUnit(units: seq<Unit>, index: nat)
    requires |units| >= 1
    ensures |RemainingUnits(units, index)| >= 1
  {
  }

  const FullPlate: string := "Full Plate"

  class EditModal {
    var form: ModalForm

    /** The initial state: empty texts, both flags set, and one "Full Plate"
        unit without a price. */
    constructor ()
      ensures form.name == "" && form.description == "" && form.ingredients == ""
      ensures form.isVeg && form.isAvailable && form.image == Url("")
      ensures |form.units| == 1 && fresh(form.units[0])
      ensures form.units[0].name == FullPlate && form.units[0].price == Str("")
    {
      var unit := new Unit(FullPlate, Str(""));
      form := ModalForm("", "", true, true, Url(""), [unit], "");
    }

    /** The effect that runs when `food` changes: a present item replaces
        the whole form, an absent one leaves it. */
    method Open(food: Option<Food>)
      modifies this
      ensures food.Some? ==> form == FormFrom(food.value)
      ensures food.None? ==> form == old(form)
    {
      if food.Some? {
        form := FormFrom(food.value);
      }
    }

    method InputChange(change: Change)
      modifies this
      ensures form == ApplyChange(old(form), change)
    {
      form := ApplyChange(form, change);
    }

    /** The two veg radio buttons. */
    method ChooseVeg(isVeg: bool)
      modifies this
      ensures form == old(form).(isVeg := isVeg)
    {
      form := form.(isVeg := isVeg);
    }

    /** `handleUnitPriceChange`: the unit object at `index` gets the new
        price in place. The form record, its unit list and every other unit
        object are unchanged. */
    method UnitPriceChange(index: nat, value: string)
      requires index < |form.units|
      modifies form.units[index]
      ensures form == old(form)
      ensures form.units[index].price == Str(value)
      ensures form.units[index].name == old(form.units[index].name)
    {
      form.units[index].price := Str(value);
    }

    /** `handleUnitNameChange`: as for the price, on the unit's name. */
    method UnitNameChange(index: nat, value: string)
      requires index < |form.units|
      modifies form.units[index]
      ensures form == old(form)
      ensures form.units[index].name == value
      ensures form.units[index].price == old(form.units[index].price)
    {
      form.units[index].name := value;
    }

    /** `addUnit`: one new unit with empty name and price at the end. */
    method AddUnit()
      modifies this
      ensures form == old(form).(units := form.units)
      ensures |form.units| == |old(form.units)| + 1
      ensures form.units[..|old(form.units)|] == old(form.units)
      ensures fresh(form.units[|form.units| - 1])
      ensures form.units[|form.units| - 1].name == "" && form.units[|form.units| - 1].price == Str("")
    {
      var unit := new Unit("", Str(""));
      form := form.(units := form.units + [unit]);
    }

    /** `removeUnit`: drops the unit at `index` unless it is the last one. */
    method RemoveUnit(index: nat)
      modifies this
      ensures form == old(form).(units := RemainingUnits(old(form.units), index))
      ensures |old(form.units)| >= 1 ==> |form.units| >= 1
    {
      if |form.units| > 1 {
        var newUnits := Seqs.FilterOutIndex(form.units, index, 0);
        form := form.(units := newUnits);
      }
    }

    /** `handleImageChange`: when a file is chosen, the image becomes the
        data URL the reader produces (`dataUrl`), a string. */
    method ImageChange(files: seq<File>, dataUrl: string)
      modifies this
      ensures |files| > 0 ==> form == old(form).(image := Url(dataUrl))
      ensures |files| == 0 ==> form == old(form)
    {
      if |files| > 0 {
        form := form.(image := Url(dataUrl));
      }
    }

    /** `handleSubmit`: the item handed to `onSave`. */
    method Submit(food: Food) returns (saved: Food)
      ensures saved == Merged(food, form)
    {
      saved := Merged(food, form);
    }

    /** Price edit that copies the unit instead of writing into it, so that
        no unit object outside the form changes. */
    method UnitPriceChangeCopying(index: nat, value: string)
      requires index < |form.units|
      modifies this
      ensures form == old(form).(units := form.units)
      ensures |form.units| == |old(form.units)|
      ensures fresh(form.units[index])
      ensures form.units[index].name == old(form.units[index].name) && form.units[index].price == Str(value)
      ensures forall j :: 0 <= j < |form.units| && j != index ==> form.units[j] == old(form.units[j])
    {
      var copy := new Unit(form.units[index].name, Str(value));
      form := form.(units := form.units[index := copy]);
    }

    /** Name edit that copies the unit instead of writing into it. */
    method UnitNameChangeCopying(index: nat, value: string)
      requires index < |form.units|
      modifies this
      ensures form == old(form).(units := form.units)
      ensures |form.units| == |old(form.units)|
      ensures fresh(form.units[index])
      ensures form.units[index].name == value && form.units[index].price == old(form.units[index].price)
      ensures forall j :: 0 <= j < |form.units| && j != index ==> form.units[j] == old(form.units[j])
    {
      var copy := new Unit(value, form.units[index].price);
      form := form.(units := form.units[index := copy]);
    }

    /** Image choice that keeps the chosen file, as the add form does. */
    method ImageChangeKeepingFile(files: seq<File>)
      modifies this
      ensures |files| > 0 ==> form == old(form).(image := Upload(files[0]))
      ensures |files| == 0 ==> form == old(form)
    {
      if |files| > 0 {
        form := form.(image := Upload(files[0]));
      }
    }
  }

  /** Opening the modal on a cached item, changing a unit price and closing
      without saving: the cached list is the same, yet the item in it now
      carries the edited price. */
  method CancelledEditReachesCache(page: FoodList.FoodListPage, modal: EditModal, k: nat, price: string)
    requires k < |page.foods| && |page.foods[k].units| > 0
    modifies modal, page.foods[k].units[0]
    ensures page.foods == old(page.foods)
    ensures page.foods[k].units[0].price == Str(price)
  {
    modal.Open(Some(page.foods[k]));
    modal.UnitPriceChange(0, price);
  }

  /** The same sequence with the copying edit leaves the cached item as it was. */
  method CancelledCopyEditStaysLocal(page: FoodList.FoodListPage, modal: EditModal, k: nat, price: string)
    requires k < |page.foods| && |page.foods[k].units| > 0
    modifies modal
    ensures page.foods == old(page.foods)
    ensures page.foods[k].units[0].price == old(page.foods[k].units[0].price)
  {
    modal.Open(Some(page.foods[k]));
    modal.UnitPriceChangeCopying(0, price);
  }

  /** As for the price: a cancelled unit name edit renames the cached unit. */
  method CancelledNameEditReachesCache(page: FoodList.FoodListPage, modal: EditModal, k: nat, name: string)
    requires k < |page.foods| && |page.foods[k].units| > 0
    modifies modal, page.foods[k].units[0]
    ensures page.foods == old(page.foods)
    ensures page.foods[k].units[0].name == name
  {
    modal.Open(Some(page.foods[k]));
    modal.UnitNameChange(0, name);
  }

  /** With the copying name edit the cached unit keeps its name. */
  method CancelledCopyNameEditStaysLocal(page: FoodList.FoodListPage, modal: EditModal, k: nat, name: string)
    requires k < |page.foods| && |page.foods[k].units| > 0
    modifies modal
    ensures page.foods == old(page.foods)
    ensures page.foods[k].units[0].name == old(page.foods[k].units[0].name)
  {
    modal.Open(Some(page.foods[k]));
    modal.UnitNameChangeCopying(0, name);
  }

  /** Choosing a new image in the modal and saving sends no image field. */
  method PickedImageNeverUploaded(modal: EditModal, food: Food, files: seq<File>, dataUrl: string)
    returns (payload: seq<Entry>)
    requires |files| > 0 && |modal.form.units| > 0
    modifies modal
    ensures "image" !in ItemSync.Keys(payload)
  {
    modal.ImageChange(files, dataUrl);
    var saved := modal.Submit(food);
    payload := ItemSync.UpdatePayload(saved);
  }

  /** With the file kept, saving sends the chosen file as the image field. */
  method PickedFileIsUploaded(modal: EditModal, food: Food, files: seq<File>)
    returns (payload: seq<Entry>)
    requires |files| > 0 && |modal.form.units| > 0
    modifies modal
    ensures ItemSync.ValueOf(payload, "image") == Some(FileValue(files[0]))
  {
    modal.ImageChangeKeepingFile(files);
    var saved := modal.Submit(food);
    payload := ItemSync.UpdatePayload(saved);
  }
}
