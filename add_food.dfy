/** The add-item page: a form record edited field by field, a chosen image
    file, and a submit that posts the form as a multipart payload and resets
    the form when the server accepts it. */
module AddFood {

  import opened Model
  import ItemSync

  datatype AddForm = AddForm(
    name: string,
    description: string,
    veg: bool,
    unit: string,
    price: string,
    image: Option<File>,
    isAvailable: bool)

  /** The state the form starts in and returns to after a successful add. */
  const InitialAddForm: AddForm := AddForm("", "", true, "Full Plate", "", None, true)

  const AddFallback: string := "Failed to add food item"
  const AddedMessage: string := "Food item added successfully!"

  /** The inputs handled by `handleInputChange`. */
  datatype AddTextField = Name | Description | UnitName | Price

  /** An input event: a text input's new value, or the `is_available`
      checkbox's new `checked` state. */
  datatype AddChange = TextInput(field: AddTextField, value: string) | AvailableCheckbox(checked: bool)

  function TextOf(form: AddForm, field: AddTextField): string {
    match field
    case Name => form.name
    case Description => form.description
    case UnitName => form.unit
    case Price => form.price
  }

  /** `handleInputChange`: exactly the named field changes, to the event's
      value (its `checked` state for the checkbox). */
  function ApplyChange(form: AddForm, change: AddChange): (r: AddForm)
    ensures change.TextInput? ==> TextOf(r, change.field) == change.value && r.isAvailable == form.isAvailable
    ensures forall f: AddTextField :: !(change.TextInput? && change.field == f) ==> TextOf(r, f) == TextOf(form, f)
    ensures change.AvailableCheckbox? ==> r.isAvailable == change.checked
    ensures r.veg == form.veg && r.image == form.image
  {
    match change
    case TextInput(Name, value) => form.(name := value)
    case TextInput(Description, value) => form.(description := value)
    case TextInput(UnitName, value) => form.(unit := value)
    case TextInput(Price, value) => form.(price := value)
    case AvailableCheckbox(checked) => form.(isAvailable := checked)
  }

  /** Both events come from the same input. */
  predicate SameInput(a: AddChange, b: AddChange) {
    || (a.TextInput? && b.TextInput? && a.field == b.field)
    || (a.AvailableCheckbox? && b.AvailableCheckbox?)
  }

  /** Two edits of different inputs (text or checkbox) can happen in either
      order. */
  lemma ChangesOfDistinctFieldsCommute(form: AddForm, a: AddChange, b: AddChange)
    requires !SameInput(a, b)
    ensures ApplyChange(ApplyChange(form, a), b) == ApplyChange(ApplyChange(form, b), a)
  {
  }

  /** A later edit of an input overrides an earlier one. */
  lemma LastChangeWins(form: AddForm, a: AddChange, b: AddChange)
    requires SameInput(a, b)
    ensures ApplyChange(ApplyChange(form, a), b) == ApplyChange(form, b)
  {
  }

  /** `handleImageChange` (its state part): the first chosen file, if there
      is one, becomes the image; with no file the form is unchanged. */
  function WithImage(form: AddForm, files: seq<File>): (r: AddForm)
    ensures |files| > 0 ==> r == form.(image := Some(files[0]))
    ensures |files| == 0 ==> r == form
  {
    if |files| > 0 then form.(image := Some(files[0])) else form
  }

  /** Once a file is chosen, cancelling the file dialog keeps it. */
  lemma ChosenImageSticks(form: AddForm, files: seq<File>)
    requires form.image.Some?
    ensures WithImage(form, files).image.Some?
  {
  }

  class AddFoodPage {
    var form: AddForm
    var loading: bool
    var notification: Option<Notification>

    constructor ()
      ensures form == InitialAddForm && !loading && notification == None
    {
      form := InitialAddForm;
      loading := false;
      notification := None;
    }

    method InputChange(change: AddChange)
      modifies this
      ensures form == ApplyChange(old(form), change)
      ensures loading == old(loading) && notification == old(notification)
    {
      form := ApplyChange(form, change);
    }

    method ImageChange(files: seq<File>)
      modifies this
      ensures form == WithImage(old(form), files)
      ensures loading == old(loading) && notification == old(notification)
    {
      form := WithImage(form, files);
    }

    /** The two veg radio buttons. */
    method ChooseVeg(veg: bool)
      modifies this
      ensures form == old(form).(veg := veg)
      ensures loading == old(loading) && notification == old(notification)
    {
      form := form.(veg := veg);
    }

    /** The first half of `handleSubmit`, up to the request: `loading` is
        set and the form is encoded, the image last and only when a file was
        chosen. */
    method BeginSubmit() returns (payload: seq<Entry>)
      modifies this
      ensures loading
      ensures form == old(form) && notification == old(notification)
      ensures ItemSync.Keys(payload) == ItemSync.ItemFields + (if form.image.Some? then ["image"] else [])
      ensures ItemSync.ValueOf(payload, "name") == Some(TextValue(form.name))
      ensures ItemSync.ValueOf(payload, "description") == Some(TextValue(form.description))
      ensures ItemSync.ValueOf(payload, "veg") == Some(FlagValue(Some(form.veg)))
      ensures ItemSync.ValueOf(payload, "unit") == Some(TextValue(form.unit))
      ensures ItemSync.ValueOf(payload, "price") == Some(ParsedPrice(Str(form.price)))
      ensures ItemSync.ValueOf(payload, "is_available") == Some(FlagValue(Some(form.isAvailable)))
      ensures form.image.Some? ==> ItemSync.ValueOf(payload, "image") == Some(FileValue(form.image.value))
    {
      loading := true;
      payload := ItemSync.EncodeItem(form.name, form.description, Some(form.veg), form.unit,
                                     Str(form.price), Some(form.isAvailable), form.image);
    }

    /** The second half, on the server's answer: success resets the form,
        failure keeps it and shows the chosen error message as it is (no
        prefix); `loading` is cleared either way. */
    method EndSubmit(response: Response)
      modifies this
      ensures !loading
      ensures Ok(response) ==>
                form == InitialAddForm && notification == Some(Notification(AddedMessage, Success))
      ensures !Ok(response) ==>
                && form == old(form)
                && notification == Some(Notification(
                     ItemSync.ErrorMessage(ItemSync.ReadData(response.body), AddFallback), Error))
    {
      var data := ItemSync.ReadData(response.body);
      if !Ok(response) {
        notification := Some(Notification(ItemSync.ErrorMessage(data, AddFallback), Error));
      } else {
        notification := Some(Notification(AddedMessage, Success));
        form := InitialAddForm;
      }
      loading := false;
    }
  }

  /** A failed add can be retried as it stands: the form still holds what
      was typed. A successful one starts over from the initial form. */
  method SubmitOnce(page: AddFoodPage, response: Response) returns (payload: seq<Entry>)
    modifies page
    ensures !page.loading
    ensures !Ok(response) ==> page.form == old(page.form)
    ensures Ok(response) ==> page.form == InitialAddForm
    ensures ItemSync.Keys(payload) == ItemSync.ItemFields + (if old(page.form.image).Some? then ["image"] else [])
  {
    payload := page.BeginSubmit();
    page.EndSubmit(response);
  }

  /** A rejected add whose answer has no usable `message` but a non-empty
      `detail` shows exactly that detail. */
  method RejectedAddShowsDetail(page: AddFoodPage, response: Response)
    requires !Ok(response) && response.body.Json? && response.body.data.Object?
    requires !Present(response.body.data.message) && Present(response.body.data.detail)
    modifies page
    ensures page.notification == Some(Notification(response.body.data.detail.value, Error))
    ensures page.form == old(page.form) && !page.loading
  {
    page.EndSubmit(response);
    ItemSync.DetailIsReported(response, AddFallback);
  }
}
