/** What the list pages and the add form share: turning server records into
    cached items, reading a fetch response, picking the error message, and
    encoding an item as a multipart payload. */
module ItemSync {

  import opened Model
  import opened Text

  const NonJsonMessage: string := "Server returned non-JSON response"
  const FetchFallback: string := "Failed to fetch food items"
  /** The TypeError that `data.map` raises when an OK JSON body is not an array. */
  const NotAListMessage: string := "data.map is not a function"

  /** `food` is the display form of `item`: fields renamed, missing text
      replaced by '', and the single unit/price wrapped as a one-unit list. */
  ghost predicate NormalisedFrom(food: Food, item: ServerItem)
    reads food.units
  {
    && food.id == item.id
    && food.name == item.name
    && food.description == OrEmpty(item.description)
    && food.image == Url(OrEmpty(item.image))
    && food.isVeg == item.veg
    && food.isAvailable == item.isAvailable
    && food.ingredients == OrEmpty(item.ingredients)
    && |food.units| == 1
    && food.units[0].name == item.unit
    && food.units[0].price == item.price
  }

  /** `data.map(item => ({...}))`: one new item per record, in order, each
      with a unit object of its own. */
  method Normalise(data: seq<ServerItem>) returns (foods: seq<Food>)
    ensures |foods| == |data|
    ensures forall i :: 0 <= i < |data| ==> NormalisedFrom(foods[i], data[i])
    ensures forall i :: 0 <= i < |foods| ==> |foods[i].units| == 1 && fresh(foods[i].units[0])
    ensures forall i, j :: 0 <= i < j < |foods| && |foods[i].units| == |foods[j].units| == 1 ==>
              foods[i].units[0] != foods[j].units[0]
  {
    foods := [];
    for n := 0 to |data|
      invariant |foods| == n
      invariant forall i :: 0 <= i < n ==> NormalisedFrom(foods[i], data[i])
      invariant forall i :: 0 <= i < n ==> |foods[i].units| == 1 && fresh(foods[i].units[0])
      invariant forall i, j :: 0 <= i < j < n && |foods[i].units| == |foods[j].units| == 1 ==>
                  foods[i].units[0] != foods[j].units[0]
    {
      var item := data[n];
      var unit := new Unit(item.unit, item.price);
      var food := Food(
        item.id, item.name, OrEmpty(item.description), Url(OrEmpty(item.image)),
        item.veg, item.isAvailable, OrEmpty(item.ingredients), [unit]);
      foods := foods + [food];
    }
  }

  /** `a || b` for an optional text field `a` and a text `b`. */
  function Or(a: Option<string>, b: string): (r: string)
    ensures Present(a) ==> r == a.value
    ensures !Present(a) ==> r == b
  {
    if Present(a) then a.value else b
  }

  function MessageOf(data: JsonValue): Option<string> {
    if data.Object? then data.message else None
  }

  function DetailOf(data: JsonValue): Option<string> {
    if data.Object? then data.detail else None
  }

  function ErrorOf(data: JsonValue): Option<string> {
    if data.Object? then data.error else None
  }

  /** Why a fetch of the item list fails, if it does. The content type is
      checked before the status, so a non-JSON error page reports the
      content type, whatever its status. */
  function LoadError(response: Response): (e: Option<string>)
    ensures response.body.NonJson? ==> e == Some(NonJsonMessage)
    ensures response.body.Json? && !Ok(response) ==>
              e == Some(Or(MessageOf(response.body.data), FetchFallback))
    ensures e.None? <==> Ok(response) && response.body.Json? && response.body.data.List?
  {
    match response.body
    case NonJson(_) => Some(NonJsonMessage)
    case Json(data) =>
      if !Ok(response) then Some(Or(MessageOf(data), FetchFallback))
      else if data.List? then None
      else Some(NotAListMessage)
  }

  /** The body of `fetchFoods`: the normalised list, or the message of the
      error it throws. */
  method Load(response: Response) returns (r: Result<seq<Food>>)
    ensures r.Thrown? <==> LoadError(response).Some?
    ensures r.Thrown? ==> r.error == LoadError(response).value
    ensures r.Done? ==>
              var items := response.body.data.items;
              && |r.value| == |items|
              && (forall i :: 0 <= i < |items| ==> NormalisedFrom(r.value[i], items[i]))
              && (forall i :: 0 <= i < |items| ==> |r.value[i].units| == 1 && fresh(r.value[i].units[0]))
  {
    var e := LoadError(response);
    if e.Some? {
      r := Thrown(e.value);
    } else {
      var foods := Normalise(response.body.data.items);
      r := Done(foods);
    }
  }

  /** The `data` a save or create reads: the parsed JSON, or an object whose
      `message` is the first 200 characters of the non-JSON text. */
  function ReadData(body: Body): (data: JsonValue)
    ensures body.Json? ==> data == body.data
    ensures body.NonJson? ==> data == Object(Some(Prefix(body.text, 200)), None, None)
  {
    match body
    case Json(d) => d
    case NonJson(text) => Object(Some(Prefix(text, 200)), None, None)
  }

  /** `data.message || data.detail || data.error || fallback`. */
  function ErrorMessage(data: JsonValue, fallback: string): (msg: string)
    ensures Present(MessageOf(data)) ==> msg == MessageOf(data).value
    ensures !Present(MessageOf(data)) && Present(DetailOf(data)) ==> msg == DetailOf(data).value
    ensures !Present(MessageOf(data)) && !Present(DetailOf(data)) && Present(ErrorOf(data)) ==>
              msg == ErrorOf(data).value
    ensures !Present(MessageOf(data)) && !Present(DetailOf(data)) && !Present(ErrorOf(data)) ==>
              msg == fallback
  {
    Or(MessageOf(data), Or(DetailOf(data), Or(ErrorOf(data), fallback)))
  }

  /** A non-JSON error body yields its own first 200 characters, or the
      fallback when it is empty; either way at most 200 characters. */
  lemma NonJsonErrorIsShort(text: string, fallback: string)
    requires |fallback| <= 200
    ensures var msg := ErrorMessage(ReadData(NonJson(text)), fallback);
            && |msg| <= 200
            && (text != "" ==> IsPrefix(msg, text) && msg != "")
            && (text == "" ==> msg == fallback)
  {
    var data := ReadData(NonJson(text));
    if text != "" {
      assert Present(MessageOf(data));
    }
  }

  /** A rejected request whose JSON answer has no usable `message` but a
      non-empty `detail` fails with exactly that detail, whatever the
      fallback and whatever `error` holds. */
  lemma DetailIsReported(response: Response, fallback: string)
    requires !Ok(response) && response.body.Json? && response.body.data.Object?
    requires !Present(response.body.data.message) && Present(response.body.data.detail)
    ensures ErrorMessage(ReadData(response.body), fallback) == response.body.data.detail.value
  {
  }

  function Keys(payload: seq<Entry>): (keys: seq<string>)
    ensures |keys| == |payload|
    ensures forall i :: 0 <= i < |payload| ==> keys[i] == payload[i].0
  {
    seq(|payload|, i requires 0 <= i < |payload| => payload[i].0)
  }

  /** What `formData.get(key)` returns: the first value appended under `key`. */
  function ValueOf(payload: seq<Entry>, key: string): Option<FormValue> {
    if payload == [] then None
    else if payload[0].0 == key then Some(payload[0].1)
    else ValueOf(payload[1..], key)
  }

  /** A key has a value exactly when it was appended, and the value found is
      one appended under that key. */
  lemma {:induction false} ValueOfFinds(payload: seq<Entry>, key: string)
    ensures ValueOf(payload, key).None? <==> key !in Keys(payload)
    ensures ValueOf(payload, key).Some? ==> (key, ValueOf(payload, key).value) in payload
  {
    if payload != [] {
      ValueOfFinds(payload[1..], key);
      assert Keys(payload) == [payload[0].0] + Keys(payload[1..]);
    }
  }

  /** A key appended once, before any other entry with that key, is found. */
  lemma {:induction false} ValueAt(payload: seq<Entry>, i: nat)
    requires i < |payload|
    requires forall j :: 0 <= j < i ==> payload[j].0 != payload[i].0
    ensures ValueOf(payload, payload[i].0) == Some(payload[i].1)
  {
    if i > 0 {
      ValueAt(payload[1..], i - 1);
    }
  }

  /** The fields every item payload carries, in the order they are appended. */
  const ItemFields: seq<string> := ["name", "description", "veg", "unit", "price", "is_available"]

  /** The multipart body of a create or an update: six fields appended in a
      fixed order, and an `image` field last only when there is a file. */
  method EncodeItem(name: string, description: string, veg: Option<bool>, unit: string,
                    price: Price, isAvailable: Option<bool>, image: Option<File>)
    returns (payload: seq<Entry>)
    ensures Keys(payload) == ItemFields + (if image.Some? then ["image"] else [])
    ensures ValueOf(payload, "name") == Some(TextValue(name))
    ensures ValueOf(payload, "description") == Some(TextValue(description))
    ensures ValueOf(payload, "veg") == Some(FlagValue(veg))
    ensures ValueOf(payload, "unit") == Some(TextValue(unit))
    ensures ValueOf(payload, "price") == Some(ParsedPrice(price))
    ensures ValueOf(payload, "is_available") == Some(FlagValue(isAvailable))
    ensures image.Some? ==> ValueOf(payload, "image") == Some(FileValue(image.value))
  {
    payload := [];
    payload := payload + [("name", TextValue(name))];
    payload := payload + [("description", TextValue(description))];
    payload := payload + [("veg", FlagValue(veg))];
    payload := payload + [("unit", TextValue(unit))];
    payload := payload + [("price", ParsedPrice(price))];
    payload := payload + [("is_available", FlagValue(isAvailable))];
    assert Keys(payload) == ItemFields;
    if image.Some? {
      payload := payload + [("image", FileValue(image.value))];
      assert Keys(payload) == ItemFields + ["image"];
    }
    ValueAt(payload, 0);
    ValueAt(payload, 1);
    ValueAt(payload, 2);
    ValueAt(payload, 3);
    ValueAt(payload, 4);
    ValueAt(payload, 5);
    if image.Some? {
      ValueAt(payload, 6);
    }
  }

  /** The file an update uploads: `image && typeof image !== 'string'`, so a
      string image (a URL, or '') is never sent. */
  function UploadOf(image: Image): (f: Option<File>)
    ensures f.Some? <==> image.Upload?
    ensures image.Upload? ==> f == Some(image.file)
  {
    match image
    case Url(_) => None
    case Upload(file) => Some(file)
  }

  /** `handleSave`'s payload: the item's fields, with unit and price taken
      from its first unit. */
  method UpdatePayload(food: Food) returns (payload: seq<Entry>)
    requires |food.units| > 0
    ensures Keys(payload) == ItemFields + (if food.image.Upload? then ["image"] else [])
    ensures ValueOf(payload, "name") == Some(TextValue(food.name))
    ensures ValueOf(payload, "description") == Some(TextValue(food.description))
    ensures ValueOf(payload, "unit") == Some(TextValue(food.units[0].name))
    ensures ValueOf(payload, "price") == Some(ParsedPrice(food.units[0].price))
    ensures ValueOf(payload, "veg") == Some(FlagValue(food.isVeg))
    ensures ValueOf(payload, "is_available") == Some(FlagValue(food.isAvailable))
    ensures food.image.Upload? ==> ValueOf(payload, "image") == Some(FileValue(food.image.file))
  {
    payload := EncodeItem(food.name, food.description, food.isVeg, food.units[0].name,
                          food.units[0].price, food.isAvailable, UploadOf(food.image));
  }
}
