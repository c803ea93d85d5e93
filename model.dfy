/** The values the menu client passes around: server records, cached food
    items with their pricing units, HTTP responses and multipart payload
    entries. JavaScript's `null`/`undefined` become `None`. */
module Model {

  datatype Option<T> = None | Some(value: T)

  /** A value, or the message of the `Error` thrown instead. */
  datatype Result<T> = Done(value: T) | Thrown(error: string)

  /** `b` used as a condition in JavaScript: only `true` is truthy. */
  predicate Truthy(b: Option<bool>) {
    b == Some(true)
  }

  /** A text field that may be missing: present and non-empty. */
  predicate Present(s: Option<string>) {
    s.Some? && s.value != ""
  }

  /** `s || ''` for a text field that may be missing. */
  function OrEmpty(s: Option<string>): (r: string)
    ensures Present(s) ==> r == s.value
    ensures !Present(s) ==> r == ""
  {
    if s.Some? then s.value else ""
  }

  /** A file chosen in a file input; only its identity matters here. */
  datatype File = File(name: string)

  /** An item image: a string (a remote URL, a data URL, or '') or a newly
      chosen local file. */
  datatype Image = Url(url: string) | Upload(file: File)

  /** A price as the client holds it: missing, a JSON number, or text (the
      server's decimal string or the raw value of a number input). */
  datatype Price = Absent | Num(value: real) | Str(text: string)

  /** The falsy prices: `undefined`/`null`, `0` and `''`. */
  predicate Falsy(p: Price) {
    p == Absent || p == Num(0.0) || p == Str("")
  }

  /** A named pricing variant of an item. Its fields are updated in place by
      the edit modal, so it is an object. */
  class Unit {
    var name: string
    var price: Price

    constructor (name: string, price: Price)
      ensures this.name == name && this.price == price
    {
      this.name := name;
      this.price := price;
    }
  }

  /** A cached food item in the client's display shape. */
  datatype Food = Food(
    id: int,
    name: string,
    description: string,
    image: Image,
    isVeg: Option<bool>,
    isAvailable: Option<bool>,
    ingredients: string,
    units: seq<Unit>)

  /** An item record as the server sends it (server field names). */
  datatype ServerItem = ServerItem(
    id: int,
    name: string,
    description: Option<string>,
    veg: Option<bool>,
    unit: string,
    price: Price,
    isAvailable: Option<bool>,
    image: Option<string>,
    ingredients: Option<string>)

  /** A parsed JSON body: an array of items, or an object of which only the
      error-envelope fields `message`, `detail` and `error` are read. */
  datatype JsonValue =
    | List(items: seq<ServerItem>)
    | Object(message: Option<string>, detail: Option<string>, error: Option<string>)

  /** A response body, by its content type. */
  datatype Body = Json(data: JsonValue) | NonJson(text: string)

  datatype Response = Response(status: int, body: Body)

  /** `response.ok`: the status is in the range 200-299. */
  predicate Ok(r: Response) {
    200 <= r.status <= 299
  }

  datatype Kind = Success | Error

  /** The transient message shown at the top of a page. */
  datatype Notification = Notification(message: string, kind: Kind)

  /** A value appended to a multipart `FormData`. `ParsedPrice(p)` stands for
      `parseFloat(p)`, which is left uninterpreted. */
  datatype FormValue =
    | TextValue(text: string)
    | FlagValue(flag: Option<bool>)
    | ParsedPrice(price: Price)
    | FileValue(file: File)

  /** One `FormData` entry: a field name and its value. */
  type Entry = (string, FormValue)
}
