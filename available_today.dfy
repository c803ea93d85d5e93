/** The ordering page: the cached list split into the items available today,
    which the page shows, and the items marked unavailable, which it
    computes as `otherItems` but never shows; and the order token shown
    when an item is ordered. */
module AvailableToday {

  import opened Model
  import opened Text
  import Seqs

  /** `food.isAvailable === true`. */
  function IsAvailableToday(): Food -> bool {
    (food: Food) => food.isAvailable == Some(true)
  }

  /** `food.isAvailable === false`. */
  function IsOther(): Food -> bool {
    (food: Food) => food.isAvailable == Some(false)
  }

  /** `availableTodayItems`, the list the page shows. */
  function AvailableItems(foods: seq<Food>): (r: seq<Food>)
    ensures |r| <= |foods|
    ensures forall k :: 0 <= k < |r| ==> r[k] in foods && r[k].isAvailable == Some(true)
  {
    Seqs.Filter(foods, IsAvailableToday())
  }

  /** `otherItems`: computed by the page, but nothing renders it. */
  function OtherItems(foods: seq<Food>): (r: seq<Food>)
    ensures |r| <= |foods|
    ensures forall k :: 0 <= k < |r| ==> r[k] in foods && r[k].isAvailable == Some(false)
  {
    Seqs.Filter(foods, IsOther())
  }

  /** Each list holds exactly the cached items with its flag value; an item
      with no flag is in neither. */
  lemma SplitMembers(foods: seq<Food>)
    ensures forall f :: f in AvailableItems(foods) <==> f in foods && f.isAvailable == Some(true)
    ensures forall f :: f in OtherItems(foods) <==> f in foods && f.isAvailable == Some(false)
  {
    Seqs.FilterMembers(foods, IsAvailableToday());
    Seqs.FilterMembers(foods, IsOther());
  }

  /** Each list is the cached list at exactly the positions whose flag has
      its value, in the cached order: `available` and `other` are those
      positions. */
  lemma SplitKeepsOrder(foods: seq<Food>) returns (available: seq<nat>, other: seq<nat>)
    ensures Seqs.Embeds(AvailableItems(foods), foods, available)
    ensures forall i :: 0 <= i < |foods| ==> (foods[i].isAvailable == Some(true) <==> i in available)
    ensures Seqs.Embeds(OtherItems(foods), foods, other)
    ensures forall i :: 0 <= i < |foods| ==> (foods[i].isAvailable == Some(false) <==> i in other)
  {
    available := Seqs.FilterSelects(foods, IsAvailableToday());
    other := Seqs.FilterSelects(foods, IsOther());
  }

  /** No item is in both lists. */
  lemma SplitDisjoint(foods: seq<Food>)
    ensures forall f :: f in AvailableItems(foods) ==> f !in OtherItems(foods)
  {
    SplitMembers(foods);
  }

  /** When every item has its flag set, the two lists together are the
      whole cached list: their lengths add up and no item is lost or
      repeated. */
  lemma SplitPartition(foods: seq<Food>)
    requires forall i :: 0 <= i < |foods| ==> foods[i].isAvailable.Some?
    ensures |AvailableItems(foods)| + |OtherItems(foods)| == |foods|
    ensures multiset(AvailableItems(foods)) + multiset(OtherItems(foods)) == multiset(foods)
  {
    forall x | x in foods
      ensures IsAvailableToday()(x) != IsOther()(x)
    {
      var i :| 0 <= i < |foods| && foods[i] == x;
      if x.isAvailable.value {
        assert x.isAvailable == Some(true);
      } else {
        assert x.isAvailable == Some(false);
      }
    }
    Seqs.FilterSplits(foods, IsAvailableToday(), IsOther());
  }

  /** `Math.floor(random * 10000)` for a `Math.random()` value. */
  function RandomSuffix(random: real): (r: nat)
    requires 0.0 <= random < 1.0
    ensures r < 10000
    ensures r as real <= random * 10000.0 < r as real + 1.0
  {
    (random * 10000.0).Floor
  }

  /** The token `handleOrder` builds from the clock (`Date.now()`, in
      milliseconds) and a random number in [0, 1). */
  function OrderToken(now: nat, random: real): (token: string)
    requires 0.0 <= random < 1.0
    ensures |token| > 4 && token[..4] == "ORD-"
  {
    "ORD-" + Decimal(now) + "-" + Decimal(RandomSuffix(random))
  }

  /** The success notification of an order. */
  function OrderNotification(now: nat, random: real): (n: Notification)
    requires 0.0 <= random < 1.0
    ensures n.kind == Success
    ensures n.message == "Order placed successfully! Token: " + OrderToken(now, random)
  {
    Notification("Order placed successfully! Token: " + OrderToken(now, random), Success)
  }

  /** The text shown for an item's ingredients. */
  function IngredientsText(food: Food): (text: string)
    ensures food.ingredients != "" ==> text == food.ingredients
    ensures food.ingredients == "" ==> text == "No ingredients listed"
  {
    if food.ingredients != "" then food.ingredients else "No ingredients listed"
  }

  /** The position of the first `c` in `s`, if any. */
  function FirstIndexOf(s: string, c: char): (r: Option<nat>)
    ensures r.Some? ==> r.value < |s| && s[r.value] == c && forall j :: 0 <= j < r.value ==> s[j] != c
    ensures r.None? ==> forall j :: 0 <= j < |s| ==> s[j] != c
  {
    if s == [] then None
    else if s[0] == c then Some(0)
    else match FirstIndexOf(s[1..], c)
      case None => None
      case Some(k) => Some(k + 1)
  }

  /** Reads a token back into its clock and random parts. */
  function ParseOrderToken(token: string): Option<(nat, nat)> {
    if |token| < 4 || token[..4] != "ORD-" then None
    else
      var rest := token[4..];
      match FirstIndexOf(rest, '-')
      case None => None
      case Some(k) =>
        match (ParseDecimal(rest[..k]), ParseDecimal(rest[k + 1..]))
        case (Some(t), Some(r)) => Some((t, r))
        case _ => None
  }

  /** A token carries its clock value and its random part unchanged, the
      random part below 10000: the two numbers can be read back from it. */
  lemma OrderTokenRoundTrip(now: nat, random: real)
    requires 0.0 <= random < 1.0
    ensures ParseOrderToken(OrderToken(now, random)) == Some((now, RandomSuffix(random)))
    ensures RandomSuffix(random) < 10000
  {
    var t := Decimal(now);
    var r := Decimal(RandomSuffix(random));
    var token := OrderToken(now, random);
    var rest := token[4..];
    assert rest == t + "-" + r;
    var k := FirstIndexOf(rest, '-');
    assert rest[|t|] == '-';
    assert forall j :: 0 <= j < |t| ==> rest[j] == t[j] && IsDigit(rest[j]);
    assert k.Some? && k.value == |t|;
    assert rest[..|t|] == t;
    assert rest[|t| + 1..] == r;
    DecimalRoundTrip(now);
    DecimalRoundTrip(RandomSuffix(random));
  }
}
