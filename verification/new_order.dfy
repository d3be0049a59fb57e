/** The new-order screen: an editor of item rows that never runs empty, the
    running total shown under it, and the save that checks the customer and
    item names before it hands the order to the orders repository.

    Prices are typed as text and read by the currency parser, which is a
    parameter here (`parseAmount`, giving cents); ids, the clock and the
    current year are parameters too. */
module NewOrder {
  import opened Optional
  import opened JsString
  import Digits
  import Storage
  import Calendar

  /** A row of the editor: the price is still the text typed. */
  datatype ItemDraft = ItemDraft(id: string, name: string, quantity: int, priceText: string)

  /** A new row: no name, quantity 1, no price. */
  function BlankItem(id: string): ItemDraft {
    ItemDraft(id, "", 1, "")
  }

  // ---------------------------------------------------------------- editing rows

  /** `parseInt(text, 10) || 1`: text that is not a number, and zero, give 1. */
  function QuantityFromText(text: string): (q: int)
    ensures q != 0
    ensures ParseInt(text).Some? && ParseInt(text).value != 0 ==> q == ParseInt(text).value
    ensures ParseInt(text).None? || ParseInt(text).value == 0 ==> q == 1
  {
    match ParseInt(text)
    case Some(v) => if v == 0 then 1 else v
    case None => 1
  }

  /** Typing a non-zero number stores that number as the quantity. */
  lemma QuantityReadsBack(q: int)
    requires q != 0
    ensures QuantityFromText(Digits.IntToDecimal(q)) == q
  {
    ParseIntDecimal(q);
  }

  /** One field of one row: `name` and `price` take the text as is,
      `quantity` goes through `QuantityFromText`; any other field name
      leaves the row as it was. */
  function UpdatedItem(item: ItemDraft, field: string, value: string): (r: ItemDraft)
    ensures r.id == item.id
    ensures field == "name" ==> r == item.(name := value)
    ensures field == "quantity" ==> r == item.(quantity := QuantityFromText(value))
    ensures field == "price" ==> r == item.(priceText := value)
    ensures field != "name" && field != "quantity" && field != "price" ==> r == item
  {
    if field == "name" then item.(name := value)
    else if field == "quantity" then item.(quantity := QuantityFromText(value))
    else if field == "price" then item.(priceText := value)
    else item
  }

  /** `s.filter((_, i) => i !== index)`: the row at `index` is dropped, the
      others keep their order; an index off the list drops nothing. */
  function RemoveAt<T>(s: seq<T>, index: int): (r: seq<T>)
    ensures 0 <= index < |s| ==> |r| == |s| - 1
    ensures 0 <= index < |s| ==> forall i :: 0 <= i < index ==> r[i] == s[i]
    ensures 0 <= index < |s| ==> forall i :: index <= i < |r| ==> r[i] == s[i + 1]
    ensures !(0 <= index < |s|) ==> r == s
  {
    if 0 <= index < |s| then s[..index] + s[index + 1..] else s
  }

  // ---------------------------------------------------------------- saving

  /** Why a save is refused. */
  datatype SaveError = MissingCustomerName | MissingItemNames

  /** `items.some((item) => !item.name.trim())`. */
  function SomeNameBlank(items: seq<ItemDraft>): bool {
    if items == [] then false else Trim(items[0].name) == "" || SomeNameBlank(items[1..])
  }

  /** `some` holds exactly when one of the rows has a blank name. */
  lemma {:induction false} SomeNameBlankMeaning(items: seq<ItemDraft>)
    ensures SomeNameBlank(items) <==> exists i :: 0 <= i < |items| && Trim(items[i].name) == ""
    decreases |items|
  {
    if items != [] {
      var rest := items[1..];
      SomeNameBlankMeaning(rest);
      if SomeNameBlank(items) && Trim(items[0].name) != "" {
        var j :| 0 <= j < |rest| && Trim(rest[j].name) == "";
        assert items[j + 1] == rest[j];
      } else if !SomeNameBlank(items) {
        forall i | 1 <= i < |items|
          ensures Trim(items[i].name) != ""
        {
          assert items[i] == rest[i - 1];
        }
      }
    }
  }

  /** The two guards of `saveOrder`, the customer name first. */
  function Validate(customerName: string, items: seq<ItemDraft>): Option<SaveError> {
    if Trim(customerName) == "" then Some(MissingCustomerName)
    else if SomeNameBlank(items) then Some(MissingItemNames)
    else None
  }

  /** A save is refused for a blank customer name first, then for any blank
      item name, and goes ahead exactly when the customer name and every item
      name have something besides white space. */
  lemma ValidateMeaning(customerName: string, items: seq<ItemDraft>)
    ensures Validate(customerName, items) == Some(MissingCustomerName) <==> IsBlank(customerName)
    ensures Validate(customerName, items) == Some(MissingItemNames)
      <==> !IsBlank(customerName) && exists i :: 0 <= i < |items| && IsBlank(items[i].name)
    ensures Validate(customerName, items) == None
      <==> !IsBlank(customerName) && forall i :: 0 <= i < |items| ==> !IsBlank(items[i].name)
  {
    SomeNameBlankMeaning(items);
    TrimEmptyIffBlank(customerName);
    forall i | 0 <= i < |items|
      ensures Trim(items[i].name) == "" <==> IsBlank(items[i].name)
    {
      TrimEmptyIffBlank(items[i].name);
    }
  }

  /** A row as it is stored: trimmed name, the quantity, the parsed price. */
  function ParsedItem(item: ItemDraft, parseAmount: string -> int): Storage.OrderItem {
    Storage.OrderItem(item.id, Trim(item.name), item.quantity, parseAmount(item.priceText))
  }

  /** `items.map(...)`: the rows as stored, one for one and in order. */
  function ParsedItems(items: seq<ItemDraft>, parseAmount: string -> int): (r: seq<Storage.OrderItem>)
    ensures |r| == |items|
    ensures forall i :: 0 <= i < |items| ==> r[i] == ParsedItem(items[i], parseAmount)
  {
    if items == [] then [] else [ParsedItem(items[0], parseAmount)] + ParsedItems(items[1..], parseAmount)
  }

  /** The total shown under the rows: `items.reduce((sum, item) => sum +
      parseAmount(item.priceText) * item.quantity, 0)`, folded from the left. */
  function PreviewTotal(items: seq<ItemDraft>, parseAmount: string -> int): int {
    if items == [] then 0
    else PreviewTotal(items[..|items| - 1], parseAmount) + parseAmount(items[|items| - 1].priceText) * items[|items| - 1].quantity
  }

  /** The total shown before saving is the total the saved order gets. */
  lemma {:induction false} PreviewIsSavedTotal(items: seq<ItemDraft>, parseAmount: string -> int)
    ensures PreviewTotal(items, parseAmount) == Storage.ItemsTotal(ParsedItems(items, parseAmount))
    decreases |items|
  {
    if items != [] {
      var n := |items| - 1;
      var p := ParsedItems(items, parseAmount);
      assert p[..n] == ParsedItems(items[..n], parseAmount);
      PreviewIsSavedTotal(items[..n], parseAmount);
    }
  }

  /** What `saveOrder` hands to `ordersStorage.add`: the text fields trimmed,
      the rows parsed, status open, the order date as picked. */
  function SavedInput(customerName: string, customerEmail: string, customerAddress: string, notes: string,
                      orderDate: string, items: seq<ItemDraft>, parseAmount: string -> int): Storage.OrderInput
  {
    Storage.OrderInput(
      customerName := Trim(customerName),
      customerEmail := Trim(customerEmail),
      customerAddress := Trim(customerAddress),
      items := ParsedItems(items, parseAmount),
      status := Storage.Open,
      notes := Trim(notes),
      orderDate := orderDate)
  }

  /** An order saved from a form that passed both guards has a non-empty
      customer name, status open, one item per row with a non-empty name,
      and the total that was shown. */
  lemma SavedOrderShape(customerName: string, customerEmail: string, customerAddress: string, notes: string,
                        orderDate: string, items: seq<ItemDraft>, parseAmount: string -> int,
                        id: string, invoiceNumber: string, now: string)
    requires Validate(customerName, items) == None
    ensures var o := Storage.CreatedOrder(SavedInput(customerName, customerEmail, customerAddress, notes, orderDate, items, parseAmount), id, invoiceNumber, now);
      o.customerName != "" && o.status == Storage.Open && |o.items| == |items|
      && (forall i :: 0 <= i < |o.items| ==> o.items[i].name != "" && o.items[i].quantity == items[i].quantity)
      && o.total == PreviewTotal(items, parseAmount)
  {
    ValidateMeaning(customerName, items);
    forall i | 0 <= i < |items|
      ensures Trim(items[i].name) != ""
    {
      TrimEmptyIffBlank(items[i].name);
    }
    TrimEmptyIffBlank(customerName);
    var input := SavedInput(customerName, customerEmail, customerAddress, notes, orderDate, items, parseAmount);
    var o := Storage.CreatedOrder(input, id, invoiceNumber, now);
    var parsed := ParsedItems(items, parseAmount);
    assert o.items == parsed;
    forall i | 0 <= i < |parsed|
      ensures parsed[i].name != "" && parsed[i].quantity == items[i].quantity
    {
      assert parsed[i] == ParsedItem(items[i], parseAmount);
    }
    PreviewIsSavedTotal(items, parseAmount);
  }

  // ---------------------------------------------------------------- the form

  /** The screen's state: the customer fields, the order date and the rows. */
  class NewOrderForm {
    var customerName: string
    var customerEmail: string
    var customerAddress: string
    var orderDate: string
    var notes: string
    var items: seq<ItemDraft>

    /** The editor always shows at least one row. */
    predicate Valid()
      reads this
    {
      |items| >= 1
    }

    /** Empty fields, today's date, and one blank row with id "1". */
    constructor (today: Calendar.CalendarDate)
      requires Calendar.ValidDate(today)
      ensures Valid() && items == [BlankItem("1")]
      ensures customerName == "" && customerEmail == "" && customerAddress == "" && notes == ""
      ensures orderDate == Calendar.ToISODate(today)
    {
      customerName, customerEmail, customerAddress, notes := "", "", "", "";
      orderDate := Calendar.ToISODate(today);
      items := [BlankItem("1")];
    }

    /** `addItem`: a blank row at the end; the others are untouched. */
    method AddItem(id: string)
      modifies this`items
      ensures items == old(items) + [BlankItem(id)]
      ensures Valid()
    {
      items := items + [BlankItem(id)];
    }

    /** `updateItem`: one field of the row at `index`, nothing else. */
    method UpdateItem(index: int, field: string, value: string)
      requires 0 <= index < |items|
      modifies this`items
      ensures |items| == |old(items)|
      ensures items == old(items)[index := UpdatedItem(old(items)[index], field, value)]
      ensures old(Valid()) ==> Valid()
    {
      var updated := items;
      updated := updated[index := UpdatedItem(updated[index], field, value)];
      items := updated;
    }

    /** `removeItem`: nothing while a single row is left, otherwise the row
        at `index` goes. */
    method RemoveItem(index: int)
      modifies this`items
      ensures |old(items)| <= 1 ==> items == old(items)
      ensures |old(items)| > 1 ==> items == RemoveAt(old(items), index)
      ensures old(Valid()) ==> Valid()
    {
      if |items| <= 1 {
        return;
      }
      items := RemoveAt(items, index);
    }

    /** `saveOrder`: refused, with the store untouched, when a guard fails;
        otherwise the order built from the trimmed fields and parsed rows is
        added with the next invoice number. */
    method SaveOrder(store: Storage.Store, parseAmount: string -> int, id: string, now: string, year: nat)
      returns (outcome: Result<Storage.Order, SaveError>)
      modifies store`orders, store`invoiceCounter
      ensures outcome.Err? <==> Validate(customerName, items).Some?
      ensures outcome.Err? ==> outcome.error == Validate(customerName, items).value && unchanged(store)
      ensures outcome.Ok? ==> store.invoiceCounter == Some(old(store.Counter()) + 1)
      ensures outcome.Ok? ==> outcome.value == Storage.CreatedOrder(
        SavedInput(customerName, customerEmail, customerAddress, notes, orderDate, items, parseAmount), id,
        Storage.InvoiceNumber(Storage.YearSuffix(year), old(store.Counter()) + 1), now)
      ensures outcome.Ok? ==> store.orders == Some([outcome.value] + old(store.Orders()))
      ensures old(store.OrdersConsistent()) ==> store.OrdersConsistent()
    {
      var error := Validate(customerName, items);
      if error.Some? {
        return Err(error.value);
      }
      var input := SavedInput(customerName, customerEmail, customerAddress, notes, orderDate, items, parseAmount);
      var o := store.AddOrder(input, id, now, year);
      outcome := Ok(o);
    }
  }
}
