/** The persistence layer: repositories for orders, market events, market
    sales and expenses, each keeping its whole collection under one key of a
    string key/value store, plus the invoice counter, the company profile and
    settings singletons, and whole-store export, import and clear.

    The store is a `Store` object with one field per key; `None` is an absent
    key. A value is held as the record it encodes: serialisation is taken to
    be lossless. Every repository call reads its key, computes the new
    collection and writes it back, as one atomic step. */
module Storage {
  import opened Optional
  import opened Digits
  import opened JsString
  import Collections

  // ---------------------------------------------------------------- records

  datatype Status = Open | Paid | Shipped | Delivered | Cancelled

  /** A line of an order; `price` is the unit price in cents. */
  datatype OrderItem = OrderItem(id: string, name: string, quantity: int, price: int)

  datatype Order = Order(
    id: string,
    customerName: string,
    customerEmail: string,
    customerAddress: string,
    items: seq<OrderItem>,
    status: Status,
    invoiceNumber: string,
    notes: string,
    orderDate: string,
    createdAt: string,
    updatedAt: string,
    total: int)

  /** What `ordersStorage.add` is given: an order without id, invoice number,
      timestamps and total. */
  datatype OrderInput = OrderInput(
    customerName: string,
    customerEmail: string,
    customerAddress: string,
    items: seq<OrderItem>,
    status: Status,
    notes: string,
    orderDate: string)

  /** A `Partial<Order>`: `None` is a field the update does not mention. */
  datatype OrderChanges = OrderChanges(
    id: Option<string>,
    customerName: Option<string>,
    customerEmail: Option<string>,
    customerAddress: Option<string>,
    items: Option<seq<OrderItem>>,
    status: Option<Status>,
    invoiceNumber: Option<string>,
    notes: Option<string>,
    orderDate: Option<string>,
    createdAt: Option<string>,
    updatedAt: Option<string>,
    total: Option<int>)

  datatype MarketEvent = MarketEvent(
    id: string,
    name: string,
    date: string,
    location: string,
    standFee: int,
    travelCost: int,
    notes: string,
    createdAt: string)

  datatype MarketInput = MarketInput(
    name: string,
    date: string,
    location: string,
    standFee: int,
    travelCost: int,
    notes: string)

  datatype MarketChanges = MarketChanges(
    id: Option<string>,
    name: Option<string>,
    date: Option<string>,
    location: Option<string>,
    standFee: Option<int>,
    travelCost: Option<int>,
    notes: Option<string>,
    createdAt: Option<string>)

  datatype MarketSale = MarketSale(
    id: string,
    marketId: string,
    description: string,
    amount: int,
    quantity: int,
    createdAt: string)

  datatype SaleInput = SaleInput(marketId: string, description: string, amount: int, quantity: int)

  datatype Expense = Expense(
    id: string,
    description: string,
    amount: int,
    category: string,
    date: string,
    expenseDate: string,
    createdAt: string)

  datatype ExpenseInput = ExpenseInput(
    description: string,
    amount: int,
    category: string,
    date: string,
    expenseDate: string)

  datatype CompanyProfile = CompanyProfile(name: string, address: string, email: string, phone: string, taxNote: string)

  datatype Theme = Light | Dark | System

  datatype AppSettings = AppSettings(theme: Theme, currency: string)

  const DefaultProfile := CompanyProfile("", "", "", "", "")

  const DefaultSettings := AppSettings(System, "\U{20AC}")

  function OrderId(o: Order): string { o.id }
  function MarketEventId(m: MarketEvent): string { m.id }
  function SaleId(s: MarketSale): string { s.id }
  function SaleMarketId(s: MarketSale): string { s.marketId }
  function ExpenseId(e: Expense): string { e.id }

  // ---------------------------------------------------------------- orders

  /** `items.reduce((sum, item) => sum + item.price * item.quantity, 0)`, folded from the left. */
  function ItemsTotal(items: seq<OrderItem>): int {
    if items == [] then 0
    else ItemsTotal(items[..|items| - 1]) + items[|items| - 1].price * items[|items| - 1].quantity
  }

  /** The total of a concatenation is the sum of the totals. */
  lemma {:induction false} ItemsTotalConcat(a: seq<OrderItem>, b: seq<OrderItem>)
    ensures ItemsTotal(a + b) == ItemsTotal(a) + ItemsTotal(b)
    decreases |b|
  {
    if b == [] {
      assert a + b == a;
    } else {
      assert (a + b)[..|a + b| - 1] == a + b[..|b| - 1];
      ItemsTotalConcat(a, b[..|b| - 1]);
    }
  }

  /** The total is the sum of the line totals taken first to last. */
  lemma ItemsTotalFirst(items: seq<OrderItem>)
    requires items != []
    ensures ItemsTotal(items) == items[0].price * items[0].quantity + ItemsTotal(items[1..])
  {
    assert items == [items[0]] + items[1..];
    ItemsTotalConcat([items[0]], items[1..]);
    assert [items[0]][..0] == [];
  }

  /** The invariant an order keeps at rest. */
  predicate TotalConsistent(o: Order) { o.total == ItemsTotal(o.items) }

  /** The record `ordersStorage.add` builds: fresh id, invoice number and
      timestamps, the computed total, and `now` for an empty order date. */
  function CreatedOrder(input: OrderInput, id: string, invoiceNumber: string, now: string): (o: Order)
    ensures TotalConsistent(o)
    ensures o.id == id && o.invoiceNumber == invoiceNumber
    ensures o.createdAt == now && o.updatedAt == now
    ensures o.orderDate == if input.orderDate != "" then input.orderDate else now
    ensures o.customerName == input.customerName && o.customerEmail == input.customerEmail
    ensures o.customerAddress == input.customerAddress && o.items == input.items
    ensures o.status == input.status && o.notes == input.notes
  {
    Order(
      id := id,
      customerName := input.customerName,
      customerEmail := input.customerEmail,
      customerAddress := input.customerAddress,
      items := input.items,
      status := input.status,
      invoiceNumber := invoiceNumber,
      notes := input.notes,
      orderDate := if input.orderDate != "" then input.orderDate else now,
      createdAt := now,
      updatedAt := now,
      total := ItemsTotal(input.items))
  }

  /** `{ ...order, ...changes, updatedAt: now }`, where supplied items
      override any supplied total with their recomputed sum. */
  function ApplyOrderChanges(o: Order, ch: OrderChanges, now: string): (r: Order)
    ensures r.updatedAt == now
    ensures ch.items.Some? ==> r.items == ch.items.value && TotalConsistent(r)
    ensures ch.items.None? ==> r.items == o.items && r.total == ch.total.GetOr(o.total)
    ensures r.id == ch.id.GetOr(o.id) && r.status == ch.status.GetOr(o.status)
    ensures r.customerName == ch.customerName.GetOr(o.customerName)
    ensures r.customerEmail == ch.customerEmail.GetOr(o.customerEmail)
    ensures r.customerAddress == ch.customerAddress.GetOr(o.customerAddress)
    ensures r.invoiceNumber == ch.invoiceNumber.GetOr(o.invoiceNumber)
    ensures r.notes == ch.notes.GetOr(o.notes) && r.orderDate == ch.orderDate.GetOr(o.orderDate)
    ensures r.createdAt == ch.createdAt.GetOr(o.createdAt)
  {
    var total := if ch.items.Some? then ItemsTotal(ch.items.value) else ch.total.GetOr(o.total);
    Order(
      id := ch.id.GetOr(o.id),
      customerName := ch.customerName.GetOr(o.customerName),
      customerEmail := ch.customerEmail.GetOr(o.customerEmail),
      customerAddress := ch.customerAddress.GetOr(o.customerAddress),
      items := ch.items.GetOr(o.items),
      status := ch.status.GetOr(o.status),
      invoiceNumber := ch.invoiceNumber.GetOr(o.invoiceNumber),
      notes := ch.notes.GetOr(o.notes),
      orderDate := ch.orderDate.GetOr(o.orderDate),
      createdAt := ch.createdAt.GetOr(o.createdAt),
      updatedAt := now,
      total := total)
  }

  /** An update that names only a status. */
  function StatusChange(s: Status): OrderChanges {
    OrderChanges(None, None, None, None, None, Some(s), None, None, None, None, None, None)
  }

  /** Changing the status changes the status and the update stamp, nothing else. */
  lemma StatusChangeOnly(o: Order, s: Status, now: string)
    ensures ApplyOrderChanges(o, StatusChange(s), now) == o.(status := s, updatedAt := now)
  {
  }

  /** An update keeps the total consistent unless it sets a total without items. */
  lemma ChangesKeepTotalConsistent(o: Order, ch: OrderChanges, now: string)
    requires TotalConsistent(o)
    requires ch.items.Some? || ch.total.None?
    ensures TotalConsistent(ApplyOrderChanges(o, ch, now))
  {
  }

  // ---------------------------------------------------------------- markets, sales, expenses

  function CreatedMarket(input: MarketInput, id: string, now: string): (m: MarketEvent)
    ensures m.id == id && m.createdAt == now
    ensures m.name == input.name && m.date == input.date && m.location == input.location
    ensures m.standFee == input.standFee && m.travelCost == input.travelCost && m.notes == input.notes
  {
    MarketEvent(id, input.name, input.date, input.location, input.standFee, input.travelCost, input.notes, now)
  }

  /** `{ ...market, ...changes }`: market events get no update stamp. */
  function ApplyMarketChanges(m: MarketEvent, ch: MarketChanges): (r: MarketEvent)
    ensures r.id == ch.id.GetOr(m.id) && r.name == ch.name.GetOr(m.name)
    ensures r.date == ch.date.GetOr(m.date) && r.location == ch.location.GetOr(m.location)
    ensures r.standFee == ch.standFee.GetOr(m.standFee) && r.travelCost == ch.travelCost.GetOr(m.travelCost)
    ensures r.notes == ch.notes.GetOr(m.notes) && r.createdAt == ch.createdAt.GetOr(m.createdAt)
  {
    MarketEvent(
      ch.id.GetOr(m.id), ch.name.GetOr(m.name), ch.date.GetOr(m.date), ch.location.GetOr(m.location),
      ch.standFee.GetOr(m.standFee), ch.travelCost.GetOr(m.travelCost), ch.notes.GetOr(m.notes),
      ch.createdAt.GetOr(m.createdAt))
  }

  function CreatedSale(input: SaleInput, id: string, now: string): (s: MarketSale)
    ensures s.id == id && s.createdAt == now && s.marketId == input.marketId
    ensures s.description == input.description && s.amount == input.amount && s.quantity == input.quantity
  {
    MarketSale(id, input.marketId, input.description, input.amount, input.quantity, now)
  }

  /** `now.split("T")[0]`: the text of `now` before its first `T`. */
  function DatePart(now: string): (r: string)
    ensures |r| <= |now| && r == now[..|r|]
    ensures forall i :: 0 <= i < |r| ==> r[i] != 'T'
    ensures |r| < |now| ==> now[|r|] == 'T'
  {
    if now == [] || now[0] == 'T' then []
    else
      var r := [now[0]] + DatePart(now[1..]);
      assert now[..|r|] == [now[0]] + now[1..][..|r| - 1];
      r
  }

  /** The record `expensesStorage.add` builds; its `expenseDate` falls back
      to the legacy `date`, then to the date part of `now`. */
  function CreatedExpense(input: ExpenseInput, id: string, now: string): (e: Expense)
    ensures e.id == id && e.createdAt == now
    ensures e.description == input.description && e.amount == input.amount
    ensures e.category == input.category && e.date == input.date
    ensures input.expenseDate != "" ==> e.expenseDate == input.expenseDate
    ensures input.expenseDate == "" && input.date != "" ==> e.expenseDate == input.date
    ensures input.expenseDate == "" && input.date == "" ==> e.expenseDate == DatePart(now)
  {
    var expenseDate :=
      if input.expenseDate != "" then input.expenseDate
      else if input.date != "" then input.date
      else DatePart(now);
    Expense(id, input.description, input.amount, input.category, input.date, expenseDate, now)
  }

  // ---------------------------------------------------------------- invoice numbers

  /** The last decimal digit of a numeral is the number modulo 10. */
  lemma LastDigit(n: nat)
    ensures var s := NatToDecimal(n); s[|s| - 1] == DigitChar(n % 10)
  {
  }

  /** `getFullYear().toString().slice(-2)`: the last two digits of the year. */
  function YearSuffix(year: nat): (yy: string)
    ensures AllDigits(yy) && |yy| == (if year < 10 then 1 else 2)
    ensures DigitsValue(yy) == year % 100
  {
    var s := NatToDecimal(year);
    if year < 10 then
      NatToDecimalValue(year);
      s
    else
      YearSuffixValue(year);
      s[|s| - 2..]
  }

  lemma YearSuffixValue(year: nat)
    requires year >= 10
    ensures var s := NatToDecimal(year); |s| >= 2 && DigitsValue(s[|s| - 2..]) == year % 100
  {
    var q := year / 10;
    var a, b := DigitChar(q % 10), DigitChar(year % 10);
    LastDigit(q);
    LastPair(NatToDecimal(q), a, b);
    PairValue(a, b);
    DigitRoundTrip(q % 10);
    DigitRoundTrip(year % 10);
    LastTwoDigits(year);
  }

  /** The last two characters of `p + [b]`. */
  lemma LastPair(p: string, a: char, b: char)
    requires |p| >= 1 && p[|p| - 1] == a
    ensures (p + [b])[|p| - 1..] == [a, b]
  {
  }

  /** Two digits read as a number. */
  lemma PairValue(a: char, b: char)
    requires IsDigit(a) && IsDigit(b)
    ensures DigitsValue([a, b]) == DigitValue(a) * 10 + DigitValue(b)
  {
    var t := [a, b];
    assert t[..1] == [a];
    assert [a][..0] == [];
    calc {
      DigitsValue(t);
      DigitsValue(t[..1]) * 10 + DigitValue(b);
      DigitsValue([a]) * 10 + DigitValue(b);
      (DigitsValue([a][..0]) * 10 + DigitValue(a)) * 10 + DigitValue(b);
    }
  }

  lemma DigitRoundTrip(d: nat)
    requires d < 10
    ensures DigitValue(DigitChar(d)) == d
  {
  }

  /** The tens digit and the units digit make up the value modulo 100. */
  lemma LastTwoDigits(year: nat)
    ensures ((year / 10) % 10) * 10 + year % 10 == year % 100
  {
    var q, r1 := year / 10, year % 10;
    var q2, r2 := q / 10, q % 10;
    assert year == 10 * q + r1 && 0 <= r1 < 10;
    assert q == 10 * q2 + r2 && 0 <= r2 < 10;
    assert year == 100 * q2 + (10 * r2 + r1);
    ModOfDecomposition(year, q2, 10 * r2 + r1);
  }

  lemma ModOfDecomposition(a: nat, q: nat, r: nat)
    requires a == 100 * q + r && r < 100
    ensures a % 100 == r
  {
  }

  /** `next.toString().padStart(3, "0")`: at least three digits, never
      truncated, reading back as the counter value. */
  function CounterText(n: nat): (r: string)
    ensures |r| >= 3 && AllDigits(r)
    ensures DigitsValue(r) == n
    ensures |r| >= |NatToDecimal(n)| && r[|r| - |NatToDecimal(n)|..] == NatToDecimal(n)
  {
    var d := NatToDecimal(n);
    NatToDecimalValue(n);
    ZeroPaddedValue(d, 3);
    PadStart(d, 3, '0')
  }

  /** `${year}-${counter}`: the number printed on an invoice. */
  function InvoiceNumber(yy: string, n: nat): string {
    yy + "-" + CounterText(n)
  }

  /** Distinct counters give distinct invoice numbers, whatever the year
      prefixes: a number is never reused once the counter has moved on. */
  lemma InvoiceNumberInjective(y1: string, a: nat, y2: string, b: nat)
    requires AllDigits(y1) && AllDigits(y2)
    requires InvoiceNumber(y1, a) == InvoiceNumber(y2, b)
    ensures y1 == y2 && a == b
  {
    SplitAtDash(y1, CounterText(a), y2, CounterText(b));
  }

  /** A digit string, a dash and anything: the dash is where the digits stop. */
  lemma SplitAtDash(y1: string, c1: string, y2: string, c2: string)
    requires AllDigits(y1) && AllDigits(y2)
    requires y1 + "-" + c1 == y2 + "-" + c2
    ensures y1 == y2 && c1 == c2
  {
    var s := y1 + "-" + c1;
    assert s[|y1|] == '-' && s[|y2|] == '-';
    assert y1 == s[..|y1|] == y2;
    assert c1 == s[|y1| + 1..] == c2;
  }

  // ---------------------------------------------------------------- whole-store views

  /** What the getters observe: the collections (absent key: empty), the
      singletons (absent key: defaults) and the raw counter. */
  datatype Snapshot = Snapshot(
    orders: seq<Order>,
    markets: seq<MarketEvent>,
    marketSales: seq<MarketSale>,
    expenses: seq<Expense>,
    profile: CompanyProfile,
    settings: AppSettings,
    invoiceCounter: Option<nat>)

  const EmptySnapshot := Snapshot([], [], [], [], DefaultProfile, DefaultSettings, None)

  /** The `data` section of a backup; `None` is a section the file lacks. */
  datatype BackupData = BackupData(
    orders: Option<seq<Order>>,
    markets: Option<seq<MarketEvent>>,
    marketSales: Option<seq<MarketSale>>,
    expenses: Option<seq<Expense>>,
    profile: Option<CompanyProfile>,
    settings: Option<AppSettings>,
    invoiceCounter: Option<nat>)

  datatype Backup = Backup(version: int, exportDate: string, data: BackupData)

  /** The data `exportAllData` writes for a store observed as `v`. */
  function Exported(v: Snapshot): BackupData {
    BackupData(Some(v.orders), Some(v.markets), Some(v.marketSales), Some(v.expenses),
               Some(v.profile), Some(v.settings), v.invoiceCounter)
  }

  /** The store observed after importing `d` over a store observed as `v`:
      each section present overwrites, each absent one is left alone. */
  function Imported(v: Snapshot, d: BackupData): Snapshot {
    Snapshot(
      d.orders.GetOr(v.orders),
      d.markets.GetOr(v.markets),
      d.marketSales.GetOr(v.marketSales),
      d.expenses.GetOr(v.expenses),
      d.profile.GetOr(v.profile),
      d.settings.GetOr(v.settings),
      if d.invoiceCounter.Some? then d.invoiceCounter else v.invoiceCounter)
  }

  /** The raw contents of the seven storage keys; `None` is an absent key. */
  datatype StoredKeys = StoredKeys(
    orders: Option<seq<Order>>,
    markets: Option<seq<MarketEvent>>,
    marketSales: Option<seq<MarketSale>>,
    expenses: Option<seq<Expense>>,
    profile: Option<CompanyProfile>,
    settings: Option<AppSettings>,
    invoiceCounter: Option<nat>)

  /** What the getters observe for raw key contents `k`. */
  function KeysView(k: StoredKeys): Snapshot {
    Snapshot(k.orders.GetOr([]), k.markets.GetOr([]), k.marketSales.GetOr([]), k.expenses.GetOr([]),
             k.profile.GetOr(DefaultProfile), k.settings.GetOr(DefaultSettings), k.invoiceCounter)
  }

  /** The raw keys after `importAllData` writes the sections `d` holds. */
  function ImportKeys(k: StoredKeys, d: BackupData): StoredKeys {
    StoredKeys(
      if d.orders.Some? then d.orders else k.orders,
      if d.markets.Some? then d.markets else k.markets,
      if d.marketSales.Some? then d.marketSales else k.marketSales,
      if d.expenses.Some? then d.expenses else k.expenses,
      if d.profile.Some? then d.profile else k.profile,
      if d.settings.Some? then d.settings else k.settings,
      if d.invoiceCounter.Some? then d.invoiceCounter else k.invoiceCounter)
  }

  /** Writing the sections of a backup into the keys is what `Imported`
      describes on the observed store. */
  lemma ImportedView(k: StoredKeys, d: BackupData)
    ensures KeysView(ImportKeys(k, d)) == Imported(KeysView(k), d)
  {
  }

  /** Importing an export of `v` into any store `w` restores every collection,
      the profile and the settings of `v`; the counter too when `v` had one. */
  lemma ExportImportRoundTrip(v: Snapshot, w: Snapshot)
    ensures Imported(w, Exported(v)).(invoiceCounter := v.invoiceCounter) == v
    ensures v.invoiceCounter.Some? ==> Imported(w, Exported(v)) == v
    ensures Imported(v, Exported(v)) == v
  {
  }

  // ---------------------------------------------------------------- the store

  class Store {
    var orders: Option<seq<Order>>
    var markets: Option<seq<MarketEvent>>
    var marketSales: Option<seq<MarketSale>>
    var expenses: Option<seq<Expense>>
    var profile: Option<CompanyProfile>
    var settings: Option<AppSettings>
    var invoiceCounter: Option<nat>

    /** A store with no key set. */
    constructor ()
      ensures orders == None && markets == None && marketSales == None && expenses == None
      ensures profile == None && settings == None && invoiceCounter == None
      ensures View() == EmptySnapshot
    {
      orders, markets, marketSales, expenses := None, None, None, None;
      profile, settings, invoiceCounter := None, None, None;
    }

    /** `ordersStorage.getAll`: an absent key reads as the empty collection. */
    function Orders(): (r: seq<Order>)
      reads this
      ensures orders.None? ==> r == []
      ensures orders.Some? ==> r == orders.value
    {
      orders.GetOr([])
    }

    function Markets(): (r: seq<MarketEvent>)
      reads this
      ensures markets.None? ==> r == []
      ensures markets.Some? ==> r == markets.value
    {
      markets.GetOr([])
    }

    function Sales(): (r: seq<MarketSale>)
      reads this
      ensures marketSales.None? ==> r == []
      ensures marketSales.Some? ==> r == marketSales.value
    {
      marketSales.GetOr([])
    }

    function Expenses(): (r: seq<Expense>)
      reads this
      ensures expenses.None? ==> r == []
      ensures expenses.Some? ==> r == expenses.value
    {
      expenses.GetOr([])
    }

    /** `profileStorage.get`: an absent key reads as the all-empty profile. */
    function Profile(): (p: CompanyProfile)
      reads this
      ensures profile.None? ==> p == DefaultProfile
      ensures profile.Some? ==> p == profile.value
    {
      profile.GetOr(DefaultProfile)
    }

    /** `settingsStorage.get`: an absent key reads as system theme and euro. */
    function Settings(): (s: AppSettings)
      reads this
      ensures settings.None? ==> s == DefaultSettings
      ensures settings.Some? ==> s == settings.value
    {
      settings.GetOr(DefaultSettings)
    }

    /** The counter as `getNextInvoiceNumber` reads it: 0 when absent. */
    function Counter(): nat
      reads this
    {
      invoiceCounter.GetOr(0)
    }

    function View(): Snapshot
      reads this
    {
      Snapshot(Orders(), Markets(), Sales(), Expenses(), Profile(), Settings(), invoiceCounter)
    }

    /** The raw contents of the seven keys. */
    function Keys(): (k: StoredKeys)
      reads this
      ensures KeysView(k) == View()
    {
      StoredKeys(orders, markets, marketSales, expenses, profile, settings, invoiceCounter)
    }

    /** Every stored order's total matches its items. */
    predicate OrdersConsistent()
      reads this
    {
      forall i :: 0 <= i < |Orders()| ==> TotalConsistent(Orders()[i])
    }

    // -------------------------------------------------- invoice counter

    /** Moves the counter from c (0 when absent) to c + 1 and returns the
        invoice number for c + 1. */
    method GetNextInvoiceNumber(year: nat) returns (s: string)
      modifies this`invoiceCounter
      ensures invoiceCounter == Some(old(Counter()) + 1)
      ensures s == InvoiceNumber(YearSuffix(year), old(Counter()) + 1)
    {
      var counter := Counter();
      var next := counter + 1;
      invoiceCounter := Some(next);
      s := InvoiceNumber(YearSuffix(year), next);
    }

    // -------------------------------------------------- orders

    method SaveOrders(s: seq<Order>)
      modifies this`orders
      ensures orders == Some(s)
    {
      orders := Some(s);
    }

    /** Prepends the created order and takes the next invoice number. */
    method AddOrder(input: OrderInput, id: string, now: string, year: nat) returns (o: Order)
      modifies this`orders, this`invoiceCounter
      ensures invoiceCounter == Some(old(Counter()) + 1)
      ensures o == CreatedOrder(input, id, InvoiceNumber(YearSuffix(year), old(Counter()) + 1), now)
      ensures orders == Some([o] + old(Orders()))
      ensures old(OrdersConsistent()) ==> OrdersConsistent()
    {
      var current := Orders();
      var invoiceNumber := GetNextInvoiceNumber(year);
      o := CreatedOrder(input, id, invoiceNumber, now);
      orders := Some([o] + current);
    }

    /** Merges `changes` into the first order with that id and stamps it;
        with no such order, nothing is written and `None` is returned. */
    method UpdateOrder(id: string, changes: OrderChanges, now: string) returns (r: Option<Order>)
      modifies this`orders
      ensures var i := Collections.IndexOfKey(old(Orders()), OrderId, id);
        i == -1 ==> r == None && orders == old(orders)
      ensures var i := Collections.IndexOfKey(old(Orders()), OrderId, id);
        i != -1 ==> r == Some(ApplyOrderChanges(old(Orders())[i], changes, now)) && orders == Some(old(Orders())[i := r.value])
      ensures old(OrdersConsistent()) && (changes.items.Some? || changes.total.None?) ==> OrdersConsistent()
    {
      var current := Orders();
      var index := Collections.IndexOfKey(current, OrderId, id);
      if index == -1 {
        return None;
      }
      var updated := ApplyOrderChanges(current[index], changes, now);
      if TotalConsistent(current[index]) && (changes.items.Some? || changes.total.None?) {
        ChangesKeepTotalConsistent(current[index], changes, now);
      }
      orders := Some(current[index := updated]);
      r := Some(updated);
    }

    /** Writes back the orders without any record of that id. */
    method DeleteOrder(id: string)
      modifies this`orders
      ensures orders == Some(Collections.WithoutKey(old(Orders()), OrderId, id))
      ensures old(OrdersConsistent()) ==> OrdersConsistent()
    {
      var current := Orders();
      Collections.WithoutKeyContents(current, OrderId, id);
      orders := Some(Collections.WithoutKey(current, OrderId, id));
    }

    // -------------------------------------------------- market events

    method SaveMarkets(s: seq<MarketEvent>)
      modifies this`markets
      ensures markets == Some(s)
    {
      markets := Some(s);
    }

    method AddMarket(input: MarketInput, id: string, now: string) returns (m: MarketEvent)
      modifies this`markets
      ensures m == CreatedMarket(input, id, now)
      ensures markets == Some([m] + old(Markets()))
    {
      var current := Markets();
      m := CreatedMarket(input, id, now);
      markets := Some([m] + current);
    }

    method UpdateMarket(id: string, changes: MarketChanges) returns (r: Option<MarketEvent>)
      modifies this`markets
      ensures var i := Collections.IndexOfKey(old(Markets()), MarketEventId, id);
        i == -1 ==> r == None && markets == old(markets)
      ensures var i := Collections.IndexOfKey(old(Markets()), MarketEventId, id);
        i != -1 ==> r == Some(ApplyMarketChanges(old(Markets())[i], changes)) && markets == Some(old(Markets())[i := r.value])
    {
      var current := Markets();
      var index := Collections.IndexOfKey(current, MarketEventId, id);
      if index == -1 {
        return None;
      }
      var updated := ApplyMarketChanges(current[index], changes);
      markets := Some(current[index := updated]);
      r := Some(updated);
    }

    method DeleteMarket(id: string)
      modifies this`markets
      ensures markets == Some(Collections.WithoutKey(old(Markets()), MarketEventId, id))
    {
      var current := Markets();
      markets := Some(Collections.WithoutKey(current, MarketEventId, id));
    }

    // -------------------------------------------------- market sales

    /** The sales of one market, in stored order. */
    method GetByMarket(marketId: string) returns (r: seq<MarketSale>)
      ensures r == Collections.WithKey(Sales(), SaleMarketId, marketId)
    {
      var current := Sales();
      r := Collections.WithKey(current, SaleMarketId, marketId);
    }

    method AddSale(input: SaleInput, id: string, now: string) returns (s: MarketSale)
      modifies this`marketSales
      ensures s == CreatedSale(input, id, now)
      ensures marketSales == Some([s] + old(Sales()))
    {
      var current := Sales();
      s := CreatedSale(input, id, now);
      marketSales := Some([s] + current);
    }

    method DeleteSale(id: string)
      modifies this`marketSales
      ensures marketSales == Some(Collections.WithoutKey(old(Sales()), SaleId, id))
    {
      var current := Sales();
      marketSales := Some(Collections.WithoutKey(current, SaleId, id));
    }

    // -------------------------------------------------- expenses

    method SaveExpenses(s: seq<Expense>)
      modifies this`expenses
      ensures expenses == Some(s)
    {
      expenses := Some(s);
    }

    method AddExpense(input: ExpenseInput, id: string, now: string) returns (e: Expense)
      modifies this`expenses
      ensures e == CreatedExpense(input, id, now)
      ensures expenses == Some([e] + old(Expenses()))
    {
      var current := Expenses();
      e := CreatedExpense(input, id, now);
      expenses := Some([e] + current);
    }

    method DeleteExpense(id: string)
      modifies this`expenses
      ensures expenses == Some(Collections.WithoutKey(old(Expenses()), ExpenseId, id))
    {
      var current := Expenses();
      expenses := Some(Collections.WithoutKey(current, ExpenseId, id));
    }

    // -------------------------------------------------- singletons

    method SaveProfile(p: CompanyProfile)
      modifies this`profile
      ensures profile == Some(p)
    {
      profile := Some(p);
    }

    method SaveSettings(s: AppSettings)
      modifies this`settings
      ensures settings == Some(s)
    {
      settings := Some(s);
    }

    // -------------------------------------------------- backup, restore, reset

    method ExportAllData(exportDate: string) returns (b: Backup)
      ensures b.version == 1 && b.exportDate == exportDate
      ensures b.data == Exported(View())
    {
      var data := BackupData(Some(Orders()), Some(Markets()), Some(Sales()), Some(Expenses()),
                             Some(Profile()), Some(Settings()), invoiceCounter);
      b := Backup(1, exportDate, data);
    }

    /** Overwrites exactly the sections the backup holds; the version is not checked. */
    method ImportAllData(b: Backup)
      modifies this
      ensures Keys() == ImportKeys(old(Keys()), b.data)
      ensures View() == Imported(old(View()), b.data)
    {
      ghost var k0 := Keys();
      var k := ImportKeys(Keys(), b.data);
      orders, markets, marketSales, expenses := k.orders, k.markets, k.marketSales, k.expenses;
      profile, settings, invoiceCounter := k.profile, k.settings, k.invoiceCounter;
      ImportedView(k0, b.data);
    }

    /** Removes all seven keys. */
    method ClearAllData()
      modifies this
      ensures orders == None && markets == None && marketSales == None && expenses == None
      ensures profile == None && settings == None && invoiceCounter == None
      ensures View() == EmptySnapshot
    {
      orders, markets, marketSales, expenses := None, None, None, None;
      profile, settings, invoiceCounter := None, None, None;
    }
  }

  /** Two orders in a row get different invoice numbers, from counters c + 1 and c + 2. */
  method ConsecutiveInvoiceNumbers(store: Store, year1: nat, year2: nat) returns (first: string, second: string)
    modifies store`invoiceCounter
    ensures store.invoiceCounter == Some(old(store.Counter()) + 2)
    ensures first != second
  {
    first := store.GetNextInvoiceNumber(year1);
    second := store.GetNextInvoiceNumber(year2);
    if first == second {
      InvoiceNumberInjective(YearSuffix(year1), old(store.Counter()) + 1, YearSuffix(year2), old(store.Counter()) + 2);
    }
  }
}
