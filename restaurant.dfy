/** The restaurant service: five in-memory lists (menu items, table bookings,
    orders, bills and staff) owned by one store object. Records are added at
    the end of their list with a freshly drawn id, changed in place by id, and
    menu items are removed by filtering. */
module Restaurant {
  import opened Outcomes
  import opened Lookup

  /** Prices and bill totals, in whole cents. */
  type Cents = int

  datatype FoodItem = FoodItem(id: Id, name: string, description: Option<string>, price: Cents, available: bool)

  datatype TableBooking = TableBooking(id: Id, customerName: string, tableNumber: int, time: string, guests: int)

  /** One line of an order: a menu item id and how many of it. */
  datatype OrderItem = OrderItem(itemId: Id, quantity: int)

  /** `status` is free text; "pending", "preparing", "served" and "cancelled"
      are the values the service has in mind, but nothing checks them. */
  datatype CustomerOrder = CustomerOrder(id: Id, customerName: string, tableNumber: int, items: seq<OrderItem>, status: string)

  datatype Bill = Bill(id: Id, orderId: Id, totalAmount: Cents, paid: bool)

  datatype Staff = Staff(id: Id, name: string, role: string)

  /** The status a new order carries when the client gives none. */
  const PENDING := "pending"

  // The id column of each list. The five record types share no supertype, so
  // each list gets its own projection rather than one taking an accessor.

  function FoodIds(menu: seq<FoodItem>): seq<Id> { seq(|menu|, i requires 0 <= i < |menu| => menu[i].id) }

  function BookingIds(bookings: seq<TableBooking>): seq<Id> { seq(|bookings|, i requires 0 <= i < |bookings| => bookings[i].id) }

  function OrderIds(orders: seq<CustomerOrder>): seq<Id> { seq(|orders|, i requires 0 <= i < |orders| => orders[i].id) }

  function BillIds(bills: seq<Bill>): seq<Id> { seq(|bills|, i requires 0 <= i < |bills| => bills[i].id) }

  function StaffIds(staff: seq<Staff>): seq<Id> { seq(|staff|, i requires 0 <= i < |staff| => staff[i].id) }

  // ---------------------------------------------------------------------
  // Deleting menu items

  /** The menu without the items whose id is `itemId`, the others in their order. */
  function WithoutFood(menu: seq<FoodItem>, itemId: Id): (r: seq<FoodItem>)
    ensures forall x :: x in r <==> x in menu && x.id != itemId
    ensures |r| <= |menu|
  {
    if menu == [] then []
    else (if menu[0].id == itemId then [] else [menu[0]]) + WithoutFood(menu[1..], itemId)
  }

  /** Filtering a concatenation filters each part in place: the kept items keep
      their relative order. */
  lemma {:induction false} WithoutFoodKeepsOrder(a: seq<FoodItem>, b: seq<FoodItem>, itemId: Id)
    ensures WithoutFood(a + b, itemId) == WithoutFood(a, itemId) + WithoutFood(b, itemId)
  {
    if a == [] {
      assert a + b == b;
    } else {
      assert (a + b)[1..] == a[1..] + b;
      WithoutFoodKeepsOrder(a[1..], b, itemId);
    }
  }

  /** Deleting an id no item carries leaves the menu as it was. */
  lemma {:induction false} WithoutAbsentFood(menu: seq<FoodItem>, itemId: Id)
    requires itemId !in FoodIds(menu)
    ensures WithoutFood(menu, itemId) == menu
  {
    if menu != [] {
      assert FoodIds(menu)[0] == menu[0].id;
      assert FoodIds(menu[1..]) == FoodIds(menu)[1..];
      WithoutAbsentFood(menu[1..], itemId);
    }
  }

  /** Deleting twice is deleting once. */
  lemma WithoutFoodIdempotent(menu: seq<FoodItem>, itemId: Id)
    ensures WithoutFood(WithoutFood(menu, itemId), itemId) == WithoutFood(menu, itemId)
  {
    var r := WithoutFood(menu, itemId);
    forall i | 0 <= i < |r| ensures FoodIds(r)[i] != itemId {
      assert r[i] in r;
    }
    WithoutAbsentFood(r, itemId);
  }

  /** Filtering keeps ids distinct. */
  lemma {:induction false} WithoutFoodKeepsDistinct(menu: seq<FoodItem>, itemId: Id)
    requires Distinct(FoodIds(menu))
    ensures Distinct(FoodIds(WithoutFood(menu, itemId)))
  {
    if menu != [] {
      var rest := menu[1..];
      assert FoodIds(menu) == [menu[0].id] + FoodIds(rest);
      DistinctTail(menu[0].id, FoodIds(rest));
      WithoutFoodKeepsDistinct(rest, itemId);
      var tail := WithoutFood(rest, itemId);
      if menu[0].id != itemId {
        forall j | 0 <= j < |tail| ensures FoodIds(tail)[j] != menu[0].id {
          assert tail[j] in rest;
          var k :| 0 <= k < |rest| && rest[k] == tail[j];
          assert FoodIds(rest)[k] == tail[j].id;
        }
        assert WithoutFood(menu, itemId) == [menu[0]] + tail;
        assert FoodIds([menu[0]] + tail) == [menu[0].id] + FoodIds(tail);
        DistinctCons(menu[0].id, FoodIds(tail));
      } else {
        assert WithoutFood(menu, itemId) == tail;
      }
    }
  }

  // ---------------------------------------------------------------------
  // Bill totals

  /** What one order line adds to a bill: its quantity times the price of the
      first menu item with the line's item id, or nothing when no item has it. */
  function LineAmount(menu: seq<FoodItem>, line: OrderItem): Cents
  {
    match FirstIndex(FoodIds(menu), line.itemId)
    case None => 0
    case Some(k) => line.quantity * menu[k].price
  }

  /** The sum of the line amounts of an order against the menu. */
  function BillTotal(menu: seq<FoodItem>, lines: seq<OrderItem>): Cents
  {
    if lines == [] then 0 else LineAmount(menu, lines[0]) + BillTotal(menu, lines[1..])
  }

  /** The total of a concatenation is the sum of the totals, which is what lets
      the bill be accumulated line by line. */
  lemma {:induction false} BillTotalAppend(menu: seq<FoodItem>, a: seq<OrderItem>, b: seq<OrderItem>)
    ensures BillTotal(menu, a + b) == BillTotal(menu, a) + BillTotal(menu, b)
  {
    if a == [] {
      assert a + b == b;
    } else {
      assert (a + b)[1..] == a[1..] + b;
      BillTotalAppend(menu, a[1..], b);
    }
  }

  /** A line whose item is not on the menu adds nothing to the bill, wherever
      it stands in the order: it is skipped, not an error. */
  lemma UnpricedLineAddsNothing(menu: seq<FoodItem>, a: seq<OrderItem>, line: OrderItem, b: seq<OrderItem>)
    requires line.itemId !in FoodIds(menu)
    ensures BillTotal(menu, a + [line] + b) == BillTotal(menu, a + b)
  {
    BillTotalAppend(menu, a + [line], b);
    BillTotalAppend(menu, a, [line]);
    BillTotalAppend(menu, a, b);
  }

  /** A line priced by the menu adds its quantity times the price of the first
      menu item carrying its id. */
  lemma PricedLineAmount(menu: seq<FoodItem>, line: OrderItem, k: nat)
    requires k < |menu| && menu[k].id == line.itemId
    requires forall j :: 0 <= j < k ==> menu[j].id != line.itemId
    ensures LineAmount(menu, line) == line.quantity * menu[k].price
  {
    assert FoodIds(menu)[k] == line.itemId;
  }

  /** Two of an item at 500 cents give 1000 cents; an unknown item beside them
      changes nothing. */
  lemma BillExample(soup: FoodItem)
    requires soup.id == "A" && soup.price == 500
    ensures var menu := [soup];
            BillTotal(menu, [OrderItem("A", 2)]) == 1000 &&
            BillTotal(menu, [OrderItem("A", 2), OrderItem("B", 7)]) == 1000
  {
    var menu := [soup];
    assert FoodIds(menu) == ["A"];
    assert "B" !in FoodIds(menu);
    assert [OrderItem("A", 2), OrderItem("B", 7)] == [OrderItem("A", 2)] + [OrderItem("B", 7)] + [];
    UnpricedLineAddsNothing(menu, [OrderItem("A", 2)], OrderItem("B", 7), []);
    assert [OrderItem("A", 2)] + [] == [OrderItem("A", 2)];
  }

  // ---------------------------------------------------------------------
  // Paying bills

  /** The bills after paying `billId`: the first bill with that id marked
      paid, or the bills as they were when none has it. */
  function Paid(bills: seq<Bill>, billId: Id): seq<Bill>
  {
    match FirstIndex(BillIds(bills), billId)
    case None => bills
    case Some(k) => bills[k := bills[k].(paid := true)]
  }

  /** Paying the same bill twice leaves the bills as paying it once does. */
  lemma PaidIdempotent(bills: seq<Bill>, billId: Id)
    ensures Paid(Paid(bills, billId), billId) == Paid(bills, billId)
  {
    var once := Paid(bills, billId);
    assert BillIds(once) == BillIds(bills);
  }

  // ---------------------------------------------------------------------
  // The store

  class Store {
    var menu: seq<FoodItem>
    var bookings: seq<TableBooking>
    var orders: seq<CustomerOrder>
    var bills: seq<Bill>
    var staff: seq<Staff>

    /** Within each list no id occurs twice: every id was drawn fresh when its
        record was added, and no update changes it. */
    ghost predicate Valid()
      reads this
    {
      Distinct(FoodIds(menu)) && Distinct(BookingIds(bookings)) && Distinct(OrderIds(orders)) &&
      Distinct(BillIds(bills)) && Distinct(StaffIds(staff))
    }

    constructor ()
      ensures Valid()
      ensures menu == [] && bookings == [] && orders == [] && bills == [] && staff == []
    {
      menu, bookings, orders, bills, staff := [], [], [], [], [];
    }

    /** add_food: the item gets the fresh id and goes to the end of the menu. */
    method AddFood(item: FoodItem, freshId: Id) returns (added: FoodItem)
      requires Valid() && freshId !in FoodIds(menu)
      modifies this`menu
      ensures Valid()
      ensures added == item.(id := freshId)
      ensures menu == old(menu) + [added]
    {
      added := item.(id := freshId);
      assert FoodIds(menu + [added]) == FoodIds(menu) + [freshId];
      menu := menu + [added];
    }

    /** update_food: replaces the first item with that id by the new record,
        whose id is forced to the path id; fails when no item has it. */
    method UpdateFood(itemId: Id, updated: FoodItem) returns (r: Result<FoodItem>)
      requires Valid()
      modifies this`menu
      ensures Valid()
      ensures r.Ok? <==> itemId in FoodIds(old(menu))
      ensures r.Ok? ==> r.value == updated.(id := itemId) &&
                        menu == old(menu)[FirstIndex(FoodIds(old(menu)), itemId).value := r.value]
      ensures r.Err? ==> r.error == NotFound && menu == old(menu)
      ensures FoodIds(menu) == FoodIds(old(menu))
      ensures r.Ok? ==> forall j :: 0 <= j < |menu| && menu[j].id == itemId ==> menu[j] == r.value
    {
      var k := Find(FoodIds(menu), itemId);
      if k.None? {
        return Err(NotFound);
      }
      var item := updated.(id := itemId);
      forall j | 0 <= j < |menu| && menu[j].id == itemId ensures j == k.value {
        FirstIndexOfDistinct(FoodIds(menu), j);
      }
      assert FoodIds(menu[k.value := item]) == FoodIds(menu);
      menu := menu[k.value := item];
      return Ok(item);
    }

    /** delete_food: keeps the items whose id differs, in their order; it
        succeeds whether or not the id was present. */
    method DeleteFood(itemId: Id) returns (r: Result<()>)
      requires Valid()
      modifies this`menu
      ensures Valid()
      ensures r == Ok(())
      ensures menu == WithoutFood(old(menu), itemId)
    {
      WithoutFoodKeepsDistinct(menu, itemId);
      menu := WithoutFood(menu, itemId);
      return Ok(());
    }

    /** create_booking: the table booking gets the fresh id and goes to the end. */
    method CreateBooking(booking: TableBooking, freshId: Id) returns (added: TableBooking)
      requires Valid() && freshId !in BookingIds(bookings)
      modifies this`bookings
      ensures Valid()
      ensures added == booking.(id := freshId)
      ensures bookings == old(bookings) + [added]
    {
      added := booking.(id := freshId);
      assert BookingIds(bookings + [added]) == BookingIds(bookings) + [freshId];
      bookings := bookings + [added];
    }

    /** place_order: the order, lines and status as given, gets the fresh id
        and goes to the end; its lines are not checked against the menu. */
    method PlaceOrder(order: CustomerOrder, freshId: Id) returns (added: CustomerOrder)
      requires Valid() && freshId !in OrderIds(orders)
      modifies this`orders
      ensures Valid()
      ensures added == order.(id := freshId)
      ensures orders == old(orders) + [added]
    {
      added := order.(id := freshId);
      assert OrderIds(orders + [added]) == OrderIds(orders) + [freshId];
      orders := orders + [added];
    }

    /** update_order_status: sets the status of the first order with that id
        to any string; fails when no order has it. */
    method UpdateOrderStatus(orderId: Id, status: string) returns (r: Result<()>)
      requires Valid()
      modifies this`orders
      ensures Valid()
      ensures r.Ok? <==> orderId in OrderIds(old(orders))
      ensures r.Ok? ==> var k := FirstIndex(OrderIds(old(orders)), orderId).value;
                        orders == old(orders)[k := old(orders)[k].(status := status)]
      ensures r.Err? ==> r.error == NotFound && orders == old(orders)
      ensures OrderIds(orders) == OrderIds(old(orders))
      ensures r.Ok? ==> forall j :: 0 <= j < |orders| && orders[j].id == orderId ==> orders[j].status == status
    {
      var k := Find(OrderIds(orders), orderId);
      if k.None? {
        return Err(NotFound);
      }
      forall j | 0 <= j < |orders| && orders[j].id == orderId ensures j == k.value {
        FirstIndexOfDistinct(OrderIds(orders), j);
      }
      var order := orders[k.value].(status := status);
      assert OrderIds(orders[k.value := order]) == OrderIds(orders);
      orders := orders[k.value := order];
      return Ok(());
    }

    /** generate_bill: totals the order's lines against the current menu and
        appends an unpaid bill for it under the fresh id; fails, adding no
        bill, when no order has that id. */
    method GenerateBill(orderId: Id, freshId: Id) returns (r: Result<Bill>)
      requires Valid() && freshId !in BillIds(bills)
      modifies this`bills
      ensures Valid()
      ensures r.Ok? <==> orderId in OrderIds(orders)
      ensures r.Ok? ==> var order := orders[FirstIndex(OrderIds(orders), orderId).value];
                        r.value == Bill(freshId, orderId, BillTotal(menu, order.items), false) &&
                        bills == old(bills) + [r.value]
      ensures r.Err? ==> r.error == NotFound && bills == old(bills)
    {
      var k := Find(OrderIds(orders), orderId);
      if k.None? {
        return Err(NotFound);
      }
      var items := orders[k.value].items;
      var total := 0;
      for i := 0 to |items|
        invariant bills == old(bills)
        invariant total == BillTotal(menu, items[..i])
      {
        var m := Find(FoodIds(menu), items[i].itemId);
        if m.Some? {
          total := total + items[i].quantity * menu[m.value].price;
        }
        assert items[..i + 1] == items[..i] + [items[i]];
        BillTotalAppend(menu, items[..i], [items[i]]);
      }
      assert items[..|items|] == items;
      var bill := Bill(freshId, orderId, total, false);
      assert BillIds(bills + [bill]) == BillIds(bills) + [freshId];
      bills := bills + [bill];
      return Ok(bill);
    }

    /** pay_bill: marks the first bill with that id paid; fails when no bill has it. */
    method PayBill(billId: Id) returns (r: Result<()>)
      requires Valid()
      modifies this`bills
      ensures Valid()
      ensures r.Ok? <==> billId in BillIds(old(bills))
      ensures r.Ok? ==> var k := FirstIndex(BillIds(old(bills)), billId).value;
                        bills == old(bills)[k := old(bills)[k].(paid := true)]
      ensures r.Err? ==> r.error == NotFound && bills == old(bills)
      ensures BillIds(bills) == BillIds(old(bills))
      ensures bills == Paid(old(bills), billId)
      ensures r.Ok? ==> forall j :: 0 <= j < |bills| && bills[j].id == billId ==> bills[j].paid
    {
      var k := Find(BillIds(bills), billId);
      if k.None? {
        return Err(NotFound);
      }
      forall j | 0 <= j < |bills| && bills[j].id == billId ensures j == k.value {
        FirstIndexOfDistinct(BillIds(bills), j);
      }
      var bill := bills[k.value].(paid := true);
      assert BillIds(bills[k.value := bill]) == BillIds(bills);
      bills := bills[k.value := bill];
      return Ok(());
    }

    /** add_staff: the member gets the fresh id and goes to the end. */
    method AddStaff(member: Staff, freshId: Id) returns (added: Staff)
      requires Valid() && freshId !in StaffIds(staff)
      modifies this`staff
      ensures Valid()
      ensures added == member.(id := freshId)
      ensures staff == old(staff) + [added]
    {
      added := member.(id := freshId);
      assert StaffIds(staff + [added]) == StaffIds(staff) + [freshId];
      staff := staff + [added];
    }
  }

  /** Paying a bill twice leaves the bills as paying it once does. */
  method PayBillTwice(store: Store, billId: Id) returns (first: Result<()>, second: Result<()>)
    requires store.Valid()
    modifies store`bills
    ensures store.Valid()
    ensures second.Ok? == first.Ok?
    ensures store.bills == Paid(old(store.bills), billId)
  {
    first := store.PayBill(billId);
    second := store.PayBill(billId);
    PaidIdempotent(old(store.bills), billId);
  }

  /** An order of two soups at 500 cents and one unknown item is billed 1000
      cents; a bill for an id no order has is refused. */
  method BillScenario()
  {
    var store := new Store();
    var soup := store.AddFood(FoodItem("", "Soup", None, 500, true), "A");
    var order := store.PlaceOrder(CustomerOrder("", "Ann", 4, [OrderItem("A", 2), OrderItem("B", 7)], PENDING), "O1");
    assert OrderIds(store.orders) == ["O1"];
    var bill := store.GenerateBill("O1", "B1");
    BillExample(soup);
    assert store.menu == [soup];
    assert store.orders == [order];
    assert FirstIndex(OrderIds(store.orders), "O1") == Some(0);
    assert bill == Ok(Bill("B1", "O1", 1000, false));
    var missing := store.GenerateBill("O2", "B2");
    assert missing == Err(NotFound);
  }
}
