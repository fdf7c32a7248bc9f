# Verified model of three small record services

This project models the state-handling core of three independent services, with the HTTP layer removed:

- **Restaurant** (`restaurant.dfy`, module `Restaurant`). A `Store` object owns five lists: menu items, table bookings, orders, bills and staff. Adding a record appends it at the end of its list under a freshly drawn id. `UpdateFood` replaces the first menu item with the id. `UpdateOrderStatus` and `PayBill` change one field of the first matching record in place. `DeleteFood` filters the menu. `GenerateBill` totals an order's lines against the current menu. Each line adds its quantity times the price of the first menu item with the line's id; a line with no such item adds nothing. The bill is appended unpaid. The linear scans of the handlers (`for` loops and `next(...)` generators) are the method `Lookup.Find`. `Lookup.Find` is proved equal to `Lookup.FirstIndex`, which specifies "first position holding the id".
- **Hotel** (`hotel.dfy`, module `Hotel`). A `HotelDb` object holds two tables, rooms and bookings, as maps from id to row. Each table has an id counter. The invariant `Consistent` links the two tables:
  - every booking refers to an existing room;
  - no room has two bookings;
  - a room is unavailable exactly when a booking refers to it.

  `AddRoomKeepsConsistent`, `BookKeepsConsistent` and `CancelKeepsConsistent` prove that each state change keeps it. The constructor establishes it on empty tables. So it holds after any sequence of operations. The unique `number` column becomes the check `NumberTaken` and the error `DuplicateNumber`.
- **Todo** (`todo.dfy`, module `Todo`). A `TodoStore` object holds the `todos` dict as a map. It also holds the dict's insertion order as a sequence of keys, and the counter. Keys come from the counter, which only grows, so the insertion order is always ascending (`Valid`), and a deleted key is never handed out again. `ReadTodos` pages with Python's slice semantics (`PySlice`), including negative bounds.

Errors are values: `Outcomes.Result` carries `NotFound` (404), `RoomUnavailable` (400 from `book_room`) or `DuplicateNumber`. Handlers that answer with a fixed message return `Result<()>`. `BillScenario`, `PayBillTwice`, `BookingScenario` and `TodoScenario` are client methods. They show, from the contracts alone, the behaviours the services are documented to have, such as:

- a bill of 1000 cents for two items at 500 cents plus an unknown item;
- paying a bill twice changes nothing the second time;
- a room leaves and re-enters the available listing as it is booked and cancelled;
- a deleted todo key is not reused.

Where the documented behaviour and the code differ, the model follows the code:
- A duplicate room number is documented as a 400 reply. In the code it is the database's unique constraint failing at `commit`, with no handler. Either way nothing is stored; the model returns `Err(DuplicateNumber)` and changes nothing.
- Cancelling a booking whose room has vanished is documented as still deleting the booking. In the code, `room.is_available = True` raises on a missing room before anything is deleted. The model shows that the case cannot arise: rooms are never deleted, and `Consistent` keeps every booking's room present.

## Model

| member | source | states |
|---|---|---|
| Lookup.FirstIndex | restaurant.py:117-123 | the first position whose id equals the key: None exactly when the key is absent, otherwise a position holding the key with no earlier one holding it |
| Lookup.Find | restaurant.py:68-73 | the front-to-back scan returns exactly FirstIndex of the ids and the key |
| Lookup.FirstIndexOfDistinct | restaurant.py:68-71 | when ids are distinct, the scan for the id at position i stops at i; the store methods use it to show that the record they change is the only one with the id |
| Restaurant.WithoutFood | restaurant.py:78 | the filtered menu holds exactly the items of the menu whose id differs from the deleted id |
| Restaurant.WithoutFoodKeepsOrder | restaurant.py:78 | filtering a concatenation filters each part in place, so kept items keep their relative order |
| Restaurant.WithoutAbsentFood | restaurant.py:78 | deleting an id no item has leaves the menu unchanged (the delete still succeeds) |
| Restaurant.WithoutFoodIdempotent | restaurant.py:78 | deleting the same id twice gives the same menu as deleting it once |
| Restaurant.WithoutFoodKeepsDistinct | restaurant.py:78 | deleting keeps menu ids distinct |
| Restaurant.BillTotalAppend | restaurant.py:121-125 | the total of two runs of lines is the sum of their totals, so the bill accumulates line by line |
| Restaurant.UnpricedLineAddsNothing | restaurant.py:123-125 | a line whose item id is not on the menu adds 0 wherever it stands in the order |
| Restaurant.PricedLineAmount | restaurant.py:123-125 | a line adds quantity times the price of the first menu item carrying its id |
| Restaurant.BillExample | restaurant.py:121-128 | two items at 500 cents total 1000 cents, with or without an extra unknown line |
| Restaurant.Store.constructor | restaurant.py:48-52 | the five lists start empty and ids are distinct within each list |
| Restaurant.Store.AddFood | restaurant.py:60-64 | the item, with the fresh id, is appended; earlier items are unchanged and ids stay distinct |
| Restaurant.Store.UpdateFood | restaurant.py:66-73 | on a present id the first item with it is replaced by the new record with the path id, all other positions and the length kept, and no other item carries the id; on an absent id NotFound and the menu unchanged |
| Restaurant.Store.DeleteFood | restaurant.py:75-79 | the menu becomes the items with a different id, in their order; answers Ok whether or not the id was present |
| Restaurant.Store.CreateBooking | restaurant.py:87-91 | the table booking, with the fresh id, is appended; earlier bookings unchanged |
| Restaurant.Store.PlaceOrder | restaurant.py:99-103 | the order, lines and status as given, with the fresh id, is appended; earlier orders unchanged |
| Restaurant.Store.UpdateOrderStatus | restaurant.py:105-111 | on a present id only the status of the first order with it changes, to any string, and every order with the id then has that status; on an absent id NotFound and the orders unchanged |
| Restaurant.Store.GenerateBill | restaurant.py:115-129 | on a present order, appends Bill(fresh id, order id, BillTotal of the first such order's lines against the menu, unpaid); on an absent one NotFound and no bill added |
| Restaurant.Store.PayBill | restaurant.py:131-137 | on a present id only the first such bill becomes paid (a paid bill stays as it is), so every bill with the id is paid; on an absent id NotFound and the bills unchanged; the new bills are Paid of the old |
| Restaurant.PaidIdempotent | restaurant.py:131-137 | paying the same bill id twice leaves the bills as paying it once does |
| Restaurant.PayBillTwice | restaurant.py:131-137 | two payments of one bill answer alike and leave the bills as one payment does |
| Restaurant.Store.AddStaff | restaurant.py:145-149 | the member, with the fresh id, is appended; earlier staff unchanged |
| Hotel.AddRoomKeepsConsistent | hotel_manage.py:68-74 | inserting an available room under an unused id keeps the two tables consistent |
| Hotel.BookKeepsConsistent | hotel_manage.py:84-92 | marking an available room unavailable and adding a fresh booking for it keeps the tables consistent |
| Hotel.CancelKeepsConsistent | hotel_manage.py:100-106 | deleting a booking and marking its room available keeps the tables consistent |
| Hotel.HotelDb.constructor | hotel_manage.py:14-27 | the tables start empty with both id counters at 1, so the first room and the first booking get id 1; empty tables satisfy the invariant |
| Hotel.HotelDb.AddRoom | hotel_manage.py:68-74 | a new number gives a new available room under the next id, listed as available; a duplicate number is refused and nothing changes |
| Hotel.HotelDb.ListRooms | hotel_manage.py:76-80 | with availableOnly (false by default) exactly the rooms with is_available true, otherwise all rooms, each unchanged |
| Hotel.HotelDb.AvailableMeansUnbooked | hotel_manage.py:78-79 | in a valid store the available rooms are exactly those no booking refers to |
| Hotel.HotelDb.BookRoom | hotel_manage.py:82-92 | succeeds exactly when the room exists and is available; then the room becomes unavailable and one booking with the given room, guest and nights is added, no other room changing; otherwise RoomUnavailable and nothing changes |
| Hotel.HotelDb.CancelBooking | hotel_manage.py:98-107 | on a present booking it is removed and its (existing) room becomes available, nothing else changing; on an absent one NotFound and nothing changes |
| Todo.PageOf | todo.py:26 | for skip, limit >= 0 the page has min(limit, max(0, n - skip)) elements, element i being element skip + i |
| Todo.PageExample | todo.py:26 | of fifteen todos, skip 10 and limit 10 give the 11th to the 15th |
| Todo.InOrder | todo.py:26 | the listing holds the stored todo of each key, position by position in insertion order |
| Todo.Without | todo.py:46 | the remaining keys are exactly the old ones other than the deleted key |
| Todo.WithoutAt | todo.py:46 | deleting the key at position i removes exactly that position and keeps the others in order |
| Todo.WithoutAbsent | todo.py:46 | removing a key that is not there leaves the order unchanged |
| Todo.WithoutKeepsIncreasing | todo.py:46 | deletion keeps the insertion order ascending |
| Todo.TodoStore.constructor | todo.py:13-14 | the store starts empty with counter 0 |
| Todo.TodoStore.CreateTodo | todo.py:16-22 | the counter goes up by one; the todo with that value as id is stored under it and appended to the insertion order; the key exceeds every earlier key; reading it back gives the todo |
| Todo.TodoStore.ReadTodos | todo.py:24-26 | the todos in insertion order, sliced like a Python list, skip 0 and limit 10 by default; for skip, limit >= 0 of length min(limit, max(0, n - skip)), element i being the todo of key order[skip + i] with that id |
| Todo.TodoStore.ReadTodo | todo.py:28-32 | the todo under the key, whose id is the key, exactly when the key is present; NotFound otherwise |
| Todo.TodoStore.UpdateTodo | todo.py:34-40 | on a present key the whole todo is replaced with its id forced to the key, other entries, keys, order and counter unchanged; on an absent key NotFound and nothing changes |
| Todo.TodoStore.DeleteTodo | todo.py:42-47 | on a present key it and its todo are removed and the other keys keep their order, the counter untouched; on an absent key NotFound and nothing changes |

## Left out

- HTTP routing, the application objects, response models and the `home` route (restaurant.py:153-155). Error responses are `Result` values. Fixed success messages such as "Payment successful" become `Ok(())`.
- Pydantic validation and the `.dict()` / `orm_mode` conversions: request bodies arrive as well-typed records.
- SQLAlchemy sessions, `commit`, `refresh` and the database file. The tables are maps, and the ids come from counters starting at 1. SQLite without `AUTOINCREMENT` may reuse the largest booking id after that booking is deleted. The counter instead never reuses an id, and the invariant needs only that a new id is unused.
- The list getters (`get_menu`, `get_bookings`, `get_orders`, `list_staff`, `get_all_bookings`) return a store's field as it stands, so they are the fields themselves and have no member of their own.
- `Hotel.HotelDb.ListRooms`: returns the rooms keyed by id; the row order of the query result is not modelled.
- `uuid4`: each adding method takes the new id as a parameter (`freshId`), required to be unused in that list. That is the uniqueness a random UUID is relied on to give. Uniqueness across the five lists is not modelled.
- Floating-point prices and totals: the model uses whole cents (`int`), so sums are exact; rounding is not modelled.
- Concurrency between requests: each handler runs as one atomic step.
