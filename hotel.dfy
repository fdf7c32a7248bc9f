/** The hotel service: a rooms table and a bookings table. Booking a room
    takes it out of availability and cancelling the booking puts it back, so
    that a room is unavailable exactly while one booking holds it. */
module Hotel {
  import opened Outcomes

  /** A row of the rooms table; `kind` is the `type` column. */
  datatype Room = Room(id: int, number: string, kind: string, isAvailable: bool)

  /** A row of the bookings table; `roomId` refers to a room. */
  datatype Booking = Booking(id: int, roomId: int, guestName: string, nights: int)

  /** Some booking refers to the room. */
  ghost predicate Booked(bookings: map<int, Booking>, roomId: int)
  {
    exists b :: b in bookings && bookings[b].roomId == roomId
  }

  /** The invariant linking the two tables: rows sit under their own ids, every
      booking refers to an existing room, no room has two bookings, and a room
      is unavailable exactly when a booking refers to it. */
  ghost predicate Consistent(rooms: map<int, Room>, bookings: map<int, Booking>)
  {
    (forall id :: id in rooms ==> rooms[id].id == id) &&
    (forall id :: id in bookings ==> bookings[id].id == id && bookings[id].roomId in rooms) &&
    (forall a, b :: a in bookings && b in bookings && bookings[a].roomId == bookings[b].roomId ==> a == b) &&
    (forall id :: id in rooms ==> (!rooms[id].isAvailable <==> Booked(bookings, id)))
  }

  /** The unique constraint on the `number` column. */
  ghost predicate UniqueNumbers(rooms: map<int, Room>)
  {
    forall a, b :: a in rooms && b in rooms && rooms[a].number == rooms[b].number ==> a == b
  }

  /** Some room already carries the number. */
  predicate NumberTaken(rooms: map<int, Room>, number: string)
  {
    exists id | id in rooms :: rooms[id].number == number
  }

  /** Adding a room under an id no row uses, available, keeps the tables consistent. */
  lemma {:induction false} AddRoomKeepsConsistent(rooms: map<int, Room>, bookings: map<int, Booking>, room: Room)
    requires Consistent(rooms, bookings)
    requires room.id !in rooms && room.isAvailable
    ensures Consistent(rooms[room.id := room], bookings)
  {
  }

  /** Booking an available room, with a booking under a fresh id that refers
      to it, and marking the room unavailable keeps the tables consistent. */
  lemma {:induction false} BookKeepsConsistent(rooms: map<int, Room>, bookings: map<int, Booking>, booking: Booking)
    requires Consistent(rooms, bookings)
    requires booking.roomId in rooms && rooms[booking.roomId].isAvailable
    requires booking.id !in bookings
    ensures Consistent(rooms[booking.roomId := rooms[booking.roomId].(isAvailable := false)], bookings[booking.id := booking])
  {
    var rooms', bookings' := rooms[booking.roomId := rooms[booking.roomId].(isAvailable := false)], bookings[booking.id := booking];
    assert !Booked(bookings, booking.roomId);
    assert Booked(bookings', booking.roomId) by {
      assert bookings'[booking.id].roomId == booking.roomId;
    }
    forall id | id in rooms' && id != booking.roomId
      ensures Booked(bookings', id) <==> Booked(bookings, id)
    {
      if Booked(bookings', id) {
        var b :| b in bookings' && bookings'[b].roomId == id;
        assert b in bookings && bookings[b].roomId == id;
      }
      if Booked(bookings, id) {
        var b :| b in bookings && bookings[b].roomId == id;
        assert b in bookings' && bookings'[b].roomId == id;
      }
    }
  }

  /** Deleting a booking and marking its room available keeps the tables consistent. */
  lemma {:induction false} CancelKeepsConsistent(rooms: map<int, Room>, bookings: map<int, Booking>, bookingId: int)
    requires Consistent(rooms, bookings)
    requires bookingId in bookings
    ensures var roomId := bookings[bookingId].roomId;
            Consistent(rooms[roomId := rooms[roomId].(isAvailable := true)], bookings - {bookingId})
  {
    var roomId := bookings[bookingId].roomId;
    var rooms', bookings' := rooms[roomId := rooms[roomId].(isAvailable := true)], bookings - {bookingId};
    assert !Booked(bookings', roomId);
    forall id | id in rooms' && id != roomId
      ensures Booked(bookings', id) <==> Booked(bookings, id)
    {
      if Booked(bookings', id) {
        var b :| b in bookings' && bookings'[b].roomId == id;
        assert b in bookings && bookings[b].roomId == id;
      }
      if Booked(bookings, id) {
        var b :| b in bookings && bookings[b].roomId == id;
        assert b != bookingId;
        assert b in bookings' && bookings'[b].roomId == id;
      }
    }
  }

  class HotelDb {
    var rooms: map<int, Room>
    var bookings: map<int, Booking>
    /** The id the next inserted room receives. */
    var nextRoomId: int
    /** The id the next inserted booking receives. */
    var nextBookingId: int

    /** The tables are consistent, room numbers are unique, and every id in
        use lies below the counter that issues ids for its table. */
    ghost predicate Valid()
      reads this
    {
      Consistent(rooms, bookings) && UniqueNumbers(rooms) &&
      1 <= nextRoomId && 1 <= nextBookingId &&
      (forall id :: id in rooms ==> 1 <= id < nextRoomId) &&
      (forall id :: id in bookings ==> 1 <= id < nextBookingId)
    }

    constructor ()
      ensures Valid()
      ensures rooms == map[] && bookings == map[] && nextRoomId == 1 && nextBookingId == 1
    {
      rooms, bookings := map[], map[];
      nextRoomId, nextBookingId := 1, 1;
    }

    /** add_room: inserts an available room under the next id; a number some
        room already has is refused and nothing changes. */
    method AddRoom(number: string, kind: string) returns (r: Result<Room>)
      requires Valid()
      modifies this
      ensures Valid()
      ensures r.Err? <==> NumberTaken(old(rooms), number)
      ensures r.Err? ==> r.error == DuplicateNumber && rooms == old(rooms) && nextRoomId == old(nextRoomId)
      ensures r.Ok? ==> r.value == Room(old(nextRoomId), number, kind, true) && r.value.id !in old(rooms) &&
                        rooms == old(rooms)[r.value.id := r.value] && nextRoomId == old(nextRoomId) + 1
      ensures r.Ok? ==> r.value.id in ListRooms(true)
      ensures bookings == old(bookings) && nextBookingId == old(nextBookingId)
    {
      if NumberTaken(rooms, number) {
        return Err(DuplicateNumber);
      }
      var room := Room(nextRoomId, number, kind, true);
      AddRoomKeepsConsistent(rooms, bookings, room);
      rooms := rooms[room.id := room];
      nextRoomId := nextRoomId + 1;
      return Ok(room);
    }

    /** list_rooms: every room, or only the available ones, each under its id. */
    function ListRooms(availableOnly: bool := false): (r: map<int, Room>)
      reads this
      ensures forall id :: id in r <==> id in rooms && (availableOnly ==> rooms[id].isAvailable)
      ensures forall id :: id in r ==> r[id] == rooms[id]
    {
      if availableOnly then map id | id in rooms && rooms[id].isAvailable :: rooms[id] else rooms
    }

    /** In a valid store the available rooms are exactly the rooms no booking
        refers to. */
    lemma AvailableMeansUnbooked()
      requires Valid()
      ensures forall id :: id in ListRooms(true) <==> id in rooms && !Booked(bookings, id)
    {
    }

    /** book_room: takes the room out of availability and inserts the booking
        under the next id; refused, changing nothing, when no room has that id
        and is available. */
    method BookRoom(roomId: int, guestName: string, nights: int) returns (r: Result<Booking>)
      requires Valid()
      modifies this
      ensures Valid()
      ensures r.Ok? <==> roomId in old(rooms) && old(rooms)[roomId].isAvailable
      ensures r.Err? ==> r.error == RoomUnavailable && rooms == old(rooms) && bookings == old(bookings) &&
                         nextBookingId == old(nextBookingId)
      ensures r.Ok? ==> r.value == Booking(old(nextBookingId), roomId, guestName, nights) &&
                        r.value.id !in old(bookings) &&
                        bookings == old(bookings)[r.value.id := r.value] &&
                        rooms == old(rooms)[roomId := old(rooms)[roomId].(isAvailable := false)] &&
                        nextBookingId == old(nextBookingId) + 1
      ensures r.Ok? ==> roomId !in ListRooms(true)
      ensures nextRoomId == old(nextRoomId)
    {
      if !(roomId in rooms && rooms[roomId].isAvailable) {
        return Err(RoomUnavailable);
      }
      var booking := Booking(nextBookingId, roomId, guestName, nights);
      BookKeepsConsistent(rooms, bookings, booking);
      rooms := rooms[roomId := rooms[roomId].(isAvailable := false)];
      bookings := bookings[booking.id := booking];
      nextBookingId := nextBookingId + 1;
      return Ok(booking);
    }

    /** cancel_booking: makes the booked room available again and deletes the
        booking; refused, changing nothing, when no booking has that id. */
    method CancelBooking(bookingId: int) returns (r: Result<()>)
      requires Valid()
      modifies this
      ensures Valid()
      ensures r.Ok? <==> bookingId in old(bookings)
      ensures r.Err? ==> r.error == NotFound && rooms == old(rooms) && bookings == old(bookings)
      ensures r.Ok? ==> var roomId := old(bookings)[bookingId].roomId;
                        roomId in old(rooms) &&
                        rooms == old(rooms)[roomId := old(rooms)[roomId].(isAvailable := true)] &&
                        bookings == old(bookings) - {bookingId}
      ensures nextRoomId == old(nextRoomId) && nextBookingId == old(nextBookingId)
    {
      if bookingId !in bookings {
        return Err(NotFound);
      }
      var roomId := bookings[bookingId].roomId;
      CancelKeepsConsistent(rooms, bookings, bookingId);
      rooms := rooms[roomId := rooms[roomId].(isAvailable := true)];
      bookings := bookings - {bookingId};
      return Ok(());
    }
  }

  /** A new room is listed as available; once booked it is not, and a second
      booking of it is refused; after the cancellation it is available again. */
  method BookingScenario()
  {
    var db := new HotelDb();
    var added := db.AddRoom("101", "double");
    assert added.Ok?;
    var roomId := added.value.id;
    assert roomId == 1;
    assert roomId in db.ListRooms(true);
    var duplicate := db.AddRoom("101", "single");
    assert duplicate == Err(DuplicateNumber);
    var booked := db.BookRoom(roomId, "Ann", 2);
    assert booked.Ok? && booked.value.id == 1 && roomId !in db.ListRooms(true);
    assert roomId in db.ListRooms();
    var again := db.BookRoom(roomId, "Bob", 1);
    assert again == Err(RoomUnavailable);
    var cancelled := db.CancelBooking(booked.value.id);
    assert cancelled.Ok? && roomId in db.ListRooms(true);
    var twice := db.CancelBooking(booked.value.id);
    assert twice == Err(NotFound);
  }
}
