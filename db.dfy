/**
 * The in-memory data store: one object whose arrays the pages share and change in
 * place, the two exported updates that find the first booking with an id and assign one
 * of its fields, and the named exports that alias the store's arrays.
 */
module Db {
  datatype Booking = Booking(
    id: string, ref: string, customer: string, email: string, package: string,
    people: int, amount: int, guide: string, status: string, date: string)

  datatype Package = Package(
    id: string, name: string, duration: string, price: int, category: string,
    bookings: int, revenue: int, status: string, image: string)

  datatype Customer = Customer(
    id: string, name: string, email: string, phone: string, country: string,
    totalBookings: int, totalSpent: int, joinedDate: string)

  datatype Payment = Payment(
    id: string, transactionId: string, customerName: string, amount: int,
    payMethod: string, status: string, date: string)

  /** A guide; the rating is kept in tenths (4.9 is 49). */
  datatype Guide = Guide(
    id: int, name: string, specialization: string, ratingTenths: int, tours: int,
    phone: string, email: string, languages: seq<string>, status: string)

  datatype Vehicle = Vehicle(
    id: int, model: string, kind: string, plateNumber: string, capacity: int,
    year: int, mileage: int, status: string)

  datatype Stats = Stats(
    totalBookings: int, todayBookings: int, weeklyBookings: int, monthlyBookings: int,
    totalRevenue: int, todayRevenue: int, weeklyRevenue: int, monthlyRevenue: int,
    activeTours: int, pendingPayments: int, totalCustomers: int,
    revenueGrowth: int, bookingGrowth: int)

  const ZeroStats := Stats(0, 0, 0, 0, 0, 0, 0, 0, 0, 0, 0, 0, 0)

  const InitialGuides: seq<Guide> := [
    Guide(1, "Daniel Kiptoo", "Big Five & Birding", 49, 186, "+254 700 111 222",
          "daniel@wildwavesafaris.com", ["English", "Swahili"], "available"),
    Guide(2, "Amina Njoroge", "Family Safaris", 48, 142, "+254 700 222 333",
          "amina@wildwavesafaris.com", ["English", "French", "Swahili"], "on-tour"),
    Guide(3, "Peter Mutesi", "Gorilla Trekking", 49, 121, "+254 700 333 444",
          "peter@wildwavesafaris.com", ["English", "Kinyarwanda"], "available")
  ]

  const InitialVehicles: seq<Vehicle> := [
    Vehicle(1, "Toyota Land Cruiser", "4x4 Safari Jeep", "KDA 102A", 6, 2022, 45600, "available"),
    Vehicle(2, "Land Rover Defender", "4x4 Safari Jeep", "KDB 221F", 6, 2021, 62400, "in-use"),
    Vehicle(3, "Toyota Hiace", "Safari Van", "KDC 332H", 9, 2020, 88200, "maintenance")
  ]

  /** A JavaScript array shared by reference: every holder of the object sees each change. */
  class Table<T> {
    var rows: seq<T>

    constructor (rows: seq<T>)
      ensures this.rows == rows
    {
      this.rows := rows;
    }

    /** `push(x)`. */
    method Push(x: T)
      modifies this
      ensures rows == old(rows) + [x]
    {
      rows := rows + [x];
    }

    /** `splice(i, 1)`: removes the element at `i`, keeping the order of the rest. */
    method RemoveAt(i: nat)
      requires i < |rows|
      modifies this
      ensures rows == old(rows)[..i] + old(rows)[i + 1..]
    {
      rows := rows[..i] + rows[i + 1..];
    }

    /** Assigning fields of the element at `i` in place: the element becomes `x`. */
    method Put(i: nat, x: T)
      requires i < |rows|
      modifies this
      ensures rows == old(rows)[i := x]
    {
      rows := rows[i := x];
    }
  }

  // ---------------------------------------------------------------------------
  // Finding the first record with an id
  // ---------------------------------------------------------------------------

  /** The index `find` / `findIndex` stop at: the first occurrence of `k`, or -1. */
  function FirstIndex(keys: seq<string>, k: string): (r: int)
    ensures -1 <= r < |keys|
    ensures r == -1 <==> k !in keys
    ensures r >= 0 ==> keys[r] == k && forall j :: 0 <= j < r ==> keys[j] != k
    decreases |keys|
  {
    if |keys| == 0 then -1
    else if keys[0] == k then 0
    else
      var t := FirstIndex(keys[1..], k);
      if t == -1 then -1 else t + 1
  }

  /** The linear search `findIndex` performs. */
  method FindFirst(keys: seq<string>, k: string) returns (i: int)
    ensures i == FirstIndex(keys, k)
  {
    i := 0;
    while i < |keys| && keys[i] != k
      invariant 0 <= i <= |keys|
      invariant forall j :: 0 <= j < i ==> keys[j] != k
    {
      i := i + 1;
    }
    if i == |keys| {
      i := -1;
    }
  }

  function BookingIds(rows: seq<Booking>): seq<string> {
    seq(|rows|, i requires 0 <= i < |rows| => rows[i].id)
  }

  function PackageIds(rows: seq<Package>): seq<string> {
    seq(|rows|, i requires 0 <= i < |rows| => rows[i].id)
  }

  // ---------------------------------------------------------------------------
  // The exported updates
  // ---------------------------------------------------------------------------

  /** The bookings after `updateBookingStatus(id, status)`. */
  function SetStatus(rows: seq<Booking>, id: string, status: string): (r: seq<Booking>)
    ensures |r| == |rows|
    ensures forall j :: 0 <= j < |r| ==> r[j].(status := rows[j].status) == rows[j]
    ensures forall j :: 0 <= j < |r| ==>
              r[j].status == if j == FirstIndex(BookingIds(rows), id) then status else rows[j].status
  {
    var i := FirstIndex(BookingIds(rows), id);
    if i < 0 then rows else rows[i := rows[i].(status := status)]
  }

  /**
   * The bookings after `assignGuide(id, guide)`: the same first-match update as `SetStatus`,
   * applied to the `guide` field.
   */
  function SetGuide(rows: seq<Booking>, id: string, guide: string): (r: seq<Booking>)
    ensures |r| == |rows|
    ensures forall j :: 0 <= j < |r| ==> r[j].(guide := rows[j].guide) == rows[j]
    ensures forall j :: 0 <= j < |r| ==>
              r[j].guide == if j == FirstIndex(BookingIds(rows), id) then guide else rows[j].guide
  {
    var i := FirstIndex(BookingIds(rows), id);
    if i < 0 then rows else rows[i := rows[i].(guide := guide)]
  }

  /** Neither update changes which booking has which id. */
  lemma {:induction false} UpdatesKeepIds(rows: seq<Booking>, id: string, v: string)
    ensures BookingIds(SetStatus(rows, id, v)) == BookingIds(rows)
    ensures BookingIds(SetGuide(rows, id, v)) == BookingIds(rows)
  {
    var a, b := SetStatus(rows, id, v), SetGuide(rows, id, v);
    assert forall j :: 0 <= j < |rows| ==> a[j].id == rows[j].id by {
      forall j | 0 <= j < |rows| ensures a[j].id == rows[j].id {
        assert a[j].(status := rows[j].status) == rows[j];
      }
    }
    assert forall j :: 0 <= j < |rows| ==> b[j].id == rows[j].id by {
      forall j | 0 <= j < |rows| ensures b[j].id == rows[j].id {
        assert b[j].(guide := rows[j].guide) == rows[j];
      }
    }
  }

  /** An id no booking carries leaves the bookings as they are. */
  lemma UnknownIdNoChange(rows: seq<Booking>, id: string, v: string)
    requires id !in BookingIds(rows)
    ensures SetStatus(rows, id, v) == rows && SetGuide(rows, id, v) == rows
  {
  }

  /** Setting the same status twice is the same as setting it once. */
  lemma SetStatusIdempotent(rows: seq<Booking>, id: string, s: string)
    ensures SetStatus(SetStatus(rows, id, s), id, s) == SetStatus(rows, id, s)
  {
    UpdatesKeepIds(rows, id, s);
  }

  /** A status change and a guide assignment touch different fields, so their order does not matter. */
  lemma StatusAndGuideCommute(rows: seq<Booking>, id1: string, s: string, id2: string, g: string)
    ensures SetStatus(SetGuide(rows, id2, g), id1, s) == SetGuide(SetStatus(rows, id1, s), id2, g)
  {
    UpdatesKeepIds(rows, id2, g);
    UpdatesKeepIds(rows, id1, s);
  }

  /** The `db` object: its arrays are allocated once and shared by every importer. */
  class Database {
    var stats: Stats
    const recentBookings: Table<Booking>
    const packages: Table<Package>
    const customers: Table<Customer>
    const payments: Table<Payment>
    const guides: Table<Guide>
    const vehicles: Table<Vehicle>

    /** The module's initial contents. */
    constructor ()
      ensures stats == ZeroStats
      ensures fresh(recentBookings) && fresh(packages) && fresh(customers)
      ensures fresh(payments) && fresh(guides) && fresh(vehicles)
      ensures recentBookings.rows == [] && packages.rows == [] && customers.rows == [] && payments.rows == []
      ensures guides.rows == InitialGuides && vehicles.rows == InitialVehicles
    {
      stats := ZeroStats;
      recentBookings := new Table([]);
      packages := new Table([]);
      customers := new Table([]);
      payments := new Table([]);
      guides := new Table(InitialGuides);
      vehicles := new Table(InitialVehicles);
    }
  }

  /** The seeded guides and vehicles carry the ids 1, 2 and 3, in that order. */
  lemma InitialIds()
    ensures seq(|InitialGuides|, i requires 0 <= i < |InitialGuides| => InitialGuides[i].id) == [1, 2, 3]
    ensures seq(|InitialVehicles|, i requires 0 <= i < |InitialVehicles| => InitialVehicles[i].id) == [1, 2, 3]
  {
  }

  /** `updateBookingStatus`: finds the first booking with the id and assigns its status in place. */
  method UpdateBookingStatus(db: Database, id: string, status: string)
    modifies db.recentBookings
    ensures db.recentBookings.rows == SetStatus(old(db.recentBookings.rows), id, status)
  {
    var i := FindFirst(BookingIds(db.recentBookings.rows), id);
    if i >= 0 {
      var b := db.recentBookings.rows[i];
      db.recentBookings.Put(i, b.(status := status));
    }
  }

  /** `assignGuide`: finds the first booking with the id and assigns its guide in place. */
  method AssignGuide(db: Database, bookingId: string, guide: string)
    modifies db.recentBookings
    ensures db.recentBookings.rows == SetGuide(old(db.recentBookings.rows), bookingId, guide)
  {
    var i := FindFirst(BookingIds(db.recentBookings.rows), bookingId);
    if i >= 0 {
      var b := db.recentBookings.rows[i];
      db.recentBookings.Put(i, b.(guide := guide));
    }
  }

  /** `export const { customers, payments, guides, vehicles } = db`: the same array objects under new names. */
  class Exports {
    const customers: Table<Customer>
    const payments: Table<Payment>
    const guides: Table<Guide>
    const vehicles: Table<Vehicle>

    constructor (db: Database)
      ensures customers == db.customers && payments == db.payments
      ensures guides == db.guides && vehicles == db.vehicles
    {
      customers := db.customers;
      payments := db.payments;
      guides := db.guides;
      vehicles := db.vehicles;
    }
  }

  /** A change made through an exported name is seen through `db`, and the other way round. */
  method ChangeThroughExport(db: Database, ex: Exports, v: Vehicle, g: Guide)
    requires ex.vehicles == db.vehicles && ex.guides == db.guides && ex.guides != ex.vehicles as object
    modifies db.vehicles, db.guides
    ensures db.vehicles.rows == old(db.vehicles.rows) + [v]
    ensures ex.guides.rows == old(db.guides.rows) + [g]
  {
    ex.vehicles.Push(v);
    db.guides.Push(g);
  }
}
