/**
 The ten tables of the synthetic Towbook bundle, whose rows refer to each other, and the closure of
 those references.
 */
module Bundle {
  import opened Results
  import opened Decimals
  import opened SynthIds
  import Csv

  datatype Options = Options(
    customers: nat,
    vehicles: nat,
    drivers: nat,
    trucks: nat,
    jobs: nat,
    impounds: Option<nat>,
    invoices: Option<nat>,
    payments: Option<nat>,
    motorClubHistory: Option<nat>,
    attachments: Option<nat>,
    idPrefix: Option<string>)

  /** One generated table: the file it becomes, its property names, and the text of every value. */
  datatype Sheet = Sheet(file: string, columns: Csv.Header, rows: seq<seq<string>>)

  function OrZero(n: Option<nat>): nat {
    if n.Some? then n.value else 0
  }

  function Prefix(o: Options): string {
    if o.idPrefix.Some? then o.idPrefix.value else "synth"
  }

  // ---------------------------------------------------------------- the values of the rows

  const NAMES: seq<string> := ["Sam Carter", "Lena Ortiz", "Mike Cho", "Renee Watson", "Jamal King", "Priya Patel"]
  const CITIES: seq<string> := ["Brooklyn", "Austin", "Phoenix", "Detroit", "Atlanta"]
  const STATES: seq<string> := ["NY", "TX", "AZ", "MI", "GA"]
  const MAKES: seq<string> := ["Honda", "Ford", "Toyota", "Chevy", "Kia"]
  const MODELS: seq<string> := ["Civic", "F-150", "Camry", "Silverado", "Sorento"]
  const NETWORKS: seq<string> := ["Agero", "AAA", "Geico", "State Farm", "Allstate"]

  function Pick(choices: seq<string>, i: nat): string
    requires choices != []
  {
    choices[i % |choices|]
  }

  /** The external id of row i of a kind. */
  function Id(kind: string, prefix: string, i: nat): string {
    kind + "-" + prefix + "-" + Decimal(i + 1)
  }

  /** A reference from row i into a table of `count` rows of a kind; empty when there are none. */
  function Ref(kind: string, prefix: string, i: nat, count: nat): string {
    if count > 0 then Id(kind, prefix, i % count) else ""
  }

  /** `toFixed(2)` of an exact number of cents. */
  function Money(cents: nat): string {
    Decimal(cents / 100) + "." + PadStart(Decimal(cents % 100), 2)
  }

  function Charge(i: nat): nat {
    (125 + (i % 10) * 25) * 100
  }

  const CUSTOMER_PERSON: seq<Csv.Name> :=
    ["towbook_id", "name", "phone_primary", "phone_secondary", "email", "street_address", "city"]

  const CUSTOMER_ACCOUNT: seq<Csv.Name> :=
    ["state", "zip", "account_type", "billing_terms", "credit_limit", "coi_expiration", "created_date"]

  const CUSTOMERS: Csv.Header := CUSTOMER_PERSON + CUSTOMER_ACCOUNT

  function Customer(o: Options, i: nat): (row: seq<string>)
    ensures |row| == |CUSTOMERS|
  {
    var p := Prefix(o);
    [Id("cust", p, i), Pick(NAMES, i), Phone(p, "cust", i), "",
     "customer-" + p + "-" + Decimal(i + 1) + "@example.test", Decimal(100 + i) + " Main St",
     Pick(CITIES, i), Pick(STATES, i), PadStart(Decimal(10000 + i), 5),
     if i % 5 == 0 then "Account" else "Cash", "Net 30", if i % 5 == 0 then "1000.00" else "",
     "", "2024-01-15 09:00:00"]
  }

  const VEHICLES: Csv.Header :=
    ["towbook_id", "customer_towbook_id", "year", "make", "model", "color", "plate", "plate_state", "vin",
     "notes"]

  function Vehicle(o: Options, i: nat): (row: seq<string>)
    ensures |row| == |VEHICLES|
  {
    var p := Prefix(o);
    [Id("veh", p, i), Ref("cust", p, i, o.customers), Decimal(2015 + i % 10), Pick(MAKES, i), Pick(MODELS, i),
     "Silver", "PLT" + PadStart(Decimal(i + 1), 4), Pick(STATES, i), Vin(p, "veh", i), ""]
  }

  const DRIVER_PERSON: seq<Csv.Name> :=
    ["towbook_id", "name", "phone", "email", "license_number"]

  const DRIVER_DATES: seq<Csv.Name> :=
    ["license_state", "license_expiration", "medical_card_expiration", "hire_date", "termination_date"]

  const DRIVERS: Csv.Header := DRIVER_PERSON + DRIVER_DATES

  function Driver(o: Options, i: nat): (row: seq<string>)
    ensures |row| == |DRIVERS|
  {
    var p := Prefix(o);
    [Id("drv", p, i), "Driver " + p + " " + Decimal(i + 1), Phone(p, "drv", i),
     "driver-" + p + "-" + Decimal(i + 1) + "@example.test", "D" + PadStart(Decimal(i + 1), 8),
     Pick(STATES, i), "2027-12-31", "2026-06-01", "2020-01-15", ""]
  }

  const TRUCKS: Csv.Header :=
    ["towbook_id", "unit_number", "year", "make", "model", "vin", "plate", "plate_state", "gvwr",
     "equipment_type"]

  function Truck(o: Options, i: nat): (row: seq<string>)
    ensures |row| == |TRUCKS|
  {
    var p := Prefix(o);
    [Id("tr", p, i), "T-" + p + "-" + Decimal(100 + i), Decimal(2018 + i % 8), Pick(MAKES, i), Pick(MODELS, i),
     Vin(p, "tr", i), "TRK" + PadStart(Decimal(i + 1), 4), Pick(STATES, i), Decimal(26000 + (i % 5) * 1000),
     if i % 2 == 0 then "Flatbed" else "Wheel Lift"]
  }

  const JOB_CALL: seq<Csv.Name> :=
    ["towbook_id", "call_received_at", "service_type", "source", "network", "network_case_id"]

  const JOB_PLACES: seq<Csv.Name> :=
    ["pickup_address", "pickup_lat", "pickup_lng", "dropoff_address", "dropoff_lat", "dropoff_lng"]

  const JOB_PARTIES: seq<Csv.Name> :=
    ["customer_towbook_id", "vehicle_towbook_id", "assigned_driver_towbook_id", "assigned_truck_towbook_id"]

  const JOB_PROGRESS: seq<Csv.Name> :=
    ["status", "assigned_at", "en_route_at", "on_scene_at", "loaded_at", "in_transit_at", "dropped_at",
     "cleared_at"]

  const JOB_CHARGES: seq<Csv.Name> :=
    ["total_charged", "driver_commission", "notes"]

  const JOBS: Csv.Header := JOB_CALL + JOB_PLACES + JOB_PARTIES + JOB_PROGRESS + JOB_CHARGES

  /** `degrees(4 * i + c)` is the text the runtime prints for coordinate c of row i, however it rounds. */
  function Job(o: Options, degrees: int -> string, i: nat): (row: seq<string>)
    ensures |row| == |JOBS|
  {
    var p := Prefix(o);
    ["job-" + p + "-" + Decimal(i + 1), "2024-03-15 14:32:00", "Tow", "Phone",
     if i % 3 == 0 then Pick(NETWORKS, i) else "",
     if i % 3 == 0 then "CASE-" + p + "-" + Decimal(i + 1000) else "",
     Decimal(100 + i) + " Pickup Ln, " + Pick(CITIES, i) + " " + Pick(STATES, i),
     degrees(4 * i), degrees(4 * i + 1), Decimal(200 + i) + " Dropoff Rd", degrees(4 * i + 2), degrees(4 * i + 3),
     Ref("cust", p, i, o.customers), Ref("veh", p, i, o.vehicles),
     Ref("drv", p, i, o.drivers), Ref("tr", p, i, o.trucks), "Completed",
     "2024-03-15 14:35:00", "2024-03-15 14:37:00", "2024-03-15 14:55:00", "2024-03-15 15:05:00",
     "2024-03-15 15:10:00", "2024-03-15 15:40:00", "2024-03-15 15:50:00",
     Money(Charge(i)), Money(Charge(i) * 3 / 10), ""]
  }

  const IMPOUND_START: seq<Csv.Name> :=
    ["towbook_id", "vehicle_towbook_id", "impound_date", "yard_name", "hold_type"]

  const IMPOUND_END: seq<Csv.Name> :=
    ["daily_rate", "release_date", "release_reason", "personal_property_inventory"]

  const IMPOUNDS: Csv.Header := IMPOUND_START + IMPOUND_END

  function Impound(o: Options, i: nat): (row: seq<string>)
    ensures |row| == |IMPOUNDS|
  {
    var p := Prefix(o);
    [Id("imp", p, i), Ref("veh", p, i, o.vehicles), "2024-04-01 11:00:00", "Main Yard", "police", "45.00",
     if i % 3 == 0 then "2024-04-05 16:00:00" else "", "", ""]
  }

  const INVOICES: Csv.Header :=
    ["towbook_id", "job_towbook_id", "invoice_number", "issued_date", "due_date", "total", "balance", "status"]

  function Invoice(o: Options, i: nat): (row: seq<string>)
    ensures |row| == |INVOICES|
  {
    var p := Prefix(o);
    [Id("inv", p, i), Ref("job", p, i, o.jobs), "INV-" + p + "-" + Decimal(20000 + i), "2024-03-20 09:00:00",
     "2024-04-19 09:00:00", Money(Charge(i)), if i % 2 == 0 then "0.00" else Money(Charge(i)),
     if i % 2 == 0 then "paid" else "open"]
  }

  const PAYMENTS: Csv.Header :=
    ["towbook_id", "invoice_towbook_id", "received_date", "amount", "method", "reference"]

  function Payment(o: Options, i: nat): (row: seq<string>)
    ensures |row| == |PAYMENTS|
  {
    var p := Prefix(o);
    [Id("pay", p, i), Ref("inv", p, i, OrZero(o.invoices)), "2024-03-25 14:00:00", Money(Charge(i)),
     if i % 3 == 0 then "Cash" else if i % 3 == 1 then "Credit Card" else "Check",
     if i % 3 == 2 then "CHK" + p + Decimal(1000 + i) else ""]
  }

  const HISTORY: Csv.Header :=
    ["job_towbook_id", "network", "network_case_id", "partial_fee_amount", "partial_fee_reason"]

  function ClubHistory(o: Options, i: nat): (row: seq<string>)
    ensures |row| == |HISTORY|
  {
    var p := Prefix(o);
    [Ref("job", p, i, o.jobs), Pick(NETWORKS, i), "CASE-" + p + "-" + Decimal(20000 + i),
     if i % 5 == 0 then "15.00" else "", if i % 5 == 0 then "Time over allowance" else ""]
  }

  const ATTACHMENTS: Csv.Header :=
    ["towbook_id", "filename", "type"]

  function PhotoName(i: nat): string {
    "photo-" + Decimal(i + 1) + ".jpg"
  }

  function Attachment(o: Options, i: nat): (row: seq<string>)
    ensures |row| == |ATTACHMENTS|
  {
    [Ref("job", Prefix(o), i, o.jobs), PhotoName(i), "photo"]
  }

  // ---------------------------------------------------------------- the tables

  function Customers(o: Options): Sheet {
    Sheet("customers.csv", CUSTOMERS, seq(o.customers, (i: nat) => Customer(o, i)))
  }

  function Vehicles(o: Options): Sheet {
    Sheet("vehicles.csv", VEHICLES, seq(o.vehicles, (i: nat) => Vehicle(o, i)))
  }

  function Drivers(o: Options): Sheet {
    Sheet("drivers.csv", DRIVERS, seq(o.drivers, (i: nat) => Driver(o, i)))
  }

  function Trucks(o: Options): Sheet {
    Sheet("trucks.csv", TRUCKS, seq(o.trucks, (i: nat) => Truck(o, i)))
  }

  function Jobs(o: Options, degrees: int -> string): Sheet {
    Sheet("calls.csv", JOBS, seq(o.jobs, (i: nat) => Job(o, degrees, i)))
  }

  function Impounds(o: Options): Sheet {
    Sheet("impounds.csv", IMPOUNDS, seq(OrZero(o.impounds), (i: nat) => Impound(o, i)))
  }

  function Invoices(o: Options): Sheet {
    Sheet("invoices.csv", INVOICES, seq(OrZero(o.invoices), (i: nat) => Invoice(o, i)))
  }

  function Payments(o: Options): Sheet {
    Sheet("payments.csv", PAYMENTS, seq(OrZero(o.payments), (i: nat) => Payment(o, i)))
  }

  function MotorClubHistory(o: Options): Sheet {
    Sheet("motor_club_history.csv", HISTORY, seq(OrZero(o.motorClubHistory), (i: nat) => ClubHistory(o, i)))
  }

  function Attachments(o: Options): Sheet {
    Sheet("attachments.csv", ATTACHMENTS, seq(OrZero(o.attachments), (i: nat) => Attachment(o, i)))
  }

  // ---------------------------------------------------------------- referential closure

  /** The values of a column go round the ids (the first column) of the other table: row i refers to row i modulo
      their number; and it is empty exactly when that table has no rows. */
  ghost predicate Refers(from: Sheet, column: nat, name: string, to: Sheet) {
    && column < |from.columns| && from.columns[column] == name
    && to.columns != [] && to.columns[0] == "towbook_id"
    && forall i :: 0 <= i < |from.rows| ==>
         && column < |from.rows[i]|
         && (from.rows[i][column] == "" <==> to.rows == [])
         && (to.rows != [] ==>
               to.rows[i % |to.rows|] != [] && to.rows[i % |to.rows|][0] == from.rows[i][column])
  }

  lemma RefersBy(from: Sheet, column: nat, name: string, to: Sheet, kind: string, prefix: string)
    requires column < |from.columns| && from.columns[column] == name
    requires to.columns != [] && to.columns[0] == "towbook_id"
    requires forall i :: 0 <= i < |from.rows| ==>
      column < |from.rows[i]| && from.rows[i][column] == Ref(kind, prefix, i, |to.rows|)
    requires forall j :: 0 <= j < |to.rows| ==> to.rows[j] != [] && to.rows[j][0] == Id(kind, prefix, j)
    ensures Refers(from, column, name, to)
  {
    hide Decimal, Csv.Plain, Csv.Distinct;
    forall i | 0 <= i < |from.rows|
      ensures from.rows[i][column] == "" <==> to.rows == []
      ensures to.rows != [] ==>
        to.rows[i % |to.rows|] != [] && to.rows[i % |to.rows|][0] == from.rows[i][column]
    {
    }
  }

  lemma JobRow(o: Options, degrees: int -> string, i: nat)
    ensures var row, p := Job(o, degrees, i), Prefix(o);
      && row[0] == "job-" + p + "-" + Decimal(i + 1)
      && row[12] == Ref("cust", p, i, o.customers) && row[13] == Ref("veh", p, i, o.vehicles)
      && row[14] == Ref("drv", p, i, o.drivers) && row[15] == Ref("tr", p, i, o.trucks)
  {
    hide Ref, Decimal, Money, Prefix, Csv.Plain, Csv.Distinct;
  }

  /** The reference columns of the calls table. */
  lemma JobReferences(o: Options, degrees: int -> string)
    ensures var rows, p := Jobs(o, degrees).rows, Prefix(o);
      forall i :: 0 <= i < |rows| ==>
        && |rows[i]| == |JOBS| == 27
        && rows[i][0] == Id("job", p, i)
        && rows[i][12] == Ref("cust", p, i, o.customers) && rows[i][13] == Ref("veh", p, i, o.vehicles)
        && rows[i][14] == Ref("drv", p, i, o.drivers) && rows[i][15] == Ref("tr", p, i, o.trucks)
    ensures JOBS[12] == "customer_towbook_id" && JOBS[13] == "vehicle_towbook_id"
    ensures JOBS[14] == "assigned_driver_towbook_id" && JOBS[15] == "assigned_truck_towbook_id"
  {
    hide Ref, Decimal, Prefix, Job, Csv.Plain, Csv.Distinct;
    JobColumns();
    var rows := Jobs(o, degrees).rows;
    forall i | 0 <= i < |rows|
      ensures rows[i] == Job(o, degrees, i)
    {
    }
    forall i | 0 <= i < |rows|
      ensures rows[i][0] == Id("job", Prefix(o), i)
      ensures rows[i][12] == Ref("cust", Prefix(o), i, o.customers)
      ensures rows[i][13] == Ref("veh", Prefix(o), i, o.vehicles)
      ensures rows[i][14] == Ref("drv", Prefix(o), i, o.drivers)
      ensures rows[i][15] == Ref("tr", Prefix(o), i, o.trucks)
    {
      JobRow(o, degrees, i);
    }
  }

  lemma JobColumns()
    ensures |JOBS| == 27 && JOBS[0] == "towbook_id"
    ensures JOBS[12] == "customer_towbook_id" && JOBS[13] == "vehicle_towbook_id"
    ensures JOBS[14] == "assigned_driver_towbook_id" && JOBS[15] == "assigned_truck_towbook_id"
  {
    hide Csv.Plain, Csv.Distinct;
  }

  lemma RefersToPeople(o: Options, degrees: int -> string)
    ensures Refers(Vehicles(o), 1, "customer_towbook_id", Customers(o))
    ensures Refers(Jobs(o, degrees), 12, "customer_towbook_id", Customers(o))
    ensures Refers(Jobs(o, degrees), 14, "assigned_driver_towbook_id", Drivers(o))
  {
    hide Refers, Ref, Decimal, Phone, Vin, PadStart, Job, Prefix;
    var p := Prefix(o);
    JobReferences(o, degrees);
    RefersBy(Vehicles(o), 1, "customer_towbook_id", Customers(o), "cust", p);
    RefersBy(Jobs(o, degrees), 12, "customer_towbook_id", Customers(o), "cust", p);
    RefersBy(Jobs(o, degrees), 14, "assigned_driver_towbook_id", Drivers(o), "drv", p);
  }

  lemma RefersToFleet(o: Options, degrees: int -> string)
    ensures Refers(Jobs(o, degrees), 13, "vehicle_towbook_id", Vehicles(o))
    ensures Refers(Jobs(o, degrees), 15, "assigned_truck_towbook_id", Trucks(o))
    ensures Refers(Impounds(o), 1, "vehicle_towbook_id", Vehicles(o))
  {
    hide Refers, Ref, Decimal, Phone, Vin, PadStart, Job, Prefix;
    var p := Prefix(o);
    JobReferences(o, degrees);
    RefersBy(Jobs(o, degrees), 13, "vehicle_towbook_id", Vehicles(o), "veh", p);
    RefersBy(Jobs(o, degrees), 15, "assigned_truck_towbook_id", Trucks(o), "tr", p);
    RefersBy(Impounds(o), 1, "vehicle_towbook_id", Vehicles(o), "veh", p);
  }

  lemma RefersToWork(o: Options, degrees: int -> string)
    ensures Refers(Invoices(o), 1, "job_towbook_id", Jobs(o, degrees))
    ensures Refers(Payments(o), 1, "invoice_towbook_id", Invoices(o))
    ensures Refers(MotorClubHistory(o), 0, "job_towbook_id", Jobs(o, degrees))
    ensures Refers(Attachments(o), 0, "towbook_id", Jobs(o, degrees))
  {
    hide Refers, Ref, Decimal, Money, PadStart, Job, Prefix;
    var p := Prefix(o);
    JobReferences(o, degrees);
    RefersBy(Invoices(o), 1, "job_towbook_id", Jobs(o, degrees), "job", p);
    RefersBy(Payments(o), 1, "invoice_towbook_id", Invoices(o), "inv", p);
    RefersBy(MotorClubHistory(o), 0, "job_towbook_id", Jobs(o, degrees), "job", p);
    RefersBy(Attachments(o), 0, "towbook_id", Jobs(o, degrees), "job", p);
  }

  /** No reference in the bundle dangles, whatever the counts. */
  lemma ReferentialClosure(o: Options, degrees: int -> string)
    ensures Refers(Vehicles(o), 1, "customer_towbook_id", Customers(o))
    ensures Refers(Jobs(o, degrees), 12, "customer_towbook_id", Customers(o))
    ensures Refers(Jobs(o, degrees), 13, "vehicle_towbook_id", Vehicles(o))
    ensures Refers(Jobs(o, degrees), 14, "assigned_driver_towbook_id", Drivers(o))
    ensures Refers(Jobs(o, degrees), 15, "assigned_truck_towbook_id", Trucks(o))
    ensures Refers(Impounds(o), 1, "vehicle_towbook_id", Vehicles(o))
    ensures Refers(Invoices(o), 1, "job_towbook_id", Jobs(o, degrees))
    ensures Refers(Payments(o), 1, "invoice_towbook_id", Invoices(o))
    ensures Refers(MotorClubHistory(o), 0, "job_towbook_id", Jobs(o, degrees))
    ensures Refers(Attachments(o), 0, "towbook_id", Jobs(o, degrees))
  {
    hide *;
    RefersToPeople(o, degrees);
    RefersToFleet(o, degrees);
    RefersToWork(o, degrees);
  }

  ghost predicate UniqueIds(s: Sheet) {
    forall i, j :: 0 <= i < j < |s.rows| ==> s.rows[i] != [] && s.rows[j] != [] && s.rows[i][0] != s.rows[j][0]
  }

  lemma UniqueBy(s: Sheet, kind: string, prefix: string)
    requires forall j :: 0 <= j < |s.rows| ==> s.rows[j] != [] && s.rows[j][0] == Id(kind, prefix, j)
    ensures UniqueIds(s)
  {
    forall i, j | 0 <= i < j < |s.rows|
      ensures s.rows[i][0] != s.rows[j][0]
    {
      if s.rows[i][0] == s.rows[j][0] {
        var before := kind + "-" + prefix + "-";
        assert before + Decimal(i + 1) + "" == before + Decimal(j + 1) + "";
        AroundInjective(before, Decimal(i + 1), Decimal(j + 1), "");
        DecimalInjective(i + 1, j + 1);
        assert false;
      }
    }
  }

  lemma FixedIdsUnique(o: Options, degrees: int -> string)
    ensures UniqueIds(Customers(o)) && UniqueIds(Vehicles(o)) && UniqueIds(Drivers(o)) && UniqueIds(Trucks(o))
    ensures UniqueIds(Jobs(o, degrees))
  {
    hide UniqueIds, Ref, Decimal, Phone, Vin, Money, PadStart;
    var p := Prefix(o);
    UniqueBy(Customers(o), "cust", p);
    UniqueBy(Vehicles(o), "veh", p);
    UniqueBy(Drivers(o), "drv", p);
    UniqueBy(Trucks(o), "tr", p);
    UniqueBy(Jobs(o, degrees), "job", p);
  }

  /** Row j of a table has the kind of the table, the prefix and j + 1 for its id. */
  lemma IdsNumbered(o: Options, degrees: int -> string, j: nat)
    ensures var tail := "-" + Prefix(o) + "-" + Decimal(j + 1);
      && Customer(o, j)[0] == "cust" + tail && Vehicle(o, j)[0] == "veh" + tail && Driver(o, j)[0] == "drv" + tail
      && Truck(o, j)[0] == "tr" + tail && Job(o, degrees, j)[0] == "job" + tail && Impound(o, j)[0] == "imp" + tail
      && Invoice(o, j)[0] == "inv" + tail && Payment(o, j)[0] == "pay" + tail
  {
    hide Pick, Phone, Vin, Decimal, PadStart, Ref, Prefix, Job, Money, Charge, Csv.Plain, Csv.Distinct;
    JobRow(o, degrees, j);
    var p, n := Prefix(o), Decimal(j + 1);
    IdIs("cust", p, j);
    IdIs("veh", p, j);
    IdIs("drv", p, j);
    IdIs("tr", p, j);
    IdIs("imp", p, j);
    IdIs("inv", p, j);
    IdIs("pay", p, j);
    assert "job" + ("-" + p + "-" + n) == "job-" + p + "-" + n;
    hide Id;
  }

  lemma IdIs(kind: string, p: string, j: nat)
    ensures Id(kind, p, j) == kind + ("-" + p + "-" + Decimal(j + 1))
  {
    hide Decimal;
  }

  /** Ids are unique within every table that has its own. */
  lemma IdsUnique(o: Options, degrees: int -> string)
    ensures UniqueIds(Customers(o)) && UniqueIds(Vehicles(o)) && UniqueIds(Drivers(o)) && UniqueIds(Trucks(o))
    ensures UniqueIds(Jobs(o, degrees)) && UniqueIds(Impounds(o)) && UniqueIds(Invoices(o)) && UniqueIds(Payments(o))
  {
    hide UniqueIds, Ref, Decimal, Money, PadStart, Customers, Vehicles, Drivers, Trucks, Jobs;
    FixedIdsUnique(o, degrees);
    var p := Prefix(o);
    UniqueBy(Impounds(o), "imp", p);
    UniqueBy(Invoices(o), "inv", p);
    UniqueBy(Payments(o), "pay", p);
  }

  // ---------------------------------------------------------------- amounts

  /** A printed amount determines its cents. */
  lemma AmountsDiffer(a: nat, b: nat)
    ensures Money(a) == Money(b) <==> a == b
  {
    hide Decimal, PadStart;
    if Money(a) == Money(b) {
      var p, q := PadStart(Decimal(a % 100), 2), PadStart(Decimal(b % 100), 2);
      NotInDecimal(a / 100, '.');
      NotInDecimal(b / 100, '.');
      assert Decimal(a / 100) + ['.'] + p == Decimal(b / 100) + ['.'] + q;
      SplitOnce(Decimal(a / 100), Decimal(b / 100), p, q, '.');
      DecimalInjective(a / 100, b / 100);
      PaddedInjective(a % 100, b % 100, 2);
    }
  }

  /** What a printed amount says: its units, a point, and two digits of cents. */
  lemma MoneyIs(cents: nat)
    ensures var s := Money(cents);
      && |s| >= 4 && s[|s| - 3] == '.'
      && Parse(s[..|s| - 3]) == cents / 100 && Parse(s[|s| - 2..]) == cents % 100
  {
    hide Decimal, PadStart, Parse;
    DecimalLength(cents % 100);
    TwoDigits(cents % 100);
    ParseDecimal(cents / 100);
    ParsePadStart(cents % 100, 2);
    var units, rest := Decimal(cents / 100), PadStart(Decimal(cents % 100), 2);
    assert Money(cents) == units + "." + rest;
    assert Money(cents)[..|units|] == units && Money(cents)[|units| + 1..] == rest;
  }

  /** Row i of the calls, of the invoices and of the payments tell of the same amount: 125.00 and 25.00 for
      every step of ten. The commission is thirty percent of it to the cent. An invoice is paid exactly when
      nothing is owed, and otherwise all of it is. */
  lemma AmountsAgree(o: Options, degrees: int -> string, i: nat)
    ensures var cents := 12500 + 2500 * (i % 10);
      && Job(o, degrees, i)[24] == Invoice(o, i)[5] == Payment(o, i)[3] == Money(cents)
      && 3 * cents % 10 == 0 && Job(o, degrees, i)[25] == Money(3 * cents / 10)
    ensures Invoice(o, i)[7] == "paid" || Invoice(o, i)[7] == "open"
    ensures Invoice(o, i)[7] == "paid" <==> Invoice(o, i)[6] == "0.00" == Money(0)
    ensures Invoice(o, i)[7] == "open" <==> Invoice(o, i)[6] == Invoice(o, i)[5]
    ensures Invoice(o, i)[7] == "paid" <==> i % 2 == 0
  {
    hide Job, Invoice, Payment, Money, Charge, Csv.Plain, Csv.Distinct;
    Nothing();
    ChargeIs(i);
    AmountsDiffer(Charge(i), 0);
    JobAmounts(o, degrees, i);
    PaperAmounts(o, i);
  }

  lemma ChargeIs(i: nat)
    ensures Charge(i) == 12500 + 2500 * (i % 10) && 3 * Charge(i) % 10 == 0
  {
  }

  lemma PaperAmounts(o: Options, i: nat)
    ensures Payment(o, i)[3] == Money(Charge(i)) == Invoice(o, i)[5]
    ensures Invoice(o, i)[6] == if i % 2 == 0 then "0.00" else Money(Charge(i))
    ensures Invoice(o, i)[7] == if i % 2 == 0 then "paid" else "open"
  {
    hide Ref, Decimal, PadStart, Money, Prefix, Charge, Csv.Plain, Csv.Distinct;
  }

  lemma JobAmounts(o: Options, degrees: int -> string, i: nat)
    ensures Job(o, degrees, i)[24] == Money(Charge(i)) && Job(o, degrees, i)[25] == Money(Charge(i) * 3 / 10)
  {
    hide Ref, Decimal, Money, Prefix, Charge, Pick, Csv.Plain, Csv.Distinct;
  }

  lemma Nothing()
    ensures Money(0) == "0.00"
  {
    assert PadStart("0", 2) == Repeat('0', 1) + "0";
  }

  // ---------------------------------------------------------------- values that belong together

  /** A place is one of five cities, in its own state. */
  predicate Place(city: string, state: string) {
    || (city == "Brooklyn" && state == "NY") || (city == "Austin" && state == "TX")
    || (city == "Phoenix" && state == "AZ") || (city == "Detroit" && state == "MI")
    || (city == "Atlanta" && state == "GA")
  }

  /** A vehicle is one of five models, of its own make. */
  predicate ModelOf(make: string, model: string) {
    || (make == "Honda" && model == "Civic") || (make == "Ford" && model == "F-150")
    || (make == "Toyota" && model == "Camry") || (make == "Chevy" && model == "Silverado")
    || (make == "Kia" && model == "Sorento")
  }

  lemma PicksBelongTogether(i: nat)
    ensures Place(Pick(CITIES, i), Pick(STATES, i)) && ModelOf(Pick(MAKES, i), Pick(MODELS, i))
  {
    var k := i % 5;
    assert k == 0 || k == 1 || k == 2 || k == 3 || k == 4;
  }

  /** Cities stand with their states and models with their makes, in every row. */
  lemma RowsAreConsistent(o: Options, i: nat)
    ensures Place(Customer(o, i)[6], Customer(o, i)[7])
    ensures ModelOf(Vehicle(o, i)[3], Vehicle(o, i)[4]) && ModelOf(Truck(o, i)[3], Truck(o, i)[4])
    ensures Customer(o, i)[9] == "Account" <==> Customer(o, i)[11] == "1000.00"
    ensures Customer(o, i)[9] == "Cash" <==> Customer(o, i)[11] == ""
    ensures Payment(o, i)[4] == "Check" <==> Payment(o, i)[5] != ""
  {
    hide Pick, Phone, Vin, Decimal, PadStart, Place, ModelOf, Csv.Plain, Csv.Distinct, Money, Charge;
    PicksBelongTogether(i);
  }

  /** A choice repeats exactly after a whole round: six names, five of everything else. */
  lemma ChoicesRepeat(o: Options, i: nat, j: nat)
    ensures Customer(o, i)[1] == Customer(o, j)[1] <==> i % 6 == j % 6
    ensures Customer(o, i)[6] == Customer(o, j)[6] <==> i % 5 == j % 5
    ensures Vehicle(o, i)[3] == Vehicle(o, j)[3] <==> i % 5 == j % 5
    ensures ClubHistory(o, i)[1] == ClubHistory(o, j)[1] <==> i % 5 == j % 5
  {
    hide Pick, Customer, Vehicle, ClubHistory;
    PicksRepeat(i, j);
    Chosen(o, i);
    Chosen(o, j);
  }

  lemma Chosen(o: Options, i: nat)
    ensures Customer(o, i)[1] == Pick(NAMES, i) && Customer(o, i)[6] == Pick(CITIES, i)
    ensures Vehicle(o, i)[3] == Pick(MAKES, i) && ClubHistory(o, i)[1] == Pick(NETWORKS, i)
  {
    hide Pick, Phone, Vin, Decimal, PadStart, Ref, Csv.Plain, Csv.Distinct;
  }

  lemma PicksRepeat(i: nat, j: nat)
    ensures Pick(NAMES, i) == Pick(NAMES, j) <==> i % 6 == j % 6
    ensures Pick(CITIES, i) == Pick(CITIES, j) <==> i % 5 == j % 5
    ensures Pick(MAKES, i) == Pick(MAKES, j) <==> i % 5 == j % 5
    ensures Pick(NETWORKS, i) == Pick(NETWORKS, j) <==> i % 5 == j % 5
  {
    FiveDiffer(CITIES, i % 5, j % 5);
    FiveDiffer(MAKES, i % 5, j % 5);
    FiveDiffer(NETWORKS, i % 5, j % 5);
    NamesDiffer(i % 6, j % 6);
  }

  lemma NamesDiffer(i: nat, j: nat)
    requires i < 6 && j < 6
    ensures NAMES[i] == NAMES[j] <==> i == j
  {
    assert NAMES[0][0] == 'S' && NAMES[1][0] == 'L' && NAMES[2][0] == 'M';
    assert NAMES[3][0] == 'R' && NAMES[4][0] == 'J' && NAMES[5][0] == 'P';
  }

  lemma FiveDiffer(choices: seq<string>, i: nat, j: nat)
    requires choices == CITIES || choices == MAKES || choices == NETWORKS
    requires i < 5 && j < 5
    ensures choices[i] == choices[j] <==> i == j
  {
    assert CITIES[0][0] == 'B' && CITIES[2][0] == 'P' && CITIES[3][0] == 'D';
    assert CITIES[1][..2] == "Au" && CITIES[4][..2] == "At";
    assert MAKES[0][0] == 'H' && MAKES[1][0] == 'F' && MAKES[2][0] == 'T' && MAKES[3][0] == 'C' && MAKES[4][0] == 'K';
    assert NETWORKS[0][1] == 'g' && NETWORKS[1][1] == 'A' && NETWORKS[2][1] == 'e' && NETWORKS[3][1] == 't'
           && NETWORKS[4][1] == 'l';
  }

  // ---------------------------------------------------------------- other values that tell rows apart

  /** A number between two fixed texts tells rows apart. */
  lemma NumberedDiffer(before: string, after: string, m: nat, n: nat)
    ensures before + Decimal(m) + after == before + Decimal(n) + after <==> m == n
  {
    if before + Decimal(m) + after == before + Decimal(n) + after {
      AroundInjective(before, Decimal(m), Decimal(n), after);
      DecimalInjective(m, n);
    }
  }

  lemma PaddedDiffer(before: string, width: nat, m: nat, n: nat)
    ensures before + PadStart(Decimal(m), width) == before + PadStart(Decimal(n), width) <==> m == n
  {
    if before + PadStart(Decimal(m), width) == before + PadStart(Decimal(n), width) {
      AroundInjective(before, PadStart(Decimal(m), width), PadStart(Decimal(n), width), "");
      PaddedInjective(m, n, width);
    }
  }

  lemma KeysOfPeople(o: Options, i: nat)
    ensures var p := Prefix(o);
      && Customer(o, i)[4] == "customer-" + p + "-" + Decimal(i + 1) + "@example.test"
      && Driver(o, i)[3] == "driver-" + p + "-" + Decimal(i + 1) + "@example.test"
      && Driver(o, i)[4] == "D" + PadStart(Decimal(i + 1), 8)
  {
    hide Decimal, PadStart, Phone, Pick, Prefix, Csv.Plain, Csv.Distinct;
  }

  lemma KeysOfThings(o: Options, i: nat)
    ensures var p := Prefix(o);
      && Vehicle(o, i)[6] == "PLT" + PadStart(Decimal(i + 1), 4)
      && Truck(o, i)[1] == "T-" + p + "-" + Decimal(100 + i) && Truck(o, i)[6] == "TRK" + PadStart(Decimal(i + 1), 4)
      && Invoice(o, i)[2] == "INV-" + p + "-" + Decimal(20000 + i)
  {
    hide Decimal, PadStart, Vin, Pick, Ref, Money, Charge, Prefix, Csv.Plain, Csv.Distinct;
  }

  /** E-mail addresses, plates, licences, unit and invoice numbers never repeat in their tables. */
  lemma NaturalKeysDiffer(o: Options, i: nat, j: nat)
    ensures Customer(o, i)[4] == Customer(o, j)[4] <==> i == j
    ensures Vehicle(o, i)[6] == Vehicle(o, j)[6] <==> i == j
    ensures Driver(o, i)[3] == Driver(o, j)[3] <==> i == j
    ensures Driver(o, i)[4] == Driver(o, j)[4] <==> i == j
    ensures Truck(o, i)[1] == Truck(o, j)[1] <==> i == j
    ensures Truck(o, i)[6] == Truck(o, j)[6] <==> i == j
    ensures Invoice(o, i)[2] == Invoice(o, j)[2] <==> i == j
  {
    hide Decimal, PadStart, Customer, Vehicle, Driver, Truck, Invoice;
    var p := Prefix(o);
    KeysOfPeople(o, i);
    KeysOfPeople(o, j);
    KeysOfThings(o, i);
    KeysOfThings(o, j);
    NumberedDiffer("customer-" + p + "-", "@example.test", i + 1, j + 1);
    PaddedDiffer("PLT", 4, i + 1, j + 1);
    NumberedDiffer("driver-" + p + "-", "@example.test", i + 1, j + 1);
    PaddedDiffer("D", 8, i + 1, j + 1);
    EndingDiffer("T-" + p + "-", 100 + i, 100 + j);
    PaddedDiffer("TRK", 4, i + 1, j + 1);
    EndingDiffer("INV-" + p + "-", 20000 + i, 20000 + j);
  }

  lemma EndingDiffer(before: string, m: nat, n: nat)
    ensures before + Decimal(m) == before + Decimal(n) <==> m == n
  {
    if before + Decimal(m) == before + Decimal(n) {
      AroundInjective(before, Decimal(m), Decimal(n), "");
      DecimalInjective(m, n);
    }
  }

  lemma PhonesAndVins(o: Options, i: nat)
    ensures Customer(o, i)[2] == Phone(Prefix(o), "cust", i) && Driver(o, i)[2] == Phone(Prefix(o), "drv", i)
    ensures Vehicle(o, i)[8] == Vin(Prefix(o), "veh", i) && Truck(o, i)[5] == Vin(Prefix(o), "tr", i)
  {
    hide Pick, Phone, Vin, Decimal, PadStart, Ref, Prefix, Csv.Plain, Csv.Distinct;
  }

  /** Which rows an importer takes for the same customer or driver by the phone number, and for the same vehicle or
      truck by the VIN: of the former those 9000 rows apart, of the latter none. */
  lemma SameByPhoneOrVin(o: Options, i: nat, j: nat)
    ensures Customer(o, i)[2] == Customer(o, j)[2] <==> (i - j) % 9000 == 0
    ensures Driver(o, i)[2] == Driver(o, j)[2] <==> (i - j) % 9000 == 0
    ensures Vehicle(o, i)[8] == Vehicle(o, j)[8] <==> i == j
    ensures Truck(o, i)[5] == Truck(o, j)[5] <==> i == j
  {
    hide Customer, Driver, Vehicle, Truck, Phone, Vin;
    PhonesAndVins(o, i);
    PhonesAndVins(o, j);
    PhonesRepeat(Prefix(o), "cust", i, j);
    PhonesRepeat(Prefix(o), "drv", i, j);
    VinsDistinct(Prefix(o), "veh", i, j);
    VinsDistinct(Prefix(o), "tr", i, j);
  }

  lemma NumbersPrinted(o: Options, i: nat)
    ensures Vehicle(o, i)[2] == Decimal(2015 + i % 10) && Truck(o, i)[2] == Decimal(2018 + i % 8)
    ensures Truck(o, i)[8] == Decimal(26000 + (i % 5) * 1000) && Customer(o, i)[8] == PadStart(Decimal(10000 + i), 5)
  {
    hide Pick, Phone, Vin, Decimal, PadStart, Ref, Prefix, Csv.Plain, Csv.Distinct;
  }

  /** Model years from 2015 to 2024 and from 2018 to 2025, weights from 26000 to 30000 pounds, and postal codes
      that count up from 10000. */
  lemma NumbersAre(o: Options, i: nat)
    ensures Parse(Vehicle(o, i)[2]) == 2015 + i % 10 && Parse(Truck(o, i)[2]) == 2018 + i % 8
    ensures Parse(Truck(o, i)[8]) == 26000 + 1000 * (i % 5) && Parse(Customer(o, i)[8]) == 10000 + i
  {
    hide Vehicle, Truck, Customer, Decimal, PadStart, Parse;
    NumbersPrinted(o, i);
    ParseDecimal(2015 + i % 10);
    ParseDecimal(2018 + i % 8);
    ParseDecimal(26000 + (i % 5) * 1000);
    ParsePadStart(10000 + i, 5);
  }

  /** The first place where two times differ decides: the earlier one has the smaller digit there. */
  predicate Earlier(a: string, b: string, at: nat) {
    at < |a| == |b| && a[..at] == b[..at] && a[at] < b[at]
  }

  /** A call goes through its stages one after the other. */
  lemma CallsGoForward(o: Options, degrees: int -> string, i: nat)
    ensures var row := Job(o, degrees, i);
      && Earlier(row[1], row[17], 15) && Earlier(row[17], row[18], 15) && Earlier(row[18], row[19], 14)
      && Earlier(row[19], row[20], 12) && Earlier(row[20], row[21], 14) && Earlier(row[21], row[22], 14)
      && Earlier(row[22], row[23], 14)
  {
    hide Decimal, PadStart, Pick, Ref, Money, Charge, Prefix, Csv.Plain, Csv.Distinct;
  }

  /** An impounded vehicle is released, if at all, after it came in; an invoice falls due after it was issued, and
      a payment comes in between. */
  lemma PapersGoForward(o: Options, i: nat)
    ensures Impound(o, i)[6] != "" <==> i % 3 == 0
    ensures Impound(o, i)[6] == "" || Earlier(Impound(o, i)[2], Impound(o, i)[6], 9)
    ensures Earlier(Invoice(o, i)[3], Payment(o, i)[2], 9) && Earlier(Payment(o, i)[2], Invoice(o, i)[4], 6)
  {
    hide Decimal, PadStart, Pick, Ref, Money, Charge, Prefix, Csv.Plain, Csv.Distinct;
  }
}
