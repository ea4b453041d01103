/**
 The importer's side of a bundle: the file names it looks for, the columns its mapping file names for every
 field, and the values it translates; and that it finds in a generated bundle exactly what was generated.
 */
module BundleImport {
  import opened Results
  import opened Words
  import opened Bundle
  import opened BundleArchive
  import Csv
  import Zip

  /** A field of the importer and the column names it may go by, the first match winning. */
  datatype Mapped = Mapped(field: string, aliases: seq<string>)

  const CUSTOMER_FIELDS: seq<Mapped> :=
    [Mapped("external_id", ["towbook_id", "id"]), Mapped("name", ["name", "customer_name"]),
     Mapped("phone_primary", ["phone_primary", "phone", "phone1"]),
     Mapped("phone_secondary", ["phone_secondary", "phone2", "mobile"]),
     Mapped("email", ["email", "email_address"]),
     Mapped("street_address", ["street_address", "address", "street"]), Mapped("city", ["city"]),
     Mapped("state", ["state"]), Mapped("zip", ["zip", "postal_code", "zip_code"]),
     Mapped("account_type", ["account_type", "type"]), Mapped("billing_terms", ["billing_terms", "terms"]),
     Mapped("credit_limit", ["credit_limit"]), Mapped("coi_expiration", ["coi_expiration", "coi_expires"]),
     Mapped("created_date", ["created_date", "created_at"])]

  const VEHICLE_FIELDS: seq<Mapped> :=
    [Mapped("external_id", ["towbook_id", "id"]),
     Mapped("customer_towbook_id", ["customer_towbook_id", "customer_id"]), Mapped("year", ["year"]),
     Mapped("make", ["make"]), Mapped("model", ["model"]), Mapped("color", ["color"]),
     Mapped("plate", ["plate", "license_plate"]), Mapped("plate_state", ["plate_state", "license_state"]),
     Mapped("vin", ["vin"]), Mapped("notes", ["notes"])]

  const DRIVER_FIELDS: seq<Mapped> :=
    [Mapped("external_id", ["towbook_id", "id"]), Mapped("name", ["name", "driver_name"]),
     Mapped("phone", ["phone"]), Mapped("email", ["email"]), Mapped("license_number", ["license_number"]),
     Mapped("license_state", ["license_state"]), Mapped("license_expiration", ["license_expiration"]),
     Mapped("medical_card_expiration", ["medical_card_expiration"]), Mapped("hire_date", ["hire_date"]),
     Mapped("termination_date", ["termination_date"])]

  const TRUCK_FIELDS: seq<Mapped> :=
    [Mapped("external_id", ["towbook_id", "id"]), Mapped("unit_number", ["unit_number", "unit"]),
     Mapped("year", ["year"]), Mapped("make", ["make"]), Mapped("model", ["model"]), Mapped("vin", ["vin"]),
     Mapped("plate", ["plate"]), Mapped("plate_state", ["plate_state"]), Mapped("gvwr", ["gvwr"]),
     Mapped("equipment_type", ["equipment_type", "type"])]

  const CALL_START: seq<Mapped> :=
    [Mapped("external_id", ["towbook_id", "id", "call_id"]),
     Mapped("call_received_at", ["call_received_at", "received_at", "call_time"]),
     Mapped("service_type", ["service_type", "service"]), Mapped("source", ["source"]),
     Mapped("network", ["network", "motor_club"]), Mapped("network_case_id", ["network_case_id", "case_id"])]

  const CALL_PLACES: seq<Mapped> :=
    [Mapped("pickup_address", ["pickup_address", "from_address"]),
     Mapped("pickup_lat", ["pickup_lat", "from_lat"]), Mapped("pickup_lng", ["pickup_lng", "from_lng"]),
     Mapped("dropoff_address", ["dropoff_address", "to_address"]),
     Mapped("dropoff_lat", ["dropoff_lat", "to_lat"]), Mapped("dropoff_lng", ["dropoff_lng", "to_lng"])]

  const CALL_PARTIES: seq<Mapped> :=
    [Mapped("customer_towbook_id", ["customer_towbook_id", "customer_id"]),
     Mapped("vehicle_towbook_id", ["vehicle_towbook_id", "vehicle_id"]),
     Mapped("assigned_driver_towbook_id", ["assigned_driver_towbook_id", "driver_id"]),
     Mapped("assigned_truck_towbook_id", ["assigned_truck_towbook_id", "truck_id"])]

  const CALL_PROGRESS: seq<Mapped> :=
    [Mapped("status", ["status", "call_status"]), Mapped("assigned_at", ["assigned_at"]),
     Mapped("en_route_at", ["en_route_at", "enroute_at"]), Mapped("on_scene_at", ["on_scene_at"]),
     Mapped("loaded_at", ["loaded_at"]), Mapped("in_transit_at", ["in_transit_at"]),
     Mapped("dropped_at", ["dropped_at"]), Mapped("cleared_at", ["cleared_at"])]

  const CALL_CHARGES: seq<Mapped> :=
    [Mapped("total_charged", ["total_charged", "total"]),
     Mapped("driver_commission", ["driver_commission", "commission"]), Mapped("notes", ["notes", "call_notes"])]

  const CALL_FIELDS: seq<Mapped> :=
    CALL_START + CALL_PLACES + CALL_PARTIES + CALL_PROGRESS + CALL_CHARGES

  const IMPOUND_FIELDS: seq<Mapped> :=
    [Mapped("external_id", ["towbook_id", "id"]),
     Mapped("vehicle_towbook_id", ["vehicle_towbook_id", "vehicle_id"]), Mapped("impound_date", ["impound_date"]),
     Mapped("yard_name", ["yard_name", "yard"]), Mapped("hold_type", ["hold_type"]),
     Mapped("daily_rate", ["daily_rate"]), Mapped("release_date", ["release_date"]),
     Mapped("release_reason", ["release_reason"]),
     Mapped("personal_property_inventory", ["personal_property_inventory", "inventory"])]

  const INVOICE_FIELDS: seq<Mapped> :=
    [Mapped("external_id", ["towbook_id", "id"]), Mapped("job_towbook_id", ["job_towbook_id", "call_id"]),
     Mapped("invoice_number", ["invoice_number"]), Mapped("issued_date", ["issued_date"]),
     Mapped("due_date", ["due_date"]), Mapped("total", ["total"]), Mapped("balance", ["balance"]),
     Mapped("status", ["status"])]

  const PAYMENT_FIELDS: seq<Mapped> :=
    [Mapped("external_id", ["towbook_id", "id"]),
     Mapped("invoice_towbook_id", ["invoice_towbook_id", "invoice_id"]),
     Mapped("received_date", ["received_date", "payment_date"]), Mapped("amount", ["amount"]),
     Mapped("method", ["method", "payment_method"]), Mapped("reference", ["reference", "check_number"])]

  const HISTORY_FIELDS: seq<Mapped> :=
    [Mapped("job_towbook_id", ["job_towbook_id", "call_id"]), Mapped("network", ["network", "motor_club"]),
     Mapped("network_case_id", ["network_case_id", "case_id"]),
     Mapped("partial_fee_amount", ["partial_fee_amount", "partial_fee"]),
     Mapped("partial_fee_reason", ["partial_fee_reason"])]

  const ATTACHMENT_FIELDS: seq<Mapped> :=
    [Mapped("towbook_id", ["towbook_id", "call_id"]), Mapped("filename", ["filename", "file"]),
     Mapped("type", ["type", "kind"])]

  /** The record a file holds, by its name, and the fields of that record. */
  function FieldsOf(file: string): Option<seq<Mapped>> {
    if file == "customers.csv" then Some(CUSTOMER_FIELDS)
    else if file == "vehicles.csv" then Some(VEHICLE_FIELDS)
    else if file == "drivers.csv" then Some(DRIVER_FIELDS)
    else if file == "trucks.csv" then Some(TRUCK_FIELDS)
    else if file == "calls.csv" then Some(CALL_FIELDS)
    else if file == "impounds.csv" then Some(IMPOUND_FIELDS)
    else if file == "invoices.csv" then Some(INVOICE_FIELDS)
    else if file == "payments.csv" then Some(PAYMENT_FIELDS)
    else if file == "motor_club_history.csv" then Some(HISTORY_FIELDS)
    else if file == "attachments.csv" then Some(ATTACHMENT_FIELDS)
    else None
  }

  /** The header map is filled from left to right, so of two columns of one name the last one stays. */
  function ColumnIndex(header: seq<string>, name: string): Option<nat> {
    if header == [] then None
    else if header[|header| - 1] == name then Some(|header| - 1)
    else ColumnIndex(header[..|header| - 1], name)
  }

  function ResolveColumnIndex(aliases: seq<string>, header: seq<string>): Option<nat> {
    if aliases == [] then None
    else if ColumnIndex(header, aliases[0]).Some? then ColumnIndex(header, aliases[0])
    else ResolveColumnIndex(aliases[1..], header)
  }

  /** The value of a field in row i of a parsed table. */
  function Get(table: seq<seq<string>>, aliases: seq<string>, i: nat): Option<string> {
    if table == [] || i + 1 >= |table| then None
    else
      match ResolveColumnIndex(aliases, table[0])
      case None => None
      case Some(k) => if k < |table[i + 1]| then Some(table[i + 1][k]) else None
  }

  /** A name resolves to its last column, and to none exactly when there is none. */
  lemma {:induction false} ColumnIndexLast(header: seq<string>, name: string)
    ensures match ColumnIndex(header, name)
      case None => name !in header
      case Some(k) => k < |header| && header[k] == name && name !in header[k + 1..]
  {
    if header != [] && header[|header| - 1] != name {
      var before := header[..|header| - 1];
      ColumnIndexLast(before, name);
      assert header == before + [header[|header| - 1]];
      if k: nat :| ColumnIndex(before, name) == Some(k) {
        assert header[k + 1..] == before[k + 1..] + [header[|header| - 1]];
      }
    }
  }

  /** A field resolves to the last column of its first name that there is, and to none exactly when there is none
      of its names. */
  lemma {:induction false} FirstNameResolves(aliases: seq<string>, header: seq<string>)
    ensures match ResolveColumnIndex(aliases, header)
      case None => forall a :: 0 <= a < |aliases| ==> aliases[a] !in header
      case Some(k) => k < |header| && exists a :: 0 <= a < |aliases| && aliases[a] == header[k]
                                                  && header[k] !in header[k + 1..]
                                                  && forall b :: 0 <= b < a ==> aliases[b] !in header
  {
    if aliases != [] {
      ColumnIndexLast(header, aliases[0]);
      if ColumnIndex(header, aliases[0]) == None {
        var rest := aliases[1..];
        FirstNameResolves(rest, header);
        if k: nat :| ResolveColumnIndex(rest, header) == Some(k) {
          var a :| 0 <= a < |rest| && rest[a] == header[k] && header[k] !in header[k + 1..]
                   && forall b :: 0 <= b < a ==> rest[b] !in header;
          assert aliases[a + 1] == header[k];
          assert forall b :: 0 <= b < a + 1 ==> aliases[b] == if b == 0 then aliases[0] else rest[b - 1];
        }
      }
    }
  }

  // ---------------------------------------------------------------- every column is found

  /** Field k goes by the name of column k, in its first choice. */
  predicate Covers(fields: seq<Mapped>, header: seq<string>) {
    && |fields| == |header|
    && forall k :: 0 <= k < |fields| ==> fields[k].aliases != [] && fields[k].aliases[0] == header[k]
  }

  lemma {:induction false} ColumnIndexIs(header: seq<string>, k: nat)
    requires k < |header| && Csv.Distinct(header)
    ensures ColumnIndex(header, header[k]) == Some(k)
  {
    var before := header[..|header| - 1];
    if k < |before| {
      assert forall i, j :: 0 <= i < j < |before| ==> before[i] == header[i] && before[j] == header[j];
      ColumnIndexIs(before, k);
    }
  }

  lemma FieldFound(fields: seq<Mapped>, header: seq<string>, k: nat)
    requires Covers(fields, header) && Csv.Distinct(header) && k < |header|
    ensures ResolveColumnIndex(fields[k].aliases, header) == Some(k)
  {
    ColumnIndexIs(header, k);
  }

  lemma PeopleCovered()
    ensures Covers(CUSTOMER_FIELDS, CUSTOMERS)
    ensures Covers(VEHICLE_FIELDS, VEHICLES)
    ensures Covers(DRIVER_FIELDS, DRIVERS)
    ensures Covers(TRUCK_FIELDS, TRUCKS)
  {
    hide Csv.Plain, Csv.Distinct;
  }

  lemma CoversBoth(f: seq<Mapped>, h: seq<string>, g: seq<Mapped>, k: seq<string>)
    requires Covers(f, h) && Covers(g, k)
    ensures Covers(f + g, h + k)
  {
  }

  lemma CallPartsCovered()
    ensures Covers(CALL_START, JOB_CALL) && Covers(CALL_PLACES, JOB_PLACES) && Covers(CALL_PARTIES, JOB_PARTIES)
    ensures Covers(CALL_PROGRESS, JOB_PROGRESS) && Covers(CALL_CHARGES, JOB_CHARGES)
  {
    hide Csv.Plain, Csv.Distinct;
  }

  lemma CallsCovered()
    ensures Covers(CALL_FIELDS, JOBS)
  {
    CallPartsCovered();
    hide Covers, Csv.Plain, Csv.Distinct;
    CoversBoth(CALL_START, JOB_CALL, CALL_PLACES, JOB_PLACES);
    var f, h := CALL_START + CALL_PLACES, JOB_CALL + JOB_PLACES;
    CoversBoth(f, h, CALL_PARTIES, JOB_PARTIES);
    CoversBoth(f + CALL_PARTIES, h + JOB_PARTIES, CALL_PROGRESS, JOB_PROGRESS);
    CoversBoth(f + CALL_PARTIES + CALL_PROGRESS, h + JOB_PARTIES + JOB_PROGRESS, CALL_CHARGES, JOB_CHARGES);
  }

  lemma PapersCovered()
    ensures Covers(IMPOUND_FIELDS, IMPOUNDS)
    ensures Covers(INVOICE_FIELDS, INVOICES)
    ensures Covers(PAYMENT_FIELDS, PAYMENTS)
  {
    hide Csv.Plain, Csv.Distinct;
  }

  lemma ExtrasCovered()
    ensures Covers(HISTORY_FIELDS, HISTORY)
    ensures Covers(ATTACHMENT_FIELDS, ATTACHMENTS)
  {
    hide Csv.Plain, Csv.Distinct;
  }

  /** Every table of a bundle is one the importer knows, with a field for every column. */
  lemma SheetsKnown(o: Options, degrees: int -> string, n: nat)
    requires n < |Files(o, degrees)| && Files(o, degrees)[n].SheetFile?
    ensures var s := Files(o, degrees)[n].sheet; FieldsOf(s.file).Some? && Covers(FieldsOf(s.file).value, s.columns)
  {
    hide Covers, Files;
    PeopleCovered();
    CallsCovered();
    PapersCovered();
    ExtrasCovered();
    FileKinds(o, degrees, n);
  }

  lemma FileKinds(o: Options, degrees: int -> string, n: nat)
    requires n < |Files(o, degrees)| && Files(o, degrees)[n].SheetFile?
    ensures var s := Files(o, degrees)[n].sheet;
      || s == Customers(o) || s == Vehicles(o) || s == Drivers(o) || s == Trucks(o) || s == Jobs(o, degrees)
      || s == Impounds(o) || s == Invoices(o) || s == Payments(o) || s == MotorClubHistory(o) || s == Attachments(o)
  {
    hide Customers, Vehicles, Drivers, Trucks, Jobs, Impounds, Invoices, Payments, MotorClubHistory, Attachments;
  }

  /** Whatever the options: unzip the bundle, look a table up by its file name, decode and parse it, and ask for
      any field of any row under the importer's names; the answer is the generated value of that column. */
  lemma FieldsArrive(o: Options, degrees: int -> string, enc: string -> seq<Byte>, dec: seq<Byte> -> string,
                     n: nat, i: nat, k: nat)
    requires forall s: string :: dec(enc(s)) == s
    requires FilesRegular(o, degrees) && Zip.Fits(ToEntries(Files(o, degrees), enc))
    requires n < |Files(o, degrees)| && Files(o, degrees)[n].SheetFile?
    requires i < |Files(o, degrees)[n].sheet.rows| && k < |Files(o, degrees)[n].sheet.columns|
    ensures var s, unzipped := Files(o, degrees)[n].sheet, Zip.Unzip(Zip.Archive(ToEntries(Files(o, degrees), enc)));
      && unzipped.Some? && Find(unzipped.value, enc(s.file)).Some?
      && var table := ReadSheet(dec(Find(unzipped.value, enc(s.file)).value));
      && table.Some? && FieldsOf(s.file).Some? && k < |FieldsOf(s.file).value|
      && k < |s.rows[i]| && Get(table.value, FieldsOf(s.file).value[k].aliases, i) == Some(s.rows[i][k])
  {
    hide Files, Zip.Unzip, Zip.Archive, Zip.Fits, Find, ReadSheet, FieldsOf, Covers, ResolveColumnIndex;
    var s := Files(o, degrees)[n].sheet;
    EndToEnd(o, degrees, enc, dec);
    SheetsKnown(o, degrees, n);
    AllSheetsGood(o, degrees, n);
    FieldFound(FieldsOf(s.file).value, s.columns, k);
    CoversAll(FieldsOf(s.file).value, s.columns);
  }

  lemma CoversAll(fields: seq<Mapped>, header: seq<string>)
    requires Covers(fields, header)
    ensures |fields| == |header|
  {
  }

  // ---------------------------------------------------------------- every value is translated

  const SERVICE_TYPE: map<string, string> :=
    map["Tow" := "tow", "Light Duty Tow" := "tow", "Flatbed Tow" := "tow", "Heavy Duty Tow" := "tow",
        "Jump Start" := "jump_start", "Jumpstart" := "jump_start", "Lockout" := "lockout",
        "Tire Change" := "tire_change", "Flat Tire" := "tire_change", "Fuel Delivery" := "fuel", "Fuel" := "fuel",
        "Winch Out" := "winch", "Winch" := "winch", "Recovery" := "recovery", "Impound" := "impound"]

  const STATUS: map<string, string> :=
    map["New" := "new", "Pending" := "new", "Dispatched" := "dispatched", "En Route" := "enroute",
        "Enroute" := "enroute", "On Scene" := "on_scene", "OnScene" := "on_scene", "In Progress" := "in_progress",
        "Loaded" := "in_progress", "In Transit" := "in_progress", "Cleared" := "completed",
        "Completed" := "completed", "Closed" := "completed", "Cancelled" := "cancelled", "Canceled" := "cancelled",
        "GOA" := "goa", "Gone On Arrival" := "goa"]

  const ACCOUNT_TYPE: map<string, string> :=
    map["Cash" := "cash", "Account" := "account", "Motor Club" := "account", "Commercial" := "account"]

  const PAYMENT_METHOD: map<string, string> :=
    map["Cash" := "cash", "Check" := "check", "Credit Card" := "card", "Card" := "card", "ACH" := "ach",
        "Wire" := "ach", "Motor Club" := "motor_club"]

  const NETWORK: map<string, string> :=
    map["Agero" := "agero", "AAA" := "aaa", "Allstate" := "allstate", "Urgently" := "urgently", "Honk" := "honk",
        "Roadside Masters" := "roadside_masters", "State Farm" := "state_farm", "Geico" := "geico",
        "Progressive" := "progressive"]

  const EQUIPMENT_TYPE: map<string, string> :=
    map["Flatbed" := "flatbed", "Wheel Lift" := "wheel_lift", "Medium Duty" := "medium_duty",
        "Heavy Duty" := "heavy_duty", "Rotator" := "rotator"]

  /** No generated value falls through to a default of the importer. */
  lemma CallsTranslated(o: Options, degrees: int -> string, i: nat)
    ensures Job(o, degrees, i)[2] in SERVICE_TYPE && SERVICE_TYPE[Job(o, degrees, i)[2]] == "tow"
    ensures Job(o, degrees, i)[16] in STATUS && STATUS[Job(o, degrees, i)[16]] == "completed"
    ensures Job(o, degrees, i)[4] == "" <==> i % 3 != 0
    ensures Job(o, degrees, i)[4] == "" || Job(o, degrees, i)[4] in NETWORK
    ensures ClubHistory(o, i)[1] in NETWORK
  {
    NetworksKnown(i);
    JobWords(o, degrees, i);
    CallWords();
    hide Pick, Job;
    ClubNetwork(o, i);
  }

  lemma ClubNetwork(o: Options, i: nat)
    ensures ClubHistory(o, i)[1] == Pick(NETWORKS, i)
  {
  }

  lemma CallWords()
    ensures "Tow" in SERVICE_TYPE && SERVICE_TYPE["Tow"] == "tow"
    ensures "Completed" in STATUS && STATUS["Completed"] == "completed"
  {
  }

  lemma OthersTranslated(o: Options, i: nat)
    ensures Customer(o, i)[9] in ACCOUNT_TYPE
    ensures ACCOUNT_TYPE[Customer(o, i)[9]] == if i % 5 == 0 then "account" else "cash"
    ensures Payment(o, i)[4] in PAYMENT_METHOD
    ensures PAYMENT_METHOD[Payment(o, i)[4]] == if i % 3 == 0 then "cash" else if i % 3 == 1 then "card" else "check"
    ensures Truck(o, i)[9] in EQUIPMENT_TYPE
    ensures EQUIPMENT_TYPE[Truck(o, i)[9]] == if i % 2 == 0 then "flatbed" else "wheel_lift"
  {
    hide Pick, SynthIds.Phone, SynthIds.Vin, Decimals.Decimal, Decimals.PadStart, Csv.Plain, Csv.Distinct, Money;
  }

  lemma NetworksKnown(i: nat)
    ensures Pick(NETWORKS, i) in NETWORK && Pick(NETWORKS, i) != ""
  {
    var k := i % 5;
    assert k == 0 || k == 1 || k == 2 || k == 3 || k == 4;
  }

  lemma JobWords(o: Options, degrees: int -> string, i: nat)
    ensures Job(o, degrees, i)[2] == "Tow" && Job(o, degrees, i)[16] == "Completed"
    ensures Job(o, degrees, i)[4] == if i % 3 == 0 then Pick(NETWORKS, i) else ""
  {
    hide Ref, Decimals.Decimal, Money, Prefix, Charge, Pick, Csv.Plain, Csv.Distinct;
  }
}
