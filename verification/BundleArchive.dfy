/**
 The tables printed as CSV and packed with the media files into one ZIP archive, and what an importer
 is guaranteed to find in it.
 */
module BundleArchive {
  import opened Results
  import opened Words
  import opened Decimals
  import opened Bundle
  import Csv
  import Zip

  // ---------------------------------------------------------------- the files of the archive

  datatype File = SheetFile(sheet: Sheet) | PhotoFile(index: nat)

  const JPEG: seq<Byte> := [0xFF, 0xD8, 0xFF, 0xD9]

  function FileName(f: File): string {
    match f
    case SheetFile(s) => s.file
    case PhotoFile(i) => "media/" + PhotoName(i)
  }

  function Photos(n: nat): (r: seq<File>)
    ensures |r| == n
    ensures forall i :: 0 <= i < n ==> r[i] == PhotoFile(i)
  {
    seq(n, (i: nat) => PhotoFile(i))
  }

  function Fixed(o: Options, degrees: int -> string): seq<File> {
    [SheetFile(Customers(o)), SheetFile(Vehicles(o)), SheetFile(Drivers(o)), SheetFile(Trucks(o)),
     SheetFile(Jobs(o, degrees))]
  }

  /** An optional table becomes a file only when it has rows. */
  function Present(s: Sheet, count: nat): seq<File> {
    if count > 0 then [SheetFile(s)] else []
  }

  function Files(o: Options, degrees: int -> string): seq<File> {
    Fixed(o, degrees)
    + Present(Impounds(o), OrZero(o.impounds))
    + Present(Invoices(o), OrZero(o.invoices))
    + Present(Payments(o), OrZero(o.payments))
    + Present(MotorClubHistory(o), OrZero(o.motorClubHistory))
    + Present(Attachments(o), OrZero(o.attachments))
    + Photos(OrZero(o.attachments))
  }

  predicate Regular(s: Sheet) {
    forall i :: 0 <= i < |s.rows| ==> |s.rows[i]| == |s.columns|
  }

  function Object(columns: seq<string>, values: seq<string>): (r: Csv.Record)
    requires |columns| == |values|
    ensures |r| == |columns|
  {
    seq(|columns|, k requires 0 <= k < |columns| => Csv.Field(columns[k], Csv.Text(values[k])))
  }

  function Objects(s: Sheet): (r: seq<Csv.Record>)
    requires Regular(s)
    ensures |r| == |s.rows|
  {
    seq(|s.rows|, i requires 0 <= i < |s.rows| => Object(s.columns, s.rows[i]))
  }

  function Text(s: Sheet): string
    requires Regular(s)
  {
    Csv.RecordsToCsv(Objects(s))
  }

  predicate RegularFile(f: File) {
    f.SheetFile? ==> Regular(f.sheet)
  }

  ghost predicate FilesRegular(o: Options, degrees: int -> string) {
    forall k :: 0 <= k < |Files(o, degrees)| ==> RegularFile(Files(o, degrees)[k])
  }

  lemma FixedRegular(o: Options, degrees: int -> string)
    ensures |Fixed(o, degrees)| == 5 && forall k :: 0 <= k < 5 ==> RegularFile(Fixed(o, degrees)[k])
  {
    hide Customer, Vehicle, Driver, Truck, Job, Csv.Plain, Csv.Distinct;
    assert Regular(Customers(o)) && Regular(Vehicles(o)) && Regular(Drivers(o)) && Regular(Trucks(o));
    assert Regular(Jobs(o, degrees));
  }

  lemma OptionalRegular(o: Options)
    ensures Regular(Impounds(o)) && Regular(Invoices(o)) && Regular(Payments(o))
    ensures Regular(MotorClubHistory(o)) && Regular(Attachments(o))
  {
    hide Impound, Invoice, Payment, ClubHistory, Attachment, Csv.Plain, Csv.Distinct;
    assert forall i :: 0 <= i < |MotorClubHistory(o).rows| ==> MotorClubHistory(o).rows[i] == ClubHistory(o, i);
    assert forall i :: 0 <= i < |Attachments(o).rows| ==> Attachments(o).rows[i] == Attachment(o, i);
  }

  lemma AllFilesRegular(o: Options, degrees: int -> string)
    ensures FilesRegular(o, degrees)
  {
    hide Regular, Fixed, Customers, Vehicles, Drivers, Trucks, Jobs, Impounds, Invoices, Payments, MotorClubHistory,
         Attachments;
    FixedRegular(o, degrees);
    OptionalRegular(o);
  }

  /** `Buffer.from(text, 'utf8')` is the parameter `enc`. */
  function ToEntry(f: File, enc: string -> seq<Byte>): Zip.Entry
    requires RegularFile(f)
  {
    Zip.Entry(enc(FileName(f)), if f.SheetFile? then enc(Text(f.sheet)) else JPEG)
  }

  function ToEntries(files: seq<File>, enc: string -> seq<Byte>): (r: seq<Zip.Entry>)
    requires forall k :: 0 <= k < |files| ==> RegularFile(files[k])
    ensures |r| == |files|
    ensures forall k :: 0 <= k < |files| ==> r[k] == ToEntry(files[k], enc)
  {
    seq(|files|, k requires 0 <= k < |files| => ToEntry(files[k], enc))
  }

  /** Pushes the manifest and, in a loop, one photo per attachment. */
  method PushAttachments(before: seq<File>, o: Options) returns (files: seq<File>)
    ensures files == before + Present(Attachments(o), OrZero(o.attachments)) + Photos(OrZero(o.attachments))
  {
    files := before;
    if OrZero(o.attachments) > 0 {
      files := files + [SheetFile(Attachments(o))];
      for i := 0 to OrZero(o.attachments)
        invariant files == before + [SheetFile(Attachments(o))] + Photos(OrZero(o.attachments))[..i]
      {
        files := files + [PhotoFile(i)];
      }
    }
  }

  /** The script itself: pushes the files in order, then writes the archive. */
  method BuildSyntheticBundle(o: Options, degrees: int -> string, enc: string -> seq<Byte>)
    returns (r: Result<seq<Byte>>)
    ensures FilesRegular(o, degrees)
    ensures r.Ok? <==> Zip.Fits(ToEntries(Files(o, degrees), enc))
    ensures r.Ok? ==> r.value == Zip.Archive(ToEntries(Files(o, degrees), enc))
  {
    hide Customers, Vehicles, Drivers, Trucks, Jobs, Impounds, Invoices, Payments, MotorClubHistory, Attachments;
    hide RegularFile, ToEntry, Zip.Fits, Zip.Archive, OrZero;
    AllFilesRegular(o, degrees);
    var files := Fixed(o, degrees);
    ghost var spec := files + Present(Impounds(o), OrZero(o.impounds));
    if OrZero(o.impounds) > 0 { files := files + [SheetFile(Impounds(o))]; }
    assert files == spec;
    spec := spec + Present(Invoices(o), OrZero(o.invoices));
    if OrZero(o.invoices) > 0 { files := files + [SheetFile(Invoices(o))]; }
    assert files == spec;
    spec := spec + Present(Payments(o), OrZero(o.payments));
    if OrZero(o.payments) > 0 { files := files + [SheetFile(Payments(o))]; }
    assert files == spec;
    spec := spec + Present(MotorClubHistory(o), OrZero(o.motorClubHistory));
    if OrZero(o.motorClubHistory) > 0 { files := files + [SheetFile(MotorClubHistory(o))]; }
    assert files == spec;
    files := PushAttachments(files, o);
    assert files == Files(o, degrees);
    r := Zip.BuildZipBytes(ToEntries(files, enc));
  }

  // ---------------------------------------------------------------- the generated sheets are well-formed

  /** Rows of the header's width; column names that need no quoting and do not repeat. */
  ghost predicate GoodSheet(s: Sheet) {
    Regular(s) && Csv.GoodHeader(s.columns) && Csv.Distinct(s.columns)
  }

  lemma AllSheetsGood(o: Options, degrees: int -> string, k: nat)
    requires k < |Files(o, degrees)| && Files(o, degrees)[k].SheetFile?
    ensures GoodSheet(Files(o, degrees)[k].sheet)
  {
    hide Files, Csv.Plain;
    AllFilesRegular(o, degrees);
    var header: Csv.Header := Files(o, degrees)[k].sheet.columns;
    assert RegularFile(Files(o, degrees)[k]);
  }

  // ---------------------------------------------------------------- names are distinct

  ghost predicate DistinctNames(files: seq<File>) {
    forall i, j :: 0 <= i < j < |files| ==> FileName(files[i]) != FileName(files[j])
  }

  lemma PhotoNamesDistinct(i: nat, j: nat)
    requires FileName(PhotoFile(i)) == FileName(PhotoFile(j))
    ensures i == j
  {
    assert "media/photo-" + Decimal(i + 1) + ".jpg" == "media/" + PhotoName(i);
    assert "media/photo-" + Decimal(j + 1) + ".jpg" == "media/" + PhotoName(j);
    AroundInjective("media/photo-", Decimal(i + 1), Decimal(j + 1), ".jpg");
    DecimalInjective(i + 1, j + 1);
  }

  /** The order of the tables in the archive: each has its own position and its own name. */
  const SHEET_NAMES: seq<string> :=
    ["customers.csv", "vehicles.csv", "drivers.csv", "trucks.csv", "calls.csv", "impounds.csv", "invoices.csv",
     "payments.csv", "motor_club_history.csv", "attachments.csv"]

  lemma SheetNamesDistinct()
    ensures Csv.Distinct(SHEET_NAMES)
    ensures forall k :: 0 <= k < 10 ==> |SHEET_NAMES[k]| > 5 && SHEET_NAMES[k][5] != '/'
  {
  }

  /** One of the first r sheet names. */
  predicate IsSheetName(name: string, r: nat)
    requires r <= 10
  {
    name in SHEET_NAMES[..r]
  }

  ghost predicate NamesWithin(files: seq<File>, r: nat)
    requires r <= 10
  {
    forall i :: 0 <= i < |files| ==> IsSheetName(FileName(files[i]), r)
  }

  /** Tables come in the order of their names in the list. */
  ghost predicate InOrder(files: seq<File>) {
    forall j, k, a, b :: 0 <= j < k < |files| && IsNumber(files[j], a) && IsNumber(files[k], b) ==> a < b
  }

  /** The file has name a of the list. */
  predicate IsNumber(f: File, a: int) {
    0 <= a < 10 && FileName(f) == SHEET_NAMES[a]
  }

  lemma NumberWithin(f: File, r: nat, a: int)
    requires r <= 10 && IsSheetName(FileName(f), r) && IsNumber(f, a)
    ensures a < r
  {
    SheetNamesDistinct();
    var c :| 0 <= c < r && SHEET_NAMES[..r][c] == FileName(f);
    assert SHEET_NAMES[c] == SHEET_NAMES[a];
  }

  lemma AppendInOrder(files: seq<File>, s: Sheet, count: nat, r: nat)
    requires r < 10 && s.file == SHEET_NAMES[r]
    requires InOrder(files) && NamesWithin(files, r)
    ensures InOrder(files + Present(s, count))
  {
    hide IsSheetName, FileName;
    var all := files + Present(s, count);
    forall j, k, a, b | 0 <= j < k < |all| && IsNumber(all[j], a) && IsNumber(all[k], b)
      ensures a < b
    {
      if k == |files| {
        NumberWithin(files[j], r, a);
        OneNumber(s, r, b);
      }
    }
  }

  lemma OneNumber(s: Sheet, r: nat, b: int)
    requires r < 10 && s.file == SHEET_NAMES[r] && IsNumber(SheetFile(s), b)
    ensures b == r
  {
    SheetNamesDistinct();
  }

  lemma PhotosInOrder(files: seq<File>, n: nat)
    requires InOrder(files)
    ensures InOrder(files + Photos(n))
  {
    hide FileName;
    var all := files + Photos(n);
    forall k, b: int | |files| <= k < |all|
      ensures !IsNumber(all[k], b)
    {
      PhotoNameSlash(k - |files|);
      SheetNamesDistinct();
    }
  }

  lemma FixedInOrder(o: Options, degrees: int -> string)
    ensures InOrder(Fixed(o, degrees))
  {
    var files := Fixed(o, degrees);
    SheetNamesDistinct();
    forall i, a | 0 <= i < |files| && IsNumber(files[i], a)
      ensures a == i
    {
      assert FileName(files[i]) == SHEET_NAMES[i];
    }
  }

  lemma SheetNameRange(name: string, r: nat)
    requires r < 10
    ensures IsSheetName(name, r) ==> IsSheetName(name, r + 1) && name != SHEET_NAMES[r]
    ensures IsSheetName(SHEET_NAMES[r], r + 1)
    ensures IsSheetName(name, 10) ==> |name| > 5 && name[5] != '/'
  {
    SheetNamesDistinct();
    assert SHEET_NAMES[..r + 1] == SHEET_NAMES[..r] + [SHEET_NAMES[r]];
  }

  lemma AppendPresent(files: seq<File>, s: Sheet, count: nat, r: nat)
    requires r < 10 && s.file == SHEET_NAMES[r]
    requires DistinctNames(files) && NamesWithin(files, r)
    ensures DistinctNames(files + Present(s, count)) && NamesWithin(files + Present(s, count), r + 1)
  {
    hide IsSheetName;
    forall i | 0 <= i < |files|
      ensures IsSheetName(FileName(files[i]), r + 1) && FileName(files[i]) != SHEET_NAMES[r]
    {
      SheetNameRange(FileName(files[i]), r);
    }
    SheetNameRange(s.file, r);
  }

  lemma FixedNames(o: Options, degrees: int -> string)
    ensures DistinctNames(Fixed(o, degrees)) && NamesWithin(Fixed(o, degrees), 5)
  {
    SheetNamesDistinct();
    var files := Fixed(o, degrees);
    forall i | 0 <= i < |files|
      ensures FileName(files[i]) == SHEET_NAMES[i] == SHEET_NAMES[..5][i]
    {
    }
  }

  lemma PhotoNameSlash(i: nat)
    ensures |FileName(PhotoFile(i))| > 5 && FileName(PhotoFile(i))[5] == '/'
  {
    assert "media/"[5] == '/';
  }

  lemma AppendPhotos(files: seq<File>, n: nat)
    requires DistinctNames(files) && NamesWithin(files, 10)
    ensures DistinctNames(files + Photos(n))
  {
    hide IsSheetName, FileName;
    var all := files + Photos(n);
    forall i, j | 0 <= i < j < |all|
      ensures FileName(all[i]) != FileName(all[j])
    {
      if |files| <= j {
        PhotoNameSlash(j - |files|);
        if i < |files| {
          SheetNameRange(FileName(files[i]), 9);
        } else if FileName(all[i]) == FileName(all[j]) {
          PhotoNamesDistinct(i - |files|, j - |files|);
        }
      }
    }
  }

  /** Entry names are pairwise distinct, so looking a file up by name is well defined. */
  lemma NamesDistinct(o: Options, degrees: int -> string)
    ensures DistinctNames(Files(o, degrees))
  {
    hide DistinctNames, NamesWithin, Present, Fixed;
    var f0 := Fixed(o, degrees);
    FixedNames(o, degrees);
    AppendPresent(f0, Impounds(o), OrZero(o.impounds), 5);
    var f1 := f0 + Present(Impounds(o), OrZero(o.impounds));
    AppendPresent(f1, Invoices(o), OrZero(o.invoices), 6);
    var f2 := f1 + Present(Invoices(o), OrZero(o.invoices));
    AppendPresent(f2, Payments(o), OrZero(o.payments), 7);
    var f3 := f2 + Present(Payments(o), OrZero(o.payments));
    AppendPresent(f3, MotorClubHistory(o), OrZero(o.motorClubHistory), 8);
    var f4 := f3 + Present(MotorClubHistory(o), OrZero(o.motorClubHistory));
    AppendPresent(f4, Attachments(o), OrZero(o.attachments), 9);
    AppendPhotos(f4 + Present(Attachments(o), OrZero(o.attachments)), OrZero(o.attachments));
  }

  /** The tables stand in the archive in this order. */
  lemma SheetsInOrder(o: Options, degrees: int -> string)
    ensures InOrder(Files(o, degrees))
    ensures SHEET_NAMES == ["customers.csv", "vehicles.csv", "drivers.csv", "trucks.csv", "calls.csv",
                            "impounds.csv", "invoices.csv", "payments.csv", "motor_club_history.csv",
                            "attachments.csv"]
  {
    hide DistinctNames, NamesWithin, InOrder, Present, Fixed;
    var f0 := Fixed(o, degrees);
    FixedNames(o, degrees);
    FixedInOrder(o, degrees);
    AppendPresent(f0, Impounds(o), OrZero(o.impounds), 5);
    AppendInOrder(f0, Impounds(o), OrZero(o.impounds), 5);
    var f1 := f0 + Present(Impounds(o), OrZero(o.impounds));
    AppendPresent(f1, Invoices(o), OrZero(o.invoices), 6);
    AppendInOrder(f1, Invoices(o), OrZero(o.invoices), 6);
    var f2 := f1 + Present(Invoices(o), OrZero(o.invoices));
    AppendPresent(f2, Payments(o), OrZero(o.payments), 7);
    AppendInOrder(f2, Payments(o), OrZero(o.payments), 7);
    var f3 := f2 + Present(Payments(o), OrZero(o.payments));
    AppendPresent(f3, MotorClubHistory(o), OrZero(o.motorClubHistory), 8);
    AppendInOrder(f3, MotorClubHistory(o), OrZero(o.motorClubHistory), 8);
    var f4 := f3 + Present(MotorClubHistory(o), OrZero(o.motorClubHistory));
    AppendInOrder(f4, Attachments(o), OrZero(o.attachments), 9);
    PhotosInOrder(f4 + Present(Attachments(o), OrZero(o.attachments)), OrZero(o.attachments));
  }

  /** The media entries are the file names the manifest lists, one for one and in order. */
  lemma ManifestMatchesMedia(o: Options, degrees: int -> string, i: nat)
    requires i < OrZero(o.attachments)
    ensures var files, n := Files(o, degrees), OrZero(o.attachments);
      && |files| >= n
      && |Attachments(o).rows| == n
      && FileName(files[|files| - n + i]) == "media/" + Attachments(o).rows[i][1]
      && Attachments(o).rows[i][1] == "photo-" + Decimal(i + 1) + ".jpg"
    ensures forall k :: 0 <= k < |Files(o, degrees)| ==>
      (Files(o, degrees)[k].PhotoFile? <==> k >= |Files(o, degrees)| - OrZero(o.attachments))
  {
    hide Fixed, Present;
    var files, n := Files(o, degrees), OrZero(o.attachments);
    assert files[|files| - n..] == Photos(n);
    OnlySheetsBefore(o, degrees);
  }

  lemma OnlySheetsBefore(o: Options, degrees: int -> string)
    ensures forall k :: 0 <= k < |Files(o, degrees)| - OrZero(o.attachments) ==> Files(o, degrees)[k].SheetFile?
  {
  }

  // ---------------------------------------------------------------- which files there are

  ghost predicate Holds(files: seq<File>, name: string) {
    exists k :: 0 <= k < |files| && FileName(files[k]) == name
  }

  lemma HoldsBoth(a: seq<File>, b: seq<File>, name: string)
    ensures Holds(a + b, name) <==> Holds(a, name) || Holds(b, name)
  {
    hide FileName;
    if Holds(a, name) {
      var k :| 0 <= k < |a| && FileName(a[k]) == name;
      assert (a + b)[k] == a[k];
    }
    if Holds(b, name) {
      var k :| 0 <= k < |b| && FileName(b[k]) == name;
      assert (a + b)[|a| + k] == b[k];
    }
  }

  lemma HoldsOne(s: Sheet, count: nat, name: string)
    ensures Holds(Present(s, count), name) <==> count > 0 && s.file == name
  {
    if count > 0 { assert FileName(Present(s, count)[0]) == s.file; }
  }

  lemma HoldsPhotos(n: nat, name: string)
    requires |name| > 5 && name[5] != '/'
    ensures !Holds(Photos(n), name)
  {
    hide FileName;
    forall k | 0 <= k < n
      ensures FileName(Photos(n)[k]) != name
    {
      PhotoNameSlash(k);
    }
  }

  lemma HoldsFixed(o: Options, degrees: int -> string, r: nat)
    requires r < 10
    ensures Holds(Fixed(o, degrees), SHEET_NAMES[r]) <==> r < 5
  {
    var files := Fixed(o, degrees);
    SheetNamesDistinct();
    forall k | 0 <= k < 5
      ensures FileName(files[k]) == SHEET_NAMES[k]
    {
    }
  }

  /** How many of the optional tables' rows there are, in the order of the archive. */
  function Count(o: Options, r: nat): nat
    requires 5 <= r < 10
  {
    OrZero([o.impounds, o.invoices, o.payments, o.motorClubHistory, o.attachments][r - 5])
  }

  lemma HoldsOptional(o: Options, r: nat, s: Sheet, t: nat)
    requires 5 <= r < 10 && 5 <= t < 10 && s.file == SHEET_NAMES[t]
    ensures Holds(Present(s, Count(o, t)), SHEET_NAMES[r]) <==> r == t && Count(o, r) > 0
  {
    SheetNamesDistinct();
    HoldsOne(s, Count(o, t), SHEET_NAMES[r]);
  }

  /** Table r of the archive is there whenever it is one of the first five, and otherwise exactly when it has
      rows. */
  lemma HoldsWhen(o: Options, degrees: int -> string, r: nat)
    requires r < 10
    ensures Holds(Files(o, degrees), SHEET_NAMES[r]) <==> r < 5 || Count(o, r) > 0
  {
    hide Holds, Fixed, Photos, Present;
    var name := SHEET_NAMES[r];
    SheetNamesDistinct();
    HoldsFixed(o, degrees, r);
    HoldsPhotos(OrZero(o.attachments), name);
    var f0, p5, p6 := Fixed(o, degrees), Present(Impounds(o), Count(o, 5)), Present(Invoices(o), Count(o, 6));
    var p7, p8 := Present(Payments(o), Count(o, 7)), Present(MotorClubHistory(o), Count(o, 8));
    var p9 := Present(Attachments(o), Count(o, 9));
    HoldsBoth(f0, p5, name);
    HoldsBoth(f0 + p5, p6, name);
    HoldsBoth(f0 + p5 + p6, p7, name);
    HoldsBoth(f0 + p5 + p6 + p7, p8, name);
    HoldsBoth(f0 + p5 + p6 + p7 + p8, p9, name);
    HoldsBoth(f0 + p5 + p6 + p7 + p8 + p9, Photos(OrZero(o.attachments)), name);
    if r >= 5 {
      HoldsOptional(o, r, Impounds(o), 5);
      HoldsOptional(o, r, Invoices(o), 6);
      HoldsOptional(o, r, Payments(o), 7);
      HoldsOptional(o, r, MotorClubHistory(o), 8);
      HoldsOptional(o, r, Attachments(o), 9);
    }
  }

  /** The five fixed tables are always in the archive, the optional ones exactly when rows are asked for. */
  lemma TablesInArchive(o: Options, degrees: int -> string)
    ensures var files := Files(o, degrees);
      && Holds(files, "customers.csv") && Holds(files, "vehicles.csv") && Holds(files, "drivers.csv")
      && Holds(files, "trucks.csv") && Holds(files, "calls.csv")
      && (Holds(files, "impounds.csv") <==> o.impounds.Some? && o.impounds.value > 0)
      && (Holds(files, "invoices.csv") <==> o.invoices.Some? && o.invoices.value > 0)
      && (Holds(files, "payments.csv") <==> o.payments.Some? && o.payments.value > 0)
      && (Holds(files, "motor_club_history.csv") <==> o.motorClubHistory.Some? && o.motorClubHistory.value > 0)
      && (Holds(files, "attachments.csv") <==> o.attachments.Some? && o.attachments.value > 0)
  {
    hide Holds, Files;
    forall r: nat | r < 10
      ensures Holds(Files(o, degrees), SHEET_NAMES[r]) <==> r < 5 || Count(o, r) > 0
    {
      HoldsWhen(o, degrees, r);
    }
    assert SHEET_NAMES[0] == "customers.csv" && SHEET_NAMES[1] == "vehicles.csv" && SHEET_NAMES[2] == "drivers.csv";
    assert SHEET_NAMES[3] == "trucks.csv" && SHEET_NAMES[4] == "calls.csv" && SHEET_NAMES[5] == "impounds.csv";
    assert SHEET_NAMES[6] == "invoices.csv" && SHEET_NAMES[7] == "payments.csv";
    assert SHEET_NAMES[8] == "motor_club_history.csv" && SHEET_NAMES[9] == "attachments.csv";
  }

  /** As many rows as are asked for, none where nothing is asked; the prefix of the ids is `synth` by default. */
  lemma RowCounts(o: Options, degrees: int -> string)
    ensures |Customers(o).rows| == o.customers && |Vehicles(o).rows| == o.vehicles && |Drivers(o).rows| == o.drivers
    ensures |Trucks(o).rows| == o.trucks && |Jobs(o, degrees).rows| == o.jobs
    ensures |Impounds(o).rows| == match o.impounds case None => 0 case Some(n) => n
    ensures |Invoices(o).rows| == match o.invoices case None => 0 case Some(n) => n
    ensures |Payments(o).rows| == match o.payments case None => 0 case Some(n) => n
    ensures |MotorClubHistory(o).rows| == match o.motorClubHistory case None => 0 case Some(n) => n
    ensures |Attachments(o).rows| == match o.attachments case None => 0 case Some(n) => n
    ensures Prefix(o) == match o.idPrefix case None => "synth" case Some(p) => p
  {
    hide Customer, Vehicle, Driver, Truck, Job, Impound, Invoice, Payment, ClubHistory, Attachment;
    hide Csv.Plain, Csv.Distinct;
  }

  // ---------------------------------------------------------------- end to end

  /** How an importer reads a table: an empty file is a table without rows. */
  function ReadSheet(text: string): Option<seq<seq<string>>> {
    if text == "" then Some([]) else Csv.ReadCsv(text)
  }

  /** The table as generated: its column names, then the values of every row. */
  function Generated(s: Sheet): seq<seq<string>> {
    if s.rows == [] then [] else [s.columns] + s.rows
  }

  lemma {:induction false} LookupOwn(r: Csv.Record, k: nat)
    requires k < |r| && forall i :: 0 <= i < k ==> r[i].name != r[k].name
    ensures Csv.Lookup(r, r[k].name) == r[k].cell
  {
    if k > 0 { LookupOwn(r[1..], k - 1); }
  }

  lemma PickOwn(columns: seq<string>, values: seq<string>)
    requires |columns| == |values| && Csv.Distinct(columns)
    ensures Csv.Names(Object(columns, values)) == columns
    ensures Csv.Values(Csv.Pick(Object(columns, values), columns)) == values
  {
    var r := Object(columns, values);
    forall k | 0 <= k < |columns|
      ensures Csv.Lookup(r, columns[k]) == Csv.Text(values[k])
    {
      LookupOwn(r, k);
    }
  }

  /** Reading the text of a sheet gives back exactly the generated table. */
  lemma SheetReadsBack(s: Sheet)
    requires GoodSheet(s)
    ensures ReadSheet(Text(s)) == Some(Generated(s))
  {
    var rows := Objects(s);
    if s.rows != [] {
      PickOwn(s.columns, s.rows[0]);
      Csv.RecordsRoundTrip(rows);
      var cells := Csv.PickAll(rows, s.columns);
      forall i | 0 <= i < |rows|
        ensures Csv.Values(cells[i]) == s.rows[i]
      {
        PickOwn(s.columns, s.rows[i]);
      }
      assert Csv.Table(s.columns, cells) == [s.columns] + s.rows;
    }
  }

  /** Looking an entry up by name, as an importer does. */
  function Find(members: seq<Zip.Member>, name: seq<Byte>): Option<seq<Byte>> {
    if members == [] then None
    else if members[0].name == name then Some(members[0].data)
    else Find(members[1..], name)
  }

  lemma {:induction false} FindAt(members: seq<Zip.Member>, k: nat)
    requires k < |members|
    requires forall i :: 0 <= i < k ==> members[i].name != members[k].name
    ensures Find(members, members[k].name) == Some(members[k].data)
  {
    if k > 0 { FindAt(members[1..], k - 1); }
  }

  /** What the file must decode to. */
  ghost predicate Delivers(f: File, data: seq<Byte>, dec: seq<Byte> -> string) {
    match f
    case SheetFile(s) => ReadSheet(dec(data)) == Some(Generated(s))
    case PhotoFile(_) => data == [0xFF, 0xD8, 0xFF, 0xD9]
  }

  lemma FileDelivered(f: File, enc: string -> seq<Byte>, dec: seq<Byte> -> string)
    requires f.SheetFile? ==> GoodSheet(f.sheet)
    requires forall s: string :: dec(enc(s)) == s
    ensures Delivers(f, ToEntry(f, enc).data, dec)
  {
    hide ReadSheet, Generated, Text;
    if f.SheetFile? { SheetReadsBack(f.sheet); }
  }

  /** End to end: unzip the bundle, look any of its files up by name, decode and parse it, and the
      generated table (or the photo) is there, unchanged. */
  lemma EndToEnd(o: Options, degrees: int -> string, enc: string -> seq<Byte>, dec: seq<Byte> -> string)
    requires forall s: string :: dec(enc(s)) == s
    requires FilesRegular(o, degrees) && Zip.Fits(ToEntries(Files(o, degrees), enc))
    ensures var files := Files(o, degrees);
      var unzipped := Zip.Unzip(Zip.Archive(ToEntries(files, enc)));
      && unzipped.Some?
      && |unzipped.value| == |files|
      && forall k :: 0 <= k < |files| ==>
           && unzipped.value[k].name == enc(FileName(files[k]))
           && Find(unzipped.value, enc(FileName(files[k]))) == Some(unzipped.value[k].data)
           && Delivers(files[k], unzipped.value[k].data, dec)
  {
    hide Files, FileName, Delivers, Zip.Unzip, Zip.Archive, Zip.Fits, Find, Text, GoodSheet;
    var files := Files(o, degrees);
    var es := ToEntries(files, enc);
    Zip.UnzipArchive(es);
    var members := Zip.AllSealed(es);
    NamesDistinct(o, degrees);
    forall k | 0 <= k < |files|
      ensures members[k].name == enc(FileName(files[k]))
      ensures Find(members, enc(FileName(files[k]))) == Some(members[k].data)
      ensures Delivers(files[k], members[k].data, dec)
    {
      if files[k].SheetFile? { AllSheetsGood(o, degrees, k); }
      FileDelivered(files[k], enc, dec);
      forall i | 0 <= i < k
        ensures members[i].name != members[k].name
      {
        assert dec(members[i].name) == FileName(files[i]) && dec(members[k].name) == FileName(files[k]);
      }
      FindAt(members, k);
    }
  }
}
