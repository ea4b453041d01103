/**
 Deleting a demo tenant, table by table, over the declared foreign keys: which deletes succeed, what they
 leave behind, and when the closing delete of the tenant itself can succeed.

 A tenant's rows are taken to lie in the tables listed here, and a row to refer only to rows of its own
 tenant. Every statement is its own transaction, as in the script.
 */
module TenantReset {
  import opened Results

  datatype Table =
    | Payments | CreditMemos | InvoiceLineItems | InvoiceTaxes | RecurringBillingSchedules | Invoices
    | InvoiceNumberSequences | JobStatusTransitions | Jobs | JobNumberSequences | DriverShifts
    | DriverTruckAssignments | Drivers | Trucks | CustomerVehicles | Vehicles | Customers
    | TenantDefaultRateSheets | RateSheets | Accounts | Sessions | EmailVerificationTokens
    | PasswordResetTokens | Users | Tenants

  datatype OnDelete = Restrict | Cascade | SetNull

  datatype ForeignKey = ForeignKey(child: Table, column: string, parent: Table, onDelete: OnDelete)

  /** The declared foreign keys between these tables, apart from tenant_id, which every table has and
      which restricts. */
  function KeysOf(child: Table): set<ForeignKey> {
    match child
    case Payments =>
      {ForeignKey(child, "invoice_id", Invoices, Restrict), ForeignKey(child, "recorded_by", Users, SetNull)}
    case CreditMemos =>
      {ForeignKey(child, "original_invoice_id", Invoices, Restrict), ForeignKey(child, "issued_by", Users, SetNull)}
    case InvoiceLineItems => {ForeignKey(child, "invoice_id", Invoices, Cascade)}
    case InvoiceTaxes => {ForeignKey(child, "invoice_id", Invoices, Cascade)}
    case RecurringBillingSchedules =>
      {ForeignKey(child, "customer_id", Customers, SetNull), ForeignKey(child, "account_id", Accounts, SetNull),
       ForeignKey(child, "job_id", Jobs, SetNull), ForeignKey(child, "created_by", Users, SetNull)}
    case Invoices =>
      {ForeignKey(child, "customer_id", Customers, SetNull), ForeignKey(child, "account_id", Accounts, SetNull),
       ForeignKey(child, "job_id", Jobs, SetNull), ForeignKey(child, "rate_sheet_id", RateSheets, SetNull),
       ForeignKey(child, "created_by", Users, SetNull)}
    case JobStatusTransitions =>
      {ForeignKey(child, "job_id", Jobs, Restrict), ForeignKey(child, "actor_user_id", Users, SetNull)}
    case Jobs =>
      {ForeignKey(child, "customer_id", Customers, SetNull), ForeignKey(child, "vehicle_id", Vehicles, SetNull),
       ForeignKey(child, "account_id", Accounts, SetNull), ForeignKey(child, "created_by_user_id", Users, SetNull),
       ForeignKey(child, "assigned_driver_id", Drivers, SetNull),
       ForeignKey(child, "assigned_truck_id", Trucks, SetNull),
       ForeignKey(child, "assigned_shift_id", DriverShifts, SetNull)}
    case DriverShifts =>
      {ForeignKey(child, "driver_id", Drivers, Restrict), ForeignKey(child, "truck_id", Trucks, SetNull),
       ForeignKey(child, "created_by", Users, SetNull)}
    case DriverTruckAssignments =>
      {ForeignKey(child, "driver_id", Drivers, Restrict), ForeignKey(child, "truck_id", Trucks, Restrict),
       ForeignKey(child, "created_by", Users, SetNull)}
    case Drivers => {ForeignKey(child, "user_id", Users, SetNull), ForeignKey(child, "created_by", Users, SetNull)}
    case Trucks => {ForeignKey(child, "created_by", Users, SetNull)}
    case CustomerVehicles =>
      {ForeignKey(child, "customer_id", Customers, Cascade), ForeignKey(child, "vehicle_id", Vehicles, Cascade)}
    case Vehicles =>
      {ForeignKey(child, "default_customer_id", Customers, SetNull), ForeignKey(child, "created_by", Users, SetNull)}
    case Customers =>
      {ForeignKey(child, "account_id", Accounts, SetNull),
       ForeignKey(child, "default_rate_sheet_id", RateSheets, SetNull),
       ForeignKey(child, "created_by", Users, SetNull)}
    case TenantDefaultRateSheets =>
      {ForeignKey(child, "rate_sheet_id", RateSheets, Restrict), ForeignKey(child, "updated_by", Users, SetNull)}
    case RateSheets => {ForeignKey(child, "created_by", Users, SetNull)}
    case Accounts =>
      {ForeignKey(child, "default_rate_sheet_id", RateSheets, SetNull), ForeignKey(child, "created_by", Users, SetNull)}
    case Sessions => {ForeignKey(child, "user_id", Users, Cascade)}
    case EmailVerificationTokens => {ForeignKey(child, "user_id", Users, Cascade)}
    case PasswordResetTokens => {ForeignKey(child, "user_id", Users, Cascade)}
    case _ => {}
  }

  predicate Declared(f: ForeignKey) {
    f in KeysOf(f.child)
  }

  /** The foreign keys from the side of the table they point to: what forbids a delete there. */
  lemma WhatForbids(f: ForeignKey)
    ensures Declared(f) && f.onDelete == Restrict
       <==> f in {ForeignKey(Payments, "invoice_id", Invoices, Restrict),
                  ForeignKey(CreditMemos, "original_invoice_id", Invoices, Restrict),
                  ForeignKey(JobStatusTransitions, "job_id", Jobs, Restrict),
                  ForeignKey(DriverShifts, "driver_id", Drivers, Restrict),
                  ForeignKey(DriverTruckAssignments, "driver_id", Drivers, Restrict),
                  ForeignKey(DriverTruckAssignments, "truck_id", Trucks, Restrict),
                  ForeignKey(TenantDefaultRateSheets, "rate_sheet_id", RateSheets, Restrict)}
  {
  }

  /** What goes along with a delete. */
  lemma WhatGoesAlong(f: ForeignKey)
    ensures Declared(f) && f.onDelete == Cascade
       <==> f in {ForeignKey(InvoiceLineItems, "invoice_id", Invoices, Cascade),
                  ForeignKey(InvoiceTaxes, "invoice_id", Invoices, Cascade),
                  ForeignKey(CustomerVehicles, "customer_id", Customers, Cascade),
                  ForeignKey(CustomerVehicles, "vehicle_id", Vehicles, Cascade),
                  ForeignKey(Sessions, "user_id", Users, Cascade),
                  ForeignKey(EmailVerificationTokens, "user_id", Users, Cascade),
                  ForeignKey(PasswordResetTokens, "user_id", Users, Cascade)}
  {
  }

  /** What only forgets a deleted user. */
  lemma WhatForgetsUsers(f: ForeignKey)
    requires f.parent == Users && f.onDelete == SetNull
    ensures Declared(f)
       <==> (f.child, f.column)
            in {(Payments, "recorded_by"), (CreditMemos, "issued_by"), (RecurringBillingSchedules, "created_by"),
                (Invoices, "created_by"), (JobStatusTransitions, "actor_user_id"), (Jobs, "created_by_user_id"),
                (DriverShifts, "created_by"), (DriverTruckAssignments, "created_by"), (Drivers, "user_id"),
                (Drivers, "created_by"), (Trucks, "created_by"), (Vehicles, "created_by"),
                (Customers, "created_by"), (TenantDefaultRateSheets, "updated_by"), (RateSheets, "created_by"),
                (Accounts, "created_by")}
  {
  }

  /** What only forgets a deleted customer, account or rate sheet. */
  lemma WhatForgetsPayers(f: ForeignKey)
    requires f.parent in {Customers, Accounts, RateSheets} && f.onDelete == SetNull
    ensures Declared(f)
       <==> (f.child, f.column, f.parent)
            in {(RecurringBillingSchedules, "customer_id", Customers),
                (RecurringBillingSchedules, "account_id", Accounts), (Invoices, "customer_id", Customers),
                (Invoices, "account_id", Accounts), (Invoices, "rate_sheet_id", RateSheets),
                (Jobs, "customer_id", Customers), (Jobs, "account_id", Accounts),
                (Vehicles, "default_customer_id", Customers), (Customers, "account_id", Accounts),
                (Customers, "default_rate_sheet_id", RateSheets), (Accounts, "default_rate_sheet_id", RateSheets)}
  {
  }

  /** What only forgets any other row that is deleted. */
  lemma WhatForgetsOthers(f: ForeignKey)
    requires f.parent !in {Users, Customers, Accounts, RateSheets} && f.onDelete == SetNull
    ensures Declared(f)
       <==> (f.child, f.column, f.parent)
            in {(RecurringBillingSchedules, "job_id", Jobs), (Invoices, "job_id", Jobs),
                (Jobs, "vehicle_id", Vehicles), (Jobs, "assigned_driver_id", Drivers),
                (Jobs, "assigned_truck_id", Trucks), (Jobs, "assigned_shift_id", DriverShifts),
                (DriverShifts, "truck_id", Trucks)}
  {
  }

  // ---------------------------------------------------------------- rows and deletes

  datatype Key = Key(table: Table, id: nat)

  /** `refs`: the foreign keys that are not null, and the ids they hold. */
  datatype Row = Row(tenant: nat, refs: map<ForeignKey, nat>)

  /** What an audit trigger writes: the tenant of the row, the row, and when. */
  datatype AuditEntry = AuditEntry(tenant: nat, key: Key, time: nat)

  /** `audited`: the tables that carry an audit trigger. */
  datatype State = State(rows: map<Key, Row>, audit: set<AuditEntry>, audited: set<Table>, clock: nat)

  function Target(f: ForeignKey, row: Row): Key
    requires f in row.refs
  {
    Key(f.parent, row.refs[f])
  }

  predicate PointsTo(row: Row, action: OnDelete, targets: set<Key>) {
    exists f :: f in row.refs && f.onDelete == action && Target(f, row) in targets
  }

  function Victims(s: State, table: Table, x: nat): set<Key> {
    set k | k in s.rows && k.table == table && s.rows[k].tenant == x
  }

  /** The rows deleted along with the victims. One level is enough: see `CascadesEnd`. */
  function Cascaded(s: State, victims: set<Key>): set<Key> {
    set k | k in s.rows && PointsTo(s.rows[k], Cascade, victims)
  }

  function Unlinked(row: Row, gone: set<Key>): Row {
    row.(refs := map f | f in row.refs && !(f.onDelete == SetNull && Target(f, row) in gone) :: row.refs[f])
  }

  /** A row that may not lose what it points to does, or the tenant of a remaining row would go. */
  predicate Blocked(s: State, gone: set<Key>) {
    || (exists k :: k in s.rows && PointsTo(s.rows[k], Restrict, gone))
    || (exists k :: k in s.rows && k !in gone && Key(Tenants, s.rows[k].tenant) in gone)
    || (exists e :: e in s.audit && Key(Tenants, e.tenant) in gone)
  }

  function Remaining(s: State, gone: set<Key>): map<Key, Row> {
    map k | k in s.rows && k !in gone :: Unlinked(s.rows[k], gone)
  }

  function Audited(s: State, gone: set<Key>): set<AuditEntry> {
    set k | k in s.rows && k.table in s.audited && (k in gone || Unlinked(s.rows[k], gone) != s.rows[k])
      :: AuditEntry(s.rows[k].tenant, k, s.clock)
  }

  /** DELETE FROM table WHERE tenant_id = x, with its referential actions and audit triggers; None when
      it raises an error and so changes nothing. */
  function Delete(s: State, table: Table, x: nat): Option<State> {
    var victims := Victims(s, table, x);
    var gone := victims + Cascaded(s, victims);
    var rows, entries := Remaining(s, gone), Audited(s, gone);
    if Blocked(s, gone) || (exists e :: e in entries && Key(Tenants, e.tenant) !in rows) then None
    else Some(s.(rows := rows, audit := s.audit + entries, clock := s.clock + 1))
  }

  function DeleteAudit(s: State, x: nat): State {
    s.(audit := (set e | e in s.audit && e.tenant != x), clock := s.clock + 1)
  }

  // ---------------------------------------------------------------- what holds of the database

  /** Referential integrity, and every reference stays within its tenant. */
  ghost predicate RowOk(s: State, k: Key)
    requires k in s.rows
  {
    && Key(Tenants, s.rows[k].tenant) in s.rows
    && (k.table == Tenants ==> s.rows[k].tenant == k.id)
    && (forall f :: f in s.rows[k].refs ==>
          && Declared(f) && f.child == k.table
          && Target(f, s.rows[k]) in s.rows
          && s.rows[Target(f, s.rows[k])].tenant == s.rows[k].tenant)
  }

  ghost predicate Sound(s: State) {
    && (forall k :: k in s.rows ==> RowOk(s, k))
    && (forall e :: e in s.audit ==> Key(Tenants, e.tenant) in s.rows)
  }

  /** The rows of the other tenants, and the users of this one, are as they were. */
  ghost predicate OthersKept(s: State, t: State, x: nat) {
    && (forall k :: k in t.rows ==> k in s.rows && t.rows[k].tenant == s.rows[k].tenant)
    && (forall k :: k in s.rows && (s.rows[k].tenant != x || k.table == Users || k.table == Tenants) ==>
          k in t.rows && t.rows[k] == s.rows[k])
    && (forall e: AuditEntry :: e.tenant != x ==> (e in t.audit <==> e in s.audit))
    && t.audited == s.audited
  }

  ghost predicate Empty(s: State, table: Table, x: nat) {
    forall k :: k in s.rows && k.table == table ==> s.rows[k].tenant != x
  }

  lemma CascadesEnd(f: ForeignKey, g: ForeignKey)
    requires Declared(f) && Declared(g) && f.onDelete == Cascade
    ensures g.parent != f.child
  {
  }

  lemma UsersAndTenantsPointNowhere(f: ForeignKey)
    requires Declared(f)
    ensures f.child != Users && f.child != Tenants && f.parent != Tenants
  {
  }

  // ---------------------------------------------------------------- one delete

  function Gone(s: State, table: Table, x: nat): set<Key> {
    Victims(s, table, x) + Cascaded(s, Victims(s, table, x))
  }

  /** Nothing of tenant x is left in the tables whose rows forbid deleting from this one. */
  ghost predicate Unobstructed(s: State, table: Table, x: nat) {
    forall f :: Declared(f) && f.onDelete == Restrict && f.parent == table ==> Empty(s, f.child, x)
  }

  lemma ReferenceOk(s: State, k: Key, f: ForeignKey)
    requires Sound(s) && k in s.rows && f in s.rows[k].refs
    ensures Declared(f) && f.child == k.table
    ensures Target(f, s.rows[k]) in s.rows && s.rows[Target(f, s.rows[k])].tenant == s.rows[k].tenant
  {
    hide KeysOf;
    assert RowOk(s, k);
  }

  /** A row that goes is a victim, or holds a cascading key to one. */
  lemma GoneBy(s: State, table: Table, x: nat, k: Key) returns (f: Option<ForeignKey>)
    requires k in Gone(s, table, x)
    ensures k in s.rows
    ensures f == None ==> k.table == table && s.rows[k].tenant == x
    ensures f.Some? ==> f.value in s.rows[k].refs && f.value.onDelete == Cascade
                        && Target(f.value, s.rows[k]) in Victims(s, table, x)
  {
    if k in Victims(s, table, x) { return None; }
    var g :| g in s.rows[k].refs && g.onDelete == Cascade && Target(g, s.rows[k]) in Victims(s, table, x);
    f := Some(g);
  }

  lemma VictimIs(s: State, table: Table, x: nat, k: Key)
    requires k in Victims(s, table, x)
    ensures k in s.rows && k.table == table && s.rows[k].tenant == x
  {
  }

  lemma GoneIsOwn(s: State, table: Table, x: nat, k: Key)
    requires Sound(s) && table != Tenants && table != Users && k in Gone(s, table, x)
    ensures k in s.rows && s.rows[k].tenant == x && k.table != Tenants && k.table != Users
  {
    hide KeysOf, Sound, Gone, Declared, Victims;
    var f := GoneBy(s, table, x, k);
    if f.Some? {
      ReferenceOk(s, k, f.value);
      VictimIs(s, table, x, Target(f.value, s.rows[k]));
      UsersAndTenantsPointNowhere(f.value);
    }
  }

  lemma CascadesToGone(s: State, table: Table, x: nat, k: Key, f: ForeignKey)
    requires k in s.rows && f in s.rows[k].refs && f.onDelete == Cascade
    requires Target(f, s.rows[k]) in Victims(s, table, x)
    ensures k in Gone(s, table, x)
  {
  }

  /** A row that stays and pointed to one that went did so through SET NULL. */
  lemma OnlySetNullBreaks(s: State, table: Table, x: nat, k: Key, f: ForeignKey)
    requires Sound(s) && table != Tenants && table != Users && Unobstructed(s, table, x)
    requires k in s.rows && f in s.rows[k].refs && Target(f, s.rows[k]) in Gone(s, table, x)
    ensures s.rows[k].tenant == x && f.onDelete != Restrict
    ensures f.onDelete == Cascade ==> k in Gone(s, table, x)
  {
    hide KeysOf, Sound, Gone, Declared;
    var target := Target(f, s.rows[k]);
    ReferenceOk(s, k, f);
    GoneIsOwn(s, table, x, target);
    var g := GoneBy(s, table, x, target);
    if g.Some? {
      ReferenceOk(s, target, g.value);
      CascadesEnd(g.value, f);
      assert false;
    } else if f.onDelete == Cascade {
      CascadesToGone(s, table, x, k, f);
    }
  }

  lemma NotBlocked(s: State, table: Table, x: nat)
    requires Sound(s) && table != Tenants && table != Users && Unobstructed(s, table, x)
    ensures !Blocked(s, Gone(s, table, x))
  {
    hide KeysOf, Gone;
    var gone := Gone(s, table, x);
    forall k | k in s.rows
      ensures !PointsTo(s.rows[k], Restrict, gone)
    {
      forall f | f in s.rows[k].refs && Target(f, s.rows[k]) in gone
        ensures f.onDelete != Restrict
      {
        OnlySetNullBreaks(s, table, x, k, f);
      }
    }
    forall k | k in gone
      ensures k.table != Tenants
    {
      GoneIsOwn(s, table, x, k);
    }
  }

  lemma UnlinkedIsOk(s: State, table: Table, x: nat, k: Key, t: State)
    requires Sound(s) && table != Tenants && table != Users && Unobstructed(s, table, x)
    requires k in s.rows && k !in Gone(s, table, x) && t.rows == Remaining(s, Gone(s, table, x))
    ensures k in t.rows && t.rows[k].tenant == s.rows[k].tenant && RowOk(t, k)
    ensures s.rows[k].tenant != x || k.table == Users || k.table == Tenants ==> t.rows[k] == s.rows[k]
  {
    hide KeysOf, Sound, Gone, Declared;
    var gone := Gone(s, table, x);
    forall f | f in s.rows[k].refs
      ensures Declared(f) && f.child == k.table && Target(f, s.rows[k]) in s.rows
      ensures s.rows[Target(f, s.rows[k])].tenant == s.rows[k].tenant
      ensures Target(f, s.rows[k]) in gone ==> f.onDelete == SetNull && s.rows[k].tenant == x
      ensures k.table != Users && k.table != Tenants
    {
      ReferenceOk(s, k, f);
      UsersAndTenantsPointNowhere(f);
      if Target(f, s.rows[k]) in gone { OnlySetNullBreaks(s, table, x, k, f); }
    }
    TenantRowStays(s, table, x, k);
    assert s.rows[k].tenant != x || k.table == Users || k.table == Tenants ==> t.rows[k].refs == s.rows[k].refs;
  }

  lemma TenantRowStays(s: State, table: Table, x: nat, k: Key)
    requires Sound(s) && table != Tenants && table != Users && k in s.rows
    ensures Key(Tenants, s.rows[k].tenant) in s.rows && Key(Tenants, s.rows[k].tenant) !in Gone(s, table, x)
    ensures k.table == Tenants ==> s.rows[k].tenant == k.id
  {
    hide KeysOf, Gone;
    assert RowOk(s, k);
    var home := Key(Tenants, s.rows[k].tenant);
    if home in Gone(s, table, x) {
      GoneIsOwn(s, table, x, home);
      assert false;
    }
  }

  lemma AuditedAreOwn(s: State, table: Table, x: nat, e: AuditEntry)
    requires Sound(s) && table != Tenants && table != Users && Unobstructed(s, table, x)
    requires e in Audited(s, Gone(s, table, x))
    ensures e.tenant == x && Key(Tenants, x) in s.rows
  {
    hide KeysOf, Sound, Gone, Declared;
    var gone := Gone(s, table, x);
    var k :| k in s.rows && (k in gone || Unlinked(s.rows[k], gone) != s.rows[k])
             && e == AuditEntry(s.rows[k].tenant, k, s.clock);
    TenantRowStays(s, table, x, k);
    if k in gone {
      GoneIsOwn(s, table, x, k);
    } else {
      var t := s.(rows := Remaining(s, gone));
      UnlinkedIsOk(s, table, x, k, t);
    }
  }

  /** What a delete that nothing obstructs leads to. */
  lemma DeleteIs(s: State, table: Table, x: nat)
    requires Sound(s) && table != Tenants && table != Users && Unobstructed(s, table, x)
    ensures var gone := Gone(s, table, x);
      Delete(s, table, x)
      == Some(s.(rows := Remaining(s, gone), audit := s.audit + Audited(s, gone), clock := s.clock + 1))
    ensures forall e :: e in Audited(s, Gone(s, table, x)) ==>
      e.tenant == x && Key(Tenants, e.tenant) in Remaining(s, Gone(s, table, x))
  {
    hide KeysOf, Declared, Blocked, Sound, RowOk, Unlinked, Audited, Cascaded, PointsTo;
    NotBlocked(s, table, x);
    var gone := Gone(s, table, x);
    forall e | e in Audited(s, gone)
      ensures e.tenant == x && Key(Tenants, e.tenant) in Remaining(s, gone)
    {
      AuditedAreOwn(s, table, x, e);
      TenantRowStays(s, table, x, Key(Tenants, x));
    }
  }

  /** When nothing obstructs it, a delete succeeds, empties its table of the tenant, keeps integrity, and
      touches neither other tenants nor the users of this one. */
  lemma DeleteWorks(s: State, table: Table, x: nat)
    requires Sound(s) && table != Tenants && table != Users && Unobstructed(s, table, x)
    ensures Delete(s, table, x).Some?
    ensures var t := Delete(s, table, x).value; Sound(t) && OthersKept(s, t, x) && Empty(t, table, x)
  {
    hide KeysOf, Declared, Sound, RowOk, Unlinked, Audited, Delete, Gone, Unobstructed;
    var gone := Gone(s, table, x);
    DeleteIs(s, table, x);
    var t := Delete(s, table, x).value;
    forall k | k in s.rows
      ensures k in gone ==> s.rows[k].tenant == x && k.table != Tenants && k.table != Users
      ensures k !in gone ==> k in t.rows && t.rows[k].tenant == s.rows[k].tenant && RowOk(t, k)
      ensures k !in gone && (s.rows[k].tenant != x || k.table == Users || k.table == Tenants) ==> t.rows[k] == s.rows[k]
      ensures k.table == table && s.rows[k].tenant == x ==> k in gone
    {
      if k in gone { GoneIsOwn(s, table, x, k); } else { UnlinkedIsOk(s, table, x, k, t); }
      if k.table == table && s.rows[k].tenant == x { VictimsGo(s, table, x, k); }
    }
    SoundAfter(s, t, x);
  }

  /** The row itself is to be deleted, or it holds a cascading key to one that is. */
  ghost predicate GoesAlong(s: State, table: Table, x: nat, k: Key)
    requires k in s.rows
  {
    || (k.table == table && s.rows[k].tenant == x)
    || exists f :: f in s.rows[k].refs && f.onDelete == Cascade && f.parent == table
                   && Key(table, s.rows[k].refs[f]) in s.rows && s.rows[Key(table, s.rows[k].refs[f])].tenant == x
  }

  lemma GoneIs(s: State, table: Table, x: nat, k: Key)
    requires k in s.rows
    ensures k in Gone(s, table, x) <==> GoesAlong(s, table, x, k)
  {
    hide KeysOf;
    var victims := Victims(s, table, x);
    forall f | f in s.rows[k].refs
      ensures Target(f, s.rows[k]) in victims
         <==> f.parent == table && Key(table, s.rows[k].refs[f]) in s.rows
              && s.rows[Key(table, s.rows[k].refs[f])].tenant == x
    {
    }
  }

  /** Some row holds a restricting key to a row that would go. */
  ghost predicate Forbidden(s: State, table: Table, x: nat) {
    exists k :: k in s.rows && PointsTo(s.rows[k], Restrict, Gone(s, table, x))
  }

  lemma OnlyRestrictBlocks(s: State, table: Table, x: nat)
    requires Sound(s) && table != Tenants && table != Users
    ensures Blocked(s, Gone(s, table, x)) <==> Forbidden(s, table, x)
    ensures forall k :: k in s.rows ==> Key(Tenants, s.rows[k].tenant) in Remaining(s, Gone(s, table, x))
  {
    hide KeysOf, Gone, PointsTo, Unlinked;
    var gone := Gone(s, table, x);
    forall k | k in gone
      ensures k.table != Tenants
    {
      GoneIsOwn(s, table, x, k);
    }
    forall k | k in s.rows
      ensures Key(Tenants, s.rows[k].tenant) in s.rows
    {
      assert RowOk(s, k);
    }
  }

  lemma DeleteWhen(s: State, table: Table, x: nat)
    requires Sound(s) && table != Tenants && table != Users
    ensures var gone := Gone(s, table, x);
      Delete(s, table, x)
      == if Forbidden(s, table, x) then None
         else Some(s.(rows := Remaining(s, gone), audit := s.audit + Audited(s, gone), clock := s.clock + 1))
  {
    hide KeysOf, Sound, Blocked, Forbidden, Remaining, Unlinked;
    OnlyRestrictBlocks(s, table, x);
  }

  /** A key of a row that stays breaks only by SET NULL, and only within the tenant. */
  lemma KeyBreaks(s: State, table: Table, x: nat, k: Key, f: ForeignKey)
    requires Sound(s) && table != Tenants && table != Users && !Forbidden(s, table, x)
    requires k in s.rows && k !in Gone(s, table, x) && f in s.rows[k].refs
    requires Target(f, s.rows[k]) in Gone(s, table, x)
    ensures f.onDelete == SetNull && s.rows[k].tenant == x
  {
    hide KeysOf, Sound, Gone, Declared;
    var target := Target(f, s.rows[k]);
    ReferenceOk(s, k, f);
    GoneIsOwn(s, table, x, target);
    assert f.onDelete != Restrict;
    var g := GoneBy(s, table, x, target);
    if g.Some? {
      ReferenceOk(s, target, g.value);
      CascadesEnd(g.value, f);
      assert false;
    } else if f.onDelete == Cascade {
      CascadesToGone(s, table, x, k, f);
    }
  }

  /** A row that stays: its tenant, and exactly the keys whose rows are still there. */
  ghost predicate RowKept(s: State, table: Table, x: nat, k: Key)
    requires k in s.rows
  {
    var rows := Remaining(s, Gone(s, table, x));
    && k in rows && rows[k].tenant == s.rows[k].tenant
    && (forall f :: f in rows[k].refs <==> f in s.rows[k].refs && Target(f, s.rows[k]) in rows)
    && (forall f :: f in rows[k].refs ==> rows[k].refs[f] == s.rows[k].refs[f])
  }

  lemma RowAfter(s: State, table: Table, x: nat, k: Key)
    requires Sound(s) && table != Tenants && table != Users && !Forbidden(s, table, x)
    requires k in s.rows && k !in Gone(s, table, x)
    ensures RowKept(s, table, x, k)
    ensures Remaining(s, Gone(s, table, x))[k] != s.rows[k] ==> s.rows[k].tenant == x
  {
    hide KeysOf, Sound, Gone, Declared, Forbidden, Unlinked;
    var gone := Gone(s, table, x);
    UnlinkedIs(s.rows[k], gone);
    forall f | f in s.rows[k].refs
      ensures Target(f, s.rows[k]) in s.rows
      ensures Target(f, s.rows[k]) in gone ==> f.onDelete == SetNull && s.rows[k].tenant == x
    {
      ReferenceOk(s, k, f);
      if Target(f, s.rows[k]) in gone { KeyBreaks(s, table, x, k, f); }
    }
    assert s.rows[k].tenant != x ==> Unlinked(s.rows[k], gone).refs == s.rows[k].refs;
  }

  lemma UnlinkedIs(row: Row, gone: set<Key>)
    ensures Unlinked(row, gone).tenant == row.tenant
    ensures forall f :: f in Unlinked(row, gone).refs <==>
      f in row.refs && !(f.onDelete == SetNull && Target(f, row) in gone)
    ensures forall f :: f in Unlinked(row, gone).refs ==> Unlinked(row, gone).refs[f] == row.refs[f]
  {
  }

  /** What the audit triggers note: every row of an audited table that went or lost a key. */
  lemma AuditAfter(s: State, table: Table, x: nat, e: AuditEntry)
    requires Sound(s) && table != Tenants && table != Users && !Forbidden(s, table, x)
    ensures var gone, rows := Gone(s, table, x), Remaining(s, Gone(s, table, x));
      e in Audited(s, gone)
      <==> && e.key in s.rows && e.key.table in s.audited && e == AuditEntry(x, e.key, s.clock)
           && (e.key !in rows || rows[e.key] != s.rows[e.key])
  {
    hide KeysOf, Sound, Gone, Declared, Forbidden, Unlinked;
    var gone := Gone(s, table, x);
    forall k | k in s.rows
      ensures k in gone ==> s.rows[k].tenant == x
      ensures k !in gone && Unlinked(s.rows[k], gone) != s.rows[k] ==> s.rows[k].tenant == x
    {
      if k in gone { GoneIsOwn(s, table, x, k); } else { RowAfter(s, table, x, k); }
    }
  }

  /** The whole effect of a delete, in terms of the rows: it fails exactly when some row holds a restricting key
      to a row that would go. Otherwise those rows go, and no other; a row that stays keeps its tenant and
      exactly the keys whose rows are still there; and every row of an audited table that went or lost a key is
      noted for the tenant. */
  lemma DeleteEffect(s: State, table: Table, x: nat)
    requires Sound(s) && table != Tenants && table != Users
    ensures Delete(s, table, x) == None
       <==> exists k, f :: k in s.rows && f in s.rows[k].refs && f.onDelete == Restrict
                           && Target(f, s.rows[k]) in s.rows && GoesAlong(s, table, x, Target(f, s.rows[k]))
    ensures Delete(s, table, x).Some? ==> Deleted(s, Delete(s, table, x).value, table, x)
  {
    hide KeysOf, Declared, GoesAlong, Sound, Delete, Gone, Remaining, Audited;
    var gone := Gone(s, table, x);
    DeleteWhen(s, table, x);
    forall k
      ensures k in gone <==> k in s.rows && GoesAlong(s, table, x, k)
    {
      if k in s.rows { GoneIs(s, table, x, k); } else if k in gone { GoneIsOwn(s, table, x, k); }
    }
    if !Forbidden(s, table, x) {
      hide Forbidden;
      ShowDeleted(s, table, x);
    }
  }

  ghost predicate Deleted(s: State, t: State, table: Table, x: nat) {
    && t.audited == s.audited && t.clock == s.clock + 1
    && (forall k :: k in t.rows <==> k in s.rows && !GoesAlong(s, table, x, k))
    && (forall k :: k in t.rows ==> t.rows[k].tenant == s.rows[k].tenant)
    && (forall k, f :: k in t.rows ==>
          (f in t.rows[k].refs <==> f in s.rows[k].refs && Target(f, s.rows[k]) in t.rows))
    && (forall k, f :: k in t.rows && f in t.rows[k].refs ==> t.rows[k].refs[f] == s.rows[k].refs[f])
    && (forall e :: e in t.audit <==>
          || e in s.audit
          || (e.key in s.rows && e.key.table in s.audited && e == AuditEntry(x, e.key, s.clock)
              && (e.key !in t.rows || t.rows[e.key] != s.rows[e.key])))
  }

  lemma ShowDeleted(s: State, table: Table, x: nat)
    requires Sound(s) && table != Tenants && table != Users && !Forbidden(s, table, x)
    ensures var gone := Gone(s, table, x);
      Deleted(s, s.(rows := Remaining(s, gone), audit := s.audit + Audited(s, gone), clock := s.clock + 1), table, x)
  {
    hide KeysOf, Declared, GoesAlong, Sound, Gone, Audited, Forbidden, Unlinked;
    var gone := Gone(s, table, x);
    forall k | k in s.rows
      ensures k in gone <==> GoesAlong(s, table, x, k)
      ensures k !in gone ==> RowKept(s, table, x, k)
    {
      GoneIs(s, table, x, k);
      if k !in gone { RowAfter(s, table, x, k); }
    }
    forall e: AuditEntry
      ensures e in Audited(s, gone)
         <==> && e.key in s.rows && e.key.table in s.audited && e == AuditEntry(x, e.key, s.clock)
              && (e.key in gone || Remaining(s, gone)[e.key] != s.rows[e.key])
    {
      AuditAfter(s, table, x, e);
    }
  }

  lemma VictimsGo(s: State, table: Table, x: nat, k: Key)
    requires k in s.rows && k.table == table && s.rows[k].tenant == x
    ensures k in Gone(s, table, x)
  {
  }

  lemma SoundAfter(s: State, t: State, x: nat)
    requires Sound(s) && forall k :: k in t.rows ==> RowOk(t, k)
    requires forall k :: k in s.rows && k.table == Tenants ==> k in t.rows
    requires forall e :: e in t.audit ==> e in s.audit || Key(Tenants, e.tenant) in t.rows
    ensures Sound(t)
  {
    hide RowOk;
  }

  // ---------------------------------------------------------------- the order of the script

  const ORDER: seq<Table> :=
    [Payments, CreditMemos, InvoiceLineItems, InvoiceTaxes, RecurringBillingSchedules, Invoices,
     InvoiceNumberSequences, JobStatusTransitions, Jobs, JobNumberSequences, DriverShifts,
     DriverTruckAssignments, Drivers, Trucks, CustomerVehicles, Vehicles, Customers,
     TenantDefaultRateSheets, RateSheets, Accounts, Sessions, EmailVerificationTokens, PasswordResetTokens]

  function Rank(table: Table): nat {
    match table
    case Payments => 0
    case CreditMemos => 1
    case InvoiceLineItems => 2
    case InvoiceTaxes => 3
    case RecurringBillingSchedules => 4
    case Invoices => 5
    case InvoiceNumberSequences => 6
    case JobStatusTransitions => 7
    case Jobs => 8
    case JobNumberSequences => 9
    case DriverShifts => 10
    case DriverTruckAssignments => 11
    case Drivers => 12
    case Trucks => 13
    case CustomerVehicles => 14
    case Vehicles => 15
    case Customers => 16
    case TenantDefaultRateSheets => 17
    case RateSheets => 18
    case Accounts => 19
    case Sessions => 20
    case EmailVerificationTokens => 21
    case PasswordResetTokens => 22
    case Users => 23
    case Tenants => 24
  }

  lemma OrderByRank(table: Table)
    ensures Rank(table) < |ORDER| <==> table != Users && table != Tenants
    ensures Rank(table) < |ORDER| ==> ORDER[Rank(table)] == table
  {
  }

  /** The list respects the graph: a table that restricts comes before the one it points to. */
  lemma RestrictingComesFirst(f: ForeignKey)
    requires Declared(f) && f.onDelete == Restrict
    ensures Rank(f.child) < Rank(f.parent)
  {
  }

  /** The first n tables of the list hold nothing of tenant x. */
  ghost predicate Emptied(s: State, x: nat, n: nat) {
    forall table: Table :: Rank(table) < n ==> Empty(s, table, x)
  }

  /** How far a reset of tenant x has come since s0. */
  ghost predicate Cleared(s0: State, s: State, x: nat, n: nat) {
    Sound(s) && OthersKept(s0, s, x) && Emptied(s, x, n)
  }

  lemma StepClears(s0: State, s: State, x: nat, n: nat)
    requires Cleared(s0, s, x, n) && n < |ORDER|
    ensures Delete(s, ORDER[n], x).Some?
    ensures Cleared(s0, Delete(s, ORDER[n], x).value, x, n + 1)
  {
    hide Delete, Sound, Declared, KeysOf, Rank;
    var table := ORDER[n];
    OrderByRank(table);
    RankOfOrder(n);
    forall f | Declared(f) && f.onDelete == Restrict && f.parent == table
      ensures Empty(s, f.child, x)
    {
      RestrictingComesFirst(f);
    }
    DeleteWorks(s, table, x);
    RankIsInjective();
  }

  lemma RankOfOrder(n: nat)
    requires n < |ORDER|
    ensures Rank(ORDER[n]) == n
  {
  }

  lemma RankIsInjective()
    ensures forall a: Table, b: Table :: Rank(a) == Rank(b) ==> a == b
  {
  }

  /** When the closing delete succeeds: there is no tenant to delete, or it has no users left and its
      deletion is not audited. */
  predicate CanClose(s: State, x: nat) {
    || Key(Tenants, x) !in s.rows
    || ((forall k :: k in s.rows && k.table == Users ==> s.rows[k].tenant != x) && Tenants !in s.audited)
  }

  /** Nothing but the tenant's own row goes with it, and only users can stand in the way. */
  lemma ClosingGone(s0: State, s: State, x: nat)
    requires Cleared(s0, s, x, |ORDER|) && forall e :: e in s.audit ==> e.tenant != x
    ensures var victims := Victims(s, Tenants, x);
      && Cascaded(s, victims) == {}
      && (forall k :: k in victims <==> k == Key(Tenants, x) && k in s.rows)
      && (forall k :: k in s.rows ==> Unlinked(s.rows[k], victims) == s.rows[k])
      && (Blocked(s, victims) <==> Key(Tenants, x) in s.rows && !Empty(s, Users, x))
  {
    hide KeysOf, Rank, Unlinked, Declared, Sound, OthersKept, Emptied, Blocked;
    var victims := Victims(s, Tenants, x);
    ClearedOwners(s0, s, x);
    forall k | k in s.rows
      ensures k in victims <==> k == Key(Tenants, x)
      ensures !PointsTo(s.rows[k], Cascade, victims) && !PointsTo(s.rows[k], Restrict, victims)
      ensures Unlinked(s.rows[k], victims) == s.rows[k]
    {
      PointsNotToTenants(s, x, k);
    }
    OnlyUsersBlock(s, x, victims);
  }

  lemma OnlyUsersBlock(s: State, x: nat, victims: set<Key>)
    requires forall k :: k in victims <==> k == Key(Tenants, x) && k in s.rows
    requires forall k :: k in s.rows ==> !PointsTo(s.rows[k], Restrict, victims)
    requires forall k :: k in s.rows && s.rows[k].tenant == x ==> k.table == Users || k == Key(Tenants, x)
    requires forall e :: e in s.audit ==> e.tenant != x
    ensures Blocked(s, victims) <==> Key(Tenants, x) in s.rows && !Empty(s, Users, x)
  {
    hide PointsTo;
    if Key(Tenants, x) in s.rows && !Empty(s, Users, x) {
      var k :| k in s.rows && k.table == Users && s.rows[k].tenant == x;
      assert k !in victims && Key(Tenants, s.rows[k].tenant) in victims;
    }
  }

  /** Nothing of tenant x is left, and the rows of the others are as they were. */
  ghost predicate OnlyTenantDeleted(s: State, t: State, x: nat) {
    && (forall k :: k in t.rows ==> k in s.rows && t.rows[k].tenant != x)
    && (forall k :: k in s.rows && s.rows[k].tenant != x ==> k in t.rows && t.rows[k] == s.rows[k])
  }

  /** The audit trigger of the tenants table writes for the very tenant that goes. */
  lemma ClosingAudit(s0: State, s: State, x: nat)
    requires Cleared(s0, s, x, |ORDER|) && forall e :: e in s.audit ==> e.tenant != x
    ensures Audited(s, Victims(s, Tenants, x))
         == if Tenants in s.audited && Key(Tenants, x) in s.rows then {AuditEntry(x, Key(Tenants, x), s.clock)} else {}
  {
    hide KeysOf, Rank, Emptied, OthersKept, Unlinked, Blocked, Cascaded, Victims;
    ClosingGone(s0, s, x);
    if Key(Tenants, x) in s.rows { assert RowOk(s, Key(Tenants, x)); }
  }

  lemma ClosingIs(s0: State, s: State, x: nat)
    requires Cleared(s0, s, x, |ORDER|) && forall e :: e in s.audit ==> e.tenant != x
    ensures var victims := Victims(s, Tenants, x);
      Delete(s, Tenants, x)
      == if Key(Tenants, x) in s.rows && (!Empty(s, Users, x) || Tenants in s.audited) then None
         else Some(s.(rows := Remaining(s, victims), clock := s.clock + 1))
  {
    hide KeysOf, Rank, Cleared, Unlinked, Blocked, Cascaded, Audited, Victims, Empty;
    var victims := Victims(s, Tenants, x);
    ClosingGone(s0, s, x);
    ClosingAudit(s0, s, x);
    assert victims + {} == victims;
    var entries := Audited(s, victims);
    if Tenants in s.audited && Key(Tenants, x) in s.rows {
      assert AuditEntry(x, Key(Tenants, x), s.clock) in entries && Key(Tenants, x) !in Remaining(s, victims);
    } else {
      assert entries == {} && s.audit + entries == s.audit;
    }
  }

  /** The closing delete succeeds exactly when it can, and then nothing of the tenant is left. */
  lemma ClosingDelete(s0: State, s: State, x: nat)
    requires Cleared(s0, s, x, |ORDER|) && forall e :: e in s.audit ==> e.tenant != x
    ensures Delete(s, Tenants, x).Some? <==> CanClose(s, x)
    ensures Delete(s, Tenants, x).Some? ==> OnlyTenantDeleted(s, Delete(s, Tenants, x).value, x)
    ensures Delete(s, Tenants, x).Some? ==> Delete(s, Tenants, x).value.audit == s.audit
  {
    hide KeysOf, Rank, Cleared, Delete, Victims, Remaining, OnlyTenantDeleted;
    ClosingIs(s0, s, x);
    CanCloseIs(s, x);
    if CanClose(s, x) {
      ClosingLeaves(s0, s, x, s.(rows := Remaining(s, Victims(s, Tenants, x)), clock := s.clock + 1));
    }
  }

  lemma CanCloseIs(s: State, x: nat)
    ensures CanClose(s, x) <==> !(Key(Tenants, x) in s.rows && (!Empty(s, Users, x) || Tenants in s.audited))
  {
  }

  lemma ClosingLeaves(s0: State, s: State, x: nat, t: State)
    requires Cleared(s0, s, x, |ORDER|) && (forall e :: e in s.audit ==> e.tenant != x) && CanClose(s, x)
    requires t.rows == Remaining(s, Victims(s, Tenants, x))
    ensures OnlyTenantDeleted(s, t, x)
  {
    hide KeysOf, Rank, Cleared, Unlinked, Victims, Blocked, Cascaded;
    ClosingGone(s0, s, x);
    forall k | k in s.rows
      ensures s.rows[k].tenant == x ==> k in Victims(s, Tenants, x)
    {
      ClearedOwners(s0, s, x);
      if Key(Tenants, x) !in s.rows { UsersNeedTenant(s0, s, x); }
    }
    assert forall k :: k in Victims(s, Tenants, x) ==> s.rows[k].tenant == x by { VictimsAreOwn(s, x); }
  }

  lemma VictimsAreOwn(s: State, x: nat)
    ensures forall k :: k in Victims(s, Tenants, x) ==> k in s.rows && s.rows[k].tenant == x
  {
  }

  lemma UsersNeedTenant(s0: State, s: State, x: nat)
    requires Cleared(s0, s, x, |ORDER|) && Key(Tenants, x) !in s.rows
    ensures forall k :: k in s.rows ==> s.rows[k].tenant != x
  {
    hide KeysOf, Rank, Declared;
    ClearedOwners(s0, s, x);
  }

  lemma ClearedOwners(s0: State, s: State, x: nat)
    requires Cleared(s0, s, x, |ORDER|)
    ensures forall k :: k in s.rows ==> Key(Tenants, s.rows[k].tenant) in s.rows
    ensures forall k :: k in s.rows && s.rows[k].tenant == x ==> k.table == Users || k == Key(Tenants, x)
  {
    hide KeysOf, Rank, Declared;
    forall k | k in s.rows
      ensures Key(Tenants, s.rows[k].tenant) in s.rows
      ensures s.rows[k].tenant == x ==> k.table == Users || k == Key(Tenants, x)
    {
      assert RowOk(s, k);
      OrderByRank(k.table);
    }
  }

  lemma PointsNotToTenants(s: State, x: nat, k: Key)
    requires Sound(s) && k in s.rows
    ensures k in Victims(s, Tenants, x) <==> k == Key(Tenants, x)
    ensures forall f :: f in s.rows[k].refs ==> Target(f, s.rows[k]) !in Victims(s, Tenants, x)
    ensures Unlinked(s.rows[k], Victims(s, Tenants, x)) == s.rows[k]
  {
    hide KeysOf;
    assert RowOk(s, k);
    forall f | f in s.rows[k].refs
      ensures Target(f, s.rows[k]).table != Tenants
    {
      UsersAndTenantsPointNowhere(f);
    }
    assert Unlinked(s.rows[k], Victims(s, Tenants, x)).refs == s.rows[k].refs;
  }

  lemma NothingClearedYet(s: State, x: nat)
    requires Sound(s)
    ensures Cleared(s, s, x, 0)
  {
  }

  lemma SameRowsSameRowOk(s: State, t: State, k: Key)
    requires k in s.rows && t.rows == s.rows && RowOk(s, k)
    ensures RowOk(t, k)
  {
    hide KeysOf;
  }

  lemma AuditCleared(s0: State, s: State, x: nat)
    requires Cleared(s0, s, x, |ORDER|)
    ensures Cleared(s0, DeleteAudit(s, x), x, |ORDER|) && forall e :: e in DeleteAudit(s, x).audit ==> e.tenant != x
  {
    hide KeysOf, Rank, RowOk;
    var t := DeleteAudit(s, x);
    forall k | k in t.rows
      ensures RowOk(t, k)
    {
      SameRowsSameRowOk(s, t, k);
    }
    forall table: Table | Rank(table) < |ORDER|
      ensures Empty(t, table, x)
    {
      assert Empty(s, table, x);
    }
  }

  lemma SameChanceToClose(s0: State, s: State, x: nat)
    requires Sound(s0) && Cleared(s0, s, x, |ORDER|)
    ensures CanClose(s, x) <==> CanClose(s0, x)
  {
    hide Declared, KeysOf, Rank, Emptied;
    if Key(Tenants, x) in s0.rows { assert RowOk(s0, Key(Tenants, x)); }
  }

  // ---------------------------------------------------------------- the script

  class DemoDatabase {
    var rows: map<Key, Row>
    var audit: set<AuditEntry>
    var clock: nat
    const audited: set<Table>

    constructor (rows: map<Key, Row>, audit: set<AuditEntry>, audited: set<Table>)
      ensures Contents() == State(rows, audit, audited, 0)
    {
      this.rows, this.audit, this.audited, clock := rows, audit, audited, 0;
    }

    function Contents(): State
      reads this
    {
      State(rows, audit, audited, clock)
    }

    method DeleteWhereTenant(table: Table, x: nat) returns (o: Outcome)
      modifies this
      ensures o.Done? <==> Delete(old(Contents()), table, x).Some?
      ensures Contents() == if o.Done? then Delete(old(Contents()), table, x).value else old(Contents())
    {
      hide Blocked, Remaining, Audited, Victims, Cascaded;
      var victims := Victims(Contents(), table, x);
      var gone := victims + Cascaded(Contents(), victims);
      if Blocked(Contents(), gone) { return Failed; }
      var left, entries := Remaining(Contents(), gone), Audited(Contents(), gone);
      if exists e :: e in entries && Key(Tenants, e.tenant) !in left { return Failed; }
      rows, audit, clock := left, audit + entries, clock + 1;
      return Done;
    }

    /** The next table of the list; its delete cannot fail. */
    method DeleteNext(table: Table, x: nat, ghost before: State, ghost n: nat)
      requires Rank(table) == n < |ORDER| && Cleared(before, Contents(), x, n)
      modifies this
      ensures Cleared(before, Contents(), x, n + 1)
    {
      hide Delete, Cleared;
      OrderByRank(table);
      StepClears(before, Contents(), x, n);
      var o := DeleteWhereTenant(table, x);
    }

    method DeleteAuditLog(x: nat)
      modifies this
      ensures Contents() == DeleteAudit(old(Contents()), x)
    {
      audit, clock := (set e | e in audit && e.tenant != x), clock + 1;
    }

    /** Invoices after what points to them. */
    method DeleteBilling(x: nat, ghost before: State)
      requires Cleared(before, Contents(), x, 0)
      modifies this
      ensures Cleared(before, Contents(), x, 7)
    {
      hide Cleared;
      DeleteNext(Payments, x, before, 0);
      DeleteNext(CreditMemos, x, before, 1);
      DeleteNext(InvoiceLineItems, x, before, 2);
      DeleteNext(InvoiceTaxes, x, before, 3);
      DeleteNext(RecurringBillingSchedules, x, before, 4);
      DeleteNext(Invoices, x, before, 5);
      DeleteNext(InvoiceNumberSequences, x, before, 6);
    }

    /** Jobs, their transitions and sequences. */
    method DeleteJobs(x: nat, ghost before: State)
      requires Cleared(before, Contents(), x, 7)
      modifies this
      ensures Cleared(before, Contents(), x, 10)
    {
      hide Cleared;
      DeleteNext(JobStatusTransitions, x, before, 7);
      DeleteNext(Jobs, x, before, 8);
      DeleteNext(JobNumberSequences, x, before, 9);
    }

    /** Drivers and trucks. */
    method DeleteFleet(x: nat, ghost before: State)
      requires Cleared(before, Contents(), x, 10)
      modifies this
      ensures Cleared(before, Contents(), x, 14)
    {
      hide Cleared;
      DeleteNext(DriverShifts, x, before, 10);
      DeleteNext(DriverTruckAssignments, x, before, 11);
      DeleteNext(Drivers, x, before, 12);
      DeleteNext(Trucks, x, before, 13);
    }

    /** Customers and vehicles, and the links between them. */
    method DeleteCustomers(x: nat, ghost before: State)
      requires Cleared(before, Contents(), x, 14)
      modifies this
      ensures Cleared(before, Contents(), x, 17)
    {
      hide Cleared;
      DeleteNext(CustomerVehicles, x, before, 14);
      DeleteNext(Vehicles, x, before, 15);
      DeleteNext(Customers, x, before, 16);
    }

    /** Rate sheets and accounts. */
    method DeleteRates(x: nat, ghost before: State)
      requires Cleared(before, Contents(), x, 17)
      modifies this
      ensures Cleared(before, Contents(), x, 20)
    {
      hide Cleared;
      DeleteNext(TenantDefaultRateSheets, x, before, 17);
      DeleteNext(RateSheets, x, before, 18);
      DeleteNext(Accounts, x, before, 19);
    }

    /** Sessions and tokens. */
    method DeleteTokens(x: nat, ghost before: State)
      requires Cleared(before, Contents(), x, 20)
      modifies this
      ensures Cleared(before, Contents(), x, 23)
    {
      hide Cleared;
      DeleteNext(Sessions, x, before, 20);
      DeleteNext(EmailVerificationTokens, x, before, 21);
      DeleteNext(PasswordResetTokens, x, before, 22);
    }

    /** The listed tables, in the order of the script. */
    method DeleteListed(x: nat)
      requires Sound(Contents())
      modifies this
      ensures Cleared(old(Contents()), Contents(), x, |ORDER|)
    {
      hide Cleared, Sound;
      ghost var before := Contents();
      NothingClearedYet(before, x);
      DeleteBilling(x, before);
      DeleteJobs(x, before);
      DeleteFleet(x, before);
      DeleteCustomers(x, before);
      DeleteRates(x, before);
      DeleteTokens(x, before);
    }

    /** Every delete up to the audit log succeeds. The closing one succeeds exactly when it can; if not, the
        tenant's own row and its users stay, as they were, and everything else of it is deleted. No audit entry
        of the tenant stays in either case. */
    method ResetTenant(x: nat) returns (r: Result<()>)
      requires Sound(Contents())
      modifies this
      ensures r.Ok? <==> CanClose(old(Contents()), x)
      ensures r.Ok? ==> OnlyTenantDeleted(old(Contents()), Contents(), x)
      ensures r.Thrown? ==> Cleared(old(Contents()), Contents(), x, |ORDER|)
      ensures r.Thrown? ==> OnlyUsersLeft(old(Contents()), Contents(), x)
      ensures forall e: AuditEntry :: e in audit <==> e.tenant != x && e in old(audit)
    {
      hide Cleared, Sound, Delete, CanClose, OnlyTenantDeleted, OnlyUsersLeft;
      ghost var before := Contents();
      DeleteListed(x);
      AuditCleared(before, Contents(), x);
      DeleteAuditLog(x);
      ClosingDelete(before, Contents(), x);
      SameChanceToClose(before, Contents(), x);
      ghost var last := Contents();
      ClosedFromStart(before, last, x);
      LeftFromStart(before, last, x);
      :- DeleteWhereTenant(Tenants, x);
      return Ok(());
    }
  }

  /** Of tenant x its own row and its users are left, as they were; the rows of the others are as they were. */
  ghost predicate OnlyUsersLeft(s: State, t: State, x: nat) {
    && (forall k :: k in t.rows <==>
          k in s.rows && (s.rows[k].tenant != x || k.table == Users || k == Key(Tenants, x)))
    && (forall k :: k in t.rows ==> t.rows[k] == s.rows[k])
  }

  lemma LeftFromStart(s0: State, s: State, x: nat)
    requires Sound(s0) && Cleared(s0, s, x, |ORDER|)
    ensures OnlyUsersLeft(s0, s, x)
  {
    hide Rank, KeysOf, Declared;
    ClearedOwners(s0, s, x);
    forall k | k in s0.rows && k.table == Tenants
      ensures s0.rows[k].tenant == k.id
    {
      assert RowOk(s0, k);
    }
  }

  /** What the closing delete leaves, seen from the start of the reset. */
  lemma ClosedFromStart(s0: State, s: State, x: nat)
    requires Cleared(s0, s, x, |ORDER|)
    ensures forall t: State :: OnlyTenantDeleted(s, t, x) ==> OnlyTenantDeleted(s0, t, x)
    ensures forall e: AuditEntry :: e.tenant != x ==> (e in s.audit <==> e in s0.audit)
  {
    hide Sound, Emptied;
  }
}
