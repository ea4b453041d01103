/**
 The runner of the raw SQL migrations: a tracking table, one transaction a file, and runs that may fail
 or crash at any statement, even between the server's COMMIT and its answer.

 The database is any type, and `effect` is what executing a file's text does to it (nothing, when the
 text raises an error). One runner at a time; no file contains a COMMIT of its own.
 */
module Migrations {
  import opened Results

  // ---------------------------------------------------------------- the files in order

  /** The order of `Array.prototype.sort`: by code units, a prefix first. */
  predicate Before(a: string, b: string)
    decreases |a|
  {
    b != "" && (a == "" || a[0] < b[0] || (a[0] == b[0] && Before(a[1..], b[1..])))
  }

  /** One is the beginning of the other, or at the first place where they differ it has the smaller unit. */
  ghost predicate Lexicographic(a: string, b: string) {
    || (|a| < |b| && a == b[..|a|])
    || exists k: nat :: DiffersAt(a, b, k)
  }

  predicate DiffersAt(a: string, b: string, k: nat) {
    k < |a| && k < |b| && a[..k] == b[..k] && a[k] < b[k]
  }

  lemma DiffersLater(a: string, b: string, k: nat)
    requires a != "" && b != "" && a[0] == b[0]
    ensures DiffersAt(a, b, k + 1) <==> DiffersAt(a[1..], b[1..], k)
  {
    if k < |a| - 1 && k < |b| - 1 {
      SamePrefix(a, b, k);
    }
  }

  lemma SamePrefix(a: string, b: string, k: nat)
    requires k < |a| && k < |b| && a[0] == b[0]
    ensures a[..k + 1] == b[..k + 1] <==> a[1..][..k] == b[1..][..k]
  {
    assert a[..k + 1] == [a[0]] + a[1..][..k] && b[..k + 1] == [b[0]] + b[1..][..k];
    assert a[1..][..k] == a[..k + 1][1..] && b[1..][..k] == b[..k + 1][1..];
  }

  lemma BeginsLater(a: string, b: string)
    requires a != "" && b != "" && a[0] == b[0] && |a| < |b|
    ensures a == b[..|a|] <==> a[1..] == b[1..][..|a| - 1]
  {
    SamePrefix(a, b, |a| - 1);
    assert a[..|a|] == a && a[1..][..|a| - 1] == a[1..];
  }

  lemma {:induction false} BeforeIs(a: string, b: string)
    ensures Before(a, b) <==> Lexicographic(a, b)
    decreases |a|
  {
    if a != "" && b != "" {
      if a[0] == b[0] {
        hide DiffersAt;
        var x, y := a[1..], b[1..];
        BeforeIs(x, y);
        FirstDiffers(a, b);
        if |a| < |b| { BeginsLater(a, b); }
        if k: nat :| DiffersAt(x, y, k) { DiffersLater(a, b, k); }
        if k: nat :| DiffersAt(a, b, k) && k > 0 { DiffersLater(a, b, k - 1); }
      } else if a[0] < b[0] {
        assert DiffersAt(a, b, 0);
      }
    }
  }

  lemma FirstDiffers(a: string, b: string)
    requires a != "" && b != "" && a[0] == b[0]
    ensures !DiffersAt(a, b, 0)
  {
  }

  predicate IsSql(name: string) {
    |name| >= 4 && name[|name| - 4..] == ".sql"
  }

  lemma {:induction false} BeforeIsTotal(a: string, b: string)
    ensures a != b ==> Before(a, b) != Before(b, a)
    ensures !Before(a, a)
    decreases |a|
  {
    if a != "" {
      BeforeIsTotal(a[1..], if b == "" then "" else b[1..]);
      if b != "" && a[0] == b[0] && a[1..] == b[1..] {
        assert a == [a[0]] + a[1..] == b;
      }
    }
  }

  lemma {:induction false} BeforeIsTransitive(a: string, b: string, c: string)
    requires Before(a, b) && Before(b, c)
    ensures Before(a, c)
    decreases |a|
  {
    if a != "" && a[0] == b[0] == c[0] { BeforeIsTransitive(a[1..], b[1..], c[1..]); }
  }

  predicate Increasing(names: seq<string>) {
    forall i, j :: 0 <= i < j < |names| ==> Before(names[i], names[j])
  }

  /** Puts a name at its place. */
  function Insert(names: seq<string>, name: string): seq<string> {
    if names == [] || Before(name, names[0]) then [name] + names
    else [names[0]] + Insert(names[1..], name)
  }

  /** `readdirSync(dir).filter(...).sort()`, for a listing in any order. */
  function SortedSql(listing: seq<string>): (names: seq<string>) {
    if listing == [] then []
    else
      var rest := SortedSql(listing[1..]);
      if IsSql(listing[0]) then Insert(rest, listing[0]) else rest
  }

  lemma {:induction false} InsertKeepsOrder(names: seq<string>, name: string)
    requires Increasing(names) && name !in names
    ensures Increasing(Insert(names, name))
    ensures forall n :: n in Insert(names, name) <==> n == name || n in names
    decreases |names|
  {
    if names == [] {
    } else if Before(name, names[0]) {
      forall k | 1 <= k < |names|
        ensures Before(name, names[k])
      {
        BeforeIsTransitive(name, names[0], names[k]);
      }
    } else {
      var rest := names[1..];
      assert names == [names[0]] + rest;
      assert forall k :: 0 <= k < |rest| ==> rest[k] == names[k + 1];
      InsertKeepsOrder(rest, name);
      BeforeIsTotal(name, names[0]);
      var t := Insert(rest, name);
      forall k | 0 <= k < |t|
        ensures Before(names[0], t[k])
      {
        assert t[k] in t;
      }
    }
  }

  predicate Distinct(names: seq<string>) {
    forall i, j :: 0 <= i < j < |names| ==> names[i] != names[j]
  }

  /** Whatever the order of the listing, the files come in increasing order, each once. */
  lemma {:induction false} SortedSqlIsSorted(listing: seq<string>)
    requires Distinct(listing)
    ensures Increasing(SortedSql(listing))
    ensures forall n :: n in SortedSql(listing) <==> n in listing && IsSql(n)
    decreases |listing|
  {
    if listing != [] {
      var rest := listing[1..];
      SortedSqlIsSorted(rest);
      assert listing == [listing[0]] + rest;
      assert listing[0] !in rest;
      if IsSql(listing[0]) { InsertKeepsOrder(SortedSql(rest), listing[0]); }
    }
  }

  /** The same in terms of the text: every two neighbours, and so every two files, are in the order of their
      code units, and a file is one whose name ends in `.sql`. */
  lemma FilesInOrder(listing: seq<string>)
    requires Distinct(listing)
    ensures var names := SortedSql(listing);
      && (forall i, j :: 0 <= i < j < |names| ==>
            Lexicographic(names[i], names[j]) && !Lexicographic(names[j], names[i]))
      && (forall n :: n in names <==> n in listing && exists stem :: n == stem + ".sql")
  {
    hide SortedSql, Before, Lexicographic;
    var names := SortedSql(listing);
    SortedSqlIsSorted(listing);
    forall i, j | 0 <= i < j < |names|
      ensures Lexicographic(names[i], names[j]) && !Lexicographic(names[j], names[i])
    {
      BeforeIs(names[i], names[j]);
      BeforeIs(names[j], names[i]);
      BeforeIsTotal(names[i], names[j]);
    }
    forall n: string
      ensures IsSql(n) <==> exists stem :: n == stem + ".sql"
    {
      if IsSql(n) { assert n == n[..|n| - 4] + ".sql"; }
    }
  }

  lemma IncreasingIsDistinct(names: seq<string>)
    requires Increasing(names)
    ensures Distinct(names)
  {
    forall i, j | 0 <= i < j < |names|
      ensures names[i] != names[j]
    {
      BeforeIsTotal(names[i], names[j]);
    }
  }

  // ---------------------------------------------------------------- what a run may do

  /** A file that was committed, with the text it had then. */
  datatype Applied = Applied(name: string, sql: string)

  type History = seq<Applied>

  function Names(h: History): (names: seq<string>)
    ensures |names| == |h|
    ensures forall i :: 0 <= i < |h| ==> names[i] == h[i].name
  {
    seq(|h|, i requires 0 <= i < |h| => h[i].name)
  }

  /** The database after the effects of a history, in order, if none of them raises an error. */
  function Replay<D>(effect: (D, string) -> Option<D>, start: D, h: History): Option<D> {
    if h == [] then Some(start)
    else
      match Replay(effect, start, h[..|h| - 1])
      case None => None
      case Some(d) => effect(d, h[|h| - 1].sql)
  }

  /** The files a run has to apply, in order. */
  function Pending(files: seq<string>, recorded: set<string>): seq<string> {
    if files == [] then []
    else (if files[0] in recorded then [] else [files[0]]) + Pending(files[1..], recorded)
  }

  datatype Folder = Folder(listing: seq<string>, text: string -> string)

  function Files(f: Folder): seq<string> {
    SortedSql(f.listing)
  }

  function Applying(f: Folder, names: seq<string>): (h: History)
    ensures |h| == |names|
    ensures forall i :: 0 <= i < |names| ==> h[i] == Applied(names[i], f.text(names[i]))
  {
    seq(|names|, i requires 0 <= i < |names| => Applied(names[i], f.text(names[i])))
  }

  function Recorded(h: History): set<string> {
    set i | 0 <= i < |h| :: h[i].name
  }

  /** A run applies some of the pending files, the first n of them; all, if it completes. */
  ghost predicate RunApplies(f: Folder, before: History, after: History, n: nat, completed: bool) {
    var pending := Pending(Files(f), Recorded(before));
    && n <= |pending|
    && after == before + Applying(f, pending[..n])
    && (completed ==> n == |pending|)
  }

  lemma {:induction false} PendingBoth(a: seq<string>, b: seq<string>, recorded: set<string>)
    ensures Pending(a + b, recorded) == Pending(a, recorded) + Pending(b, recorded)
    decreases |a|
  {
    if a == [] {
      assert a + b == b;
    } else {
      assert (a + b)[1..] == a[1..] + b;
      PendingBoth(a[1..], b, recorded);
    }
  }

  lemma PendingNothing(recorded: set<string>)
    ensures Pending([], recorded) == []
  {
  }

  lemma PendingNext(files: seq<string>, i: nat, recorded: set<string>)
    requires i < |files|
    ensures var done, all := Pending(files[..i], recorded), Pending(files, recorded);
      && Pending(files[..i + 1], recorded) == (if files[i] in recorded then done else done + [files[i]])
      && |Pending(files[..i + 1], recorded)| <= |all|
      && all[..|done|] == done
      && (files[i] !in recorded ==> |done| < |all| && all[|done|] == files[i] && all[..|done| + 1] == done + [files[i]])
  {
    assert files[..i + 1] == files[..i] + [files[i]];
    assert files == files[..i + 1] + files[i + 1..];
    PendingBoth(files[..i], [files[i]], recorded);
    PendingBoth(files[..i + 1], files[i + 1..], recorded);
  }

  // ---------------------------------------------------------------- the runner

  /** How a request goes. In the last two the server did it, but the answer is lost or the runner has died. */
  datatype Answer = Fine | Error | Crash | Lost | CrashAfter

  predicate ServerDid(a: Answer) {
    a.Fine? || a.Lost? || a.CrashAfter?
  }

  function AfterFault(a: Answer): Ending {
    if a.Crash? || a.CrashAfter? then Crashed else Rejected
  }

  datatype Ending = Completed | Rejected | Crashed

  ghost predicate NoFaults(plan: nat -> Answer) {
    forall t :: plan(t) == Fine
  }

  ghost predicate NoCrash(plan: nat -> Answer) {
    forall t :: !plan(t).Crash? && !plan(t).CrashAfter?
  }

  class MigrationDatabase<D(!new)> {
    const effect: (D, string) -> Option<D>
    const start: D
    var db: D
    var recorded: set<string>
    /** The open transaction: its view of the database and of the tracking table. */
    var work: Option<(D, set<string>)>
    ghost var history: History

    /** The committed database is the fold of the effects of exactly the recorded files, each once. */
    ghost predicate Valid()
      reads this
    {
      && Replay(effect, start, history) == Some(db)
      && recorded == Recorded(history)
      && Distinct(Names(history))
    }

    constructor (effect: (D, string) -> Option<D>, start: D)
      ensures Valid() && history == [] && work == None && this.effect == effect && this.start == start
    {
      this.effect, this.start, db := effect, start, start;
      recorded, work, history := {}, None, [];
    }

    /** BEGIN. */
    method Begin(answer: Answer) returns (ok: bool)
      requires work == None
      modifies this`work
      ensures ok <==> answer == Fine
      ensures ok ==> work == Some((db, recorded))
    {
      work := Some((db, recorded));
      return answer == Fine;
    }

    /** The text of a file, in the open transaction. */
    method Execute(sql: string, answer: Answer) returns (ok: bool)
      requires work.Some?
      modifies this`work
      ensures ok <==> answer == Fine && effect(old(work).value.0, sql).Some?
      ensures ok ==> work == Some((effect(old(work).value.0, sql).value, old(work).value.1))
    {
      var result := effect(work.value.0, sql);
      if result == None || answer != Fine { return false; }
      work := Some((result.value, work.value.1));
      return true;
    }

    /** INSERT ... ON CONFLICT DO NOTHING. */
    method Record(file: string, answer: Answer) returns (ok: bool)
      requires work.Some?
      modifies this`work
      ensures ok <==> answer == Fine
      ensures ok ==> work == Some((old(work).value.0, old(work).value.1 + {file}))
    {
      work := Some((work.value.0, work.value.1 + {file}));
      return answer == Fine;
    }

    /** COMMIT: both tables change together, or not at all. */
    method Commit(ghost applied: Applied, answer: Answer) returns (ok: bool)
      requires work.Some?
      modifies this
      ensures work == None
      ensures ok <==> answer == Fine
      ensures ServerDid(answer) ==> (db, recorded) == old(work).value && history == old(history) + [applied]
      ensures !ServerDid(answer) ==> unchanged(`db) && unchanged(`recorded) && unchanged(`history)
    {
      if ServerDid(answer) {
        db, recorded := work.value.0, work.value.1;
        history := history + [applied];
      }
      work := None;
      return answer == Fine;
    }

    /** One file: BEGIN, two settings, the text, the record, COMMIT; ROLLBACK on any error. A crash of the
        runner drops the transaction just as ROLLBACK does. */
    method ApplyFile(file: string, sql: string, plan: nat -> Answer, at: nat) returns (ending: Ending)
      requires Valid() && work == None && file !in recorded
      modifies this
      ensures Valid() && work == None
      ensures history == old(history) || history == old(history) + [Applied(file, sql)]
      ensures history != old(history)
         <==> && (forall t :: at <= t <= at + 5 ==> plan(t) == Fine) && ServerDid(plan(at + 6))
              && effect(old(db), sql).Some?
      ensures ending == Completed ==> history == old(history) + [Applied(file, sql)] && effect(old(db), sql) == Some(db)
      ensures ending != Completed && !(plan(at + 6) in {Lost, CrashAfter}) ==> history == old(history)
      ensures ending == Completed <==> (forall t :: at <= t <= at + 6 ==> plan(t) == Fine) && effect(old(db), sql).Some?
      ensures NoCrash(plan) ==> ending != Crashed
    {
      hide Replay, Distinct, Recorded, Names;
      // read the file and connect
      if plan(at) != Fine { return AfterFault(plan(at)); }
      var step := at + 1;
      var ok := Begin(plan(step));
      if ok {
        step := at + 2;
        ok := plan(step) == Fine; // SET LOCAL app.app_user_password
      }
      if ok {
        step := at + 3;
        ok := plan(step) == Fine; // SET LOCAL app.app_admin_password
      }
      if ok {
        step := at + 4;
        ok := Execute(sql, plan(step));
      }
      if ok {
        step := at + 5;
        ok := Record(file, plan(step));
      }
      if ok {
        step := at + 6;
        ghost var applied := Applied(file, sql);
        HistoryGrows(effect, start, history, applied);
        ok := Commit(applied, plan(step));
      }
      if ok { return Completed; }
      work := None;
      return AfterFault(plan(step));
    }

    /** `getAppliedMigrations`: connect, create the tracking table if need be, select the names. */
    method GetApplied(plan: nat -> Answer) returns (ending: Ending, applied: set<string>)
      ensures ending == Completed ==> applied == recorded
      ensures ending == Completed <==> plan(0) == plan(1) == plan(2) == Fine
      ensures NoCrash(plan) ==> ending != Crashed
    {
      applied := {};
      for t := 0 to 3
        invariant applied == {} && forall u :: 0 <= u < t ==> plan(u) == Fine
      {
        if plan(t) != Fine { return AfterFault(plan(t)), {}; }
      }
      return Completed, recorded;
    }

    /** The loop over the files. */
    method Run(f: Folder, plan: nat -> Answer)
      returns (ending: Ending, appliedCount: nat, skippedCount: nat, ghost n: nat)
      requires Valid() && work == None && Distinct(f.listing)
      modifies this
      ensures Valid() && work == None
      ensures RunApplies(f, old(history), history, n, ending == Completed)
      ensures ending == Completed ==> appliedCount == n && appliedCount + skippedCount == |Files(f)|
      ensures var pending := Pending(Files(f), Recorded(old(history)));
        NoFaults(plan) ==> (ending == Completed <==> Replay(effect, old(db), Applying(f, pending)).Some?)
      ensures NoCrash(plan) ==> ending != Crashed
    {
      hide NoCrash, Recorded, SortedSql, Replay, Applying, Increasing, Pending, IsSql;
      appliedCount, skippedCount, n := 0, 0, 0;
      ReplayNothing(effect, db);
      PendingNothing(Recorded(history));
      var applied;
      ending, applied := GetApplied(plan);
      ghost var before := history;
      assert Applying(f, Pending(Files(f), applied)[..0]) == [];
      if ending != Completed { return; }
      var files := Files(f);
      SortedSqlIsSorted(f.listing);
      IncreasingIsDistinct(files);
      for i := 0 to |files|
        invariant Valid() && work == None && applied == Recorded(before)
        invariant n == appliedCount == |Pending(files[..i], applied)| && skippedCount == i - n
        invariant history == before + Applying(f, Pending(files[..i], applied))
        invariant forall k :: i <= k < |files| ==> (files[k] in recorded <==> files[k] in applied)
        invariant NoFaults(plan) ==> Replay(effect, old(db), Applying(f, Pending(files[..i], applied))) == Some(db)
        invariant ending == Completed
      {
        var file := files[i];
        ghost var done := Pending(files[..i], applied);
        PendingNext(files, i, applied);
        if file in applied {
          skippedCount := skippedCount + 1;
          continue;
        }
        ApplyingMore(f, done, file);
        if NoFaults(plan) { ReplayNext(effect, old(db), f, done, Pending(files, applied)); }
        ghost var was := history;
        ending := ApplyFile(file, f.text(file), plan, 3 + 7 * i);
        assert forall k :: i < k < |files| ==> files[k] != file;
        if history != was {
          RecordedMore(was, Applied(file, f.text(file)));
          n := n + 1;
        }
        if ending != Completed { return; }
        appliedCount := appliedCount + 1;
      }
      assert files[..|files|] == files;
    }
  }

  lemma ReplayNothing<D>(effect: (D, string) -> Option<D>, start: D)
    ensures Replay(effect, start, []) == Some(start)
  {
  }

  lemma ApplyingMore(f: Folder, done: seq<string>, file: string)
    ensures Applying(f, done + [file]) == Applying(f, done) + [Applied(file, f.text(file))]
  {
  }

  /** Without faults, one more file goes through exactly when its text does, and if not, none of the longer
      lists does. */
  lemma ReplayNext<D>(effect: (D, string) -> Option<D>, start: D, f: Folder, done: seq<string>, all: seq<string>)
    requires |done| < |all| && all[..|done|] == done && Replay(effect, start, Applying(f, done)).Some?
    ensures var next := effect(Replay(effect, start, Applying(f, done)).value, f.text(all[|done|]));
      && Replay(effect, start, Applying(f, done + [all[|done|]])) == next
      && (next == None ==> Replay(effect, start, Applying(f, all)) == None)
  {
    var more := done + [all[|done|]];
    ApplyingMore(f, done, all[|done|]);
    assert Applying(f, more)[..|done|] == Applying(f, done);
    assert all[..|done| + 1] == more;
    if Replay(effect, start, Applying(f, more)) == None { ReplayStaysFailed(effect, start, f, all, |more|); }
  }

  lemma {:induction false} ReplayStaysFailed<D>(effect: (D, string) -> Option<D>, start: D, f: Folder,
                                                all: seq<string>, k: nat)
    requires k <= |all| && Replay(effect, start, Applying(f, all[..k])) == None
    ensures Replay(effect, start, Applying(f, all)) == None
    decreases |all|
  {
    if k < |all| {
      var shorter := all[..|all| - 1];
      assert shorter[..k] == all[..k];
      ReplayStaysFailed(effect, start, f, shorter, k);
      assert Applying(f, all)[..|all| - 1] == Applying(f, shorter);
    } else {
      assert all[..k] == all;
    }
  }

  lemma HistoryGrows<D>(effect: (D, string) -> Option<D>, start: D, h: History, a: Applied)
    requires Distinct(Names(h)) && a.name !in Recorded(h) && Replay(effect, start, h).Some?
    ensures Distinct(Names(h + [a])) && Recorded(h + [a]) == Recorded(h) + {a.name}
    ensures Replay(effect, start, h + [a]) == effect(Replay(effect, start, h).value, a.sql)
  {
    hide Recorded;
    RecordedMore(h, a);
    NamesMore(h, a);
    assert (h + [a])[..|h|] == h;
  }

  lemma NamesMore(h: History, a: Applied)
    requires Distinct(Names(h)) && a.name !in Recorded(h)
    ensures Distinct(Names(h + [a]))
  {
    assert Names(h + [a]) == Names(h) + [a.name];
    assert forall i :: 0 <= i < |h| ==> h[i].name in Recorded(h);
  }

  lemma RecordedMore(h: History, a: Applied)
    ensures Recorded(h + [a]) == Recorded(h) + {a.name}
  {
    var t := h + [a];
    forall n | n in Recorded(h) + {a.name}
      ensures n in Recorded(t)
    {
      if n == a.name { assert t[|h|].name == n; }
      else {
        var i :| 0 <= i < |h| && h[i].name == n;
        assert t[i].name == n;
      }
    }
  }

  // ---------------------------------------------------------------- what every run guarantees

  lemma {:induction false} PendingIs(files: seq<string>, recorded: set<string>)
    requires Increasing(files)
    ensures Increasing(Pending(files, recorded))
    ensures forall n :: n in Pending(files, recorded) <==> n in files && n !in recorded
  {
    if files != [] {
      var rest := files[1..];
      assert files == [files[0]] + rest;
      PendingIs(rest, recorded);
      var p := Pending(rest, recorded);
      forall k | 0 <= k < |p|
        ensures Before(files[0], p[k])
      {
        assert p[k] in p;
        var j :| 0 <= j < |rest| && rest[j] == p[k];
        assert files[j + 1] == p[k];
      }
    }
  }

  /** What was recorded stays, in its place; what a run adds comes after it, in increasing order; and no
      file is ever applied twice. */
  lemma RunsAppend(f: Folder, before: History, after: History, n: nat, completed: bool)
    requires Distinct(f.listing) && Distinct(Names(before)) && RunApplies(f, before, after, n, completed)
    ensures before <= after && Distinct(Names(after))
    ensures Increasing(Names(after)[|before|..])
    ensures forall i :: |before| <= i < |after| ==> IsSql(after[i].name) && after[i].sql == f.text(after[i].name)
  {
    hide SortedSql, IsSql;
    var files, recorded := Files(f), Recorded(before);
    SortedSqlIsSorted(f.listing);
    PendingIs(files, recorded);
    var pending := Pending(files, recorded);
    IncreasingIsDistinct(pending);
    var names := Names(after);
    forall i | |before| <= i < |after|
      ensures after[i] == Applied(pending[i - |before|], f.text(pending[i - |before|]))
      ensures pending[i - |before|] in pending
    {
    }
    forall i, j | 0 <= i < j < |after|
      ensures names[i] != names[j]
    {
      if j < |before| { assert Names(before)[i] != Names(before)[j]; }
      else if i < |before| { assert before[i].name in recorded; }
    }
  }

  /** A run leaves no gap: what it did not come to sorts after everything it applied. */
  lemma NoGaps(f: Folder, before: History, after: History, n: nat, completed: bool, name: string, i: nat)
    requires Distinct(f.listing) && RunApplies(f, before, after, n, completed)
    requires name in f.listing && IsSql(name) && name !in Recorded(after) && |before| <= i < |after|
    ensures Lexicographic(after[i].name, name)
  {
    hide SortedSql, IsSql, Before, Lexicographic;
    SortedSqlIsSorted(f.listing);
    PendingIs(Files(f), Recorded(before));
    var pending := Pending(Files(f), Recorded(before));
    assert forall j :: 0 <= j < |before| ==> after[j] == before[j];
    assert forall j :: 0 <= j < n ==> after[|before| + j].name == pending[j];
    var k :| 0 <= k < |pending| && pending[k] == name;
    assert after[i].name == pending[i - |before|];
    BeforeIs(after[i].name, name);
  }

  lemma {:induction false} NothingPending(files: seq<string>, recorded: set<string>)
    requires forall name :: name in files ==> name in recorded
    ensures Pending(files, recorded) == []
  {
    if files != [] { NothingPending(files[1..], recorded); }
  }

  /** A completed run leaves every SQL file recorded, so the next run over the same names changes nothing,
      even when a text has been edited meanwhile. */
  lemma CompletedRunIsFinal(f: Folder, g: Folder, before: History, after: History, later: History,
                            n: nat, m: nat, completed: bool)
    requires Distinct(f.listing) && RunApplies(f, before, after, n, true)
    requires Distinct(g.listing) && (forall name :: name in g.listing ==> name in f.listing)
    requires RunApplies(g, after, later, m, completed)
    ensures forall name :: name in f.listing && IsSql(name) ==> name in Recorded(after)
    ensures later == after
  {
    hide SortedSql, IsSql;
    SortedSqlIsSorted(f.listing);
    SortedSqlIsSorted(g.listing);
    PendingIs(Files(f), Recorded(before));
    var pending := Pending(Files(f), Recorded(before));
    assert pending[..n] == pending;
    forall name | name in f.listing && IsSql(name)
      ensures name in Recorded(after)
    {
      if name in Recorded(before) {
        var i :| 0 <= i < |before| && before[i].name == name;
        assert after[i].name == name;
      } else {
        assert name in pending;
        var k :| 0 <= k < |pending| && pending[k] == name;
        assert after[|before| + k].name == name;
      }
    }
    NothingPending(Files(g), Recorded(after));
  }

  /** Across runs the order stays lexicographic exactly as long as new names sort after applied ones. */
  lemma GlobalOrder(f: Folder, before: History, after: History, n: nat, completed: bool)
    requires Distinct(f.listing) && RunApplies(f, before, after, n, completed)
    requires Increasing(Names(before))
    ensures Increasing(Names(after))
       <==> before == [] || after == before || Before(before[|before| - 1].name, after[|before|].name)
  {
    hide SortedSql, IsSql, Recorded, Pending, Before;
    SortedSqlIsSorted(f.listing);
    PendingIs(Files(f), Recorded(before));
    var names, b := Names(after), |before|;
    forall i, j | 0 <= i < j < b
      ensures Before(names[i], names[j])
    {
      assert Before(Names(before)[i], Names(before)[j]);
    }
    forall i, j | b <= i < j < |after|
      ensures Before(names[i], names[j])
    {
    }
    if before != [] && after != before && Before(names[b - 1], names[b]) {
      forall i, j | 0 <= i < b <= j < |after|
        ensures Before(names[i], names[j])
      {
        if i < b - 1 { BeforeIsTransitive(names[i], names[b - 1], names[b]); }
        if b < j { BeforeIsTransitive(names[i], names[b], names[j]); }
      }
    }
  }

  /** One run of a list of runs. */
  datatype RunRecord = RunRecord(folder: Folder, applied: nat, completed: bool)

  ghost predicate AllRuns(before: History, runs: seq<RunRecord>, after: History)
    decreases |runs|
  {
    if runs == [] then after == before
    else
      var r := runs[0];
      && Distinct(r.folder.listing)
      && exists middle ::
           RunApplies(r.folder, before, middle, r.applied, r.completed) && AllRuns(middle, runs[1..], after)
  }

  /** Over any sequence of runs, completed, failed or crashed: nothing recorded is lost or applied again. */
  lemma {:induction false} OverAllRuns(before: History, runs: seq<RunRecord>, after: History)
    requires Distinct(Names(before)) && AllRuns(before, runs, after)
    ensures before <= after && Distinct(Names(after))
    decreases |runs|
  {
    if runs != [] {
      var r := runs[0];
      var middle :| RunApplies(r.folder, before, middle, r.applied, r.completed) && AllRuns(middle, runs[1..], after);
      RunsAppend(r.folder, before, middle, r.applied, r.completed);
      OverAllRuns(middle, runs[1..], after);
    }
  }

  // ---------------------------------------------------------------- interruptions leave no trace

  lemma {:induction false} PendingSame(files: seq<string>, a: set<string>, b: set<string>)
    requires forall name :: name in files ==> (name in a <==> name in b)
    ensures Pending(files, a) == Pending(files, b)
  {
    if files != [] { PendingSame(files[1..], a, b); }
  }

  /** With the first n pending files recorded too, the rest are pending. */
  lemma {:induction false} PendingRest(files: seq<string>, a: set<string>, b: set<string>, n: nat)
    requires Distinct(files) && n <= |Pending(files, a)|
    requires forall name :: name in files ==> (name in b <==> name in a || name in Pending(files, a)[..n])
    ensures Pending(files, b) == Pending(files, a)[n..]
  {
    var all := Pending(files, a);
    if n == 0 {
      assert all[..0] == [] && all[0..] == all;
      PendingSame(files, a, b);
    } else if files != [] {
      var first, rest := files[0], files[1..];
      var later := Pending(rest, a);
      assert files == [first] + rest;
      assert forall k :: 0 <= k < |rest| ==> rest[k] == files[k + 1];
      assert first in files && first !in rest;
      if first in a {
        assert all == later;
        PendingRest(rest, a, b, n);
      } else {
        assert all[..n] == [first] + later[..n - 1] && all[n..] == later[n - 1..];
        assert first in [first] + later[..n - 1];
        PendingRest(rest, a, b, n - 1);
      }
    }
  }

  lemma RecordedIs(h: History, name: string)
    ensures name in Recorded(h) <==> name in Names(h)
  {
    if name in Recorded(h) {
      var i :| 0 <= i < |h| && h[i].name == name;
      assert Names(h)[i] == name;
    }
  }

  lemma RecordedAfter(f: Folder, h: History, names: seq<string>, name: string)
    ensures name in Recorded(h + Applying(f, names)) <==> name in Recorded(h) || name in names
  {
    hide Recorded;
    var t := h + Applying(f, names);
    RecordedIs(t, name);
    RecordedIs(h, name);
    assert Names(t) == Names(h) + names;
  }

  /** The history an uninterrupted run leaves. */
  function Uninterrupted(f: Folder, h: History): History {
    h + Applying(f, Pending(Files(f), Recorded(h)))
  }

  lemma ApplyingParts(f: Folder, h: History, names: seq<string>, n: nat)
    requires n <= |names|
    ensures h + Applying(f, names) == h + Applying(f, names[..n]) + Applying(f, names[n..])
  {
  }

  /** Whatever a run over a folder has applied, an uninterrupted run from there ends where one from the start
      would have ended. */
  lemma ResumedRun(f: Folder, before: History, middle: History, n: nat, completed: bool)
    requires Distinct(f.listing) && RunApplies(f, before, middle, n, completed)
    ensures Uninterrupted(f, middle) == Uninterrupted(f, before)
    ensures completed ==> middle == Uninterrupted(f, before)
  {
    hide SortedSql, Pending, Recorded, IsSql, Increasing, Distinct, Applying;
    var files := Files(f);
    var pending := Pending(files, Recorded(before));
    SortedSqlIsSorted(f.listing);
    IncreasingIsDistinct(files);
    forall name
      ensures name in Recorded(middle) <==> name in Recorded(before) || name in pending[..n]
    {
      RecordedAfter(f, before, pending[..n], name);
    }
    PendingRest(files, Recorded(before), Recorded(middle), n);
    ApplyingParts(f, before, pending, n);
    if completed { assert pending[..n] == pending; }
  }

  /** For one unchanged folder, any number of failed and crashed runs with a completed one at the end leave
      the history of one uninterrupted run; and so the same database, which is the fold of the history. */
  lemma {:induction false} InterruptionsLeaveNoTrace(f: Folder, before: History, runs: seq<RunRecord>, after: History)
    requires runs != [] && runs[|runs| - 1].completed
    requires forall i :: 0 <= i < |runs| ==> runs[i].folder == f
    requires AllRuns(before, runs, after)
    ensures after == Uninterrupted(f, before)
    decreases |runs|
  {
    hide Uninterrupted, RunApplies;
    var r, rest := runs[0], runs[1..];
    var middle :| RunApplies(f, before, middle, r.applied, r.completed) && AllRuns(middle, rest, after);
    ResumedRun(f, before, middle, r.applied, r.completed);
    if rest != [] {
      assert rest[|rest| - 1] == runs[|runs| - 1];
      InterruptionsLeaveNoTrace(f, middle, rest, after);
    }
  }
}
