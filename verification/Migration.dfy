// The two checksum repairs that run before the database migrator, statement by
// statement, and what a crash between two statements leaves behind.
module Migration {
  type Checksum = seq<int>

  datatype Constraint = Missing | Narrow | Wide

  // What the repairs read and write. Rows 73 to 75 of _sqlx_migrations are kept
  // only when the table exists.
  datatype Database = Database(
    migrationsTable: bool,
    row73: Checksum, row74: Checksum, row75: Checksum,
    lockoutColumns: bool,
    passwordHistory: bool,
    passwordHistoryIndex: bool,
    quarantineCheck: Constraint,
    quarantineColumn: bool,
    quarantineIndex: bool)

  // The checksums of one release's files in the three slots.
  datatype Slots = Slots(s73: Checksum, s74: Checksum, s75: Checksum)

  // The checksums of v1.1.9 and of the current files.
  datatype Release = Release(v119: Slots, current: Slots)

  ghost predicate Diverged(r: Release) {
    r.v119.s73 != r.current.s73 && r.v119.s74 != r.current.s74 && r.v119.s75 != r.current.s75
  }

  function Stored(db: Database): Slots {
    Slots(db.row73, db.row74, db.row75)
  }

  // ---- Statements: each commits on its own ----

  datatype Statement =
    | SetRow73(c: Checksum)
    | SetRow74(c: Checksum)
    | SetRow75(c: Checksum)
    | AddLockoutColumns
    | CreatePasswordHistory
    | CreatePasswordHistoryIndex
    | DropQuarantineCheck
    | AddQuarantineCheck
    | AddQuarantineColumn
    | CreateQuarantineIndex

  // All but one are written to succeed again; adding a constraint that is still
  // there, or an index on what is missing, is an error and changes nothing.
  function Execute(db: Database, s: Statement): (r: (Database, bool)) {
    match s
    case SetRow73(c) => (db.(row73 := c), true)
    case SetRow74(c) => (db.(row74 := c), true)
    case SetRow75(c) => (db.(row75 := c), true)
    case AddLockoutColumns => (db.(lockoutColumns := true), true)
    case CreatePasswordHistory => (db.(passwordHistory := true), true)
    case CreatePasswordHistoryIndex =>
      if db.passwordHistory then (db.(passwordHistoryIndex := true), true) else (db, false)
    case DropQuarantineCheck => (db.(quarantineCheck := Missing), true)
    case AddQuarantineCheck =>
      if db.quarantineCheck == Missing then (db.(quarantineCheck := Wide), true) else (db, false)
    case AddQuarantineColumn => (db.(quarantineColumn := true), true)
    case CreateQuarantineIndex =>
      if db.quarantineColumn then (db.(quarantineIndex := true), true) else (db, false)
  }

  // The statements the two repairs issue on a given database.
  function LegacyRepair(r: Release, db: Database): seq<Statement> {
    if db.migrationsTable && db.lockoutColumns && db.row73 != r.current.s73
    then [SetRow73(r.current.s73)]
    else []
  }

  function DivergenceRepair(r: Release, db: Database): seq<Statement> {
    if db.migrationsTable && Stored(db) == r.v119 then Schema() + Updates(r) else []
  }

  function Schema(): seq<Statement> {
    [AddLockoutColumns,
     CreatePasswordHistory, CreatePasswordHistoryIndex,
     DropQuarantineCheck, AddQuarantineCheck, AddQuarantineColumn, CreateQuarantineIndex]
  }

  function Updates(r: Release): seq<Statement> {
    [SetRow73(r.current.s73), SetRow74(r.current.s74), SetRow75(r.current.s75)]
  }

  // At most n of the statements, in order, up to the first error.
  function Run(db: Database, statements: seq<Statement>, n: nat): Database
    decreases n
  {
    if n == 0 || statements == [] then db
    else
      var (next, ok) := Execute(db, statements[0]);
      if ok then Run(next, statements[1..], n - 1) else db
  }

  // A boot that the machine leaves after n statements: the legacy repair, then the
  // divergence repair on what the first one left.
  function BootFor(r: Release, db: Database, n: nat): Database {
    var legacy := LegacyRepair(r, db);
    var db1 := Run(db, legacy, n);
    if n < |legacy| then db1 else Run(db1, DivergenceRepair(r, db1), n - |legacy|)
  }

  // No boot issues more than this.
  const ALL: nat := 11

  function Boot(r: Release, db: Database): Database {
    BootFor(r, db, ALL)
  }

  // The migrator aborts when a stored checksum is not the current file's.
  predicate MigratorAccepts(r: Release, db: Database) {
    db.migrationsTable ==> Stored(db) == r.current
  }

  predicate Installed(db: Database) {
    && db.lockoutColumns && db.passwordHistory && db.passwordHistoryIndex
    && db.quarantineCheck == Wide && db.quarantineColumn && db.quarantineIndex
  }

  // ---- The repairs as methods on a connection ----

  // A connection whose statements stop working after `budget` more of them.
  class Connection {
    var db: Database
    var budget: nat

    constructor (db: Database, budget: nat)
      ensures this.db == db && this.budget == budget
    {
      this.db := db;
      this.budget := budget;
    }

    // Issues one statement.
    method Issue(s: Statement) returns (ok: bool)
      modifies this
      ensures ok <==> old(budget) > 0 && Execute(old(db), s).1
      ensures db == if ok then Execute(old(db), s).0 else old(db)
      ensures budget == if ok then old(budget) - 1 else old(budget)
    {
      var (next, fine) := Execute(db, s);
      ok := budget > 0 && fine;
      if ok {
        db := next;
        budget := budget - 1;
      }
    }

    // The same for statement k of a divergence repair that began at `start`.
    method IssueNext(s: Statement, ghost r: Release, ghost start: Database, ghost k: nat) returns (ok: bool)
      requires FromRelease(r, start) && Nth(r, start, k, s) && db == After(r, start, k)
      modifies this
      ensures ok <==> old(budget) > 0
      ensures ok ==> db == After(r, start, k + 1) && budget == old(budget) - 1
      ensures !ok ==> db == After(r, start, k) && budget == 0
    {
      StatementStep(r, start, k);
      ok := Issue(s);
    }

    method RepairLegacy073Checksum(r: Release) returns (ok: bool)
      modifies this
      ensures db == Run(old(db), LegacyRepair(r, old(db)), old(budget))
      ensures ok <==> |LegacyRepair(r, old(db))| <= old(budget)
      ensures ok ==> budget == old(budget) - |LegacyRepair(r, old(db))|
    {
      if !db.migrationsTable {
        return true;
      }
      var stored := db.row73;
      if !db.lockoutColumns {
        return true;
      }
      if stored == r.current.s73 {
        return true;
      }
      ok := Issue(SetRow73(r.current.s73));
    }

    method RepairRelease119Divergence(r: Release) returns (ok: bool)
      modifies this
      ensures db == Run(old(db), DivergenceRepair(r, old(db)), old(budget))
      ensures ok <==> |DivergenceRepair(r, old(db))| <= old(budget)
      ensures ok ==> budget == old(budget) - |DivergenceRepair(r, old(db))|
    {
      if !db.migrationsTable {
        return true;
      }
      if db.row73 != r.v119.s73 || db.row74 != r.v119.s74 || db.row75 != r.v119.s75 {
        return true;
      }
      ghost var start := db;
      ProgramIs(r, start);
      RunDivergence(r, start, budget);
      AfterEnds(r, start, budget);
      hide Run, DivergenceRepair, After, FromRelease, Nth, Stored;
      ok := InstallLockoutAndHistory(r, start);
      if !ok { return; }
      ok := InstallQuarantine(r, start);
      if !ok { return; }
      var updates := Updates(r);
      for i := 0 to |updates|
        invariant db == After(r, start, 7 + i) && budget == old(budget) - 7 - i
      {
        ok := IssueNext(updates[i], r, start, 7 + i);
        if !ok { return; }
      }
    }

    // The schema of the current files 73 and 74: account lockout, password history.
    method InstallLockoutAndHistory(ghost r: Release, ghost start: Database) returns (ok: bool)
      requires FromRelease(r, start) && db == After(r, start, 0)
      modifies this
      ensures ok <==> old(budget) >= 3
      ensures ok ==> db == After(r, start, 3) && budget == old(budget) - 3
      ensures !ok ==> db == After(r, start, old(budget))
    {
      ProgramIs(r, start);
      hide *;
      ok := IssueNext(AddLockoutColumns, r, start, 0);
      if !ok { return; }
      ok := IssueNext(CreatePasswordHistory, r, start, 1);
      if !ok { return; }
      ok := IssueNext(CreatePasswordHistoryIndex, r, start, 2);
    }

    // That of file 75: the quarantine period.
    method InstallQuarantine(ghost r: Release, ghost start: Database) returns (ok: bool)
      requires FromRelease(r, start) && db == After(r, start, 3)
      modifies this
      ensures ok <==> old(budget) >= 4
      ensures ok ==> db == After(r, start, 7) && budget == old(budget) - 4
      ensures !ok ==> db == After(r, start, 3 + old(budget))
    {
      ProgramIs(r, start);
      hide *;
      ok := IssueNext(DropQuarantineCheck, r, start, 3);
      if !ok { return; }
      ok := IssueNext(AddQuarantineCheck, r, start, 4);
      if !ok { return; }
      ok := IssueNext(AddQuarantineColumn, r, start, 5);
      if !ok { return; }
      ok := IssueNext(CreateQuarantineIndex, r, start, 6);
    }

    // The repairs and the migrator's check, in the order the server boots.
    method RunServer(r: Release) returns (started: bool)
      modifies this
      ensures db == BootFor(r, old(db), old(budget))
      ensures started <==> BootLength(r, old(db)) <= old(budget) && MigratorAccepts(r, Boot(r, old(db)))
    {
      BootStages(r, db, budget);
      hide *;
      var ok := RepairLegacy073Checksum(r);
      if !ok { return false; }
      ok := RepairRelease119Divergence(r);
      if !ok { return false; }
      started := MigratorAccepts(r, db);
    }
  }

  // How many statements a whole boot issues.
  function BootLength(r: Release, db: Database): nat {
    var legacy := LegacyRepair(r, db);
    |legacy| + |DivergenceRepair(r, Run(db, legacy, |legacy|))|
  }

  lemma {:induction false} RunEnough(db: Database, statements: seq<Statement>, m: nat, n: nat)
    requires |statements| <= m && |statements| <= n
    ensures Run(db, statements, m) == Run(db, statements, n)
    decreases m
  {
    hide Execute;
    if statements != [] && Execute(db, statements[0]).1 {
      RunEnough(Execute(db, statements[0]).0, statements[1..], m - 1, n - 1);
    }
  }

  // With enough statements a boot is a whole boot.
  lemma {:induction false} BootEnough(r: Release, db: Database, n: nat)
    requires BootLength(r, db) <= n
    ensures BootFor(r, db, n) == Boot(r, db)
  {
    var legacy := LegacyRepair(r, db);
    var db1 := Run(db, legacy, |legacy|);
    RepairsAreShort(r, db, db1);
    hide Run, LegacyRepair, DivergenceRepair;
    RunEnough(db, legacy, n, |legacy|);
    RunEnough(db, legacy, ALL, |legacy|);
    RunEnough(db1, DivergenceRepair(r, db1), n - |legacy|, ALL - |legacy|);
  }

  // Where a boot of n statements stops, stage by stage.
  lemma {:induction false} BootStages(r: Release, db: Database, n: nat)
    ensures var legacy := LegacyRepair(r, db);
            var db1 := Run(db, legacy, n);
            var repair := DivergenceRepair(r, db1);
            && (n < |legacy| ==> BootFor(r, db, n) == db1 && n < BootLength(r, db))
            && (n >= |legacy| ==>
                  && BootFor(r, db, n) == Run(db1, repair, n - |legacy|)
                  && BootLength(r, db) == |legacy| + |repair|
                  && (|repair| <= n - |legacy| ==> BootFor(r, db, n) == Boot(r, db)))
  {
    hide Run, LegacyRepair, DivergenceRepair, Boot;
    var legacy := LegacyRepair(r, db);
    if |legacy| <= n {
      RunEnough(db, legacy, n, |legacy|);
      if BootLength(r, db) <= n {
        BootEnough(r, db, n);
      }
    }
  }

  lemma {:induction false} RepairsAreShort(r: Release, db: Database, db1: Database)
    ensures |LegacyRepair(r, db)| <= 1 && |DivergenceRepair(r, db1)| <= 10
  {
    assert |Schema()| == 7 && |Updates(r)| == 3;
  }

  lemma {:induction false} AfterEnds(r: Release, db: Database, n: nat)
    ensures After(r, db, 0) == db
    ensures n >= 10 ==> After(r, db, n) == After(r, db, 10)
  {
  }

  predicate FromRelease(r: Release, db: Database) {
    db.migrationsTable && Stored(db) == r.v119
  }

  // Statement k of the repair.
  predicate Nth(r: Release, db: Database, k: nat, s: Statement) {
    k < |DivergenceRepair(r, db)| && DivergenceRepair(r, db)[k] == s
  }

  lemma {:induction false} ProgramIs(r: Release, db: Database)
    requires FromRelease(r, db)
    ensures |DivergenceRepair(r, db)| == 10 && |Updates(r)| == 3
    ensures Nth(r, db, 0, AddLockoutColumns) && Nth(r, db, 1, CreatePasswordHistory)
    ensures Nth(r, db, 2, CreatePasswordHistoryIndex) && Nth(r, db, 3, DropQuarantineCheck)
    ensures Nth(r, db, 4, AddQuarantineCheck) && Nth(r, db, 5, AddQuarantineColumn)
    ensures Nth(r, db, 6, CreateQuarantineIndex)
    ensures forall i | 0 <= i < 3 :: Nth(r, db, 7 + i, Updates(r)[i])
  {
    assert |Schema()| == 7 && |Updates(r)| == 3;
  }

  // ---- The divergence repair by itself ----

  // What n statements of the divergence repair leave.
  function After(r: Release, db: Database, n: nat): Database {
    Database(
      db.migrationsTable,
      if n >= 8 then r.current.s73 else db.row73,
      if n >= 9 then r.current.s74 else db.row74,
      if n >= 10 then r.current.s75 else db.row75,
      db.lockoutColumns || n >= 1,
      db.passwordHistory || n >= 2,
      db.passwordHistoryIndex || n >= 3,
      if n >= 5 then Wide else if n == 4 then Missing else db.quarantineCheck,
      db.quarantineColumn || n >= 6,
      db.quarantineIndex || n >= 7)
  }

  lemma {:induction false} RunFrom(r: Release, db: Database, k: nat, n: nat)
    requires db.migrationsTable && Stored(db) == r.v119 && k <= n && k <= 10
    ensures Run(After(r, db, k), DivergenceRepair(r, db)[k..], n - k) == After(r, db, n)
    decreases 10 - k
  {
    var p := DivergenceRepair(r, db);
    ProgramIs(r, db);
    if k < n && k < 10 {
      assert p[k..][0] == p[k] && p[k..][1..] == p[k + 1..];
      StatementStep(r, db, k);
      RunFrom(r, db, k + 1, n);
    }
  }

  // No statement of the repair fails.
  lemma {:induction false} StatementStep(r: Release, db: Database, k: nat)
    requires db.migrationsTable && Stored(db) == r.v119 && k < 10
    ensures |DivergenceRepair(r, db)| == 10
    ensures Execute(After(r, db, k), DivergenceRepair(r, db)[k]) == (After(r, db, k + 1), true)
  {
    ProgramIs(r, db);
    assert k >= 7 ==> DivergenceRepair(r, db)[7 + (k - 7)] == Updates(r)[k - 7];
  }

  lemma {:induction false} RunDivergence(r: Release, db: Database, n: nat)
    requires db.migrationsTable && Stored(db) == r.v119
    ensures Run(db, DivergenceRepair(r, db), n) == After(r, db, n)
  {
    RunFrom(r, db, 0, n);
    assert DivergenceRepair(r, db)[0..] == DivergenceRepair(r, db);
  }

  // The repair does something exactly to databases with all three v1.1.9 checksums,
  // then installs all of the schema and the current checksums, and has nothing left to do.
  lemma {:induction false} UninterruptedRepair(r: Release, db: Database)
    requires Diverged(r)
    ensures var done := Run(db, DivergenceRepair(r, db), ALL);
            && (db.migrationsTable && Stored(db) == r.v119 ==> Stored(done) == r.current && Installed(done))
            && (!(db.migrationsTable && Stored(db) == r.v119) ==> done == db)
            && DivergenceRepair(r, done) == []
  {
    if db.migrationsTable && Stored(db) == r.v119 {
      RunDivergence(r, db, ALL);
    }
  }

  // Interrupted after n statements and retried alone, it reaches the uninterrupted
  // result exactly when no checksum, or all of them, had been rewritten.
  lemma {:induction false} RetriedAlone(r: Release, db: Database, n: nat)
    requires Diverged(r) && db.migrationsTable && Stored(db) == r.v119
    ensures var left := Run(db, DivergenceRepair(r, db), n);
            Run(left, DivergenceRepair(r, left), ALL) == Run(db, DivergenceRepair(r, db), ALL) <==> n <= 7 || n >= 10
  {
    var left := Run(db, DivergenceRepair(r, db), n);
    RunDivergence(r, db, n);
    RunDivergence(r, db, ALL);
    if n <= 7 {
      RunDivergence(r, left, ALL);
    }
  }

  // ---- The whole boot ----

  // Which databases a boot brings through the migrator's check.
  predicate Bootable(r: Release, db: Database) {
    || !db.migrationsTable
    || Stored(db) == r.current
    || (!db.lockoutColumns && Stored(db) == r.v119)
    || (db.lockoutColumns && db.row74 == r.current.s74 && db.row75 == r.current.s75)
  }

  lemma {:induction false} BootAcceptedIff(r: Release, db: Database)
    requires Diverged(r)
    ensures MigratorAccepts(r, Boot(r, db)) <==> Bootable(r, db)
  {
    BootShape(r, db, ALL);
  }

  // A boot for n statements, without the statements.
  lemma {:induction false} BootShape(r: Release, db: Database, n: nat)
    requires Diverged(r)
    ensures BootFor(r, db, n) ==
            if !db.migrationsTable then db
            else if db.lockoutColumns then (if n == 0 then db else db.(row73 := r.current.s73))
            else if Stored(db) == r.v119 then After(r, db, n)
            else db
  {
    var legacy := LegacyRepair(r, db);
    if legacy == [] {
      if db.migrationsTable && Stored(db) == r.v119 {
        RunDivergence(r, db, n);
      }
    } else if n > 0 {
      assert Run(db, legacy, n) == Run(db.(row73 := r.current.s73), [], n - 1);
    }
  }

  // A v1.1.9 installation as the first boot finds it.
  predicate FromV119(r: Release, db: Database) {
    db.migrationsTable && !db.lockoutColumns && Stored(db) == r.v119
  }

  // Boots left after these many statements each, one after another.
  function Boots(r: Release, db: Database, crashes: seq<nat>): Database
    decreases |crashes|
  {
    if crashes == [] then db else Boots(r, BootFor(r, db, crashes[0]), crashes[1..])
  }

  // The first crash that was not before the first statement decides.
  predicate Survives(crashes: seq<nat>) {
    crashes == [] || crashes[0] >= 10 || (crashes[0] == 0 && Survives(crashes[1..]))
  }

  // After any crashed boots of a v1.1.9 installation the next whole boot is accepted
  // exactly when the first crash behind the first ALTER was behind the last UPDATE too.
  lemma {:induction false} RecoverableIff(r: Release, db: Database, crashes: seq<nat>)
    requires Diverged(r) && FromV119(r, db)
    ensures MigratorAccepts(r, Boot(r, Boots(r, db, crashes))) <==> Survives(crashes)
    ensures Survives(crashes) ==> Installed(Boot(r, Boots(r, db, crashes)))
    decreases |crashes|
  {
    if crashes == [] {
      BootShape(r, db, ALL);
    } else {
      BootShape(r, db, crashes[0]);
      var left := BootFor(r, db, crashes[0]);
      if crashes[0] == 0 {
        RecoverableIff(r, db, crashes[1..]);
      } else if crashes[0] >= 10 {
        SettledStays(r, left, crashes[1..]);
      } else {
        StrandedStays(r, left, crashes[1..]);
      }
    }
  }

  predicate Settled(r: Release, db: Database) {
    db.migrationsTable && Stored(db) == r.current && Installed(db)
  }

  lemma {:induction false} SettledStays(r: Release, db: Database, crashes: seq<nat>)
    requires Diverged(r) && Settled(r, db)
    ensures Settled(r, Boot(r, Boots(r, db, crashes)))
    decreases |crashes|
  {
    if crashes == [] {
      BootShape(r, db, ALL);
    } else {
      BootShape(r, db, crashes[0]);
      SettledStays(r, BootFor(r, db, crashes[0]), crashes[1..]);
    }
  }

  // Lockout columns beside a v1.1.9 row 75: the legacy repair claims row 73 for
  // itself, the strict match fails, and row 75 stays stale for good.
  predicate Stranded(r: Release, db: Database) {
    db.migrationsTable && db.lockoutColumns && db.row75 == r.v119.s75
  }

  lemma {:induction false} StrandedStays(r: Release, db: Database, crashes: seq<nat>)
    requires Diverged(r) && Stranded(r, db)
    ensures Stranded(r, Boot(r, Boots(r, db, crashes)))
    ensures !MigratorAccepts(r, Boot(r, Boots(r, db, crashes)))
    decreases |crashes|
  {
    if crashes == [] {
      BootShape(r, db, ALL);
    } else {
      BootShape(r, db, crashes[0]);
      StrandedStays(r, BootFor(r, db, crashes[0]), crashes[1..]);
    }
  }
}
