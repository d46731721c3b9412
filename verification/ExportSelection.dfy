/** Crash safety of export selections: one atomic compare-and-set, whatever the crashes. */
module ExportSelection {
  import opened SelectionLog
  import opened SelectionDisk

  // ---- runs and crashes ---------------------------------------------------------------

  lemma {:induction false} ExecJoins(m: Machine, a: seq<Write>, b: seq<Write>)
    ensures Exec(m, a + b) == Exec(Exec(m, a), b)
    decreases |a|
  {
    if a == [] {
      assert a + b == b;
    } else {
      assert (a + b)[1..] == a[1..] + b;
      ExecJoins(Attempt(m, a[0]), a[1..], b);
    }
  }

  lemma {:induction false} RunJoins(d: Disk, a: seq<Write>, b: seq<Write>)
    ensures Run(d, a + b) == Run(Run(d, a), b)
    decreases |a|
  {
    if a == [] {
      assert a + b == b;
    } else {
      assert (a + b)[1..] == a[1..] + b;
      RunJoins(Apply(d, a[0]), a[1..], b);
    }
  }

  /** A process runs on while it has budget and meets no exception, and then the disk is as the writes
      leave it. */
  lemma {:induction false} ExecRunning(m: Machine, ws: seq<Write>)
    ensures Exec(m, ws).Running() <==> m.Running() && |ws| <= m.budget && (m.faults == [] || |ws| <= m.faults[0].after)
    ensures Exec(m, ws).Running() ==>
              Exec(m, ws) == m.(disk := Run(m.disk, ws), budget := m.budget - |ws|, faults := Spent(m.faults, |ws|))
    ensures !m.Running() ==> Exec(m, ws) == m
    decreases |ws|
  {
    if ws != [] { ExecRunning(Attempt(m, ws[0]), ws[1..]); }
  }

  /** A process that stopped did so at some step; if it lives, the exception came there. */
  lemma {:induction false} ExecStopped(m: Machine, ws: seq<Write>) returns (n: nat)
    requires m.Running() && !Exec(m, ws).Running()
    ensures n < |ws| && n <= m.budget
    ensures Exec(m, ws).disk == Run(m.disk, ws[..n])
            || (ws[n].AppendRecord? && Exec(m, ws).disk == Run(m.disk, ws[..n]).(torn := true))
    ensures Exec(m, ws).raising <==> Exec(m, ws).alive
    ensures Exec(m, ws).alive ==> m.faults != [] && m.faults[0].after == n
    decreases |ws|
  {
    var next := Attempt(m, ws[0]);
    ExecRunning(next, ws[1..]);
    if next.Running() {
      var k := ExecStopped(next, ws[1..]);
      n := k + 1;
      assert ws[..n][1..] == ws[1..][..k];
    } else {
      n := 0;
    }
  }

  lemma {:induction false} LogGrows(m: Machine, ws: seq<Write>)
    ensures |Exec(m, ws).disk.log| >= |m.disk.log|
    ensures (forall i :: 0 <= i < |ws| ==> !ws[i].AppendRecord?) ==> Exec(m, ws).disk.log == m.disk.log
    decreases |ws|
  {
    if ws != [] {
      StepLog(m, ws[0]);
      hide Attempt;
      LogGrows(Attempt(m, ws[0]), ws[1..]);
    }
  }

  lemma StepLog(m: Machine, w: Write)
    ensures |Attempt(m, w).disk.log| >= |m.disk.log|
    ensures !w.AppendRecord? ==> Attempt(m, w).disk.log == m.disk.log
  {
  }

  // ---- one transaction --------------------------------------------------------------------

  /** No transaction is in flight: the selection is the committed one and its bundle is there. */
  ghost predicate Settled(d: Disk, input: string) {
    && d.reservation.None? && d.stages == map[] && !d.torn
    && LogAccepted(d.log, input) && |d.log| % 2 == 0
    && ValidCurrent(d.current, input) && Matches(d.current, CommittedOf(d.log))
    && (d.current.Some? ==> d.current.value.selected in d.bundles)
    && (d.log != [] ==>
          var sha := d.log[|d.log| - 1].body.reservation;
          sha.OfReservation? && sha.reservation.expectedRevision < Revision(d.current))
  }

  datatype Txn = Txn(base: Disk, input: string, r: Reservation, files: seq<File>)

  /** The transaction's reservation was made for its base. */
  ghost predicate Begun(k: Txn) {
    && Settled(k.base, k.input) && k.r.input == k.input
    && k.r.expectedRevision == Revision(k.base.current) && k.r.expectedSelected == Selected(k.base.current)
    && (k.r.created <==> k.r.token !in k.base.bundles) && (k.r.created <==> k.r.stage.Some?)
    && (!k.r.created ==> k.base.bundles[k.r.token] == k.files)
    && k.r.integrity == OfFiles(k.files)
  }

  predicate Room(k: Txn) {
    |k.base.log| + 1 < MaxRecords
  }

  function PrepareOf(k: Txn): Record
    requires Room(k)
  {
    PrepareRecord(StateOf(k.base.log), SelectionFor(k.r), k.r).value
  }

  function CommitOf(k: Txn): Record
    requires Room(k)
  {
    CommitRecord(StateOf(k.base.log + [PrepareOf(k)]), PrepareOf(k)).value
  }

  /** The disk the transaction is for. */
  function Target(k: Txn): Disk
    requires Room(k)
  {
    k.base.(bundles := k.base.bundles[k.r.token := k.files], log := k.base.log + [PrepareOf(k)] + [CommitOf(k)],
            current := Some(SelectionFor(k.r)))
  }

  /** What a crash before the prepare record is whole can leave. */
  ghost predicate Unprepared(k: Txn, c: Disk) {
    c == k.base ||
    (&& c.reservation == Some(k.r) && c.log == k.base.log && c.current == k.base.current
     && (|| (c.stages == map[] && c.bundles == k.base.bundles)
         || (k.r.stage.Some? && c.stages.Keys == {k.r.stage.value} && c.bundles == k.base.bundles)
         || (k.r.stage.Some? && c.stages == map[] && c.bundles == k.base.bundles[k.r.token := k.files])))
  }

  /** What a crash after that can leave. */
  ghost predicate Prepared(k: Txn, c: Disk)
    requires Room(k)
  {
    && c.stages == map[] && c.bundles == Target(k).bundles
    && (|| (c.log == k.base.log + [PrepareOf(k)] && c.reservation == Some(k.r)
            && (c.current == k.base.current || c.current == Target(k).current))
        || (c.log == Target(k).log && !c.torn && c.current == Target(k).current
            && (c.reservation == Some(k.r) || c.reservation == None)))
  }

  ghost predicate InFlight(k: Txn, c: Disk) {
    Begun(k) && (Unprepared(k, c) || (Room(k) && Prepared(k, c)))
  }

  /** The prepare record is whole on disk. */
  predicate Decided(k: Txn, c: Disk) {
    |c.log| > |k.base.log|
  }

  /** Where recovery must end. */
  ghost function Outcome(k: Txn, c: Disk): Disk
    requires InFlight(k, c)
  {
    if Decided(k, c) then Target(k) else k.base
  }

  /** Every disk a crash or an exception during these writes can leave is one of the transaction's. */
  ghost predicate StaysInFlight(k: Txn, d: Disk, ws: seq<Write>)
    decreases |ws|
  {
    && InFlight(k, d)
    && (ws != [] ==> && (ws[0].AppendRecord? ==> InFlight(k, d.(torn := true)))
                     && StaysInFlight(k, Apply(d, ws[0]), ws[1..]))
  }

  lemma {:induction false} CrashStays(k: Txn, m: Machine, ws: seq<Write>)
    requires StaysInFlight(k, m.disk, ws)
    ensures InFlight(k, Exec(m, ws).disk)
    decreases |ws|
  {
    if ws != [] {
      var next := Attempt(m, ws[0]);
      if next.Running() {
        CrashStays(k, next, ws[1..]);
      } else {
        ExecRunning(next, ws[1..]);
      }
    }
  }

  lemma {:induction false} StaysJoins(k: Txn, d: Disk, a: seq<Write>, b: seq<Write>)
    requires StaysInFlight(k, d, a) && StaysInFlight(k, Run(d, a), b)
    ensures StaysInFlight(k, d, a + b)
    decreases |a|
  {
    if a == [] {
      assert a + b == b;
    } else {
      assert (a + b)[1..] == a[1..] + b;
      StaysJoins(k, Apply(d, a[0]), a[1..], b);
    }
  }

  // ---- the log of a transaction --------------------------------------------------------

  /** The log with the prepare, and with prepare and commit. */
  lemma TransactionLog(k: Txn)
    requires Begun(k) && Room(k)
    ensures var half, done := k.base.log + [PrepareOf(k)], Target(k).log;
            && LogAccepted(half, k.input) && LogAccepted(done, k.input)
            && StateOf(half) == Absorb(StateOf(k.base.log), PrepareOf(k))
            && StateOf(done) == Absorb(StateOf(half), CommitOf(k))
            && CommitRecord(StateOf(half), PrepareOf(k)) == Some(CommitOf(k))
  {
    var rs := k.base.log;
    LogShape(rs, k.input);
    if |rs| >= 2 { CommittedIsValid(rs, k.input); }
    PrepareKeepsLog(rs, SelectionFor(k.r), k.r, k.input);
    StateExtends(rs, PrepareOf(k));
    CommitKeepsLog(rs + [PrepareOf(k)], k.input);
    StateExtends(rs + [PrepareOf(k)], CommitOf(k));
  }

  lemma TargetSettled(k: Txn)
    requires Begun(k) && Room(k)
    ensures Settled(Target(k), k.input)
  {
    TransactionLog(k);
    var t := Target(k);
    assert t.log[|t.log| - 1] == CommitOf(k);
    assert CommittedOf(t.log) == StateOf(t.log).committed;
  }

  // ---- recovery --------------------------------------------------------------------------

  /** Reading cuts the tail off and stays within the transaction. */
  lemma CutKeeps(k: Txn, c: Disk)
    requires InFlight(k, c)
    ensures InFlight(k, c.(torn := false)) && Decided(k, c.(torn := false)) == Decided(k, c)
    ensures c.torn ==> c.reservation == Some(k.r)
  {
  }

  /** The committed state of the base does not carry this reservation. */
  lemma NotCommittedYet(k: Txn)
    requires Begun(k)
    ensures StateOf(k.base.log).pending == None && StateOf(k.base.log).committed == CommittedOf(k.base.log)
    ensures StateOf(k.base.log).committedReservation != Some(OfReservation(k.r))
  {
  }

  lemma OneWrite(k: Txn, d: Disk, w: Write)
    ensures Run(d, [w]) == Apply(d, w)
    ensures InFlight(k, d) && InFlight(k, Apply(d, w)) && (w.AppendRecord? ==> InFlight(k, d.(torn := true)))
        ==> StaysInFlight(k, d, [w])
  {
    assert [w][1..] == [];
  }

  lemma OneMore(k: Txn, d: Disk, w: Write, ws: seq<Write>)
    ensures Run(d, [w] + ws) == Run(Apply(d, w), ws)
    ensures InFlight(k, d) && (w.AppendRecord? ==> InFlight(k, d.(torn := true))) && StaysInFlight(k, Apply(d, w), ws)
        ==> StaysInFlight(k, d, [w] + ws)
  {
    assert ([w] + ws)[1..] == ws;
  }

  /** The writes end on the given disk, by way of disks of the transaction. */
  ghost predicate Reaches(k: Txn, c: Disk, ws: seq<Write>, end: Disk) {
    Run(c, ws) == end && StaysInFlight(k, c, ws)
  }

  lemma DropReservationReaches(k: Txn, c: Disk, end: Disk)
    requires InFlight(k, c) && InFlight(k, end) && end == c.(reservation := None)
    ensures Reaches(k, c, [DropReservation], end)
  {
    OneWrite(k, c, DropReservation);
  }

  lemma DiscardReaches(k: Txn, c: Disk)
    requires Begun(k) && Unprepared(k, c) && !c.torn && c != k.base
    ensures DiscardPlan(c, k.r).failure == None
    ensures Reaches(k, c, DiscardPlan(c, k.r).writes, k.base)
  {
    var ws := DiscardPlan(c, k.r).writes;
    var last := c.(stages := map[], bundles := k.base.bundles);
    DropReservationReaches(k, last, k.base);
    if c == last {
      assert ws == [DropReservation];
    } else if c.stages == map[] {
      assert k.r.token in c.bundles && c.bundles - {k.r.token} == k.base.bundles;
      assert ws == [DropBundle(k.r.token)] + [DropReservation];
      OneMore(k, c, DropBundle(k.r.token), [DropReservation]);
    } else {
      var stage := k.r.stage.value;
      assert c.stages - {stage} == map[];
      assert ws == [DropStage(stage)] + [DropReservation];
      OneMore(k, c, DropStage(stage), [DropReservation]);
    }
  }

  /** Before the prepare record is whole, recovery ends in exactly the disk before the transaction. */
  lemma UndoRecovers(k: Txn, c: Disk)
    requires Begun(k) && Unprepared(k, c) && !c.torn
    ensures RecoverPlan(c, k.input).failure == None
    ensures Reaches(k, c, RecoverPlan(c, k.input).writes, k.base)
  {
    NotCommittedYet(k);
    if c != k.base {
      DiscardReaches(k, c);
      hide DiscardPlan, StaysInFlight;
      assert RecoverPlan(c, k.input).writes == [] + DiscardPlan(c, k.r).writes == DiscardPlan(c, k.r).writes;
    }
  }

  lemma FinishPlan(k: Txn, c: Disk)
    requires Begun(k) && Room(k) && Prepared(k, c) && c.log == Target(k).log
    ensures RecoverPlan(c, k.input) == Plan(if c.reservation.Some? then [DropReservation] else [], None)
  {
    TransactionLog(k);
    if c.reservation.Some? {
      assert StateOf(c.log).records[|c.log| - 2] == PrepareOf(k);
      assert [] + [DropReservation] == [DropReservation];
    }
  }

  lemma FinishRecovers(k: Txn, c: Disk)
    requires Begun(k) && Room(k) && Prepared(k, c) && c.log == Target(k).log
    ensures RecoverPlan(c, k.input).failure == None
    ensures Reaches(k, c, RecoverPlan(c, k.input).writes, Target(k))
  {
    FinishPlan(k, c);
    hide RecoverPlan;
    if c.reservation.Some? {
      DropReservationReaches(k, c, Target(k));
    } else {
      assert c == Target(k);
    }
  }

  function RedoWrites(k: Txn, swapped: bool): seq<Write>
    requires Room(k)
  {
    var rest := [AppendRecord(CommitOf(k))] + [DropReservation];
    if swapped then rest else [ReplaceCurrent(SelectionFor(k.r))] + rest
  }

  lemma RedoPlanIs(k: Txn, c: Disk)
    requires Begun(k) && Room(k) && Prepared(k, c) && !c.torn && c.log == k.base.log + [PrepareOf(k)]
    ensures RecoverPlan(c, k.input) == Plan(RedoWrites(k, c.current == Target(k).current), None)
  {
    TransactionLog(k);
    var s := StateOf(c.log);
    assert Transition(k.r, s.committed, s.pending.value.body.target, c);
    assert s.committed == CommittedOf(k.base.log);
    assert Matches(c.current, s.committed) <==> c.current != Target(k).current;
    var plan := RedoPlan(c, s, s.pending.value);
    assert plan.writes == RedoWrites(k, c.current == Target(k).current);
    assert [] + plan.writes == plan.writes;
  }

  lemma RedoReaches(k: Txn, c: Disk)
    requires Begun(k) && Room(k) && Prepared(k, c) && c.log == k.base.log + [PrepareOf(k)] && !c.torn
    ensures Reaches(k, c, RedoWrites(k, c.current == Target(k).current), Target(k))
  {
    var swapped := c.(current := Target(k).current);
    var logged := swapped.(log := Target(k).log);
    assert Prepared(k, swapped) && Prepared(k, swapped.(torn := true)) && Prepared(k, logged);
    DropReservationReaches(k, logged, Target(k));
    OneMore(k, swapped, AppendRecord(CommitOf(k)), [DropReservation]);
    OneMore(k, c, ReplaceCurrent(SelectionFor(k.r)), [AppendRecord(CommitOf(k))] + [DropReservation]);
    hide StaysInFlight, Run, InFlight, Prepared;
    if c.current == Target(k).current { assert c == swapped; }
  }

  lemma RedoRecovers(k: Txn, c: Disk)
    requires Begun(k) && Room(k) && Prepared(k, c) && !c.torn && c.log == k.base.log + [PrepareOf(k)]
    ensures RecoverPlan(c, k.input).failure == None
    ensures Reaches(k, c, RecoverPlan(c, k.input).writes, Target(k))
  {
    RedoPlanIs(k, c);
    RedoReaches(k, c);
  }

  /** From every disk a crash can leave, recovery ends without failure in the target if the prepare
      record is whole and in exactly the disk before the transaction otherwise; a crash during
      recovery leaves such a disk again. */
  lemma RecoveryEnds(k: Txn, c: Disk)
    requires InFlight(k, c)
    ensures RecoverPlan(c, k.input).failure == None
    ensures Reaches(k, c, RecoverPlan(c, k.input).writes, Outcome(k, c))
  {
    var cut := c.(torn := false);
    CutKeeps(k, c);
    if !Decided(k, c) {
      UndoRecovers(k, cut);
    } else if c.log == Target(k).log {
      FinishRecovers(k, cut);
    } else {
      RedoRecovers(k, cut);
    }
    var ws := RecoverPlan(cut, k.input).writes;
    if c.torn {
      PlanAfterCut(c, k.input);
      OneMore(k, c, CutTail, ws);
    }
  }

  lemma PlanAfterCut(c: Disk, input: string)
    requires c.torn && RecoverPlan(c.(torn := false), input).failure == None
    ensures RecoverPlan(c, input) == Plan([CutTail] + RecoverPlan(c.(torn := false), input).writes, None)
  {
    var cut := c.(torn := false);
    assert Cut(cut) == [] && Cut(c) == [CutTail];
    var s := StateOf(c.log);
    var rest := if s.pending.Some? then RedoPlan(cut, s, s.pending.value) else TidyPlan(cut, s);
    assert [] + rest.writes == rest.writes;
  }

  // ---- the transaction -----------------------------------------------------------------

  /** The disk on which the prepare record is built. */
  function ReadyDisk(k: Txn): Disk {
    k.base.(reservation := Some(k.r), bundles := k.base.bundles[k.r.token := k.files])
  }

  function StagingDisk(k: Txn, files: seq<File>): Disk
    requires k.r.stage.Some?
  {
    k.base.(reservation := Some(k.r), stages := map[k.r.stage.value := files])
  }

  lemma StagingInFlight(k: Txn, files: seq<File>)
    requires Begun(k) && k.r.stage.Some?
    ensures InFlight(k, StagingDisk(k, files))
  {
  }

  lemma {:induction false} PutFilesReaches(k: Txn, done: seq<File>, files: seq<File>)
    requires Begun(k) && k.r.stage.Some?
    ensures Reaches(k, StagingDisk(k, done), PutFiles(k.r.stage.value, files), StagingDisk(k, done + files))
    decreases |files|
  {
    StagingInFlight(k, done);
    if files == [] {
      assert done + files == done;
    } else {
      var stage := k.r.stage.value;
      assert map[stage := done][stage := done + [files[0]]] == map[stage := done + [files[0]]];
      PutFilesReaches(k, done + [files[0]], files[1..]);
      assert done + [files[0]] + files[1..] == done + files;
      OneMore(k, StagingDisk(k, done), PutFile(stage, files[0]), PutFiles(stage, files[1..]));
    }
  }

  lemma Joins(k: Txn, c: Disk, a: seq<Write>, mid: Disk, b: seq<Write>, end: Disk)
    requires Reaches(k, c, a, mid) && Reaches(k, mid, b, end)
    ensures Reaches(k, c, a + b, end)
  {
    RunJoins(c, a, b);
    StaysJoins(k, c, a, b);
  }

  lemma ReservedInFlight(k: Txn)
    requires Begun(k)
    ensures InFlight(k, k.base) && InFlight(k, k.base.(reservation := Some(k.r)))
    ensures InFlight(k, ReadyDisk(k)) && InFlight(k, ReadyDisk(k).(torn := true))
    ensures !k.r.created ==> ReadyDisk(k) == k.base.(reservation := Some(k.r))
  {
  }

  /** Reserving, and building the bundle up to the given files, from the base. */
  lemma StagedReaches(k: Txn, files: seq<File>)
    requires Begun(k) && k.r.stage.Some?
    ensures Reaches(k, k.base, [PutReservation(k.r)] + ([MakeStage(k.r.stage.value)] + PutFiles(k.r.stage.value, files)),
                    StagingDisk(k, files))
  {
    var stage := k.r.stage.value;
    var reserved := k.base.(reservation := Some(k.r));
    ReservedInFlight(k);
    PutFilesReaches(k, [], files);
    assert [] + files == files;
    assert reserved.stages[stage := []] == map[stage := []];
    OneMore(k, reserved, MakeStage(stage), PutFiles(stage, files));
    OneMore(k, k.base, PutReservation(k.r), [MakeStage(stage)] + PutFiles(stage, files));
  }

  lemma BeforeReaches(k: Txn)
    requires Begun(k)
    ensures Reaches(k, k.base, BeforePrepare(k.r, k.files), ReadyDisk(k))
  {
    ReservedInFlight(k);
    if k.r.stage.Some? {
      var stage := k.r.stage.value;
      var staged := [PutReservation(k.r)] + ([MakeStage(stage)] + PutFiles(stage, k.files));
      StagedReaches(k, k.files);
      StagingInFlight(k, k.files);
      assert map[stage := k.files] - {stage} == map[];
      OneWrite(k, StagingDisk(k, k.files), Publish(stage, k.r.token));
      Joins(k, k.base, staged, StagingDisk(k, k.files), [Publish(stage, k.r.token)], ReadyDisk(k));
      assert BeforePrepare(k.r, k.files) == staged + [Publish(stage, k.r.token)];
    } else {
      OneWrite(k, k.base, PutReservation(k.r));
      assert BeforePrepare(k.r, k.files) == [PutReservation(k.r)];
    }
  }

  /** The disk after n of the guarded steps, on which the clean-up finds exactly what it removes. */
  lemma BuiltPart(k: Txn, n: nat) returns (c: Disk)
    requires Begun(k) && n <= |BeforePrepare(k.r, k.files)|
    ensures c == Run(k.base, Building(k.r, k.files)[..n])
    ensures Unprepared(k, c) && !c.torn && c.log == k.base.log
    ensures Reaches(k, c, Cleanup(k.r, k.files, n), k.base)
  {
    var before := BeforePrepare(k.r, k.files);
    assert Building(k.r, k.files)[..n] == before[..n];
    ReservedInFlight(k);
    if n == 0 {
      c := k.base;
      assert before[..0] == [];
    } else if n == 1 {
      c := k.base.(reservation := Some(k.r));
      assert before[..1] == [PutReservation(k.r)];
      OneWrite(k, k.base, PutReservation(k.r));
      assert k.r.stage.Some? || ReadyDisk(k) == c;
    } else if n == |before| {
      c := ReadyDisk(k);
      BeforeReaches(k);
      assert before[..n] == before;
    } else {
      var stage := k.r.stage.value;
      c := StagingDisk(k, k.files[..n - 2]);
      StagingInFlight(k, k.files[..n - 2]);
      StagedReaches(k, k.files[..n - 2]);
      assert before[..n] == [PutReservation(k.r)] + ([MakeStage(stage)] + PutFiles(stage, k.files[..n - 2]));
    }
    if n > 0 {
      assert c != k.base && Unprepared(k, c) && !c.torn;
      DiscardReaches(k, c);
      assert DiscardPlan(c, k.r).writes == Cleanup(k.r, k.files, n);
    }
  }

  lemma BuildingReaches(k: Txn)
    requires Begun(k)
    ensures Reaches(k, k.base, Building(k.r, k.files), ReadyDisk(k))
  {
    BeforeReaches(k);
    ReservedInFlight(k);
    OneWrite(k, ReadyDisk(k), Inspect);
    Joins(k, k.base, BeforePrepare(k.r, k.files), ReadyDisk(k), [Inspect], ReadyDisk(k));
  }

  lemma BuildingAppendsNothing(r: Reservation, files: seq<File>)
    ensures forall w :: w in Building(r, files) ==> !w.AppendRecord?
  {
  }

  /** The writes of the selection on the base of a transaction. */
  function SelectWrites(k: Txn): seq<Write>
    requires Room(k)
  {
    [AppendRecord(PrepareOf(k))] + ([ReplaceCurrent(SelectionFor(k.r))] + ([AppendRecord(CommitOf(k))] + ([DropReservation] + [Inspect])))
  }

  lemma SelectPlanIs(k: Txn)
    requires Begun(k) && Room(k)
    ensures SelectPlan(k.base, k.r) == Plan(SelectWrites(k), None)
  {
    TransactionLog(k);
    assert SelectPlan(k.base, k.r).writes == SelectWrites(k);
  }

  /** The disk after each write of the selection. */
  function SelectDisk(k: Txn, n: nat): Disk
    requires Room(k)
  {
    var half := ReadyDisk(k).(log := k.base.log + [PrepareOf(k)]);
    var swapped := half.(current := Target(k).current);
    if n == 0 then ReadyDisk(k)
    else if n == 1 then half
    else if n == 2 then swapped
    else if n == 3 then swapped.(log := Target(k).log)
    else Target(k)
  }

  lemma SelectInFlight(k: Txn)
    requires Begun(k) && Room(k)
    ensures forall n :: 0 <= n <= 4 ==> InFlight(k, SelectDisk(k, n))
    ensures InFlight(k, SelectDisk(k, 0).(torn := true)) && InFlight(k, SelectDisk(k, 2).(torn := true))
    ensures SelectDisk(k, 3).(reservation := None) == Target(k)
  {
    ReservedInFlight(k);
    assert forall n :: 1 <= n <= 4 ==> Prepared(k, SelectDisk(k, n));
    assert Prepared(k, SelectDisk(k, 2).(torn := true));
    hide Unprepared, Prepared;
  }

  lemma SelectReaches(k: Txn)
    requires Begun(k) && Room(k)
    ensures Reaches(k, ReadyDisk(k), SelectWrites(k), Target(k))
  {
    SelectInFlight(k);
    assert SelectDisk(k, 0) == ReadyDisk(k);
    assert SelectDisk(k, 1) == ReadyDisk(k).(log := ReadyDisk(k).log + [PrepareOf(k)]);
    assert SelectDisk(k, 2) == SelectDisk(k, 1).(current := Some(SelectionFor(k.r)));
    assert SelectDisk(k, 3) == SelectDisk(k, 2).(log := SelectDisk(k, 2).log + [CommitOf(k)]);
    assert InFlight(k, SelectDisk(k, 1)) && InFlight(k, SelectDisk(k, 3)) && InFlight(k, SelectDisk(k, 4));
    hide Begun, InFlight, StaysInFlight, Run, SelectDisk, Target, ReadyDisk, PrepareOf, CommitOf;
    OneWrite(k, Target(k), Inspect);
    OneMore(k, SelectDisk(k, 3), DropReservation, [Inspect]);
    OneMore(k, SelectDisk(k, 2), AppendRecord(CommitOf(k)), [DropReservation] + [Inspect]);
    OneMore(k, SelectDisk(k, 1), ReplaceCurrent(SelectionFor(k.r)), [AppendRecord(CommitOf(k))] + ([DropReservation] + [Inspect]));
    OneMore(k, ReadyDisk(k), AppendRecord(PrepareOf(k)),
            [ReplaceCurrent(SelectionFor(k.r))] + ([AppendRecord(CommitOf(k))] + ([DropReservation] + [Inspect])));
  }

  lemma {:induction false} RunKeepsRecords(d: Disk, ws: seq<Write>)
    ensures |Run(d, ws).log| >= |d.log|
    decreases |ws|
  {
    if ws != [] { RunKeepsRecords(Apply(d, ws[0]), ws[1..]); }
  }

  /** The selection from the ready disk: it ends in the target or stops on a disk of the transaction, which
      is decided exactly when the first of its writes, the prepare record, was made. */
  lemma SelectEnds(k: Txn, b: Machine)
    requires Begun(k) && Room(k) && b.Running() && b.disk == ReadyDisk(k)
    ensures var m := Exec(b, SelectWrites(k));
            && InFlight(k, m.disk)
            && (m.Running() ==> m.disk == Target(k) && Decided(k, m.disk))
            && (m.alive && m.raising ==> (Decided(k, m.disk) <==> b.faults != [] && b.faults[0].after > 0))
  {
    hide Begun, StaysInFlight, InFlight;
    var ws := SelectWrites(k);
    SelectReaches(k);
    CrashStays(k, b, ws);
    ExecRunning(b, ws);
    if !Exec(b, ws).Running() {
      var n := ExecStopped(b, ws);
      if n == 0 {
        assert ws[..0] == [];
      } else {
        assert ws[..n][0] == AppendRecord(PrepareOf(k));
        RunKeepsRecords(Apply(b.disk, ws[0]), ws[..n][1..]);
      }
    }
  }

  /** A settled log is even, so room for the prepare is room for its commit. */
  lemma RoomForBoth(k: Txn)
    requires Begun(k)
    ensures Room(k) <==> |k.base.log| < MaxRecords
    ensures |StateOf(k.base.log).records| == |k.base.log|
  {
  }

  /** The number of steps of a transaction that meets no obstacle. */
  function StepsOf(k: Txn): nat {
    |Building(k.r, k.files)| + 5
  }

  /** What is known of a transaction however it ended. */
  ghost predicate EndsWell(k: Txn, m: Machine, e: Ended) {
    && InFlight(k, e.machine.disk)
    && (e.machine.alive && e.failure == None ==> Room(k) && e.machine.disk == Target(k))
    && (e.machine.Running() && e.failure != None ==> e.machine.disk == k.base)
    && (e.machine.alive && e.failure == None <==>
          Room(k) && StepsOf(k) <= m.budget && (m.faults == [] || StepsOf(k) <= m.faults[0].after))
    && (e.machine.alive && e.failure != None ==>
          (Decided(k, e.machine.disk) <==> Room(k) && m.faults != [] && m.faults[0].after > |Building(k.r, k.files)|))
  }

  /** The guarded steps stopped: by death, or by an exception that the clean-up answers. */
  lemma GuardEnds(k: Txn, m: Machine)
    requires Begun(k) && m.Running() && m.disk == k.base && !Exec(m, Building(k.r, k.files)).Running()
    ensures EndsWell(k, m, Transaction(m, k.r, k.files))
  {
    var ws := Building(k.r, k.files);
    var built := Exec(m, ws);
    hide Begun, BeforePrepare, StaysInFlight, InFlight, Target;
    BuildingReaches(k);
    CrashStays(k, m, ws);
    var n := ExecStopped(m, ws);
    BuildingAppendsNothing(k.r, k.files);
    assert ws[n] in ws;
    var c := BuiltPart(k, n);
    assert built.disk == c;
    ExecRunning(m, ws);
    var cleanup := Cleanup(k.r, k.files, n);
    if built.alive {
      CrashStays(k, Caught(built), cleanup);
      ExecRunning(Caught(built), cleanup);
      CleanupKeepsLog(k.r, k.files, n, Caught(built));
    } else {
      ExecRunning(built, SelectPlan(m.disk, k.r).writes);
      ExecRunning(built, Cleanup(k.r, k.files, |BeforePrepare(k.r, k.files)|));
    }
  }

  lemma CleanupKeepsLog(r: Reservation, files: seq<File>, n: nat, m: Machine)
    ensures Exec(m, Cleanup(r, files, n)).disk.log == m.disk.log
  {
    hide BeforePrepare;
    var ws := Cleanup(r, files, n);
    forall i | 0 <= i < |ws| ensures !ws[i].AppendRecord? {
      assert |ws| <= 2;
      assert i == 0 || i == 1;
    }
    LogGrows(m, ws);
  }

  /** However a transaction ends, its disk is one that recovery can finish; without obstacle it ends in
      the target; if it raises, it will take effect exactly when the prepare record was written, and
      otherwise, once the clean-up is through, nothing of it is left. */
  lemma TransactionEnds(k: Txn, m: Machine)
    requires Begun(k) && m.Running() && m.disk == k.base
    ensures EndsWell(k, m, Transaction(m, k.r, k.files))
  {
    var ws := Building(k.r, k.files);
    var built := Exec(m, ws);
    if !built.Running() {
      GuardEnds(k, m);
    } else {
      hide Begun, BeforePrepare, StaysInFlight, InFlight, Target, StateOf;
      RoomForBoth(k);
      BuildingReaches(k);
      ExecRunning(m, ws);
      if Room(k) {
        SelectPlanIs(k);
        SelectEnds(k, built);
        ExecRunning(built, SelectWrites(k));
      } else {
        var n := |BeforePrepare(k.r, k.files)|;
        var c := BuiltPart(k, n);
        ReadyIsBuilt(k);
        CrashStays(k, built, Cleanup(k.r, k.files, n));
        ExecRunning(built, Cleanup(k.r, k.files, n));
        CleanupKeepsLog(k.r, k.files, n, built);
      }
    }
  }

  lemma ReadyIsBuilt(k: Txn)
    requires Begun(k)
    ensures var before := BeforePrepare(k.r, k.files);
            Run(k.base, Building(k.r, k.files)[..|before|]) == ReadyDisk(k)
  {
    hide InFlight, StaysInFlight;
    BeforeReaches(k);
    assert Building(k.r, k.files)[..|BeforePrepare(k.r, k.files)|] == BeforePrepare(k.r, k.files);
  }
}
