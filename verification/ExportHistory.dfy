/** Whole histories of confirmations, each of which may fail or die anywhere. */
module ExportHistory {
  import opened SelectionLog
  import opened SelectionDisk
  import opened ExportSelection

  ghost predicate Reachable(c: Disk, input: string) {
    exists k: Txn :: k.input == input && InFlight(k, c)
  }

  /** What recovery makes of a disk. */
  ghost function Recovered(c: Disk, input: string): Disk {
    Run(c, RecoverPlan(c, input).writes)
  }

  function TxnFor(a: Disk, input: string, q: Request, tx: string): Txn {
    Txn(a, input, ReservationFor(a, input, q, tx), q.files)
  }

  /** The confirmation may go through on a recovered disk. */
  predicate Permits(a: Disk, q: Request) {
    Precheck(q) == None && Admission(a, q) == None && |a.log| + 1 < MaxRecords
  }

  /** The atomic operation: compare revision and selection, and set them. */
  function Confirmed(a: Disk, input: string, q: Request, tx: string): Disk
    requires Permits(a, q)
  {
    Target(TxnFor(a, input, q, tx))
  }

  lemma ReachableRecovers(c: Disk, input: string)
    requires Reachable(c, input)
    ensures RecoverPlan(c, input).failure == None
    ensures Settled(Recovered(c, input), input)
  {
    var k: Txn :| k.input == input && InFlight(k, c);
    RecoveryEnds(k, c);
    if Decided(k, c) { TargetSettled(k); }
  }

  lemma SettledIsReachable(d: Disk, input: string)
    requires Settled(d, input)
    ensures Reachable(d, input) && Recovered(d, input) == d
  {
    var created := "" !in d.bundles;
    var files := if created then [] else d.bundles[""];
    var r := Reservation(input, "", Revision(d.current), Selected(d.current), "", created,
                         if created then Some("") else None, OfFiles(files));
    var k := Txn(d, input, r, files);
    assert InFlight(k, d);
    RecoveryEnds(k, d);
  }

  /** Recovery may itself be cut short anywhere, by death or by an exception: what it leaves recovers to
      the same disk. */
  lemma RecoveryCanRestart(m: Machine, input: string)
    requires Reachable(m.disk, input)
    ensures var now := Exec(m, RecoverPlan(m.disk, input).writes);
            && Reachable(now.disk, input) && Recovered(now.disk, input) == Recovered(m.disk, input)
            && |now.disk.log| <= |Recovered(m.disk, input).log|
            && (now.Running() ==> now.disk == Recovered(m.disk, input))
  {
    var c := m.disk;
    var k: Txn :| k.input == input && InFlight(k, c);
    var ws := RecoverPlan(c, input).writes;
    RecoveryEnds(k, c);
    CrashStays(k, m, ws);
    RecoveryEnds(k, Exec(m, ws).disk);
    ExecRunning(m, ws);
    DecidedStays(k, c, m);
    NotLonger(k, Exec(m, ws).disk);
  }

  lemma NotLonger(k: Txn, c: Disk)
    requires InFlight(k, c)
    ensures |c.log| <= |Outcome(k, c).log|
  {
  }

  /** Recovery never decides an undecided transaction. */
  lemma DecidedStays(k: Txn, c: Disk, m: Machine)
    requires InFlight(k, c) && m.disk == c
    ensures Decided(k, Exec(m, RecoverPlan(c, k.input).writes).disk) == Decided(k, c)
  {
    var ws := RecoverPlan(c, k.input).writes;
    LogGrows(m, ws);
    if !Decided(k, c) {
      NotCommittedYet(k);
      assert forall i :: 0 <= i < |ws| ==> !ws[i].AppendRecord?;
    }
  }

  lemma AdmittedIsBegun(a: Disk, input: string, q: Request, tx: string)
    requires Settled(a, input) && Precheck(q) == None && Admission(a, q) == None
    ensures Begun(TxnFor(a, input, q, tx))
  {
  }

  /** A call, with the exceptions it meets, the steps it has before the process dies, and whether dying in
      an append leaves a part of the record. */
  datatype Call = Call(q: Request, tx: string, faults: seq<Fault>, budget: nat, tear: bool)

  function Start(c: Disk, call: Call): Machine {
    Machine(c, call.budget, call.tear, true, call.faults, false)
  }

  ghost function Executed(c: Disk, input: string, call: Call): Ended {
    Confirmation(Start(c, call), input, call.q, call.tx)
  }

  /** The call came back, and without raising. */
  ghost predicate Succeeded(c: Disk, input: string, call: Call) {
    Executed(c, input, call).machine.alive && Executed(c, input, call).failure == None
  }

  /** The caller got an exception. */
  ghost predicate Raised(c: Disk, input: string, call: Call) {
    Executed(c, input, call).machine.alive && Executed(c, input, call).failure != None
  }

  /** The disk has more records than recovery made of the disk before: the prepare record of this call is
      whole. */
  ghost predicate Grew(before: Disk, end: Disk) {
    |end.log| > |before.log|
  }

  /** The transaction from a recovered disk, however it ends: recovery finds the new disk exactly if the
      prepare record is whole, and otherwise the old one. */
  lemma TransactionIsAtomic(m: Machine, input: string, q: Request, tx: string)
    requires Settled(m.disk, input) && Precheck(q) == None && Admission(m.disk, q) == None && m.Running()
    ensures var e := Transaction(m, ReservationFor(m.disk, input, q, tx), q.files);
            && Reachable(e.machine.disk, input) && EndsWell(TxnFor(m.disk, input, q, tx), m, e)
            && (Grew(m.disk, e.machine.disk) ==> Permits(m.disk, q))
            && Recovered(e.machine.disk, input)
               == (if Grew(m.disk, e.machine.disk) then Confirmed(m.disk, input, q, tx) else m.disk)
  {
    var k := TxnFor(m.disk, input, q, tx);
    AdmittedIsBegun(m.disk, input, q, tx);
    TransactionEnds(k, m);
    var e := Transaction(m, k.r, q.files);
    RecoveryEnds(k, e.machine.disk);
    hide Transaction, Begun, StaysInFlight, RecoverPlan;
  }

  /** One confirmation, with any exceptions and any crash, is one atomic compare-and-set on what recovery
      would make of the disk: it happened entirely, exactly if its prepare record is whole on disk, or not
      at all. A call that came back without raising happened. */
  lemma ConfirmIsAtomic(c: Disk, input: string, call: Call)
    requires Reachable(c, input)
    ensures var end, before := Executed(c, input, call).machine.disk, Recovered(c, input);
            && Reachable(end, input)
            && (Grew(before, end) ==> Permits(before, call.q))
            && Recovered(end, input) == (if Grew(before, end) then Confirmed(before, input, call.q, call.tx) else before)
            && (Succeeded(c, input, call) ==> Grew(before, end) && end == Confirmed(before, input, call.q, call.tx))
  {
    var m := Start(c, call);
    var before := Recovered(c, input);
    ReachableRecovers(c, input);
    RecoveryCanRestart(m, input);
    StillShort(c, input);
    var now := Exec(m, RecoverPlan(c, input).writes);
    hide RecoverPlan, Exec, Transaction, Settled, Reachable, Recovered;
    if Precheck(call.q) == None && now.Running() && Admission(now.disk, call.q) == None {
      TransactionIsAtomic(now, input, call.q, call.tx);
    }
  }

  /** A disk has no more records than recovery makes of it. */
  lemma StillShort(c: Disk, input: string)
    requires Reachable(c, input)
    ensures |c.log| <= |Recovered(c, input).log|
  {
    var k: Txn :| k.input == input && InFlight(k, c);
    RecoveryEnds(k, c);
    NotLonger(k, c);
  }

  /** The steps a confirmation takes if it meets no obstacle. */
  ghost function StepsOfCall(c: Disk, input: string, call: Call): nat {
    |RecoverPlan(c, input).writes| + StepsOf(TxnFor(Recovered(c, input), input, call.q, call.tx))
  }

  /** The steps up to the append of the prepare record. */
  ghost function StepsToPrepare(c: Disk, input: string, call: Call): nat {
    var k := TxnFor(Recovered(c, input), input, call.q, call.tx);
    |RecoverPlan(c, input).writes| + |Building(k.r, k.files)|
  }

  /** On a disk any crash can leave, a confirmation succeeds exactly if the request is in order, revision
      and selection are the expected ones, the bundle is unchanged or within its quota, the log has room,
      and none of the steps of recovery and transaction raises or finds the process dead. */
  lemma ConfirmSucceedsIff(c: Disk, input: string, call: Call)
    requires Reachable(c, input)
    ensures var n := StepsOfCall(c, input, call);
            Succeeded(c, input, call) <==>
              Permits(Recovered(c, input), call.q) && n <= call.budget && (call.faults == [] || n <= call.faults[0].after)
  {
    CallEnds(c, input, call);
  }

  /** A confirmation that raised took effect exactly if it was permitted and the exception came later than
      the append of its prepare record; this is also when the log grew. */
  lemma RaisedTookEffectIff(c: Disk, input: string, call: Call)
    requires Reachable(c, input) && Raised(c, input, call)
    ensures var before, end := Recovered(c, input), Executed(c, input, call).machine.disk;
            && (Recovered(end, input) != before <==> Grew(before, end))
            && (Recovered(end, input) != before <==>
                  Permits(before, call.q) && call.faults != [] && call.faults[0].after > StepsToPrepare(c, input, call))
  {
    ConfirmIsAtomic(c, input, call);
    CallEnds(c, input, call);
    hide Executed, Raised, Succeeded, StepsToPrepare, Recovered, Reachable;
  }

  /** Success and effect of a call in terms of where the first exception and the death come. */
  lemma CallEnds(c: Disk, input: string, call: Call)
    requires Reachable(c, input)
    ensures var before, end := Recovered(c, input), Executed(c, input, call).machine.disk;
            var n := StepsOfCall(c, input, call);
            && (Succeeded(c, input, call) <==>
                  Permits(before, call.q) && n <= call.budget && (call.faults == [] || n <= call.faults[0].after))
            && (Raised(c, input, call) ==>
                  (Grew(before, end) <==>
                     Permits(before, call.q) && call.faults != [] && call.faults[0].after > StepsToPrepare(c, input, call)))
  {
    hide RecoverPlan, Exec, Transaction, Settled, Reachable, Recovered, Building, EndsWell, Confirmed, Target;
    var before := Recovered(c, input);
    ReachableRecovers(c, input);
    RecoveryCanRestart(Start(c, call), input);
    CallAfterRecovery(c, input, call);
    StillShort(c, input);
    var now := AfterRecovery(c, input, call);
    if now.Running() && Precheck(call.q) == None && Admission(before, call.q) == None {
      TransactionIsAtomic(now, input, call.q, call.tx);
      EndsInSteps(TxnFor(before, input, call.q, call.tx), now, Executed(c, input, call));
    }
  }

  /** Every confirmation that could succeed has a run in which it raises and still takes effect: the
      exception comes right after the append of the prepare record. */
  lemma RaisedMayTakeEffect(a: Disk, input: string, q: Request, tx: string) returns (call: Call)
    requires Settled(a, input) && Permits(a, q)
    ensures call.q == q && call.tx == tx && Raised(a, input, call)
    ensures Recovered(Executed(a, input, call).machine.disk, input) == Confirmed(a, input, q, tx)
  {
    var k := TxnFor(a, input, q, tx);
    var n := |Building(k.r, k.files)|;
    call := Call(q, tx, [Fault(n + 1, false)], n + 5, false);
    SettledIsReachable(a, input);
    NothingToRecover(a, input);
    var m := Start(a, call);
    AdmittedIsBegun(a, input, q, tx);
    SelectPlanIs(k);
    ExecRunning(m, Building(k.r, k.files));
    var built := Exec(m, Building(k.r, k.files));
    ExecSurvives(built, SelectWrites(k));
    assert Executed(a, input, call) == Transaction(m, k.r, k.files);
    assert Executed(a, input, call).machine.alive;
    CallEnds(a, input, call);
    RaisedTookEffectIff(a, input, call);
    ConfirmIsAtomic(a, input, call);
  }

  lemma NothingToRecover(a: Disk, input: string)
    requires Settled(a, input)
    ensures RecoverPlan(a, input) == Plan([], None)
  {
  }

  lemma {:induction false} ExecSurvives(m: Machine, ws: seq<Write>)
    requires m.alive && |ws| <= m.budget
    ensures Exec(m, ws).alive
    decreases |ws|
  {
    if ws != [] {
      var next := Attempt(m, ws[0]);
      if next.raising { ExecRunning(next, ws[1..]); } else { ExecSurvives(next, ws[1..]); }
    }
  }

  ghost function AfterRecovery(c: Disk, input: string, call: Call): Machine {
    Exec(Start(c, call), RecoverPlan(c, input).writes)
  }

  /** A call up to the end of recovery. */
  lemma CallAfterRecovery(c: Disk, input: string, call: Call)
    requires Reachable(c, input)
    ensures var now, n := AfterRecovery(c, input, call), |RecoverPlan(c, input).writes|;
            && (now.Running() <==> n <= call.budget && (call.faults == [] || n <= call.faults[0].after))
            && (now.Running() ==> now.disk == Recovered(c, input) && now.budget == call.budget - n && now.faults == Spent(call.faults, n))
            && (!now.Running() && now.alive ==> call.faults != [] && call.faults[0].after < n)
            && Executed(c, input, call)
               == (if Precheck(call.q).Some? then Ended(Start(c, call), Precheck(call.q))
                   else if !now.Running() then Ended(now, Some(WriteFailed))
                   else if Admission(now.disk, call.q).Some? then Ended(now, Admission(now.disk, call.q))
                   else Transaction(now, ReservationFor(now.disk, input, call.q, call.tx), call.q.files))
  {
    ReachableRecovers(c, input);
    var m, ws := Start(c, call), RecoverPlan(c, input).writes;
    ExecRunning(m, ws);
    if !Exec(m, ws).Running() { var k := ExecStopped(m, ws); }
    hide RecoverPlan, Exec, Transaction, Reachable, Admission;
  }

  lemma EndsInSteps(k: Txn, m: Machine, e: Ended)
    requires EndsWell(k, m, e)
    ensures e.machine.alive && e.failure == None <==>
              Room(k) && StepsOf(k) <= m.budget && (m.faults == [] || StepsOf(k) <= m.faults[0].after)
    ensures e.machine.alive && e.failure != None ==>
              (Grew(k.base, e.machine.disk) <==> Room(k) && m.faults != [] && m.faults[0].after > |Building(k.r, k.files)|)
  {
    hide InFlight, Target, Building;
  }

  // ---- histories ------------------------------------------------------------------------

  /** The disk after the first n calls. */
  ghost function After(c: Disk, input: string, calls: seq<Call>, n: nat): Disk
    requires n <= |calls|
  {
    if n == 0 then c else Executed(After(c, input, calls, n - 1), input, calls[n - 1]).machine.disk
  }

  /** What the register holds between calls: what recovery makes of the disk. */
  ghost function Register(c: Disk, input: string, calls: seq<Call>, n: nat): Disk
    requires n <= |calls|
  {
    Recovered(After(c, input, calls, n), input)
  }

  /** Call i changed the register. */
  ghost predicate Took(c: Disk, input: string, calls: seq<Call>, i: nat)
    requires i < |calls|
  {
    Register(c, input, calls, i + 1) != Register(c, input, calls, i)
  }

  ghost function TookCount(c: Disk, input: string, calls: seq<Call>, n: nat): nat
    requires n <= |calls|
  {
    if n == 0 then 0 else TookCount(c, input, calls, n - 1) + if Took(c, input, calls, n - 1) then 1 else 0
  }

  lemma {:induction false} HistoryReachable(c: Disk, input: string, calls: seq<Call>, n: nat)
    requires n <= |calls| && Reachable(c, input)
    ensures Reachable(After(c, input, calls, n), input)
  {
    hide Executed, Reachable, Recovered, Confirmed, Permits, Succeeded, Grew;
    if n > 0 {
      HistoryReachable(c, input, calls, n - 1);
      ConfirmIsAtomic(After(c, input, calls, n - 1), input, calls[n - 1]);
    }
  }

  /** Every call of a history acts on the register as one compare-and-set on revision and selection. */
  lemma HistoryStep(c: Disk, input: string, calls: seq<Call>, i: nat)
    requires i < |calls| && Reachable(c, input)
    ensures var call, before := calls[i], Register(c, input, calls, i);
            var after := Register(c, input, calls, i + 1);
            && (Took(c, input, calls, i) ==>
                  && Revision(before.current) == call.q.expectedRevision
                  && Selected(before.current) == call.q.expectedSelected
                  && Revision(after.current) == Revision(before.current) + 1
                  && Selected(after.current) == Some(call.q.token)
                  && after.bundles == before.bundles[call.q.token := call.q.files]
                  && |after.log| == |before.log| + 2)
            && (Took(c, input, calls, i) <==> Grew(before, After(c, input, calls, i + 1)))
            && (Succeeded(After(c, input, calls, i), input, call) ==> Took(c, input, calls, i))
  {
    HistoryReachable(c, input, calls, i);
    ConfirmIsAtomic(After(c, input, calls, i), input, calls[i]);
    hide Recovered, Executed;
    var before := Register(c, input, calls, i);
    if Permits(before, calls[i].q) {
      assert |Confirmed(before, input, calls[i].q, calls[i].tx).log| == |before.log| + 2;
    }
  }

  /** The revision counts the calls that took effect. */
  lemma {:induction false} RevisionCounts(c: Disk, input: string, calls: seq<Call>, n: nat)
    requires n <= |calls| && Reachable(c, input)
    ensures Revision(Register(c, input, calls, n).current)
            == Revision(Register(c, input, calls, 0).current) + TookCount(c, input, calls, n)
  {
    hide After, Register, Reachable, Executed, Succeeded, Raised, Recovered, Selected;
    if n > 0 {
      RevisionCounts(c, input, calls, n - 1);
      HistoryStep(c, input, calls, n - 1);
    }
  }

  lemma {:induction false} TookCountMonotone(c: Disk, input: string, calls: seq<Call>, i: nat, j: nat)
    requires i <= j <= |calls|
    ensures TookCount(c, input, calls, i) <= TookCount(c, input, calls, j)
    decreases j
  {
    hide Took;
    if i < j { TookCountMonotone(c, input, calls, i, j - 1); }
  }

  /** Of all confirmations expecting one revision, at most one takes effect, crashes or not. */
  lemma AtMostOnePerRevision(c: Disk, input: string, calls: seq<Call>, i: nat, j: nat)
    requires i < j < |calls| && Reachable(c, input)
    requires Took(c, input, calls, i) && Took(c, input, calls, j)
    ensures calls[i].q.expectedRevision < calls[j].q.expectedRevision
  {
    hide Took, Register, After, Reachable, Executed, Succeeded, Raised, Recovered, Selected;
    HistoryStep(c, input, calls, i);
    HistoryStep(c, input, calls, j);
    RevisionCounts(c, input, calls, i);
    RevisionCounts(c, input, calls, j);
    TookCountMonotone(c, input, calls, i + 1, j);
  }

  // ---- readers -----------------------------------------------------------------------------

  /** A reader raises exactly while a prepare is open; otherwise it returns the committed selection, which
      is also the one recovery would leave. Reading changes nothing that recovery could tell. */
  lemma ReaderSeesCommitted(c: Disk, input: string)
    requires Reachable(c, input)
    ensures ReadSelection(c, input).Some? <==> StateOf(c.log).pending.None?
    ensures ReadSelection(c, input).Some? ==>
              && ReadSelection(c, input).value == c.current == Recovered(c, input).current
              && Matches(c.current, CommittedOf(c.log))
    ensures Reachable(AfterRead(c, input), input)
    ensures Recovered(AfterRead(c, input), input) == Recovered(c, input)
  {
    var k: Txn :| k.input == input && InFlight(k, c);
    var cut := c.(torn := false);
    CutKeeps(k, c);
    LogInFlight(k, c);
    ReadCuts(c, input);
    hide LogAccepted, StateOf, InFlight, Matches, StaysInFlight, Run, RecoverPlan, AfterRead;
    RecoveryEnds(k, c);
    RecoveryEnds(k, cut);
  }

  lemma ReadCuts(c: Disk, input: string)
    requires LogAccepted(c.log, input)
    ensures AfterRead(c, input) == c.(torn := false)
  {
    assert [CutTail][1..] == [];
    assert !c.torn ==> c == c.(torn := false);
  }

  /** The log of a disk in flight: accepted, and what it committed is what the disk selects unless a
      prepare is open. */
  lemma LogInFlight(k: Txn, c: Disk)
    requires InFlight(k, c)
    ensures LogAccepted(c.log, k.input) && ValidCurrent(c.current, k.input)
    ensures StateOf(c.log).committed == CommittedOf(c.log)
    ensures StateOf(c.log).pending.None? ==>
              Matches(c.current, CommittedOf(c.log)) && c.current == Outcome(k, c).current
  {
    NotCommittedYet(k);
    if Room(k) { TransactionLog(k); }
  }
}
