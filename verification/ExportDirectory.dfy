/** The export directory as the program changes it: each durable step may raise, or be the process's last. */
module ExportDirectory {
  import opened SelectionLog
  import opened SelectionDisk
  import opened ExportSelection

  class Directory {
    const input: string
    var reservation: Option<Reservation>
    var stages: map<string, seq<File>>
    var bundles: map<string, seq<File>>
    var log: seq<Record>
    var torn: bool
    var current: Option<Selection>
    // The process: steps left before it dies, whether dying in an append leaves a part of the record, the
    // exceptions to come, and whether one is on its way out.
    var budget: nat
    var tear: bool
    var alive: bool
    var faults: seq<Fault>
    var raising: bool

    function View(): Disk
      reads this
    {
      Disk(reservation, stages, bundles, log, torn, current)
    }

    function Process(): Machine
      reads this
    {
      Machine(View(), budget, tear, alive, faults, raising)
    }

    predicate Running()
      reads this
    {
      alive && !raising
    }

    constructor (input: string, budget: nat, tear: bool, faults: seq<Fault>)
      ensures this.input == input
      ensures Process() == Machine(Disk(None, map[], map[], [], false, None), budget, tear, true, faults, false)
      ensures Settled(View(), input)
    {
      this.input, this.budget, this.tear, this.faults, alive, raising := input, budget, tear, faults, true, false;
      reservation, stages, bundles, log, torn, current := None, map[], map[], [], false, None;
    }

    /** One durable step, unless the process is stopped, dies instead, or the step raises. */
    method Do(w: Write)
      modifies this
      ensures Process() == Attempt(old(Process()), w)
    {
      if !Running() { return; }
      if budget == 0 {
        alive := false;
        if w.AppendRecord? && tear { torn := true; }
        return;
      }
      if faults != [] && faults[0].after == 0 {
        raising := true;
        if w.AppendRecord? && faults[0].part { torn := true; }
        faults := faults[1..];
        return;
      }
      budget, faults := budget - 1, Spent(faults, 1);
      Put(w);
    }

    /** The write itself. */
    method Put(w: Write)
      modifies `reservation, `stages, `bundles, `log, `torn, `current
      ensures View() == Apply(old(View()), w)
    {
      match w
      case PutReservation(r) => reservation := Some(r);
      case MakeStage(s) => stages := stages[s := []];
      case PutFile(s, f) => if s in stages { stages := stages[s := stages[s] + [f]]; }
      case Publish(s, t) => if s in stages { bundles, stages := bundles[t := stages[s]], stages - {s}; }
      case AppendRecord(r) => log := log + [r];
      case ReplaceCurrent(s) => current := Some(s);
      case DropReservation => reservation := None;
      case DropStage(s) => stages := stages - {s};
      case DropBundle(t) => bundles := bundles - {t};
      case CutTail => torn := false;
      case Inspect =>
    }

    /** `_SelectionAnchorFile.read` */
    method ReadLog() returns (r: Result<State>)
      modifies this
      ensures Process() == Exec(old(Process()), if LogAccepted(old(log), input) then Cut(old(View())) else [])
      ensures r.Ok? <==> LogAccepted(old(log), input)
      ensures r.Ok? ==> r.value == StateOf(old(log))
    {
      var lines := seq(|log|, i requires 0 <= i < |log| reads this => Some(log[i]));
      assert Decoded(lines) && Values(lines) == log;
      r := ValidateLog(lines, input);
      if r.Ok? && torn {
        ExecOne(Process(), CutTail);
        Do(CutTail);
      }
    }

    /** `_read_consistent_selection` */
    method ReadConsistent() returns (r: Option<Option<Selection>>)
      modifies this
      ensures Process() == Exec(old(Process()), if LogAccepted(old(log), input) then Cut(old(View())) else [])
      ensures r == ReadSelection(old(View()), input)
    {
      var read := ReadLog();
      CutKeepsRest(old(Process()));
      if read.Err? || !ValidCurrent(current, input) { return None; }
      if read.value.pending.Some? { return None; }
      if read.value.committed.None? {
        r := if Revision(current) != 0 then None else Some(current);
      } else {
        r := if !Matches(current, read.value.committed) then None else Some(current);
      }
    }

    /** Append the commit of the open prepare, read it back, and drop the reservation. */
    method CommitAndRelease(s: State, commit: Record) returns (failure: Option<Failure>, after: State)
      requires Running() && LogAccepted(log, input) && s == StateOf(log) && s.pending.Some? && !torn
      requires CommitRecord(s, s.pending.value) == Some(commit)
      requires Matches(current, Some(s.pending.value.body.target))
      modifies this
      ensures Process() == Exec(old(Process()), [AppendRecord(commit), DropReservation])
      ensures Running() ==> failure == None
      ensures failure == None ==> Running() && Recovered(after)
    {
      ghost var m := Process();
      var target := s.pending.value.body.target;
      CommitKeepsLog(log, input);
      ExecTwo(m, AppendRecord(commit), DropReservation);
      Do(AppendRecord(commit));
      if !Running() { return Some(WriteFailed), s; }
      var again := ReadLog();
      if again.Err? || again.value.pending.Some? || again.value.committed != Some(target) {
        return Some(LogInvalid), s;
      }
      Do(DropReservation);
      failure, after := if Running() then None else Some(WriteFailed), again.value;
    }

    /** What a successful recovery hands on. */
    ghost predicate Recovered(s: State)
      reads this
    {
      LogAccepted(log, input) && s == StateOf(log) && s.pending == None && Matches(current, s.committed) && !torn
    }

    /** Forward recovery of an open prepare. */
    method Redo(s: State) returns (failure: Option<Failure>, after: State)
      requires Running() && LogAccepted(log, input) && s == StateOf(log) && s.pending.Some? && !torn
      modifies this
      ensures Process() == Exec(old(Process()), RedoPlan(old(View()), s, s.pending.value).writes)
      ensures Running() ==> failure == RedoPlan(old(View()), s, s.pending.value).failure
      ensures Running() && failure == None ==> Recovered(after)
    {
      var p := s.pending.value;
      var target := p.body.target;
      ghost var m := Process();
      if reservation.None? || reservation.value.tx != p.body.tx || OfReservation(reservation.value) != p.body.reservation {
        return Some(ReservationLost), s;
      }
      if !Transition(reservation.value, s.committed, target, View()) { return Some(TransitionInvalid), s; }
      TargetMatches(log, input);
      CommitKeepsLog(log, input);
      var commit := CommitRecord(s, p);
      ghost var swap := [ReplaceCurrent(target.selection)];
      ghost var rest := [AppendRecord(commit.value), DropReservation];
      ghost var plan := RedoPlan(m.disk, s, p);
      assert plan.writes == (if Matches(current, s.committed) then swap + rest
                             else if Matches(current, Some(target)) then rest else []);
      ExecOne(m, ReplaceCurrent(target.selection));
      DeadStays(m, swap, rest);
      ExecJoins(m, swap, rest);
      hide Exec, RedoPlan, Chained, StateOf, CommitRecord, Transition;
      if Matches(current, s.committed) {
        Do(ReplaceCurrent(target.selection));
        if !Running() { return Some(WriteFailed), s; }
      }
      if !Matches(current, Some(target)) { return Some(NeitherBaseNorTarget), s; }
      if commit.None? { return Some(LogFull), s; }
      failure, after := CommitAndRelease(s, commit.value);
    }

    /** `_discard_unprepared_reservation` */
    method Discard(r: Reservation) returns (failure: Option<Failure>)
      modifies this
      ensures Process() == Exec(old(Process()), DiscardPlan(old(View()), r).writes)
      ensures old(Running()) ==> failure == DiscardPlan(old(View()), r).failure
      ensures log == old(log) && current == old(current) && torn == old(torn)
    {
      ghost var m := Process();
      if r.expectedRevision != Revision(current) || r.expectedSelected != Selected(current) {
        return Some(NotBasedOnCurrent);
      }
      var staged := r.stage.Some? && r.stage.value in stages;
      var created := r.created && Selected(current) != Some(r.token) && r.token in bundles;
      var changed := created && OfFiles(bundles[r.token]) != r.integrity;
      ghost var stage := if staged then [DropStage(r.stage.value)] else [];
      ghost var rest := if changed then [] else if created then [DropBundle(r.token)] + [DropReservation] else [DropReservation];
      assert DiscardPlan(m.disk, r) == Plan(stage + rest, if changed then Some(BundleChanged) else None);
      ExecJoins(m, stage, rest);
      hide Exec, Attempt, Apply, DiscardPlan, Selected, Revision;
      if staged {
        ExecOne(m, DropStage(r.stage.value));
        DropKeeps(m, DropStage(r.stage.value));
        Do(DropStage(r.stage.value));
      } else {
        ExecNone(m);
      }
      if changed {
        ExecNone(Process());
        return Some(BundleChanged);
      }
      ExecTwo(Process(), DropBundle(r.token), DropReservation);
      ExecOne(Process(), DropReservation);
      if created {
        DropKeeps(Process(), DropBundle(r.token));
        Do(DropBundle(r.token));
      }
      DropKeeps(Process(), DropReservation);
      Do(DropReservation);
      failure := None;
    }

    /** Nothing is open: finish or discard what a reservation left behind. */
    method Tidy(s: State) returns (failure: Option<Failure>)
      requires LogAccepted(log, input) && s == StateOf(log) && s.pending.None? && (Running() ==> !torn)
      modifies this
      ensures Process() == Exec(old(Process()), TidyPlan(old(View()), s).writes)
      ensures old(Running()) ==> failure == TidyPlan(old(View()), s).failure
      ensures Running() && failure == None ==> Recovered(s)
    {
      ghost var m := Process();
      hide DiscardPlan, Transition, LogAccepted, StateOf;
      if !Matches(current, s.committed) { return Some(NotAnchored); }
      if reservation.None? { return None; }
      var r := reservation.value;
      if s.committedTx == Some(r.tx) && s.committedReservation == Some(OfReservation(r)) {
        if |s.records| < 2 || s.committed.None?
           || !Transition(r, BaseOf(s.records[|s.records| - 2].body), s.committed.value, View()) {
          return Some(TransitionInvalid);
        }
        ExecOne(m, DropReservation);
        Do(DropReservation);
        failure := None;
      } else {
        ExecRunning(m, DiscardPlan(m.disk, r).writes);
        failure := Discard(r);
      }
    }

    /** `_recover_selection_axis` */
    method Recover() returns (failure: Option<Failure>, s: State)
      requires Running()
      modifies this
      ensures Process() == Exec(old(Process()), RecoverPlan(old(View()), input).writes)
      ensures Running() ==> failure == RecoverPlan(old(View()), input).failure
      ensures Running() && failure == None ==> Recovered(s)
    {
      ghost var m := Process();
      var read := ReadLog();
      s := State([], None, None, Zero, None, None);
      if read.Err? { return Some(LogInvalid), s; }
      s := read.value;
      ghost var plan := RecoverPlan(m.disk, input);
      if !ValidCurrent(current, input) || !ValidReservation(reservation, input) {
        return Some(FileInvalid), s;
      }
      ghost var cut := Cut(m.disk);
      ghost var rest := if s.pending.Some? then RedoPlan(m.disk, s, s.pending.value) else TidyPlan(m.disk, s);
      assert plan == Plan(cut + rest.writes, rest.failure);
      DeadStays(m, cut, rest.writes);
      ExecJoins(m, cut, rest.writes);
      ExecRunning(m, cut);
      CutOnlyCuts(m.disk, s);
      if !Running() { return Some(WriteFailed), s; }
      hide Exec, RecoverPlan, RedoPlan, TidyPlan, LogAccepted;
      if s.pending.Some? {
        failure, s := Redo(s);
      } else {
        failure := Tidy(s);
      }
    }

    /** Stage the files and publish the bundle: the guarded steps from the second on. */
    method Stage(stage: string, r: Reservation, files: seq<File>, ghost m: Machine) returns (n: nat)
      requires Running() && r.stage == Some(stage)
      requires Process() == Exec(m, Building(r, files)[..1])
      modifies this
      ensures 1 <= n <= |files| + 3
      ensures Running() ==> n == |files| + 3 && Process() == Exec(m, Building(r, files)[..n])
      ensures !Running() ==> Process() == Exec(m, Building(r, files)) && (raising ==> n == FirstFault(m))
      ensures !Running() ==> n < |files| + 3
    {
      ghost var steps := Building(r, files);
      BuildingAt(r, files);
      hide Exec, Attempt, Apply, BeforePrepare, Building, FirstFault, View;
      n := 1;
      StepOn(m, steps, n);
      Do(MakeStage(stage));
      if !Running() { return; }
      n := 2;
      while n < |files| + 2
        invariant 2 <= n <= |files| + 2 && Running()
        invariant Process() == Exec(m, steps[..n])
      {
        StepOn(m, steps, n);
        Do(PutFile(stage, files[n - 2]));
        if !Running() { return; }
        n := n + 1;
      }
      StepOn(m, steps, n);
      Do(Publish(stage, r.token));
      if Running() { n := n + 1; }
    }

    /** Reserve, stage the files, publish the bundle and check it; n counts the writes that were made. */
    method Build(r: Reservation, files: seq<File>) returns (n: nat, staged: bool, published: bool)
      requires Running()
      modifies this
      ensures Process() == Exec(old(Process()), Building(r, files))
      ensures n <= |BeforePrepare(r, files)|
      ensures raising ==> n == FirstFault(old(Process()))
      ensures Running() ==> n == |BeforePrepare(r, files)|
      ensures staged <==> r.stage.Some? && 2 <= n < |BeforePrepare(r, files)|
      ensures published <==> r.stage.Some? && n == |BeforePrepare(r, files)|
    {
      ghost var steps := Building(r, files);
      ghost var m := Process();
      n, staged, published := 0, false, false;
      BuildingAt(r, files);
      hide Exec, Attempt, Apply, BeforePrepare, Building, FirstFault, View;
      ExecNone(m);
      assert steps[..0] == [];
      StepOn(m, steps, 0);
      Do(PutReservation(r));
      if !Running() { return; }
      n := 1;
      if r.stage.Some? {
        n := Stage(r.stage.value, r, files, m);
        staged, published := 2 <= n < |files| + 3, n == |files| + 3;
        if !Running() { return; }
      }
      StepOn(m, steps, n);
      assert steps[..n + 1] == steps;
      Do(Inspect);
    }

    /** The exception handler, before the prepare was begun. */
    method Undo(r: Reservation, ghost files: seq<File>, n: nat, staged: bool, published: bool)
      requires n <= |BeforePrepare(r, files)|
      requires staged <==> r.stage.Some? && 2 <= n < |BeforePrepare(r, files)|
      requires published <==> r.stage.Some? && n == |BeforePrepare(r, files)|
      modifies this
      ensures Process() == Exec(old(Process()), Cleanup(r, files, n))
    {
      ghost var m := Process();
      if n == 0 { return; }
      if staged {
        ExecTwo(m, DropStage(r.stage.value), DropReservation);
        Do(DropStage(r.stage.value));
      } else if published {
        ExecTwo(m, DropBundle(r.token), DropReservation);
        Do(DropBundle(r.token));
      } else {
        ExecOne(m, DropReservation);
      }
      Do(DropReservation);
    }

    /** Prepare, replace the selection, read the log back, commit, release, check; no exception is handled. */
    method Select(r: Reservation, s: State, prepare: Record, ghost d: Disk) returns (failure: Option<Failure>)
      requires Running() && Recovered(s) && |s.records| + 1 < MaxRecords && d.log == s.records
      requires prepare == PrepareRecord(s, SelectionFor(r), r).value && LogAccepted(s.records + [prepare], input)
      modifies this
      ensures Process() == Exec(old(Process()), SelectPlan(d, r).writes)
      ensures Running() ==> failure == None == SelectPlan(d, r).failure
      ensures SelectPlan(d, r).writes != []
    {
      ghost var m := Process();
      var target := SelectionFor(r);
      var commit := CommitRecord(StateOf(s.records + [prepare]), prepare);
      SelectStates(s, r, prepare, input);
      ExecFive(m, AppendRecord(prepare), ReplaceCurrent(target), AppendRecord(commit.value), DropReservation, Inspect);
      SelectPlanShape(d, r, s, prepare, commit.value);
      hide Exec, SelectPlan, Chained;
      Do(AppendRecord(prepare));
      Do(ReplaceCurrent(target));
      if !Running() { return Some(WriteFailed); }
      assert log == s.records + [prepare];
      var prepared := ReadLog();
      if prepared.Err? || prepared.value.pending.None? || prepared.value.pending.value.seal != prepare.seal {
        return Some(LogInvalid);
      }
      if !Matches(current, Some(prepared.value.pending.value.body.target)) { return Some(NeitherBaseNorTarget); }
      commit := CommitRecord(prepared.value, prepare);
      if commit.None? { return Some(LogFull); }
      Do(AppendRecord(commit.value));
      Do(DropReservation);
      Do(Inspect);
      failure := if Running() then None else Some(WriteFailed);
    }

    /** The locked part of `confirm_export`, after recovery. */
    method Transact(q: Request, tx: string, s: State) returns (failure: Option<Failure>)
      requires Running() && Recovered(s) && Precheck(q) == None && Admission(View(), q) == None
      modifies this
      ensures var e := Transaction(old(Process()), ReservationFor(old(View()), input, q, tx), q.files);
              Process() == e.machine && (alive ==> failure == e.failure)
    {
      ghost var m := Process();
      var r := ReservationFor(View(), input, q, tx);
      var prepare := PrepareRecord(s, SelectionFor(r), r);
      if prepare.Some? { AdmittedPrepare(View(), q, tx, s, input); }
      BuildingKeepsLog(m, r, q.files);
      NoPrepareNoPlan(m.disk, r, s);
      var n, staged, published := Build(r, q.files);
      ghost var built := Process();
      StoppedNow(built, Cleanup(r, q.files, |BeforePrepare(r, q.files)|));
      StoppedNow(built, SelectPlan(m.disk, r).writes);
      hide Exec, SelectPlan, Cleanup, Building, BeforePrepare;
      if raising {
        raising := false;
        Undo(r, q.files, n, staged, published);
        return Some(WriteFailed);
      }
      if !alive { return Some(WriteFailed); }
      if prepare.None? {
        Undo(r, q.files, n, staged, published);
        return Some(LogFull);
      }
      failure := Select(r, s, prepare.value, m.disk);
      if raising { failure := Some(WriteFailed); }
    }

    /** `confirm_export` */
    method Confirm(q: Request, tx: string) returns (failure: Option<Failure>)
      requires Running()
      modifies this
      ensures var e := Confirmation(old(Process()), input, q, tx);
              Process() == e.machine && (alive ==> failure == e.failure)
    {
      if Precheck(q).Some? { return Precheck(q); }
      hide RecoverPlan, Exec, Transaction;
      var recovered, s := Recover();
      if !Running() { return Some(WriteFailed); }
      if recovered.Some? { return recovered; }
      var refused := Admission(View(), q);
      if refused.Some? { return refused; }
      failure := Transact(q, tx, s);
    }
  }

  lemma SelectStates(s: State, r: Reservation, prepare: Record, input: string)
    requires s == StateOf(s.records) && s.pending == None && |s.records| + 1 < MaxRecords
    requires prepare == PrepareRecord(s, SelectionFor(r), r).value && LogAccepted(s.records + [prepare], input)
    ensures StateOf(s.records + [prepare]).pending == Some(prepare)
    ensures CommitRecord(StateOf(s.records + [prepare]), prepare).Some?
    ensures Matches(Some(SelectionFor(r)), Some(prepare.body.target))
  {
    StateExtends(s.records, prepare);
  }

  /** The admitted request makes a prepare the log accepts. */
  lemma AdmittedPrepare(d: Disk, q: Request, tx: string, s: State, input: string)
    requires LogAccepted(d.log, input) && s == StateOf(d.log) && s.pending == None && Matches(d.current, s.committed)
    requires Precheck(q) == None && Admission(d, q) == None && |d.log| < MaxRecords
    ensures var r := ReservationFor(d, input, q, tx);
            LogAccepted(d.log + [PrepareRecord(s, SelectionFor(r), r).value], input)
    ensures |d.log| + 1 < MaxRecords
  {
    var r := ReservationFor(d, input, q, tx);
    LogShape(d.log, input);
    if |d.log| >= 2 { CommittedIsValid(d.log, input); }
    PrepareKeepsLog(d.log, SelectionFor(r), r, input);
  }

  lemma SelectPlanShape(d: Disk, r: Reservation, s: State, prepare: Record, commit: Record)
    requires s == StateOf(d.log) && s.records == d.log && PrepareRecord(s, SelectionFor(r), r) == Some(prepare)
    requires CommitRecord(StateOf(s.records + [prepare]), prepare) == Some(commit)
    ensures SelectPlan(d, r)
            == Plan([AppendRecord(prepare), ReplaceCurrent(SelectionFor(r)), AppendRecord(commit), DropReservation, Inspect], None)
  {
  }

  lemma NoPrepareNoPlan(d: Disk, r: Reservation, s: State)
    requires s == StateOf(d.log)
    ensures PrepareRecord(s, SelectionFor(r), r).None? <==> SelectPlan(d, r).writes == []
    ensures SelectPlan(d, r).writes == [] ==> SelectPlan(d, r).failure == Some(LogFull)
  {
  }

  /** Nothing happens in a process that is stopped. */
  lemma StoppedNow(m: Machine, ws: seq<Write>)
    ensures !m.Running() ==> Exec(m, ws) == m
  {
    ExecRunning(m, ws);
  }

  /** Building a bundle leaves log, selection and tail alone. */
  lemma BuildingKeepsLog(m: Machine, r: Reservation, files: seq<File>)
    ensures var d := Exec(m, Building(r, files)).disk;
            d.log == m.disk.log && d.current == m.disk.current && d.torn == m.disk.torn
  {
    var ws := Building(r, files);
    assert forall i :: 0 <= i < |ws| ==> BuildsOnly(ws[i]);
    BuildersKeepLog(m, ws);
  }

  predicate BuildsOnly(w: Write) {
    w.PutReservation? || w.MakeStage? || w.PutFile? || w.Publish? || w.Inspect?
  }

  lemma {:induction false} BuildersKeepLog(m: Machine, ws: seq<Write>)
    requires forall i :: 0 <= i < |ws| ==> BuildsOnly(ws[i])
    ensures var d := Exec(m, ws).disk;
            d.log == m.disk.log && d.current == m.disk.current && d.torn == m.disk.torn
    decreases |ws|
  {
    if ws != [] { BuildersKeepLog(Attempt(m, ws[0]), ws[1..]); }
  }

  lemma BuildingAt(r: Reservation, files: seq<File>)
    ensures var steps, n := Building(r, files), |BeforePrepare(r, files)|;
            && |steps| == n + 1 && n == (if r.stage.None? then 1 else |files| + 3)
            && steps[0] == PutReservation(r) && steps[n] == Inspect
            && (r.stage.Some? ==>
                  && steps[1] == MakeStage(r.stage.value)
                  && (forall i :: 2 <= i < |files| + 2 ==> steps[i] == PutFile(r.stage.value, files[i - 2]))
                  && steps[|files| + 2] == Publish(r.stage.value, r.token))
  {
  }

  lemma CutKeepsRest(m: Machine)
    ensures Exec(m, Cut(m.disk)).disk.current == m.disk.current
  {
    ExecOne(m, CutTail);
  }

  lemma ExecFive(m: Machine, a: Write, b: Write, c: Write, d: Write, e: Write)
    ensures Exec(m, [a, b, c, d, e]) == Attempt(Attempt(Attempt(Attempt(Attempt(m, a), b), c), d), e)
  {
    ExecTwo(m, a, b);
    ExecTwo(Attempt(Attempt(m, a), b), c, d);
    ExecOne(Attempt(Attempt(Attempt(Attempt(m, a), b), c), d), e);
    ExecJoins(m, [a] + [b], [c] + [d]);
    ExecJoins(m, [a] + [b] + ([c] + [d]), [e]);
    assert [a, b, c, d, e] == [a] + [b] + ([c] + [d]) + [e];
  }

  /** Cutting the tail off changes nothing the rest of recovery looks at. */
  lemma CutOnlyCuts(d: Disk, s: State)
    ensures Run(d, Cut(d)) == d.(torn := false)
    ensures TidyPlan(d.(torn := false), s) == TidyPlan(d, s)
    ensures s.pending.Some? ==> RedoPlan(d.(torn := false), s, s.pending.value) == RedoPlan(d, s, s.pending.value)
  {
    assert [CutTail][1..] == [];
  }

  lemma ExecNext(m: Machine, ws: seq<Write>, n: nat)
    requires n < |ws|
    ensures Exec(m, ws[..n + 1]) == Attempt(Exec(m, ws[..n]), ws[n])
  {
    assert ws[..n + 1] == ws[..n] + [ws[n]];
    ExecJoins(m, ws[..n], [ws[n]]);
    ExecOne(Exec(m, ws[..n]), ws[n]);
  }

  lemma DropKeeps(m: Machine, w: Write)
    requires w.DropStage? || w.DropBundle? || w.DropReservation?
    ensures var d := Attempt(m, w).disk;
            d.log == m.disk.log && d.current == m.disk.current && d.torn == m.disk.torn
  {
  }

  lemma ExecNone(m: Machine)
    ensures Exec(m, []) == m
  {
  }

  lemma ExecOne(m: Machine, w: Write)
    ensures Exec(m, [w]) == Attempt(m, w)
  {
    assert [w][1..] == [];
  }

  /** Once a process is stopped the rest of its writes do not happen. */
  lemma DeadStays(m: Machine, a: seq<Write>, b: seq<Write>)
    ensures !Exec(m, a).Running() ==> Exec(m, a + b) == Exec(m, a)
  {
    ExecJoins(m, a, b);
    ExecRunning(Exec(m, a), b);
  }

  /** One more step: the process goes on, or it stopped here for the whole list, and an exception was the
      one to come at this step. */
  lemma StepOn(m: Machine, ws: seq<Write>, n: nat)
    requires n < |ws| && Exec(m, ws[..n]).Running()
    ensures Exec(m, ws[..n + 1]) == Attempt(Exec(m, ws[..n]), ws[n])
    ensures !Exec(m, ws[..n + 1]).Running() ==> Exec(m, ws) == Exec(m, ws[..n + 1])
    ensures Exec(m, ws[..n + 1]).raising ==> n == FirstFault(m)
  {
    ExecNext(m, ws, n);
    DeadStays(m, ws[..n + 1], ws[n + 1..]);
    assert ws[..n + 1] + ws[n + 1..] == ws;
    ExecRunning(m, ws[..n]);
  }

  lemma ExecTwo(m: Machine, v: Write, w: Write)
    ensures Exec(m, [v] + [w]) == Attempt(Attempt(m, v), w)
  {
    ExecOne(m, v);
    ExecOne(Attempt(m, v), w);
    ExecJoins(m, [v], [w]);
  }

  /** The target of an open prepare is a consistent descriptor. */
  lemma TargetMatches(rs: seq<Record>, input: string)
    requires Chained(rs, input) && StateOf(rs).pending.Some?
    ensures var t := StateOf(rs).pending.value.body.target;
            ValidDescriptor(t, input) && Matches(Some(t.selection), Some(t))
  {
    assert ChainedAt(rs, |rs| - 1, input);
  }
}
