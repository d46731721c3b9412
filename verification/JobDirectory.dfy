/** The job directory as the program changes it, file by file; the process may die before any effect. */
module JobDirectory {
  import opened JobModel
  import opened JobPlans
  import JobRefresh
  import opened JobSafety
  import opened JobRuns

  /** A process working on the job, with some effects left before it dies. */
  datatype Process = Process(job: Job, left: nat, alive: bool)

  function Try(p: Process, e: Effect): Process {
    if !p.alive then p
    else if p.left == 0 then p.(alive := false)
    else Process(Apply(p.job, e), p.left - 1, true)
  }

  function Go(p: Process, es: seq<Effect>): Process
    decreases |es|
  {
    if es == [] then p else Go(Try(p, es[0]), es[1..])
  }

  class Directory {
    var manifest: Option<Manifest>
    var journal: seq<Operation>
    var recovery: Option<Recovery>
    var incar: string
    ghost var sent: seq<Command>
    var left: nat
    var alive: bool

    ghost function View(): Job
      reads this
    {
      Job(manifest, journal, recovery, incar, sent)
    }

    ghost function Proc(): Process
      reads this
    {
      Process(View(), left, alive)
    }

    constructor (manifest: Option<Manifest>, incar: string, left: nat)
      ensures Proc() == Process(Job(manifest, [], None, incar, []), left, true)
    {
      this.manifest, this.incar, this.left, journal, recovery, sent, alive := manifest, incar, left, [], None, [], true;
    }

    /** One durable effect, unless the process is dead or dies now. */
    method Do(e: Effect)
      modifies this
      ensures Proc() == Try(old(Proc()), e)
    {
      if !alive { return; }
      if left == 0 { alive := false; return; }
      left := left - 1;
      match e
      case WriteJournal(ops) => journal := ops;
      case SaveManifest(m) => manifest := Some(m);
      case WriteRecovery(r) => recovery := Some(r);
      case ClearRecovery => recovery := None;
      case WriteIncar(s) => incar := s;
      case Send(c) => sent := sent + [c];
    }

    // ---- searches ---------------------------------------------------------------------

    /** `next(... for attempt in reversed(attempts) ...)` */
    method FindAttempt(q: Query, attempts: seq<Attempt>) returns (r: Option<nat>)
      ensures r == LastHit(q, attempts)
    {
      var k := |attempts|;
      while k > 0
        invariant 0 <= k <= |attempts|
        invariant forall i :: k <= i < |attempts| ==> !Hit(q, attempts[i])
      {
        k := k - 1;
        if Hit(q, attempts[k]) { return Some(k); }
      }
      r := None;
    }

    /** The first loop of `_reconcile_job_action`. */
    method SettleRecords(m: Manifest) returns (r: Option<seq<Operation>>)
      ensures r == Settle(m, journal)
    {
      var ops := journal;
      var k := 0;
      while k < |ops|
        invariant 0 <= k <= |ops| == |journal|
        invariant forall i :: k <= i < |ops| ==> ops[i] == journal[i]
        invariant forall i :: 0 <= i < k ==> Unresolved(journal[i].status) ==> Settleable(m, journal[i])
        invariant forall i :: 0 <= i < k ==>
                    ops[i] == if Unresolved(journal[i].status) then journal[i].(status := Succeeded) else journal[i]
      {
        var op := ops[k];
        if Unresolved(op.status) {
          var e := FindAttempt(ByTx(KindOf(op.action), op.tx), m.attempts);
          if op.status != RemoteAccepted || !GenerationMatches(m, op, e) { return None; }
          ops := ops[k := op.(status := Succeeded)];
        }
        k := k + 1;
      }
      r := Some(ops);
      assert ops == Settle(m, journal).value;
    }

    /** `matches[-1]` of the records with the key. */
    method FindKey(ops: seq<Operation>, key: string) returns (r: Option<nat>)
      ensures r == LastKey(ops, key)
    {
      r := None;
      var k := 0;
      while k < |ops|
        invariant 0 <= k <= |ops| && r == LastKey(ops[..k], key)
      {
        assert ops[..k + 1][..k] == ops[..k];
        if ops[k].key == key { r := Some(k); }
        k := k + 1;
      }
      assert ops[..k] == ops;
    }

    /** The part of `_reconcile_job_action` about the key, on settled records. */
    method DecideOn(m: Manifest, ops: seq<Operation>, action: ActionKind, key: string, intent: Option<Intent>)
      returns (decision: Decision)
      ensures decision == Decide(m, ops, action, key, intent)
    {
      if key == "" { return Proceed; }
      var i := FindKey(ops, key);
      if i.Some? {
        var op := ops[i.value];
        if op.action != action || (intent.Some? && op.intent != intent) { return Deny(KeyUsedForOther); }
        if op.status == Rejected { return Deny(EarlierFailure); }
        if op.status == Succeeded {
          var proof := FindAttempt(ByTx(KindOf(action), op.tx), m.attempts);
          return if GenerationMatches(m, op, proof) then Replay else Deny(OldGeneration);
        }
      }
      var e := FindAttempt(ByKey(KindOf(action), key), m.attempts);
      if e.None? { return Proceed; }
      if intent.Some? && m.attempts[e.value].intent != intent { return Deny(KeyUsedForOther); }
      decision := if GenerationMatches(m, FromAttempt(action, m.attempts[e.value]), e) then Replay else Deny(OldGeneration);
    }

    /** `_reconcile_job_action` */
    method ReconcileAction(m: Manifest, action: ActionKind, key: string, intent: Option<Intent>, fails: bool)
      returns (decision: Decision)
      modifies this
      ensures var g := Reconcile(old(View()), m, action, key, intent, fails);
              Proc() == Go(old(Proc()), g.effects) && decision == g.decision && (alive ==> journal == g.journal)
    {
      hide Settle, Decide, GenerationMatches;
      ghost var p := Proc();
      GoNone(p);
      var settled := SettleRecords(m);
      if settled.None? { return Deny(UnknownOutcome); }
      var ops := settled.value;
      if ops != journal && !fails {
        GoOne(p, WriteJournal(ops));
        Do(WriteJournal(ops));
      }
      decision := DecideOn(m, ops, action, key, intent);
    }

    /** `_start_job_action`, up to the write: the journal to write, unless something is unresolved. */
    method Extended(op: Operation) returns (r: Option<seq<Operation>>)
      ensures r == Started(journal, op)
    {
      if exists i :: 0 <= i < |journal| && Unresolved(journal[i].status) { return None; }
      r := Some((if |journal| <= 63 then journal else journal[|journal| - 63..]) + [op]);
    }

    /** `_update_job_action`: find the record of the transaction, and write the journal with it changed. */
    method Mark(tx: string, status: Status, result: string)
      modifies this
      ensures Proc() == Go(old(Proc()), [WriteJournal(Marked(old(journal), tx, status, result))])
    {
      ghost var p := Proc();
      var ops := journal;
      var k := 0;
      while k < |ops| && ops[k].tx != tx
        invariant 0 <= k <= |ops|
        invariant forall i :: 0 <= i < k ==> ops[i].tx != tx
        invariant Proc() == p && ops == journal
      {
        k := k + 1;
      }
      MarkedAt(ops, tx, status, result, k);
      if k < |ops| { ops := ops[k := ops[k].(status := status, result := result)]; }
      GoOne(p, WriteJournal(ops));
      Do(WriteJournal(ops));
    }

    /** `_mark_job_action_unknown` */
    method Unclear(ghost ops: seq<Operation>, tx: string, fails: bool)
      requires alive ==> journal == ops
      modifies this
      ensures Proc() == Go(old(Proc()), MarkUnknown(ops, tx, fails))
    {
      GoNone(Proc());
      GoDead(Proc(), MarkUnknown(ops, tx, fails));
      if fails || !alive { return; }
      Mark(tx, Unknown, "");
    }

    /** The command was accepted: journal, manifest, journal; each write may fail. */
    method Record(ghost ops: seq<Operation>, op: Operation, result: string, m: Option<Manifest>, f: Faults)
      returns (outcome: Outcome)
      requires alive ==> journal == ops
      modifies this
      ensures var tail := Tail(ops, op, result, m, f);
              Proc() == Go(old(Proc()), tail.effects) && (alive ==> outcome == tail.outcome)
    {
      ghost var p := Proc();
      ghost var accepted := Marked(ops, op.tx, RemoteAccepted, result);
      ghost var done := Marked(accepted, op.tx, Succeeded, result);
      GoDead(p, Tail(ops, op, result, m, f).effects);
      GoNone(p);
      if f.advance || !alive { return Failure(UnknownOutcome); }
      GoSteps(p, WriteJournal(accepted), if m.Some? then SaveManifest(m.value) else ClearRecovery, WriteJournal(done));
      hide Go, Marked;
      Mark(op.tx, RemoteAccepted, result);
      if !alive || m.None? || f.save {
        return Failure(UnknownOutcome);
      }
      Do(SaveManifest(m.value));
      if f.finish || !alive { return Completed; }
      GoOne(Proc(), WriteJournal(done));
      Mark(op.tx, Succeeded, result);
      outcome := Completed;
    }

    /** The prepared record is written, and the local INCAR of a tuned continuation. */
    method Prepare(ops: seq<Operation>, before: seq<Effect>)
      requires alive && (before == [] || (|before| == 1 && before[0].WriteIncar?))
      modifies this
      ensures Proc() == Go(old(Proc()), [WriteJournal(ops)] + before)
      ensures alive ==> journal == ops
    {
      ghost var p := Proc();
      GoOne(p, WriteJournal(ops));
      GoJoins(p, [WriteJournal(ops)], before);
      Do(WriteJournal(ops));
      if |before| == 1 {
        GoOne(Proc(), before[0]);
        assert before == [before[0]];
        Do(before[0]);
      }
    }

    /** No usable answer: the command may have arrived. */
    method Resign(ops: seq<Operation>, op: Operation, before: seq<Effect>, sends: Option<bool>, f: Faults)
      returns (outcome: Outcome)
      requires alive && (before == [] || (|before| == 1 && before[0].WriteIncar?))
      modifies this
      ensures var sent := before + (if sends.None? then [] else [SentBy(op, sends.value, "")]);
              Proc() == Go(old(Proc()), Unsure(ops, op, sent, f).effects)
      ensures outcome == Failure(UnknownOutcome)
    {
      ghost var p := Proc();
      ghost var sent := before + (if sends.None? then [] else [SentBy(op, sends.value, "")]);
      ghost var start := [WriteJournal(ops)] + before;
      outcome := Failure(UnknownOutcome);
      hide Go, Marked, MarkUnknown;
      Prepare(ops, before);
      if sends.Some? {
        var e := SentBy(op, sends.value, "");
        GoOne(Proc(), e);
        GoJoins(p, start, [e]);
        Do(e);
        assert start + [e] == [WriteJournal(ops)] + sent;
      } else {
        assert start == [WriteJournal(ops)] + sent;
      }
      GoJoins(p, [WriteJournal(ops)] + sent, MarkUnknown(ops, op.tx, f.unknown));
      Unclear(ops, op.tx, f.unknown);
    }

    /** An answer that names the result. */
    method Accept(ops: seq<Operation>, op: Operation, before: seq<Effect>, id: string, result: string,
                  m: Option<Manifest>, f: Faults) returns (outcome: Outcome)
      requires alive && (before == [] || (|before| == 1 && before[0].WriteIncar?))
      modifies this
      ensures var plan := Accepted(ops, op, before, SentBy(op, true, id), result, m, f);
              Proc() == Go(old(Proc()), plan.effects) && (alive ==> outcome == plan.outcome)
    {
      ghost var p := Proc();
      var e := SentBy(op, true, id);
      ghost var start := [WriteJournal(ops)] + before;
      AcceptedIsTail(ops, op, before, e, result, m, f);
      hide Go, Marked, Accepted, Tail;
      Prepare(ops, before);
      GoOne(Proc(), e);
      GoJoins(p, start, [e]);
      GoJoins(p, start + [e], Tail(ops, op, result, m, f).effects);
      Do(e);
      outcome := Record(ops, op, result, m, f);
    }

    /** The resubmission of both continuations. */
    method Resubmission(ops: seq<Operation>, op: Operation, before: seq<Effect>, m: Manifest, a: Attempt, reply: Reply,
                        f: Faults) returns (outcome: Outcome)
      requires alive && (before == [] || (|before| == 1 && before[0].WriteIncar?))
      modifies this
      ensures var plan := Resubmit(ops, op, before, m, a, reply, f);
              Proc() == Go(old(Proc()), plan.effects) && (alive ==> outcome == plan.outcome)
    {
      hide Go, Accepted, Continued, ValidJobId;
      assert before + [] == before;
      match reply
      case NotSent => outcome := Resign(ops, op, before, None, f);
      case Lost(accepted) => outcome := Resign(ops, op, before, Some(accepted), f);
      case Refused => outcome := Resign(ops, op, before, Some(false), f);
      case NoId(accepted) => outcome := Resign(ops, op, before, Some(accepted), f);
      case Id(id) =>
        if id == "" {
          outcome := Resign(ops, op, before, Some(true), f);
        } else {
          var n := if ValidJobId(id) && a.incar != "" then Some(Continued(m, a, id)) else None;
          outcome := Accept(ops, op, before, id, id, n, f);
        }
    }

    // ---- the operations -----------------------------------------------------------------

    /** `continue_from_contcar` after reconciliation. */
    method ContinueAfter(m: Manifest, c: ContinueCall, authority: string) returns (outcome: Outcome)
      requires alive && manifest == Some(m)
      modifies this
      ensures var plan := ContinueRest(old(View()), m, c, authority, old(journal));
              Proc() == Go(old(Proc()), plan.effects) && (alive ==> outcome == plan.outcome)
    {
      ghost var p := Proc();
      GoNone(p);
      if incar != authority { return Failure(InputDrift); }
      if !Terminal(m.state) { return Failure(NotTerminal); }
      if m.verdict.None? || !m.verdict.value.restartable { return Failure(NotRestartable); }
      if AtLimit(m, c.bound) { return Failure(RoundLimit); }
      if m.remote == "" { return Failure(NoRemote); }
      if c.contcar == Unreadable { return Failure(BadStructure); }
      if c.contcar == Overlapping {
        if !c.faults.save {
          GoOne(p, SaveManifest(m.(state := NeedsHuman)));
          Do(SaveManifest(m.(state := NeedsHuman)));
        }
        return Failure(BadStructure);
      }
      hide Go, Resubmit, Started;
      var r := ContinueRequest(m, c, authority);
      var op := OperationFor(m, Continue, c.key, c.tx, r);
      var ops := Extended(op);
      if ops.None? { return Failure(UnknownOutcome); }
      if c.faults.start { return Failure(WriteError); }
      outcome := Resubmission(ops.value, op, [], Rebased(m, c.mtime), AttemptFor(m, ContcarRestart, c.key, c.tx, r),
                              c.reply, c.faults);
    }

    method ContinueFromContcar(c: ContinueCall) returns (outcome: Outcome)
      requires alive
      modifies this
      ensures var plan := ContinuePlan(old(View()), c);
              Proc() == Go(old(Proc()), plan.effects) && (alive ==> outcome == plan.outcome)
    {
      ghost var p := Proc();
      GoNone(p);
      if !ValidKey(c.key) { return Failure(BadKey); }
      if manifest.None? { return Failure(NoManifest); }
      var m := manifest.value;
      if !Bound(m, c.profile) { return Failure(WrongServer); }
      if !ValidJobId(m.jobId) { return Failure(NoSource); }
      var authority := CurrentAuthority(m);
      if authority.None? { return Failure(NoAuthority); }
      ghost var gate := Reconcile(View(), m, Continue, c.key, Some(Frozen(c.bound)), c.faults.settle);
      ghost var rest := ContinueRest(View(), m, c, authority.value, gate.journal);
      GoJoins(p, gate.effects, rest.effects);
      GoDead(Go(p, gate.effects), rest.effects);
      GateKeepsRest(p, gate.effects);
      ContinueRestLooksAt(View(), m, c, authority.value, gate.journal);
      hide Go, Reconcile, ContinueRest, CurrentAuthority, ValidKey, ValidJobId, Bound;
      var decision := ReconcileAction(m, Continue, c.key, Some(Frozen(c.bound)), c.faults.settle);
      if decision.Deny? { return Failure(decision.error); }
      if decision.Replay? { return Replayed; }
      if !alive { return Failure(WriteError); }
      outcome := ContinueAfter(m, c, authority.value);
    }

    /** `continue_with_incar_changes` after reconciliation. */
    method TuneAfter(m: Manifest, c: TuneCall, authority: string) returns (outcome: Outcome)
      requires alive && manifest == Some(m)
      modifies this
      ensures var plan := TuneRest(old(View()), m, c, authority, old(journal));
              Proc() == Go(old(Proc()), plan.effects) && (alive ==> outcome == plan.outcome)
    {
      GoNone(Proc());
      if !Terminal(m.state) { return Failure(NotTerminal); }
      if AtLimit(m, c.bound) { return Failure(RoundLimit); }
      if m.remote == "" { return Failure(NoRemote); }
      if c.fromContcar && c.contcar != Sound { return Failure(BadStructure); }
      if incar != authority { return Failure(InputDrift); }
      hide Go, Resubmit, Started;
      var r := TuneRequest(m, c, authority);
      var op := OperationFor(m, Tune, c.key, c.tx, r);
      var ops := Extended(op);
      if ops.None? { return Failure(UnknownOutcome); }
      if c.faults.start { return Failure(WriteError); }
      var before := if c.reply.NotSent? && !c.wroteIncar then [] else [WriteIncar(c.newIncar)];
      outcome := Resubmission(ops.value, op, before, Rebased(m, c.mtime), AttemptFor(m, TunedRestart, c.key, c.tx, r),
                              c.reply, c.faults);
    }

    method ContinueWithIncarChanges(c: TuneCall) returns (outcome: Outcome)
      requires alive
      modifies this
      ensures var plan := TunePlan(old(View()), c);
              Proc() == Go(old(Proc()), plan.effects) && (alive ==> outcome == plan.outcome)
    {
      ghost var p := Proc();
      GoNone(p);
      if !ValidKey(c.key) { return Failure(BadKey); }
      if !c.allowed { return Failure(NotAllowed); }
      if manifest.None? { return Failure(NoManifest); }
      var m := manifest.value;
      if !Bound(m, c.profile) { return Failure(WrongServer); }
      if !ValidJobId(m.jobId) { return Failure(NoSource); }
      var authority := CurrentAuthority(m);
      if authority.None? { return Failure(NoAuthority); }
      ghost var gate := Reconcile(View(), m, Tune, c.key, Some(TuneIntent(c)), c.faults.settle);
      ghost var rest := TuneRest(View(), m, c, authority.value, gate.journal);
      GoJoins(p, gate.effects, rest.effects);
      GoDead(Go(p, gate.effects), rest.effects);
      GateKeepsRest(p, gate.effects);
      TuneRestLooksAt(View(), m, c, authority.value, gate.journal);
      hide Go, Reconcile, TuneRest, CurrentAuthority, ValidKey, ValidJobId, Bound;
      var decision := ReconcileAction(m, Tune, c.key, Some(TuneIntent(c)), c.faults.settle);
      if decision.Deny? { return Failure(decision.error); }
      if decision.Replay? { return Replayed; }
      if !alive { return Failure(WriteError); }
      outcome := TuneAfter(m, c, authority.value);
    }

    /** The cancel command: an error answer is final, a lost one is not. */
    method CancelRemote(ops: seq<Operation>, op: Operation, m: Manifest, c: CancelCall) returns (outcome: Outcome)
      requires alive
      modifies this
      ensures var plan := CancelCommand(ops, op, m, c);
              Proc() == Go(old(Proc()), plan.effects) && (alive ==> outcome == plan.outcome)
    {
      var none: seq<Effect> := [];
      assert forall es: seq<Effect> :: none + es == es;
      assert none + none == none;
      match c.reply
      case NotSent => outcome := Resign(ops, op, none, None, c.faults);
      case Lost(accepted) => outcome := Resign(ops, op, none, Some(accepted), c.faults);
      case Refused =>
        if c.faults.reject {
          outcome := Resign(ops, op, none, Some(false), c.faults);
        } else {
          outcome := CloseRejected(ops, op, m.jobId);
        }
      case NoId(_) => outcome := Accept(ops, op, none, "", m.jobId, Some(Cancelled(m, c.key, c.tx)), c.faults);
      case Id(_) => outcome := Accept(ops, op, none, "", m.jobId, Some(Cancelled(m, c.key, c.tx)), c.faults);
    }

    method CloseRejected(ops: seq<Operation>, op: Operation, result: string) returns (outcome: Outcome)
      requires alive
      modifies this
      ensures Proc() == Go(old(Proc()), [WriteJournal(ops), SentBy(op, false, ""), WriteJournal(Marked(ops, op.tx, Rejected, result))])
      ensures outcome == Failure(CommandRefused)
    {
      ghost var last := WriteJournal(Marked(ops, op.tx, Rejected, result));
      GoSteps(Proc(), WriteJournal(ops), SentBy(op, false, ""), last);
      hide Go, Marked;
      outcome := Failure(CommandRefused);
      Do(WriteJournal(ops));
      Do(SentBy(op, false, ""));
      GoOne(Proc(), last);
      if alive { Mark(op.tx, Rejected, result); }
    }

    method CancelAfter(m: Manifest, c: CancelCall) returns (outcome: Outcome)
      requires alive
      modifies this
      ensures var plan := CancelRest(m, c, old(journal));
              Proc() == Go(old(Proc()), plan.effects) && (alive ==> outcome == plan.outcome)
    {
      GoNone(Proc());
      if m.jobId == "" { return Failure(NoSource); }
      hide Go, Started, CancelCommand;
      var op := Operation(c.tx, Cancel, Prepared, c.key, m.jobId, "", None, None, None);
      var ops := Extended(op);
      if ops.None? { return Failure(UnknownOutcome); }
      if c.faults.start { return Failure(WriteError); }
      outcome := CancelRemote(ops.value, op, m, c);
    }

    method CancelJob(c: CancelCall) returns (outcome: Outcome)
      requires alive
      modifies this
      ensures var plan := CancelPlan(old(View()), c);
              Proc() == Go(old(Proc()), plan.effects) && (alive ==> outcome == plan.outcome)
    {
      ghost var p := Proc();
      GoNone(p);
      if !ValidKey(c.key) { return Failure(BadKey); }
      if manifest.None? { return Failure(NoManifest); }
      var m := manifest.value;
      if !Bound(m, c.profile) { return Failure(WrongServer); }
      if c.expected != "" && m.jobId != c.expected { return Failure(OldGeneration); }
      ghost var gate := Reconcile(View(), m, Cancel, c.key, None, c.faults.settle);
      ghost var rest := CancelRest(m, c, gate.journal);
      GoJoins(p, gate.effects, rest.effects);
      GoDead(Go(p, gate.effects), rest.effects);
      hide Go, Reconcile, CancelRest, ValidKey, Bound;
      var decision := ReconcileAction(m, Cancel, c.key, None, c.faults.settle);
      if decision.Deny? { return Failure(decision.error); }
      if decision.Replay? { return Replayed; }
      if !alive { return Failure(WriteError); }
      outcome := CancelAfter(m, c);
    }

    /** `refresh_job` */
    method RefreshJob(c: RefreshCall) returns (outcome: Outcome)
      requires alive && JobRefresh.ValidObservation(c.o)
      modifies this
      ensures var plan := RefreshPlan(old(View()), c);
              Proc() == Go(old(Proc()), plan.effects) && outcome == plan.outcome
    {
      ghost var p := Proc();
      GoNone(p);
      if manifest.None? || manifest.value.jobId == "" { return Completed; }
      var m := manifest.value;
      if m.cluster == "" || m.cluster != c.profile.name || (m.binding != "" && m.binding != c.profile.fingerprint) {
        return Failure(WrongServer);
      }
      var n := JobRefresh.Refreshed(m, c.o);
      if c.saveFails { return Failure(WriteError); }
      GoOne(p, SaveManifest(n));
      Do(SaveManifest(n));
      outcome := Completed;
    }

    /** `_reconcile_submission_recovery`, without its clean-up. */
    method ReconcileRecovery(key: string) returns (decision: Decision)
      ensures decision == ReconcileSubmission(View(), key)
    {
      if recovery.None? {
        if manifest.None? { return Proceed; }
        var m := manifest.value;
        var i := FindAttempt(BySubmissionKey(key), m.attempts);
        return if i.Some? && m.jobId == m.attempts[i.value].jobId then Replay else Proceed;
      }
      var r := recovery.value;
      if r.status == Preparing { return Deny(PreparingLeft); }
      decision := if r.status == SubmissionAccepted && r.jobId != "" && Recorded(manifest, r) then Replay
                  else Deny(UnknownOutcome);
    }

    /** The outcome of the submit command is not known. */
    method Surrender(m: Manifest, c: SubmitCall, unknown: Recovery)
      modifies this
      ensures Proc() == Go(old(Proc()), (if c.faults.unknown then [] else [WriteRecovery(unknown)])
                                        + (if c.faults.save then [] else [SaveManifest(AfterUpload(m, c))]))
    {
      ghost var p := Proc();
      ghost var first := if c.faults.unknown then [] else [WriteRecovery(unknown)];
      ghost var second := if c.faults.save then [] else [SaveManifest(AfterUpload(m, c))];
      GoJoins(p, first, second);
      GoNone(p);
      GoOne(p, WriteRecovery(unknown));
      if !c.faults.unknown { Do(WriteRecovery(unknown)); }
      GoNone(Proc());
      GoOne(Proc(), SaveManifest(AfterUpload(m, c)));
      if !c.faults.save { Do(SaveManifest(AfterUpload(m, c))); }
    }

    /** An id came back: recovery file, manifest, and the recovery file goes. */
    method RecordSubmission(m: Manifest, c: SubmitCall, id: string, accepted: Recovery) returns (outcome: Outcome)
      modifies this
      ensures var plan := SubmissionTail(m, c, id, accepted);
              Proc() == Go(old(Proc()), plan.effects) && outcome == plan.outcome
    {
      GoNone(Proc());
      if c.faults.advance { return Failure(UnknownOutcome); }
      GoSteps(Proc(), WriteRecovery(accepted), SaveManifest(AfterSubmit(m, c, id)), ClearRecovery);
      Do(WriteRecovery(accepted));
      if c.faults.save || !ValidJobId(id) { return Failure(UnknownOutcome); }
      Do(SaveManifest(AfterSubmit(m, c, id)));
      if !c.faults.clear { Do(ClearRecovery); }
      outcome := Completed;
    }

    /** The submit command and what follows its answer. */
    method Deliver(m: Manifest, c: SubmitCall, submitting: Recovery) returns (outcome: Outcome)
      modifies this
      ensures var plan := DeliverPlan(m, c, submitting);
              Proc() == Go(old(Proc()), plan.effects) && outcome == plan.outcome
    {
      ghost var p := Proc();
      var unknown := submitting.(status := UnknownSubmission);
      ghost var unsure := (if c.faults.unknown then [] else [WriteRecovery(unknown)])
                          + (if c.faults.save then [] else [SaveManifest(AfterUpload(m, c))]);
      hide Go, ValidJobId;
      if c.reply.NotSent? {
        Surrender(m, c, unknown);
        return Failure(UnknownOutcome);
      }
      var id := if c.reply.Id? then c.reply.id else "";
      var sent := SubmitSent(c, Arrived(c.reply), id);
      var accepted := submitting.(status := SubmissionAccepted, jobId := id);
      GoOne(p, sent);
      GoJoins(p, [sent], unsure);
      GoJoins(p, [sent], SubmissionTail(m, c, id, accepted).effects);
      Do(sent);
      if id == "" {
        Surrender(m, c, unknown);
        return Failure(UnknownOutcome);
      }
      outcome := RecordSubmission(m, c, id, accepted);
    }

    /** `submit_job` */
    method SubmitJob(c: SubmitCall) returns (outcome: Outcome)
      modifies this
      ensures var plan := SubmitPlan(old(View()), c);
              Proc() == Go(old(Proc()), plan.effects) && outcome == plan.outcome
    {
      ghost var p := Proc();
      GoNone(p);
      if !ValidKey(c.key) { return Failure(BadKey); }
      var decision := ReconcileRecovery(c.key);
      if decision.Deny? { return Failure(decision.error); }
      if decision.Replay? {
        if recovery.Some? && !c.faults.clear {
          GoOne(p, ClearRecovery);
          Do(ClearRecovery);
        }
        return Replayed;
      }
      if manifest.None? || !Submittable(manifest.value) || !c.checks { return Failure(Preflight); }
      var m := manifest.value;
      if m.preparedIncar == "" || incar != m.preparedIncar { return Failure(InputDrift); }
      if c.faults.prepare { return Failure(WriteError); }
      var preparing := Recovery(c.tx, Preparing, c.key, "", m.preparedIncar);
      var submitting := preparing.(status := Submitting);
      GoOne(p, WriteRecovery(preparing));
      GoJoins(p, [WriteRecovery(preparing)] + [WriteRecovery(submitting)], DeliverPlan(m, c, submitting).effects);
      GoJoins(p, [WriteRecovery(preparing)], [WriteRecovery(submitting)]);
      LaunchParts(m, c);
      hide Go, Submittable, ReconcileSubmission, DeliverPlan, Launch;
      Do(WriteRecovery(preparing));
      if !c.uploaded || c.faults.submitting { return Failure(WriteError); }
      GoOne(Proc(), WriteRecovery(submitting));
      Do(WriteRecovery(submitting));
      outcome := Deliver(m, c, submitting);
    }
  }

  lemma TuneRestLooksAt(d: Job, m: Manifest, c: TuneCall, authority: string, journal: seq<Operation>)
    ensures TuneRest(d.(journal := journal), m, c, authority, journal) == TuneRest(d, m, c, authority, journal)
  {
  }

  /** Whether the scheduler took a submit command. */
  function Arrived(r: Reply): bool {
    match r
    case Lost(accepted) => accepted
    case NoId(accepted) => accepted
    case Id(_) => true
    case _ => false
  }

  function SubmissionTail(m: Manifest, c: SubmitCall, id: string, accepted: Recovery): Plan {
    if c.faults.advance then Plan([], Failure(UnknownOutcome))
    else if c.faults.save || !ValidJobId(id) then Plan([WriteRecovery(accepted)], Failure(UnknownOutcome))
    else if c.faults.clear then Plan([WriteRecovery(accepted), SaveManifest(AfterSubmit(m, c, id))], Completed)
    else Plan([WriteRecovery(accepted), SaveManifest(AfterSubmit(m, c, id)), ClearRecovery], Completed)
  }

  function DeliverPlan(m: Manifest, c: SubmitCall, submitting: Recovery): Plan {
    var unsure := (if c.faults.unknown then [] else [WriteRecovery(submitting.(status := UnknownSubmission))])
                  + (if c.faults.save then [] else [SaveManifest(AfterUpload(m, c))]);
    var id := if c.reply.Id? then c.reply.id else "";
    if c.reply.NotSent? then Plan(unsure, Failure(UnknownOutcome))
    else if id == "" then Plan([SubmitSent(c, Arrived(c.reply), "")] + unsure, Failure(UnknownOutcome))
    else
      var tail := SubmissionTail(m, c, id, submitting.(status := SubmissionAccepted, jobId := id));
      Plan([SubmitSent(c, true, id)] + tail.effects, tail.outcome)
  }

  lemma LaunchParts(m: Manifest, c: SubmitCall)
    requires !c.faults.prepare
    ensures var preparing := Recovery(c.tx, Preparing, c.key, "", m.preparedIncar);
            var submitting := preparing.(status := Submitting);
            var rest := DeliverPlan(m, c, submitting);
            Launch(m, c) == if !c.uploaded || c.faults.submitting
                            then Plan([WriteRecovery(preparing)], Failure(WriteError))
                            else Plan([WriteRecovery(preparing)] + [WriteRecovery(submitting)] + rest.effects, rest.outcome)
  {
    var preparing := Recovery(c.tx, Preparing, c.key, "", m.preparedIncar);
    var submitting := preparing.(status := Submitting);
    var start := [WriteRecovery(preparing), WriteRecovery(submitting)];
    assert start == [WriteRecovery(preparing)] + [WriteRecovery(submitting)];
    var rest := DeliverPlan(m, c, submitting).effects;
    if c.uploaded && !c.faults.submitting {
      assert Launch(m, c).effects == start + rest;
    }
  }

  /** Reconciliation writes the journal and nothing else. */
  lemma GateKeepsRest(p: Process, es: seq<Effect>)
    requires es == [] || (|es| == 1 && es[0].WriteJournal?)
    ensures var q := Go(p, es);
            q.job == p.job.(journal := q.job.journal)
  {
    if es != [] {
      assert es == [es[0]];
      GoOne(p, es[0]);
    }
  }

  lemma ContinueRestLooksAt(d: Job, m: Manifest, c: ContinueCall, authority: string, journal: seq<Operation>)
    ensures ContinueRest(d.(journal := journal), m, c, authority, journal) == ContinueRest(d, m, c, authority, journal)
  {
  }

  /** What `Accepted` does once the command was sent. */
  function Tail(ops: seq<Operation>, op: Operation, result: string, m: Option<Manifest>, f: Faults): Plan {
    var accepted := Marked(ops, op.tx, RemoteAccepted, result);
    var done := Marked(accepted, op.tx, Succeeded, result);
    if f.advance then Plan([], Failure(UnknownOutcome))
    else if m.None? || f.save then Plan([WriteJournal(accepted)], Failure(UnknownOutcome))
    else if f.finish then Plan([WriteJournal(accepted), SaveManifest(m.value)], Completed)
    else Plan([WriteJournal(accepted), SaveManifest(m.value), WriteJournal(done)], Completed)
  }

  lemma AcceptedIsTail(ops: seq<Operation>, op: Operation, before: seq<Effect>, sent: Effect, result: string,
                       m: Option<Manifest>, f: Faults)
    ensures var tail := Tail(ops, op, result, m, f);
            Accepted(ops, op, before, sent, result, m, f)
            == Plan([WriteJournal(ops)] + before + [sent] + tail.effects, tail.outcome)
  {
    var start := [WriteJournal(ops)] + before + [sent];
    assert start + [] == start;
  }

  lemma GoSteps(p: Process, a: Effect, b: Effect, c: Effect)
    ensures Go(p, [a]) == Try(p, a)
    ensures Go(p, [a, b]) == Try(Try(p, a), b)
    ensures Go(p, [a, b, c]) == Try(Try(Try(p, a), b), c)
    ensures !Try(p, a).alive ==> Go(p, [a, b]) == Go(p, [a, b, c]) == Try(p, a)
    ensures !Try(Try(p, a), b).alive ==> Go(p, [a, b, c]) == Try(Try(p, a), b)
  {
    GoOne(p, a);
    GoOne(Try(p, a), b);
    GoOne(Try(Try(p, a), b), c);
    GoJoins(p, [a], [b]);
    GoJoins(p, [a] + [b], [c]);
    assert [a, b] == [a] + [b] && [a, b, c] == [a] + [b] + [c];
  }

  lemma {:induction false} MarkedAt(ops: seq<Operation>, tx: string, status: Status, result: string, k: nat)
    requires k <= |ops| && (forall i :: 0 <= i < k ==> ops[i].tx != tx) && (k < |ops| ==> ops[k].tx == tx)
    ensures Marked(ops, tx, status, result)
            == if k < |ops| then ops[k := ops[k].(status := status, result := result)] else ops
  {
    if k > 0 { MarkedAt(ops[1..], tx, status, result, k - 1); }
  }

  lemma GoNone(p: Process)
    ensures Go(p, []) == p
  {
  }

  lemma GoOne(p: Process, e: Effect)
    ensures Go(p, [e]) == Try(p, e)
  {
    assert [e][1..] == [];
  }

  lemma {:induction false} GoJoins(p: Process, a: seq<Effect>, b: seq<Effect>)
    ensures Go(p, a + b) == Go(Go(p, a), b)
    decreases |a|
  {
    if a == [] {
      assert a + b == b;
    } else {
      assert (a + b)[1..] == a[1..] + b;
      GoJoins(Try(p, a[0]), a[1..], b);
    }
  }

  /** A dead process changes nothing. */
  lemma {:induction false} GoDead(p: Process, es: seq<Effect>)
    ensures !p.alive ==> Go(p, es) == p
    decreases |es|
  {
    if es != [] { GoDead(Try(p, es[0]), es[1..]); }
  }

  /** What a process leaves is what a crash at its budget leaves. */
  lemma {:induction false} GoIsCrash(p: Process, es: seq<Effect>)
    requires p.alive
    ensures Go(p, es).job == Crash(p.job, es, p.left)
    ensures Go(p, es).alive <==> |es| <= p.left
    decreases |es|
  {
    if es != [] {
      if p.left == 0 {
        GoDead(Try(p, es[0]), es[1..]);
      } else {
        GoIsCrash(Try(p, es[0]), es[1..]);
      }
    }
  }

  /** A process at work on a valid job leaves a valid job, wherever it dies. */
  lemma ProcessKeepsValid(p: Process, c: Call)
    requires p.alive && Valid(p.job) && Fresh(p.job, c)
    ensures Valid(Go(p, PlanOf(p.job, c).effects).job)
  {
    CallIsSafe(p.job, c);
    GoIsCrash(p, PlanOf(p.job, c).effects);
    CrashIsValid(p.job, PlanOf(p.job, c).effects, p.left);
  }
}
