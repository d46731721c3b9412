/** What the caller may conclude from how an operation on a job ended. */
module JobOutcomes {
  import opened JobModel
  import opened JobPlans
  import opened JobSafety
  import opened JobActions

  /** No command goes out. */
  predicate Silent(es: seq<Effect>) {
    forall i :: 0 <= i < |es| ==> !es[i].Send?
  }

  // ---- fail closed ------------------------------------------------------------------------

  /** While a record is unresolved and the manifest does not prove it, no action does anything. */
  lemma UnresolvedBlocks(d: Job, m: Manifest)
    requires d.manifest == Some(m) && Settle(m, d.journal).None?
    ensures forall c :: ContinuePlan(d, c).effects == [] && ContinuePlan(d, c).outcome.Failure?
    ensures forall c :: TunePlan(d, c).effects == [] && TunePlan(d, c).outcome.Failure?
    ensures forall c :: CancelPlan(d, c).effects == [] && CancelPlan(d, c).outcome.Failure?
  {
    hide ContinueRest, TuneRest, CancelRest, CurrentAuthority, ValidJobId, ValidKey;
  }

  /** While a recovery file without proof is there, no submission does anything. */
  lemma RecoveryBlocks(d: Job, c: SubmitCall)
    requires d.recovery.Some? && !(d.recovery.value.status == SubmissionAccepted && Recorded(d.manifest, d.recovery.value))
    ensures SubmitPlan(d, c).effects == [] && SubmitPlan(d, c).outcome.Failure?
  {
  }

  // ---- nothing sent ---------------------------------------------------------------------

  lemma SilentJoins(a: seq<Effect>, b: seq<Effect>)
    ensures Silent(a + b) <==> Silent(a) && Silent(b)
  {
    assert Silent(a + b) ==> Silent(a) && Silent(b) by {
      if Silent(a + b) {
        forall i | 0 <= i < |a| ensures !a[i].Send? { assert (a + b)[i] == a[i]; }
        forall i | 0 <= i < |b| ensures !b[i].Send? { assert (a + b)[|a| + i] == b[i]; }
      }
    }
  }

  lemma GateIsSilent(d: Job, m: Manifest, action: ActionKind, key: string, intent: Option<Intent>, fails: bool)
    ensures Silent(Reconcile(d, m, action, key, intent, fails).effects)
  {
  }

  lemma ResubmitOutcome(ops: seq<Operation>, op: Operation, before: seq<Effect>, m: Manifest, a: Attempt, reply: Reply, f: Faults)
    ensures var o := Resubmit(ops, op, before, m, a, reply, f).outcome;
            o == Completed || o == Failure(UnknownOutcome)
  {
  }

  lemma ContinueRestSilentUnless(d: Job, m: Manifest, c: ContinueCall, authority: string, journal: seq<Operation>)
    ensures var p := ContinueRest(d, m, c, authority, journal);
            p.outcome == Completed || p.outcome == Failure(UnknownOutcome) || Silent(p.effects)
  {
    hide Resubmit, Started, ContinueRefusal;
    var r := ContinueRequest(m, c, authority);
    var op := OperationFor(m, Continue, c.key, c.tx, r);
    var ops := Started(journal, op);
    if ops.Some? {
      ResubmitOutcome(ops.value, op, [], Rebased(m, c.mtime), AttemptFor(m, ContcarRestart, c.key, c.tx, r), c.reply, c.faults);
    }
  }

  lemma TuneRestSilentUnless(d: Job, m: Manifest, c: TuneCall, authority: string, journal: seq<Operation>)
    ensures var p := TuneRest(d, m, c, authority, journal);
            p.outcome == Completed || p.outcome == Failure(UnknownOutcome) || Silent(p.effects)
  {
    hide Resubmit, Started, TuneRefusal;
    var r := TuneRequest(m, c, authority);
    var op := OperationFor(m, Tune, c.key, c.tx, r);
    var ops := Started(journal, op);
    var before := if c.reply.NotSent? && !c.wroteIncar then [] else [WriteIncar(c.newIncar)];
    if ops.Some? {
      ResubmitOutcome(ops.value, op, before, Rebased(m, c.mtime), AttemptFor(m, TunedRestart, c.key, c.tx, r), c.reply, c.faults);
    }
  }

  /** A continuation that ends in anything but success or an unknown outcome sent nothing. */
  lemma ContinueSilentUnless(d: Job, c: ContinueCall)
    ensures var p := ContinuePlan(d, c);
            p.outcome == Completed || p.outcome == Failure(UnknownOutcome) || Silent(p.effects)
  {
    hide Reconcile, CurrentAuthority, ValidKey, ValidJobId, ContinueRest;
    if d.manifest.Some? && CurrentAuthority(d.manifest.value).Some? {
      var m := d.manifest.value;
      var g := Reconcile(d, m, Continue, c.key, Some(Frozen(c.bound)), c.faults.settle);
      GateIsSilent(d, m, Continue, c.key, Some(Frozen(c.bound)), c.faults.settle);
      ContinueRestSilentUnless(d, m, c, CurrentAuthority(m).value, g.journal);
      SilentJoins(g.effects, ContinueRest(d, m, c, CurrentAuthority(m).value, g.journal).effects);
    }
  }

  lemma TuneSilentUnless(d: Job, c: TuneCall)
    ensures var p := TunePlan(d, c);
            p.outcome == Completed || p.outcome == Failure(UnknownOutcome) || Silent(p.effects)
  {
    hide Reconcile, CurrentAuthority, ValidKey, ValidJobId, TuneRest;
    if d.manifest.Some? && CurrentAuthority(d.manifest.value).Some? {
      var m := d.manifest.value;
      var g := Reconcile(d, m, Tune, c.key, Some(TuneIntent(c)), c.faults.settle);
      GateIsSilent(d, m, Tune, c.key, Some(TuneIntent(c)), c.faults.settle);
      TuneRestSilentUnless(d, m, c, CurrentAuthority(m).value, g.journal);
      SilentJoins(g.effects, TuneRest(d, m, c, CurrentAuthority(m).value, g.journal).effects);
    }
  }

  /** A cancellation may also report that the scheduler refused; then its command was not accepted. */
  lemma CancelSilentUnless(d: Job, c: CancelCall)
    ensures var p := CancelPlan(d, c);
            || p.outcome == Completed || p.outcome == Failure(UnknownOutcome) || Silent(p.effects)
            || (p.outcome == Failure(CommandRefused) && forall i :: 0 <= i < |p.effects| && p.effects[i].Send? ==> !p.effects[i].c.accepted)
  {
    hide Reconcile, ValidKey, Started, Marked;
    if d.manifest.Some? {
      var m := d.manifest.value;
      var g := Reconcile(d, m, Cancel, c.key, None, c.faults.settle);
      GateIsSilent(d, m, Cancel, c.key, None, c.faults.settle);
      var rest := CancelRest(m, c, g.journal);
      SilentJoins(g.effects, rest.effects);
      forall i | 0 <= i < |g.effects + rest.effects| && (g.effects + rest.effects)[i].Send?
        ensures i >= |g.effects| && (g.effects + rest.effects)[i] == rest.effects[i - |g.effects|]
      {
      }
    }
  }

  // ---- success ------------------------------------------------------------------------------

  lemma {:induction false} RunJoins(d: Job, a: seq<Effect>, b: seq<Effect>)
    ensures Run(d, a + b) == Run(Run(d, a), b)
  {
    hide Apply;
    if b == [] {
      assert a + b == a;
    } else {
      RunJoins(d, a, b[..|b| - 1]);
      assert (a + b)[..|a + b| - 1] == a + b[..|b| - 1];
    }
  }

  lemma RunOne(d: Job, e: Effect)
    ensures Run(d, [e]) == Apply(d, e)
  {
    assert [e][..0] == [];
  }

  /** What a job looks like when the command of op was accepted and recorded with the new manifest. */
  ghost predicate Concluded(d: Job, end: Job, op: Operation, id: string, result: string, m: Manifest) {
    && end.manifest == Some(m) && end.sent == d.sent + [SentBy(op, true, id).c]
    && end.journal != []
    && (var last := end.journal[|end.journal| - 1];
        (last.status == Succeeded || last.status == RemoteAccepted)
        && last == op.(status := last.status, result := result))
    && end.recovery == d.recovery
  }

  lemma AcceptedConcludes(d: Job, op: Operation, ops: seq<Operation>, before: seq<Effect>, id: string, result: string,
                          m: Option<Manifest>, f: Faults)
    requires ops != [] && ops[|ops| - 1] == op && (forall i, j :: 0 <= i < j < |ops| ==> ops[i].tx != ops[j].tx)
    requires before == [] || (|before| == 1 && before[0].WriteIncar?)
    requires Accepted(ops, op, before, SentBy(op, true, id), result, m, f).outcome == Completed
    ensures m.Some?
    ensures Concluded(d, Run(d, Accepted(ops, op, before, SentBy(op, true, id), result, m, f).effects), op, id, result, m.value)
  {
    hide Run, Marked, Accepted;
    var accepted := Marked(ops, op.tx, RemoteAccepted, result);
    var done := Marked(accepted, op.tx, Succeeded, result);
    MarkedTwice(ops, op, result);
    StartRuns(d, ops, before, SentBy(op, true, id));
    CompletedShape(ops, op, before, id, result, m, f);
    var start := [WriteJournal(ops)] + before + [SentBy(op, true, id)];
    var d2 := Run(d, start);
    var noting := start + [WriteJournal(accepted)];
    RunJoins(d, start, [WriteJournal(accepted)]);
    RunOne(d2, WriteJournal(accepted));
    RunJoins(d, noting, [SaveManifest(m.value)]);
    RunOne(Run(d, noting), SaveManifest(m.value));
    RunJoins(d, noting + [SaveManifest(m.value)], [WriteJournal(done)]);
    RunOne(Run(d, noting + [SaveManifest(m.value)]), WriteJournal(done));
  }

  lemma CompletedShape(ops: seq<Operation>, op: Operation, before: seq<Effect>, id: string, result: string,
                       m: Option<Manifest>, f: Faults)
    requires Accepted(ops, op, before, SentBy(op, true, id), result, m, f).outcome == Completed
    ensures m.Some?
    ensures var es := Accepted(ops, op, before, SentBy(op, true, id), result, m, f).effects;
            var start := [WriteJournal(ops)] + before + [SentBy(op, true, id)];
            var saved := start + [WriteJournal(Marked(ops, op.tx, RemoteAccepted, result))] + [SaveManifest(m.value)];
            || es == saved
            || es == saved + [WriteJournal(Marked(Marked(ops, op.tx, RemoteAccepted, result), op.tx, Succeeded, result))]
  {
  }

  /** The record in hand, marked accepted and then succeeded. */
  lemma MarkedTwice(ops: seq<Operation>, op: Operation, result: string)
    requires ops != [] && ops[|ops| - 1] == op && (forall i, j :: 0 <= i < j < |ops| ==> ops[i].tx != ops[j].tx)
    ensures var accepted := Marked(ops, op.tx, RemoteAccepted, result);
            var done := Marked(accepted, op.tx, Succeeded, result);
            && accepted != [] && accepted[|accepted| - 1] == op.(status := RemoteAccepted, result := result)
            && done != [] && done[|done| - 1] == op.(status := Succeeded, result := result)
  {
    MarkedLast(ops, RemoteAccepted, result);
    MarkedLast(Marked(ops, op.tx, RemoteAccepted, result), Succeeded, result);
  }

  lemma StartRuns(d: Job, ops: seq<Operation>, before: seq<Effect>, send: Effect)
    requires IncarOnly(before) && send.Send?
    ensures var d2 := Run(d, [WriteJournal(ops)] + before + [send]);
            d2.sent == d.sent + [send.c] && d2.recovery == d.recovery && d2.manifest == d.manifest
  {
    hide Run;
    RunOne(d, WriteJournal(ops));
    RunJoins(d, [WriteJournal(ops)], before);
    var d1 := d.(journal := ops);
    if before != [] {
      RunOne(d1, before[0]);
      assert before == [before[0]];
    } else {
      assert [WriteJournal(ops)] + before == [WriteJournal(ops)];
    }
    RunJoins(d, [WriteJournal(ops)] + before, [send]);
    RunOne(Run(d, [WriteJournal(ops)] + before), send);
  }

  lemma RunTwo(d: Job, a: Effect, b: Effect)
    ensures Run(d, [a, b]) == Apply(Apply(d, a), b)
  {
    RunOne(d, a);
    assert [a, b][..1] == [a];
  }

  lemma ResubmitConcludes(d: Job, op: Operation, ops: seq<Operation>, before: seq<Effect>, m: Manifest, a: Attempt,
                          reply: Reply, f: Faults)
    requires ops != [] && ops[|ops| - 1] == op && (forall i, j :: 0 <= i < j < |ops| ==> ops[i].tx != ops[j].tx)
    requires IncarOnly(before) && Resubmit(ops, op, before, m, a, reply, f).outcome == Completed
    ensures reply.Id? && ValidJobId(reply.id) && a.incar != ""
    ensures Concluded(d, Run(d, Resubmit(ops, op, before, m, a, reply, f).effects), op, reply.id, reply.id, Continued(m, a, reply.id))
  {
    hide Accepted, ValidJobId, Concluded, Continued;
    if reply.Id? && reply.id != "" {
      var n := if ValidJobId(reply.id) && a.incar != "" then Some(Continued(m, a, reply.id)) else None;
      AcceptedConcludes(d, op, ops, before, reply.id, reply.id, n, f);
    }
  }

  /** After the gate, and started: the journal that is written. */
  lemma StartedAfterGate(d: Job, m: Manifest, op: Operation, ops: seq<Operation>, intent: Option<Intent>, fails: bool)
    requires Valid(d) && d.manifest == Some(m) && FreshTx(d, op.tx) && op.status == Prepared
    requires var g := Reconcile(d, m, op.action, op.key, intent, fails);
             g.decision == Proceed && Started(g.journal, op) == Some(ops)
    ensures ops != [] && ops[|ops| - 1] == op && (forall i, j :: 0 <= i < j < |ops| ==> ops[i].tx != ops[j].tx)
    ensures var g := Reconcile(d, m, op.action, op.key, intent, fails);
            Run(d, g.effects) == AfterGate(d, g)
  {
    var g := Reconcile(d, m, op.action, op.key, intent, fails);
    GateKeeps(d, m, op.action, op.key, intent, fails);
    StartedJournal(g.journal, op);
    StartedShape(g.journal, op);
  }

  lemma ConcludedFrom(d: Job, g: Gate, end: Job, op: Operation, id: string, result: string, m: Manifest)
    requires Concluded(AfterGate(d, g), end, op, id, result, m)
    ensures Concluded(d, end, op, id, result, m)
  {
  }

  /** A completed continuation: it started from a restartable run under its round limit with the authorised
      INCAR, exactly one command was sent and it was accepted, and the manifest names its id. */
  lemma ContinueCompletes(d: Job, m: Manifest, c: ContinueCall)
    requires Valid(d) && d.manifest == Some(m) && FreshTx(d, c.tx) && ContinuePlan(d, c).outcome == Completed
    ensures CurrentAuthority(m) == Some(d.incar) && c.reply.Id? && ValidJobId(c.reply.id)
    ensures Terminal(m.state) && m.verdict.Some? && m.verdict.value.restartable && !AtLimit(m, c.bound)
    ensures var r := ContinueRequest(m, c, d.incar);
            Concluded(d, Run(d, ContinuePlan(d, c).effects), OperationFor(m, Continue, c.key, c.tx, r), c.reply.id, c.reply.id,
                      Continued(Rebased(m, c.mtime), AttemptFor(m, ContcarRestart, c.key, c.tx, r), c.reply.id))
  {
    hide Valid, FreshTx, Reconcile, CurrentAuthority, Started, Resubmit, Concluded, Continued, Run, ValidKey, ValidJobId;
    var g := Reconcile(d, m, Continue, c.key, Some(Frozen(c.bound)), c.faults.settle);
    var authority := CurrentAuthority(m).value;
    var r := ContinueRequest(m, c, authority);
    var op := OperationFor(m, Continue, c.key, c.tx, r);
    var ops := Started(g.journal, op).value;
    var a := AttemptFor(m, ContcarRestart, c.key, c.tx, r);
    StartedAfterGate(d, m, op, ops, Some(Frozen(c.bound)), c.faults.settle);
    var rest := Resubmit(ops, op, [], Rebased(m, c.mtime), a, c.reply, c.faults);
    RunJoins(d, g.effects, rest.effects);
    ResubmitConcludes(AfterGate(d, g), op, ops, [], Rebased(m, c.mtime), a, c.reply, c.faults);
    ConcludedFrom(d, g, Run(d, g.effects + rest.effects), op, c.reply.id, c.reply.id,
                  Continued(Rebased(m, c.mtime), a, c.reply.id));
  }

  lemma TuneCompletes(d: Job, m: Manifest, c: TuneCall)
    requires Valid(d) && d.manifest == Some(m) && FreshTx(d, c.tx) && TunePlan(d, c).outcome == Completed
    ensures c.allowed && CurrentAuthority(m) == Some(d.incar) && c.reply.Id? && ValidJobId(c.reply.id)
    ensures Terminal(m.state) && !AtLimit(m, c.bound)
    ensures var r := TuneRequest(m, c, d.incar);
            Concluded(d, Run(d, TunePlan(d, c).effects), OperationFor(m, Tune, c.key, c.tx, r), c.reply.id, c.reply.id,
                      Continued(Rebased(m, c.mtime), AttemptFor(m, TunedRestart, c.key, c.tx, r), c.reply.id))
  {
    hide Valid, FreshTx, Reconcile, CurrentAuthority, Started, Resubmit, Concluded, Continued, Run, ValidKey, ValidJobId;
    var g := Reconcile(d, m, Tune, c.key, Some(TuneIntent(c)), c.faults.settle);
    var authority := CurrentAuthority(m).value;
    var r := TuneRequest(m, c, authority);
    var op := OperationFor(m, Tune, c.key, c.tx, r);
    var ops := Started(g.journal, op).value;
    var a := AttemptFor(m, TunedRestart, c.key, c.tx, r);
    var before := if c.reply.NotSent? && !c.wroteIncar then [] else [WriteIncar(c.newIncar)];
    StartedAfterGate(d, m, op, ops, Some(TuneIntent(c)), c.faults.settle);
    var rest := Resubmit(ops, op, before, Rebased(m, c.mtime), a, c.reply, c.faults);
    RunJoins(d, g.effects, rest.effects);
    ResubmitConcludes(AfterGate(d, g), op, ops, before, Rebased(m, c.mtime), a, c.reply, c.faults);
    ConcludedFrom(d, g, Run(d, g.effects + rest.effects), op, c.reply.id, c.reply.id,
                  Continued(Rebased(m, c.mtime), a, c.reply.id));
  }

  lemma CancelCompletes(d: Job, m: Manifest, c: CancelCall)
    requires Valid(d) && d.manifest == Some(m) && FreshTx(d, c.tx) && CancelPlan(d, c).outcome == Completed
    ensures m.jobId != "" && (c.reply.Id? || c.reply.NoId?)
    ensures var op := Operation(c.tx, Cancel, Prepared, c.key, m.jobId, "", None, None, None);
            Concluded(d, Run(d, CancelPlan(d, c).effects), op, "", m.jobId, Cancelled(m, c.key, c.tx))
  {
    hide Valid, FreshTx, Reconcile, Started, Accepted, Concluded, Cancelled, Run, ValidKey;
    var g := Reconcile(d, m, Cancel, c.key, None, c.faults.settle);
    var op := Operation(c.tx, Cancel, Prepared, c.key, m.jobId, "", None, None, None);
    var ops := Started(g.journal, op).value;
    StartedAfterGate(d, m, op, ops, None, c.faults.settle);
    var rest := Accepted(ops, op, [], SentBy(op, true, ""), m.jobId, Some(Cancelled(m, c.key, c.tx)), c.faults);
    RunJoins(d, g.effects, rest.effects);
    AcceptedConcludes(AfterGate(d, g), op, ops, [], "", m.jobId, Some(Cancelled(m, c.key, c.tx)), c.faults);
    ConcludedFrom(d, g, Run(d, g.effects + rest.effects), op, "", m.jobId, Cancelled(m, c.key, c.tx));
  }

  /** A completed submission sent one command that was accepted, and the manifest carries its id; the same
      key replays it from then on, and a recovery file still there is one the next call clears. */
  lemma SubmitCompletes(d: Job, m: Manifest, c: SubmitCall)
    requires d.manifest == Some(m) && SubmitPlan(d, c).outcome == Completed
    ensures Submittable(m) && d.recovery.None? && d.incar == m.preparedIncar && c.reply.Id? && ValidJobId(c.reply.id)
    ensures var end := Run(d, SubmitPlan(d, c).effects);
            && end.manifest == Some(AfterSubmit(m, c, c.reply.id))
            && end.sent == d.sent + [Command(Submit, c.key, c.tx, true, c.reply.id)] && end.journal == d.journal
            && end.incar == d.incar && (end.recovery.Some? <==> c.faults.clear)
            && (end.recovery.Some? || c.key != "" ==> ReconcileSubmission(end, c.key) == Replay)
  {
    hide Run, ReconcileSubmission, ValidJobId, AfterSubmit;
    SubmitShape(d, m, c);
    var id := c.reply.id;
    var p := Recovery(c.tx, Preparing, c.key, "", m.preparedIncar);
    var s := p.(status := Submitting);
    var r := s.(status := SubmissionAccepted, jobId := id);
    var first := [WriteRecovery(p), WriteRecovery(s)];
    var second := [WriteRecovery(r), SaveManifest(AfterSubmit(m, c, id))];
    hide SubmitPlan, Launch;
    RunTwo(d, WriteRecovery(p), WriteRecovery(s));
    RunJoins(d, first, [SubmitSent(c, true, id)]);
    RunOne(Run(d, first), SubmitSent(c, true, id));
    var at := Run(d, first + [SubmitSent(c, true, id)]);
    RunTwo(at, WriteRecovery(r), SaveManifest(AfterSubmit(m, c, id)));
    RunJoins(d, first + [SubmitSent(c, true, id)], second);
    var saved := Run(d, first + [SubmitSent(c, true, id)] + second);
    RunOne(saved, ClearRecovery);
    RunJoins(d, first + [SubmitSent(c, true, id)] + second, [ClearRecovery]);
    LeftoverReplays(saved, m, c, id);
    if c.key != "" { KeyReplays(Apply(saved, ClearRecovery), m, c, id); }
  }

  lemma SubmitShape(d: Job, m: Manifest, c: SubmitCall)
    requires d.manifest == Some(m) && SubmitPlan(d, c).outcome == Completed
    ensures Submittable(m) && d.recovery.None? && d.incar == m.preparedIncar && c.reply.Id? && ValidJobId(c.reply.id)
    ensures var p := Recovery(c.tx, Preparing, c.key, "", m.preparedIncar);
            var s := p.(status := Submitting);
            var written := [WriteRecovery(p), WriteRecovery(s)] + [SubmitSent(c, true, c.reply.id)]
                           + [WriteRecovery(s.(status := SubmissionAccepted, jobId := c.reply.id)),
                              SaveManifest(AfterSubmit(m, c, c.reply.id))];
            SubmitPlan(d, c).effects == if c.faults.clear then written else written + [ClearRecovery]
  {
    hide ValidJobId, AfterSubmit;
  }

  lemma LeftoverReplays(d: Job, m: Manifest, c: SubmitCall, id: string)
    requires d.manifest == Some(AfterSubmit(m, c, id)) && id != ""
    requires d.recovery == Some(Recovery(c.tx, SubmissionAccepted, c.key, id, m.preparedIncar))
    ensures ReconcileSubmission(d, c.key) == Replay
  {
    var n := AfterSubmit(m, c, id);
    assert n.attempts[|n.attempts| - 1].jobId == id;
  }

  lemma KeyReplays(d: Job, m: Manifest, c: SubmitCall, id: string)
    requires d.manifest == Some(AfterSubmit(m, c, id)) && id != "" && c.key != "" && d.recovery.None?
    ensures ReconcileSubmission(d, c.key) == Replay
  {
    var n := AfterSubmit(m, c, id);
    assert n.attempts[|n.attempts| - 1].jobId == id;
  }
}
