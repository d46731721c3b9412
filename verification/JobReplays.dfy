/** An operation that completed under a key is replayed under that key, and some runs to that effect. */
module JobReplays {
  import opened JobModel
  import opened JobPlans
  import opened JobSafety
  import opened JobActions
  import opened JobRuns
  import opened JobOutcomes

  /** The record of a completed operation is replayed, whether its last journal write was made or not. */
  lemma LastRecordReplays(d: Job, m: Manifest, op: Operation, intent: Option<Intent>, fails: bool)
    requires JournalOk(d.journal) && Current(d, op) && op.key != "" && (intent.Some? ==> op.intent == intent)
    requires op.status == Succeeded || op.status == RemoteAccepted
    requires GenerationMatches(m, op, LastHit(ByTx(KindOf(op.action), op.tx), m.attempts))
    ensures Reconcile(d, m, op.action, op.key, intent, fails).decision == Replay
  {
    var n := |d.journal| - 1;
    var done := op.(status := Succeeded);
    assert Settleable(m, op.(status := RemoteAccepted));
    assert forall i :: 0 <= i < n ==> !Unresolved(d.journal[i].status);
    var ops := Settle(m, d.journal).value;
    assert ops[n] == done;
    assert LastKey(ops, op.key) == Some(n);
    assert GenerationMatches(m, done, LastHit(ByTx(KindOf(op.action), op.tx), m.attempts));
    hide GenerationMatches, Settle, LastKey, LastHit, Settleable;
  }

  /** The newest attempt alone is enough, once its record is gone. */
  lemma AttemptReplays(d: Job, m: Manifest, action: ActionKind, key: string, intent: Option<Intent>, fails: bool)
    requires d.journal == [] && key != "" && m.attempts != []
    requires var a := m.attempts[|m.attempts| - 1];
             && a.kind == KindOf(action) && a.key == key && (intent.Some? ==> a.intent == intent)
             && GenerationMatches(m, FromAttempt(action, a), Some(|m.attempts| - 1))
    ensures Reconcile(d, m, action, key, intent, fails).decision == Replay
  {
    assert LastHit(ByKey(KindOf(action), key), m.attempts) == Some(|m.attempts| - 1);
    hide GenerationMatches;
  }

  // ---- continuations ------------------------------------------------------------------------

  /** The new attempt, its record and the new manifest are of one generation. */
  lemma ContinuedMatches(m: Manifest, n: Manifest, kind: AttemptKind, key: string, tx: string, r: Request, id: string,
                         mtime: Option<int>, op: Operation)
    requires n == Continued(Rebased(m, mtime), AttemptFor(m, kind, key, tx, r), id)
    requires kind == KindOf(op.action) && op.action != Cancel && op.tx == tx && tx != "" && id != ""
    requires r.profile == m.binding && m.binding != "" && r.remote == m.remote && m.remote != "" && r.incarTarget != ""
    requires op.requestSha == Some(r) && op.intent == Some(r.intent) && (op.request == Some(r) || op.request == None)
    requires op.result == id
    ensures LastHit(ByTx(kind, tx), n.attempts) == Some(|m.attempts|)
    ensures GenerationMatches(n, op, Some(|m.attempts|))
  {
    assert n.attempts[|m.attempts|].jobId == id;
    assert LastHit(ByJob(id), n.attempts) == Some(|m.attempts|);
  }

  lemma ContinueChecked(d: Job, m: Manifest, c: ContinueCall)
    requires d.manifest == Some(m) && ContinuePlan(d, c).outcome == Completed
    ensures m.binding != "" && m.remote != "" && CurrentAuthority(m).Some? && CurrentAuthority(m).value != ""
  {
    hide Reconcile, Started, Resubmit, ValidKey, ValidJobId;
  }

  /** After a completed frozen continuation with a key the same request is replayed and never sent again,
      also if the last journal write failed, and also from the attempts alone. */
  lemma ContinueIsReplayed(d: Job, m: Manifest, c: ContinueCall, fails: bool)
    requires Valid(d) && d.manifest == Some(m) && FreshTx(d, c.tx) && FreshId(d, c.reply) && c.key != ""
    requires ContinuePlan(d, c).outcome == Completed
    ensures var end := Run(d, ContinuePlan(d, c).effects);
            && end.manifest.Some?
            && Reconcile(end, end.manifest.value, Continue, c.key, Some(Frozen(c.bound)), fails).decision == Replay
            && Reconcile(end.(journal := []), end.manifest.value, Continue, c.key, Some(Frozen(c.bound)), fails).decision == Replay
  {
    ContinueCompletes(d, m, c);
    ContinueChecked(d, m, c);
    ContinueSafe(d, c);
    EndIsValid(d, ContinuePlan(d, c).effects);
    assert c.tx != "";
    hide Valid, FreshTx, ContinuePlan, CurrentAuthority, Run, Reconcile, ValidJobId, GenerationMatches, Continued;
    ContinuationIsReplayed(d, m, ContinuePlan(d, c).effects, Continue, c.key, c.tx, ContinueRequest(m, c, d.incar),
                           c.reply.id, c.mtime, fails);
  }

  lemma EndIsValid(d: Job, es: seq<Effect>)
    requires Safe(d, es)
    ensures Valid(Run(d, es))
  {
    SafePrefix(d, es, |es|);
    assert es[..|es|] == es;
  }

  lemma ContinuationIsReplayed(d: Job, m: Manifest, es: seq<Effect>, action: ActionKind, key: string, tx: string, r: Request,
                               id: string, mtime: Option<int>, fails: bool)
    requires (action == Continue || action == Tune) && key != "" && tx != "" && id != "" && Valid(Run(d, es))
    requires r.profile == m.binding && m.binding != "" && r.remote == m.remote && m.remote != "" && r.incarTarget != ""
    requires Concluded(d, Run(d, es), OperationFor(m, action, key, tx, r), id, id,
                       Continued(Rebased(m, mtime), AttemptFor(m, KindOf(action), key, tx, r), id))
    ensures var end := Run(d, es);
            && end.manifest.Some?
            && Reconcile(end, end.manifest.value, action, key, Some(r.intent), fails).decision == Replay
            && Reconcile(end.(journal := []), end.manifest.value, action, key, Some(r.intent), fails).decision == Replay
  {
    hide Run, Valid, GenerationMatches, LastHit, JournalOk, Reconcile;
    var end := Run(d, es);
    var n := end.manifest.value;
    var op := end.journal[|end.journal| - 1];
    var a := n.attempts[|m.attempts|];
    ValidJournal(end);
    ContinuedMatches(m, n, KindOf(action), key, tx, r, id, mtime, op);
    ContinuedMatches(m, n, KindOf(action), key, tx, r, id, mtime, FromAttempt(action, a));
    assert Current(end, op) && a.key == key && a.intent == Some(r.intent) && |n.attempts| == |m.attempts| + 1;
    LastRecordReplays(end, n, op, Some(r.intent), fails);
    AttemptReplays(end.(journal := []), n, action, key, Some(r.intent), fails);
  }

  lemma TuneChecked(d: Job, m: Manifest, c: TuneCall)
    requires d.manifest == Some(m) && TunePlan(d, c).outcome == Completed
    ensures m.binding != "" && m.remote != "" && CurrentAuthority(m).Some? && c.newIncar != ""
  {
    hide Reconcile, Started, ValidKey, ValidJobId, CurrentAuthority, Continued, Marked;
  }

  lemma TuneIsReplayed(d: Job, m: Manifest, c: TuneCall, fails: bool)
    requires Valid(d) && d.manifest == Some(m) && FreshTx(d, c.tx) && FreshId(d, c.reply) && c.key != ""
    requires TunePlan(d, c).outcome == Completed
    ensures var end := Run(d, TunePlan(d, c).effects);
            && end.manifest.Some?
            && Reconcile(end, end.manifest.value, Tune, c.key, Some(TuneIntent(c)), fails).decision == Replay
            && Reconcile(end.(journal := []), end.manifest.value, Tune, c.key, Some(TuneIntent(c)), fails).decision == Replay
  {
    TuneCompletes(d, m, c);
    TuneChecked(d, m, c);
    TuneSafe(d, c);
    EndIsValid(d, TunePlan(d, c).effects);
    assert c.tx != "";
    hide Valid, FreshTx, TunePlan, CurrentAuthority, Run, Reconcile, ValidJobId, GenerationMatches, Continued;
    ContinuationIsReplayed(d, m, TunePlan(d, c).effects, Tune, c.key, c.tx, TuneRequest(m, c, d.incar), c.reply.id, c.mtime, fails);
  }

  lemma CancelIsReplayed(d: Job, m: Manifest, c: CancelCall, fails: bool)
    requires Valid(d) && d.manifest == Some(m) && FreshTx(d, c.tx) && c.key != "" && CancelPlan(d, c).outcome == Completed
    ensures var end := Run(d, CancelPlan(d, c).effects);
            && end.manifest.Some?
            && Reconcile(end, end.manifest.value, Cancel, c.key, None, fails).decision == Replay
            && Reconcile(end.(journal := []), end.manifest.value, Cancel, c.key, None, fails).decision == Replay
  {
    assert c.tx != "";
    hide Valid, FreshTx, CancelPlan, Run, Reconcile, Safe, Cancelled, JournalOk, LastHit, GenerationMatches;
    CancelCompletes(d, m, c);
    CancelSafe(d, c);
    EndIsValid(d, CancelPlan(d, c).effects);
    var end := Run(d, CancelPlan(d, c).effects);
    ValidJournal(end);
    CancellationIsReplayed(end, m, c.key, c.tx, end.journal[|end.journal| - 1], fails);
  }

  lemma CancellationIsReplayed(end: Job, m: Manifest, key: string, tx: string, op: Operation, fails: bool)
    requires key != "" && tx != "" && m.jobId != "" && end.manifest == Some(Cancelled(m, key, tx))
    requires JournalOk(end.journal) && Current(end, op) && (op.status == Succeeded || op.status == RemoteAccepted)
    requires op.action == Cancel && op.tx == tx && op.key == key && op.source == m.jobId
    ensures var n := end.manifest.value;
            && Reconcile(end, n, Cancel, key, None, fails).decision == Replay
            && Reconcile(end.(journal := []), n, Cancel, key, None, fails).decision == Replay
  {
    hide Reconcile, Cancelled, JournalOk, LastHit, GenerationMatches, Current;
    var n := end.manifest.value;
    CancelledMatches(m, n, key, tx, op);
    LastRecordReplays(end, n, op, None, fails);
    AttemptReplays(end.(journal := []), n, Cancel, key, None, fails);
  }

  lemma CancelledMatches(m: Manifest, n: Manifest, key: string, tx: string, op: Operation)
    requires n == Cancelled(m, key, tx) && tx != "" && m.jobId != ""
    requires op.action == Cancel && op.tx == tx && op.source == m.jobId
    ensures var k := |m.attempts|;
            && |n.attempts| == k + 1 && n.attempts[k].kind == CancelMark && n.attempts[k].key == key && n.attempts[k].intent == None
            && LastHit(ByTx(CancelMark, tx), n.attempts) == Some(k)
            && GenerationMatches(n, op, Some(k)) && GenerationMatches(n, FromAttempt(Cancel, n.attempts[k]), Some(k))
  {
    assert n.attempts[|m.attempts|].tx == tx;
  }

  lemma ValidJournal(d: Job)
    requires Valid(d)
    ensures JournalOk(d.journal)
  {
  }
}
