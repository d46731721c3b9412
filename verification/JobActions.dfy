/** Continue, tune and cancel: every effect, in every answer and every failure, keeps the job valid. */
module JobActions {
  import opened JobModel
  import opened JobPlans
  import opened JobSafety
  import JobRefresh

  ghost predicate FreshId(d: Job, reply: Reply) {
    reply.Id? && reply.id != "" ==> forall i :: 0 <= i < |d.sent| ==> d.sent[i].id != reply.id
  }

  /** A record that may be started on the job: new, prepared, of an action and key not accepted before. */
  ghost predicate Startable(d: Job, op: Operation, ops: seq<Operation>) {
    && Valid(d) && FreshTx(d, op.tx) && op.status == Prepared && Unused(d.sent, op.action, op.key)
    && Started(d.journal, op) == Some(ops) && NewKey(d.journal, op.key)
  }

  predicate NewKey(ops: seq<Operation>, key: string) {
    key == "" || forall i :: 0 <= i < |ops| ==> ops[i].key != key
  }

  function Prefix(ops: seq<Operation>, before: seq<Effect>): seq<Effect> {
    [WriteJournal(ops)] + before
  }

  /** The local INCAR may be replaced before the command is sent. */
  predicate IncarOnly(before: seq<Effect>) {
    before == [] || (|before| == 1 && before[0].WriteIncar?)
  }

  function WithIncar(d: Job, before: seq<Effect>): Job
    requires IncarOnly(before)
  {
    if before == [] then d else d.(incar := before[0].digest)
  }

  lemma Prepares(d: Job, op: Operation, ops: seq<Operation>, before: seq<Effect>)
    requires Startable(d, op, ops) && IncarOnly(before)
    ensures var at := WithIncar(d.(journal := ops), before);
            Leads(d, Prefix(ops, before), at) && Valid(at) && Current(at, op) && KeyAlone(at.journal, op.key)
  {
    StartKeeps(d, op);
    StartedShape(d.journal, op);
    assert KeyAlone(ops, op.key);
    hide Valid, Started;
    NoEffects(d);
    Snoc(d, [], d, WriteJournal(ops));
    assert [] + [WriteJournal(ops)] == [WriteJournal(ops)];
    var at := d.(journal := ops);
    if before != [] {
      IncarKeeps(at, before[0].digest);
      Snoc(d, [WriteJournal(ops)], at, before[0]);
      assert before == [before[0]];
    } else {
      assert [WriteJournal(ops)] + before == [WriteJournal(ops)];
    }
  }

  lemma IncarKeeps(d: Job, digest: string)
    requires Valid(d)
    ensures Valid(d.(incar := digest))
  {
    assert Attempts(d.(incar := digest)) == Attempts(d);
  }

  function Sending(ops: seq<Operation>, op: Operation, before: seq<Effect>, accepted: bool, id: string): seq<Effect> {
    Prefix(ops, before) + [SentBy(op, accepted, id)]
  }

  /** The job once the command arrived. */
  function AfterSend(d: Job, op: Operation, ops: seq<Operation>, before: seq<Effect>, accepted: bool, id: string): Job
    requires IncarOnly(before)
  {
    var at := WithIncar(d.(journal := ops), before);
    at.(sent := at.sent + [SentBy(op, accepted, id).c])
  }

  lemma Sends(d: Job, op: Operation, ops: seq<Operation>, before: seq<Effect>, accepted: bool, id: string)
    requires Startable(d, op, ops) && IncarOnly(before)
    requires id != "" ==> forall i :: 0 <= i < |d.sent| ==> d.sent[i].id != id
    ensures var at := AfterSend(d, op, ops, before, accepted, id);
            Leads(d, Sending(ops, op, before, accepted, id), at) && Valid(at) && Current(at, op)
  {
    Prepares(d, op, ops, before);
    var at := WithIncar(d.(journal := ops), before);
    assert at.sent == d.sent;
    SendKeeps(at, op, SentBy(op, accepted, id).c);
    hide Valid, Leads, Started, Prefix;
    Snoc(d, Prefix(ops, before), at, SentBy(op, accepted, id));
  }

  lemma UnknownSafe(d: Job, es: seq<Effect>, at: Job, ops: seq<Operation>, op: Operation, fails: bool)
    requires Leads(d, es, at) && Valid(at) && Current(at, op) && at.journal == ops
    ensures Safe(d, es + MarkUnknown(ops, op.tx, fails))
  {
    MarkKeeps(at, op, Unknown, "");
    hide Valid, Marked, Current;
    if fails {
      assert es + [] == es;
    } else {
      Snoc(d, es, at, WriteJournal(Marked(ops, op.tx, Unknown, "")));
    }
  }

  /** Whatever is unclear after the record was prepared leaves the job valid. */
  lemma UnsureSafe(d: Job, op: Operation, ops: seq<Operation>, before: seq<Effect>, sent: Option<bool>, f: Faults)
    requires Startable(d, op, ops) && IncarOnly(before)
    ensures Safe(d, Unsure(ops, op, before + (if sent.None? then [] else [SentBy(op, sent.value, "")]), f).effects)
  {
    hide Valid, Startable, Safe, Leads, Current, MarkUnknown;
    if sent.None? {
      Prepares(d, op, ops, before);
      UnknownSafe(d, Prefix(ops, before), WithIncar(d.(journal := ops), before), ops, op, f.unknown);
      assert before + [] == before;
    } else {
      Sends(d, op, ops, before, sent.value, "");
      UnknownSafe(d, Sending(ops, op, before, sent.value, ""), AfterSend(d, op, ops, before, sent.value, ""), ops, op,
                  f.unknown);
      assert Sending(ops, op, before, sent.value, "") == [WriteJournal(ops)] + (before + [SentBy(op, sent.value, "")]);
    }
  }

  /** The manifest to save proves the record: saving it keeps the job valid, and it has the attempt. */
  ghost predicate Saves(at: Job, op: Operation, m: Manifest) {
    Valid(at.(manifest := Some(m))) && HasAttempt(m.attempts, KindOf(op.action), op.key, op.tx)
  }

  function Noting(ops: seq<Operation>, op: Operation, before: seq<Effect>, id: string, result: string): seq<Effect> {
    Sending(ops, op, before, true, id) + [WriteJournal(Marked(ops, op.tx, RemoteAccepted, result))]
  }

  function AfterNote(d: Job, op: Operation, ops: seq<Operation>, before: seq<Effect>, id: string, result: string): Job
    requires IncarOnly(before)
  {
    AfterSend(d, op, ops, before, true, id).(journal := Marked(ops, op.tx, RemoteAccepted, result))
  }

  /** The acceptance is in the journal. */
  lemma Notes(d: Job, op: Operation, ops: seq<Operation>, before: seq<Effect>, id: string, result: string)
    requires Startable(d, op, ops) && IncarOnly(before)
    requires id != "" ==> forall i :: 0 <= i < |d.sent| ==> d.sent[i].id != id
    ensures Leads(d, Noting(ops, op, before, id, result), AfterNote(d, op, ops, before, id, result))
    ensures var at := AfterNote(d, op, ops, before, id, result);
            Valid(at) && Current(at, op.(status := RemoteAccepted, result := result))
  {
    Sends(d, op, ops, before, true, id);
    var at := AfterSend(d, op, ops, before, true, id);
    MarkKeeps(at, op, RemoteAccepted, result);
    hide Valid, Marked, Current, Startable, Started, Sending;
    Snoc(d, Sending(ops, op, before, true, id), at, WriteJournal(Marked(ops, op.tx, RemoteAccepted, result)));
  }

  /** The manifest is saved, then the record is finished. */
  lemma Finishes(d: Job, es: seq<Effect>, at: Job, op: Operation, m: Manifest, result: string)
    requires Leads(d, es, at) && Valid(at) && Current(at, op) && Saves(at, op, m)
    ensures Safe(d, es + [SaveManifest(m)])
    ensures Safe(d, es + [SaveManifest(m)] + [WriteJournal(Marked(at.journal, op.tx, Succeeded, result))])
  {
    hide Valid, Marked, Current, HasAttempt, Leads, Saves;
    var saved := at.(manifest := Some(m));
    var done := Marked(at.journal, op.tx, Succeeded, result);
    FinishReady(at, op, m);
    MarkKeeps(saved, op, Succeeded, result);
    Snoc(d, es, at, SaveManifest(m));
    Snoc(d, es + [SaveManifest(m)], saved, WriteJournal(done));
    LeadsIsSafe(d, es + [SaveManifest(m)], saved);
    LeadsIsSafe(d, es + [SaveManifest(m)] + [WriteJournal(done)], saved.(journal := done));
  }

  lemma FinishReady(at: Job, op: Operation, m: Manifest)
    requires Current(at, op) && Saves(at, op, m)
    ensures var saved := at.(manifest := Some(m));
            Valid(saved) && Current(saved, op) && HasAttempt(Attempts(saved), KindOf(op.action), op.key, op.tx)
  {
    hide Valid, HasAttempt;
  }

  lemma LeadsIsSafe(d: Job, es: seq<Effect>, at: Job)
    requires Leads(d, es, at)
    ensures Safe(d, es)
  {
  }

  /** After acceptance: each of the three writes may be the last. */
  lemma AcceptedSafe(d: Job, op: Operation, ops: seq<Operation>, before: seq<Effect>, id: string, result: string,
                     m: Option<Manifest>, f: Faults)
    requires Startable(d, op, ops) && IncarOnly(before)
    requires id != "" ==> forall i :: 0 <= i < |d.sent| ==> d.sent[i].id != id
    requires m.Some? ==> Saves(AfterNote(d, op, ops, before, id, result),
                               op.(status := RemoteAccepted, result := result), m.value)
    ensures Safe(d, Accepted(ops, op, before, SentBy(op, true, id), result, m, f).effects)
  {
    Sends(d, op, ops, before, true, id);
    Notes(d, op, ops, before, id, result);
    var noting := Noting(ops, op, before, id, result);
    if m.Some? {
      Finishes(d, noting, AfterNote(d, op, ops, before, id, result), op.(status := RemoteAccepted, result := result),
               m.value, result);
    }
    AcceptedShape(ops, op, before, id, result, m, f);
  }

  lemma AcceptedShape(ops: seq<Operation>, op: Operation, before: seq<Effect>, id: string, result: string,
                      m: Option<Manifest>, f: Faults)
    ensures var es := Accepted(ops, op, before, SentBy(op, true, id), result, m, f).effects;
            var noting := Noting(ops, op, before, id, result);
            || es == Sending(ops, op, before, true, id)
            || es == noting
            || (m.Some? && es == noting + [SaveManifest(m.value)])
            || (m.Some? && es == noting + [SaveManifest(m.value)]
                                 + [WriteJournal(Marked(Marked(ops, op.tx, RemoteAccepted, result), op.tx, Succeeded, result))])
  {
  }

  // ---- the continuations ------------------------------------------------------------------

  /** The new attempt without its id is fit to continue m. */
  ghost predicate FitAttempt(m: Manifest, a: Attempt, op: Operation) {
    && m.jobId != "" && a.tx == op.tx && a.key == op.key && a.kind == KindOf(op.action)
    && (a.incar != "" ==> Continues(m, a.(jobId := "-")))
  }

  lemma ContinueSaves(d: Job, m: Manifest, op: Operation, ops: seq<Operation>, before: seq<Effect>, a: Attempt,
                      id: string, mtime: Option<int>)
    requires Startable(d, op, ops) && IncarOnly(before) && d.manifest == Some(m)
    requires id != "" && forall i :: 0 <= i < |d.sent| ==> d.sent[i].id != id
    requires FitAttempt(m, a, op) && a.incar != ""
    ensures Saves(AfterNote(d, op, ops, before, id, id), op.(status := RemoteAccepted, result := id),
                  Continued(Rebased(m, mtime), a, id))
  {
    Notes(d, op, ops, before, id, id);
    var at := AfterNote(d, op, ops, before, id, id);
    var n := Continued(Rebased(m, mtime), a, id);
    var attempt := n.attempts[|m.attempts|];
    assert at.sent[|d.sent|] == SentBy(op, true, id).c;
    assert AcceptedIn(at.sent, Act(op.action), id);
    assert CommandIn(at.sent, op.action, op.key, op.tx);
    hide Valid, Current, Startable, AcceptedIn, CommandIn;
    ContinueSaveKeeps(at, m, n, attempt, op.(status := RemoteAccepted, result := id));
  }

  lemma ResubmitSafe(d: Job, m: Manifest, op: Operation, ops: seq<Operation>, before: seq<Effect>, a: Attempt,
                     mtime: Option<int>, reply: Reply, f: Faults)
    requires Startable(d, op, ops) && IncarOnly(before) && d.manifest == Some(m)
    requires FreshId(d, reply) && FitAttempt(m, a, op)
    ensures Safe(d, Resubmit(ops, op, before, Rebased(m, mtime), a, reply, f).effects)
  {
    hide Startable, FitAttempt, Accepted, Unsure, Safe, Continued;
    match reply {
      case NotSent =>
        UnsureSafe(d, op, ops, before, None, f);
        assert before + [] == before;
      case Lost(accepted) => UnsureSafe(d, op, ops, before, Some(accepted), f);
      case Refused => UnsureSafe(d, op, ops, before, Some(false), f);
      case NoId(accepted) => UnsureSafe(d, op, ops, before, Some(accepted), f);
      case Id(id) =>
        if id == "" {
          UnsureSafe(d, op, ops, before, Some(true), f);
        } else {
          var n := if ValidJobId(id) && a.incar != "" then Some(Continued(Rebased(m, mtime), a, id)) else None;
          if n.Some? { ContinueSaves(d, m, op, ops, before, a, id, mtime); }
          AcceptedSafe(d, op, ops, before, id, id, n, f);
        }
    }
  }

  // ---- from reconciliation on ---------------------------------------------------------------

  /** The job once reconciliation wrote what it settled. */
  function AfterGate(d: Job, g: Gate): Job {
    d.(journal := g.journal)
  }

  /** The journal after the gate is the settled one or the old one; both bear the same ids and keys. */
  lemma GateShape(d: Job, m: Manifest, action: ActionKind, key: string, intent: Option<Intent>, fails: bool)
    ensures var g := Reconcile(d, m, action, key, intent, fails);
            && |g.journal| == |d.journal|
            && (forall i :: 0 <= i < |d.journal| ==> g.journal[i].tx == d.journal[i].tx && g.journal[i].key == d.journal[i].key)
            && (if g.effects == [] then g.journal == d.journal
                else Settle(m, d.journal) == Some(g.journal) && g.effects == [WriteJournal(g.journal)])
  {
    hide Decide, Settleable;
  }

  lemma GateKeeps(d: Job, m: Manifest, action: ActionKind, key: string, intent: Option<Intent>, fails: bool)
    requires Valid(d) && d.manifest == Some(m)
    ensures var g := Reconcile(d, m, action, key, intent, fails);
            && Leads(d, g.effects, AfterGate(d, g)) && Valid(AfterGate(d, g)) && Safe(AfterGate(d, g), [])
            && |g.journal| == |d.journal|
            && (forall i :: 0 <= i < |d.journal| ==> g.journal[i].tx == d.journal[i].tx)
            && (g.decision == Proceed ==> Unused(d.sent, action, key) && NewKey(g.journal, key))
  {
    hide Valid, Safe, Leads, Settle, Reconcile, Unused;
    var g := Reconcile(d, m, action, key, intent, fails);
    GateShape(d, m, action, key, intent, fails);
    if g.decision == Proceed { ProceedMeansUnused(d, m, action, key, intent, fails); }
    NoEffects(d);
    if g.effects != [] {
      SettleKeeps(d, m);
      Snoc(d, [], d, WriteJournal(g.journal));
      assert [] + [WriteJournal(g.journal)] == [WriteJournal(g.journal)];
    } else {
      assert AfterGate(d, g) == d;
    }
    NoEffects(AfterGate(d, g));
  }

  /** What follows the gate is safe from where the gate leads. */
  lemma GateThen(d: Job, g: Gate, rest: seq<Effect>)
    requires Leads(d, g.effects, AfterGate(d, g)) && Safe(AfterGate(d, g), rest)
    ensures Safe(d, g.effects + rest)
  {
    Joined(d, g.effects, AfterGate(d, g), rest, Run(AfterGate(d, g), rest));
  }

  lemma GateStarts(d: Job, m: Manifest, op: Operation, ops: seq<Operation>, intent: Option<Intent>, fails: bool)
    requires Valid(d) && d.manifest == Some(m) && FreshTx(d, op.tx) && op.status == Prepared
    requires var g := Reconcile(d, m, op.action, op.key, intent, fails);
             g.decision == Proceed && Started(g.journal, op) == Some(ops)
    ensures var g := Reconcile(d, m, op.action, op.key, intent, fails); Startable(AfterGate(d, g), op, ops)
  {
    GateKeeps(d, m, op.action, op.key, intent, fails);
    hide Valid, Reconcile, Unused;
  }

  /** A frozen continuation keeps the authorised INCAR and never starts from a finished run. */
  lemma ContinueFits(d: Job, m: Manifest, c: ContinueCall)
    requires Valid(d) && d.manifest == Some(m) && CurrentAuthority(m).Some? && m.jobId != "" && c.tx != ""
    requires ContinueRefusal(d, m, c, CurrentAuthority(m).value).None?
    ensures var r := ContinueRequest(m, c, CurrentAuthority(m).value);
            FitAttempt(m, AttemptFor(m, ContcarRestart, c.key, c.tx, r), OperationFor(m, Continue, c.key, c.tx, r))
  {
    assert ManifestOk(m);
    assert m.authority.Some? && m.authority.value.incar == CurrentAuthority(m).value;
  }

  lemma ContinueResubmitSafe(d: Job, m: Manifest, c: ContinueCall, gate: Gate, authority: string, ops: seq<Operation>)
    requires Valid(d) && FreshTx(d, c.tx) && FreshId(d, c.reply) && d.manifest == Some(m) && m.jobId != ""
    requires CurrentAuthority(m) == Some(authority) && ContinueRefusal(d, m, c, authority).None?
    requires gate == Reconcile(d, m, Continue, c.key, Some(Frozen(c.bound)), c.faults.settle) && gate.decision == Proceed
    requires Started(gate.journal, OperationFor(m, Continue, c.key, c.tx, ContinueRequest(m, c, authority))) == Some(ops)
    ensures var r := ContinueRequest(m, c, authority);
            var a := AttemptFor(m, ContcarRestart, c.key, c.tx, r);
            var op := OperationFor(m, Continue, c.key, c.tx, r);
            Safe(AfterGate(d, gate), Resubmit(ops, op, [], Rebased(m, c.mtime), a, c.reply, c.faults).effects)
  {
    assert c.tx != "";
    hide Valid, Safe, Reconcile, Resubmit, Started, CurrentAuthority, ContinueRefusal, FitAttempt, Startable, FreshTx;
    var r := ContinueRequest(m, c, authority);
    var op := OperationFor(m, Continue, c.key, c.tx, r);
    ContinueFits(d, m, c);
    GateStarts(d, m, op, ops, Some(Frozen(c.bound)), c.faults.settle);
    ResubmitSafe(AfterGate(d, gate), m, op, ops, [], AttemptFor(m, ContcarRestart, c.key, c.tx, r), c.mtime, c.reply, c.faults);
  }

  lemma ContinueRestSafe(d: Job, m: Manifest, c: ContinueCall, gate: Gate)
    requires Valid(d) && FreshTx(d, c.tx) && FreshId(d, c.reply) && d.manifest == Some(m)
    requires CurrentAuthority(m).Some? && m.jobId != ""
    requires gate == Reconcile(d, m, Continue, c.key, Some(Frozen(c.bound)), c.faults.settle) && gate.decision == Proceed
    ensures Safe(AfterGate(d, gate), ContinueRest(d, m, c, CurrentAuthority(m).value, gate.journal).effects)
  {
    hide Valid, Safe, Leads, Reconcile, Resubmit, Started, CurrentAuthority, ContinueRefusal, FreshTx, FreshId;
    hide ContinueRequest, OperationFor, AttemptFor;
    var authority := CurrentAuthority(m).value;
    GateKeeps(d, m, Continue, c.key, Some(Frozen(c.bound)), c.faults.settle);
    OverlapSafe(AfterGate(d, gate), m);
    var ops := Started(gate.journal, OperationFor(m, Continue, c.key, c.tx, ContinueRequest(m, c, authority)));
    if ContinueRefusal(d, m, c, authority).None? && ops.Some? {
      ContinueResubmitSafe(d, m, c, gate, authority, ops.value);
    }
  }

  lemma ThroughSafe(d: Job, m: Manifest, action: ActionKind, key: string, intent: Option<Intent>, fails: bool, rest: Plan)
    requires Valid(d) && d.manifest == Some(m)
    requires var gate := Reconcile(d, m, action, key, intent, fails);
             gate.decision == Proceed ==> Safe(AfterGate(d, gate), rest.effects)
    ensures Safe(d, Through(Reconcile(d, m, action, key, intent, fails), rest).effects)
  {
    var gate := Reconcile(d, m, action, key, intent, fails);
    GateKeeps(d, m, action, key, intent, fails);
    if gate.decision == Proceed { GateThen(d, gate, rest.effects); }
  }

  lemma ContinueSafe(d: Job, c: ContinueCall)
    requires Valid(d) && FreshTx(d, c.tx) && FreshId(d, c.reply)
    ensures Safe(d, ContinuePlan(d, c).effects)
  {
    hide Valid, Safe, FreshTx, FreshId, Reconcile, ContinueRest, CurrentAuthority, Through;
    NoEffects(d);
    if d.manifest.Some? && CurrentAuthority(d.manifest.value).Some? && ValidJobId(d.manifest.value.jobId) {
      var m := d.manifest.value;
      var gate := Reconcile(d, m, Continue, c.key, Some(Frozen(c.bound)), c.faults.settle);
      if gate.decision == Proceed { ContinueRestSafe(d, m, c, gate); }
      ThroughSafe(d, m, Continue, c.key, Some(Frozen(c.bound)), c.faults.settle,
                  ContinueRest(d, m, c, CurrentAuthority(m).value, gate.journal));
    }
  }

  lemma OverlapSafe(d: Job, m: Manifest)
    requires Valid(d) && d.manifest == Some(m)
    ensures Safe(d, [SaveManifest(m.(state := NeedsHuman))])
  {
    EventSaveKeeps(d, m, m.(state := NeedsHuman), JobRefresh.FailureAttempt);
    NoEffects(d);
    Snoc(d, [], d, SaveManifest(m.(state := NeedsHuman)));
    assert [] + [SaveManifest(m.(state := NeedsHuman))] == [SaveManifest(m.(state := NeedsHuman))];
  }

  lemma TuneFits(d: Job, m: Manifest, c: TuneCall)
    requires Valid(d) && d.manifest == Some(m) && CurrentAuthority(m).Some? && m.jobId != "" && c.tx != ""
    requires TuneRefusal(d, m, c, CurrentAuthority(m).value).None?
    ensures var r := TuneRequest(m, c, CurrentAuthority(m).value);
            FitAttempt(m, AttemptFor(m, TunedRestart, c.key, c.tx, r), OperationFor(m, Tune, c.key, c.tx, r))
  {
  }

  lemma TuneResubmitSafe(d: Job, m: Manifest, c: TuneCall, gate: Gate, authority: string, ops: seq<Operation>,
                         before: seq<Effect>)
    requires Valid(d) && FreshTx(d, c.tx) && FreshId(d, c.reply) && d.manifest == Some(m) && m.jobId != ""
    requires CurrentAuthority(m) == Some(authority) && TuneRefusal(d, m, c, authority).None? && IncarOnly(before)
    requires gate == Reconcile(d, m, Tune, c.key, Some(TuneIntent(c)), c.faults.settle) && gate.decision == Proceed
    requires Started(gate.journal, OperationFor(m, Tune, c.key, c.tx, TuneRequest(m, c, authority))) == Some(ops)
    ensures var r := TuneRequest(m, c, authority);
            var a := AttemptFor(m, TunedRestart, c.key, c.tx, r);
            var op := OperationFor(m, Tune, c.key, c.tx, r);
            Safe(AfterGate(d, gate), Resubmit(ops, op, before, Rebased(m, c.mtime), a, c.reply, c.faults).effects)
  {
    assert c.tx != "";
    hide Valid, Safe, Reconcile, Resubmit, Started, CurrentAuthority, TuneRefusal, FitAttempt, Startable, FreshTx;
    var r := TuneRequest(m, c, authority);
    var op := OperationFor(m, Tune, c.key, c.tx, r);
    TuneFits(d, m, c);
    GateStarts(d, m, op, ops, Some(TuneIntent(c)), c.faults.settle);
    ResubmitSafe(AfterGate(d, gate), m, op, ops, before, AttemptFor(m, TunedRestart, c.key, c.tx, r), c.mtime, c.reply, c.faults);
  }

  lemma TuneRestSafe(d: Job, m: Manifest, c: TuneCall, gate: Gate)
    requires Valid(d) && FreshTx(d, c.tx) && FreshId(d, c.reply) && d.manifest == Some(m)
    requires CurrentAuthority(m).Some? && m.jobId != ""
    requires gate == Reconcile(d, m, Tune, c.key, Some(TuneIntent(c)), c.faults.settle) && gate.decision == Proceed
    ensures Safe(AfterGate(d, gate), TuneRest(d, m, c, CurrentAuthority(m).value, gate.journal).effects)
  {
    hide Valid, Safe, Leads, Reconcile, Resubmit, Started, CurrentAuthority, TuneRefusal, FreshTx, FreshId;
    hide TuneRequest, OperationFor, AttemptFor;
    var authority := CurrentAuthority(m).value;
    GateKeeps(d, m, Tune, c.key, Some(TuneIntent(c)), c.faults.settle);
    var before := if c.reply.NotSent? && !c.wroteIncar then [] else [WriteIncar(c.newIncar)];
    var ops := Started(gate.journal, OperationFor(m, Tune, c.key, c.tx, TuneRequest(m, c, authority)));
    if TuneRefusal(d, m, c, authority).None? && ops.Some? {
      TuneResubmitSafe(d, m, c, gate, authority, ops.value, before);
    }
  }

  lemma TuneSafe(d: Job, c: TuneCall)
    requires Valid(d) && FreshTx(d, c.tx) && FreshId(d, c.reply)
    ensures Safe(d, TunePlan(d, c).effects)
  {
    hide Valid, Safe, FreshTx, FreshId, Reconcile, TuneRest, CurrentAuthority, Through;
    NoEffects(d);
    if d.manifest.Some? && CurrentAuthority(d.manifest.value).Some? && ValidJobId(d.manifest.value.jobId) {
      var m := d.manifest.value;
      var gate := Reconcile(d, m, Tune, c.key, Some(TuneIntent(c)), c.faults.settle);
      if gate.decision == Proceed { TuneRestSafe(d, m, c, gate); }
      ThroughSafe(d, m, Tune, c.key, Some(TuneIntent(c)), c.faults.settle,
                  TuneRest(d, m, c, CurrentAuthority(m).value, gate.journal));
    }
  }

  // ---- cancellation ----------------------------------------------------------------------

  lemma CancelSaves(d: Job, m: Manifest, op: Operation, ops: seq<Operation>)
    requires Startable(d, op, ops) && d.manifest == Some(m) && op.action == Cancel
    ensures Saves(AfterNote(d, op, ops, [], "", m.jobId), op.(status := RemoteAccepted, result := m.jobId),
                  Cancelled(m, op.key, op.tx))
  {
    Notes(d, op, ops, [], "", m.jobId);
    var at := AfterNote(d, op, ops, [], "", m.jobId);
    var n := Cancelled(m, op.key, op.tx);
    var a := n.attempts[|m.attempts|];
    HasAttemptExtends(m.attempts, a, CancelMark, op.key, op.tx);
    assert n.attempts == m.attempts + [a];
    assert at.sent[|d.sent|] == SentBy(op, true, "").c;
    assert CommandIn(at.sent, Cancel, op.key, op.tx);
    hide Startable, HasAttempt;
    CancelKey(at, op.(status := RemoteAccepted, result := m.jobId));
    EventSaveKeeps(at, m, n, a);
  }

  lemma CancelKey(d: Job, op: Operation)
    requires Valid(d) && Current(d, op)
    ensures forall i :: 0 <= i < |d.journal| && d.journal[i].tx == op.tx ==> d.journal[i].key == op.key
  {
  }

  /** A command that came back with an error was not accepted: the record may be closed as rejected. */
  lemma RejectSafe(d: Job, op: Operation, ops: seq<Operation>, result: string)
    requires Startable(d, op, ops)
    ensures Safe(d, [WriteJournal(ops), SentBy(op, false, ""), WriteJournal(Marked(ops, op.tx, Rejected, result))])
  {
    Sends(d, op, ops, [], false, "");
    var at := AfterSend(d, op, ops, [], false, "");
    assert forall i :: 0 <= i < |d.sent| ==> d.sent[i].tx != op.tx;
    MarkKeeps(at, op, Rejected, result);
    hide Valid, Startable, Marked, Current;
    Snoc(d, Sending(ops, op, [], false, ""), at, WriteJournal(Marked(ops, op.tx, Rejected, result)));
    var last := WriteJournal(Marked(ops, op.tx, Rejected, result));
    assert Sending(ops, op, [], false, "") + [last] == [WriteJournal(ops), SentBy(op, false, ""), last];
  }

  lemma CancelCommandSafe(d: Job, m: Manifest, op: Operation, ops: seq<Operation>, c: CancelCall)
    requires Startable(d, op, ops) && d.manifest == Some(m) && op.action == Cancel && op.key == c.key && op.tx == c.tx
    ensures Safe(d, CancelCommand(ops, op, m, c).effects)
  {
    hide Startable, Accepted, Unsure, Safe, Cancelled;
    match c.reply {
      case NotSent =>
        UnsureSafe(d, op, ops, [], None, c.faults);
        var none: seq<Effect> := [];
        assert none + [] == none;
      case Lost(accepted) =>
        UnsureSafe(d, op, ops, [], Some(accepted), c.faults);
        assert [] + [SentBy(op, accepted, "")] == [SentBy(op, accepted, "")];
      case Refused =>
        UnsureSafe(d, op, ops, [], Some(false), c.faults);
        assert [] + [SentBy(op, false, "")] == [SentBy(op, false, "")];
        RejectSafe(d, op, ops, m.jobId);
      case _ =>
        CancelSaves(d, m, op, ops);
        AcceptedSafe(d, op, ops, [], "", m.jobId, Some(Cancelled(m, c.key, c.tx)), c.faults);
    }
  }

  lemma CancelRestSafe(d: Job, m: Manifest, c: CancelCall, gate: Gate)
    requires Valid(d) && FreshTx(d, c.tx) && d.manifest == Some(m)
    requires gate == Reconcile(d, m, Cancel, c.key, None, c.faults.settle) && gate.decision == Proceed
    ensures Safe(AfterGate(d, gate), CancelRest(m, c, gate.journal).effects)
  {
    hide Valid, Safe, Leads, Reconcile, Started, CancelCommand, Startable, Current, FreshTx;
    GateKeeps(d, m, Cancel, c.key, None, c.faults.settle);
    var op := Operation(c.tx, Cancel, Prepared, c.key, m.jobId, "", None, None, None);
    var ops := Started(gate.journal, op);
    if m.jobId != "" && ops.Some? {
      GateStarts(d, m, op, ops.value, None, c.faults.settle);
      CancelCommandSafe(AfterGate(d, gate), m, op, ops.value, c);
    }
  }

  lemma CancelSafe(d: Job, c: CancelCall)
    requires Valid(d) && FreshTx(d, c.tx)
    ensures Safe(d, CancelPlan(d, c).effects)
  {
    hide Valid, Safe, FreshTx, Reconcile, CancelRest, Through;
    NoEffects(d);
    if d.manifest.Some? {
      var m := d.manifest.value;
      var gate := Reconcile(d, m, Cancel, c.key, None, c.faults.settle);
      if gate.decision == Proceed { CancelRestSafe(d, m, c, gate); }
      ThroughSafe(d, m, Cancel, c.key, None, c.faults.settle, CancelRest(m, c, gate.journal));
    }
  }
}
