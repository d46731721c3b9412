/** Whole runs of a job: any calls, any answers, any failed writes, a crash anywhere in each. */
module JobRuns {
  import opened JobModel
  import opened JobPlans
  import opened JobSafety
  import opened JobActions
  import JobRefresh
  import Diagnosis

  // ---- submission -----------------------------------------------------------------------

  lemma RecoveryKeeps(d: Job, r: Option<Recovery>)
    requires Valid(d) && Guarded(r, Attempts(d), d.sent)
    ensures Valid(d.(recovery := r))
  {
    assert Attempts(d.(recovery := r)) == Attempts(d);
    hide Guarded, Known, Proved, Owned, Once, Backed, JournalOk, ManifestOk;
  }

  lemma SubmitSendKeeps(d: Job, c: Command)
    requires Valid(d) && c.kind == Submit && !SubmitSentIn(d.sent)
    requires d.recovery.Some? && d.recovery.value.status != Preparing
    requires c.id != "" ==> forall i :: 0 <= i < |d.sent| ==> d.sent[i].id != c.id
    ensures Valid(d.(sent := d.sent + [c]))
  {
    var next := d.sent + [c];
    SentOnce(d.sent, c);
    SentElse(d, c);
    assert Known(d.journal, Attempts(d), next) by {
      forall i | 0 <= i < |next| && next[i].kind.Act? && next[i].accepted
        ensures HasRecord(d.journal, next[i].kind.action, next[i].key, next[i].tx)
                || HasAttempt(Attempts(d), KindOf(next[i].kind.action), next[i].key, next[i].tx)
      {
        assert next[i] == d.sent[i];
      }
    }
    hide Guarded, Known, Proved, Owned, Once, Backed, JournalOk, ManifestOk;
  }

  /** A manifest that may be submitted has neither attempts nor generations. */
  lemma UploadSaves(d: Job, m: Manifest, c: SubmitCall)
    requires Valid(d) && d.manifest == Some(m) && Submittable(m)
    ensures Valid(d.(manifest := Some(AfterUpload(m, c))))
  {
    hide Guarded, Known, Proved, Owned, Once, Backed, JournalOk;
    assert Generations(m.attempts) == [];
  }

  lemma SubmitSaves(d: Job, m: Manifest, c: SubmitCall, id: string)
    requires Valid(d) && d.manifest == Some(m) && Submittable(m) && id != "" && m.preparedIncar != ""
    requires AcceptedIn(d.sent, Submit, id)
    ensures Valid(d.(manifest := Some(AfterSubmit(m, c, id))))
    ensures AfterSubmit(m, c, id).attempts != []
  {
    var n := AfterSubmit(m, c, id);
    var a := n.attempts[0];
    assert n.attempts == m.attempts + [a];
    GenerationsExtend(m.attempts, a);
    AttemptAdded(d.journal, m.attempts, a, d.sent);
    OwnedExtends(m.attempts, a, d.sent);
    BackedExtends(m.attempts, a, d.sent);
    SubmittedOk(m, n, a);
    hide Known, Proved, Owned, Once, Backed, JournalOk, ManifestOk, AcceptedIn;
  }

  lemma SubmittedOk(m: Manifest, n: Manifest, a: Attempt)
    requires ManifestOk(m) && m.attempts == [] && n.attempts == [a]
    requires a.kind == Submission && a.jobId != "" && a.incar != "" && a.round == 0 && a.intent == None
    requires n.jobId == a.jobId && n.rounds == m.rounds && n.state == Submitted
    requires n.authority.Some? && n.authority.value.jobId == a.jobId && n.authority.value.incar == a.incar
    ensures ManifestOk(n)
  {
    assert Generations([a]) == [a] by { assert [a][..0] == []; }
  }

  /** The job in the given phase of a submission. */
  function At(d: Job, r: Recovery, sent: seq<Command>, m: Manifest): Job {
    d.(recovery := Some(r), sent := sent, manifest := Some(m))
  }

  function PreparingFor(m: Manifest, c: SubmitCall): Recovery {
    Recovery(c.tx, Preparing, c.key, "", m.preparedIncar)
  }

  lemma LaunchStarts(d: Job, m: Manifest, c: SubmitCall)
    requires Valid(d) && d.manifest == Some(m) && Submittable(m) && d.recovery.None?
    ensures var p := PreparingFor(m, c); var s := p.(status := Submitting);
            && !SubmitSentIn(d.sent)
            && Safe(d, []) && Safe(d, [WriteRecovery(p)])
            && Leads(d, [WriteRecovery(p), WriteRecovery(s)], At(d, s, d.sent, m)) && Valid(At(d, s, d.sent, m))
  {
    var p := PreparingFor(m, c);
    var s := p.(status := Submitting);
    assert !SubmitSentIn(d.sent);
    RecoveryKeeps(d, Some(p));
    RecoveryKeeps(d.(recovery := Some(p)), Some(s));
    hide Valid, Guarded, Submittable, SubmitSentIn;
    NoEffects(d);
    Snoc(d, [], d, WriteRecovery(p));
    assert [] + [WriteRecovery(p)] == [WriteRecovery(p)];
    Snoc(d, [WriteRecovery(p)], d.(recovery := Some(p)), WriteRecovery(s));
    assert [WriteRecovery(p)] + [WriteRecovery(s)] == [WriteRecovery(p), WriteRecovery(s)];
  }

  function UnsureWrites(m: Manifest, c: SubmitCall): seq<Effect> {
    (if c.faults.unknown then []
     else [WriteRecovery(PreparingFor(m, c).(status := UnknownSubmission))])
    + (if c.faults.save then [] else [SaveManifest(AfterUpload(m, c))])
  }

  /** The recovery file of a submission under way may be advanced, and dropped once there is an attempt. */
  lemma RecoveryAdvances(d: Job, r: Recovery)
    requires Valid(d) && d.recovery.Some? && d.recovery.value.status == Submitting && r.status != Preparing
    requires r.status == SubmissionAccepted ==> AcceptedIn(d.sent, Submit, r.jobId)
    ensures Valid(d.(recovery := Some(r)))
  {
    RecoveryKeeps(d, Some(r));
  }

  lemma RecoveryDrops(d: Job)
    requires Valid(d) && Attempts(d) != []
    ensures Valid(d.(recovery := None))
  {
    RecoveryKeeps(d, None);
  }

  /** Not knowing how a submission ended: the recovery file and the uploaded state, each if it can be written. */
  lemma UnsureSubmissionSafe(d: Job, es: seq<Effect>, at: Job, m: Manifest, c: SubmitCall)
    requires Leads(d, es, at) && Valid(at) && at.manifest == Some(m) && Submittable(m)
    requires at.recovery == Some(PreparingFor(m, c).(status := Submitting))
    ensures Safe(d, es + UnsureWrites(m, c))
  {
    hide Valid, Submittable, Leads, AfterUpload;
    var u := PreparingFor(m, c).(status := UnknownSubmission);
    RecoveryAdvances(at, u);
    var mid := if c.faults.unknown then at else at.(recovery := Some(u));
    UploadSaves(mid, m, c);
    var save := SaveManifest(AfterUpload(m, c));
    var first := if c.faults.unknown then es else es + [WriteRecovery(u)];
    if !c.faults.unknown { Snoc(d, es, at, WriteRecovery(u)); }
    assert Leads(d, first, mid);
    LeadsIsSafe(d, first, mid);
    if c.faults.save {
      assert es + UnsureWrites(m, c) == first;
    } else {
      Snoc(d, first, mid, save);
      LeadsIsSafe(d, first + [save], Apply(mid, save));
      assert es + UnsureWrites(m, c) == first + [save];
    }
  }

  /** Once an id came back: recovery file, manifest, and the recovery file goes. */
  lemma AcceptedSubmissionSafe(d: Job, es: seq<Effect>, at: Job, m: Manifest, c: SubmitCall, id: string)
    requires Leads(d, es, at) && Valid(at) && at.manifest == Some(m) && Submittable(m) && m.preparedIncar != ""
    requires at.recovery == Some(PreparingFor(m, c).(status := Submitting)) && id != "" && AcceptedIn(at.sent, Submit, id)
    ensures var w := WriteRecovery(PreparingFor(m, c).(status := SubmissionAccepted, jobId := id));
            && Safe(d, es + [w]) && Safe(d, es + [w] + [SaveManifest(AfterSubmit(m, c, id))])
            && Safe(d, es + [w] + [SaveManifest(AfterSubmit(m, c, id))] + [ClearRecovery])
  {
    hide Valid, Submittable, AcceptedIn, Leads, AfterSubmit;
    var r := PreparingFor(m, c).(status := SubmissionAccepted, jobId := id);
    var n := AfterSubmit(m, c, id);
    RecoveryAdvances(at, r);
    var noted := at.(recovery := Some(r));
    SubmitSaves(noted, m, c, id);
    var saved := noted.(manifest := Some(n));
    RecoveryDrops(saved);
    Snoc(d, es, at, WriteRecovery(r));
    Snoc(d, es + [WriteRecovery(r)], noted, SaveManifest(n));
    Snoc(d, es + [WriteRecovery(r)] + [SaveManifest(n)], saved, ClearRecovery);
    LeadsIsSafe(d, es + [WriteRecovery(r)], noted);
    LeadsIsSafe(d, es + [WriteRecovery(r)] + [SaveManifest(n)], saved);
    LeadsIsSafe(d, es + [WriteRecovery(r)] + [SaveManifest(n)] + [ClearRecovery], saved.(recovery := None));
  }

  lemma LaunchSends(d: Job, m: Manifest, c: SubmitCall, accepted: bool, id: string)
    requires Valid(d) && d.manifest == Some(m) && Submittable(m) && d.recovery.None?
    requires id != "" ==> forall i :: 0 <= i < |d.sent| ==> d.sent[i].id != id
    ensures var s := PreparingFor(m, c).(status := Submitting);
            var at := At(d, s, d.sent + [SubmitSent(c, accepted, id).c], m);
            && Leads(d, [WriteRecovery(PreparingFor(m, c)), WriteRecovery(s)] + [SubmitSent(c, accepted, id)], at)
            && Valid(at) && (accepted ==> AcceptedIn(at.sent, Submit, id))
  {
    var s := PreparingFor(m, c).(status := Submitting);
    LaunchStarts(d, m, c);
    var at := At(d, s, d.sent, m);
    var cmd := SubmitSent(c, accepted, id).c;
    SubmitSendKeeps(at, cmd);
    assert (at.sent + [cmd])[|at.sent|] == cmd;
    hide Valid, SubmitSentIn;
    Snoc(d, [WriteRecovery(PreparingFor(m, c)), WriteRecovery(s)], at, SubmitSent(c, accepted, id));
  }

  lemma LaunchSafe(d: Job, m: Manifest, c: SubmitCall)
    requires Valid(d) && d.manifest == Some(m) && Submittable(m) && d.recovery.None? && m.preparedIncar != ""
    requires FreshId(d, c.reply)
    ensures Safe(d, Launch(m, c).effects)
  {
    LaunchStarts(d, m, c);
    hide Valid, Submittable, Safe, SubmitSentIn, Leads, Launch;
    if c.reply.Id? && c.reply.id != "" {
      IdLaunchSafe(d, m, c, c.reply.id);
    } else {
      UnsureLaunch(m, c);
      if c.reply.NotSent? {
        var p := PreparingFor(m, c);
        var s := p.(status := Submitting);
        UnsureSubmissionSafe(d, [WriteRecovery(p), WriteRecovery(s)], At(d, s, d.sent, m), m, c);
      } else {
        SentUnsure(d, m, c, MayBeAccepted(c.reply));
      }
    }
  }

  /** Whether a command without a usable answer was accepted. */
  function MayBeAccepted(r: Reply): bool {
    match r
    case Lost(accepted) => accepted
    case NoId(accepted) => accepted
    case Id(_) => true
    case _ => false
  }

  /** What a submission without a usable answer writes. */
  lemma UnsureLaunch(m: Manifest, c: SubmitCall)
    requires c.reply.Id? ==> c.reply.id == ""
    ensures var p := PreparingFor(m, c);
            var start := [WriteRecovery(p), WriteRecovery(p.(status := Submitting))];
            var es := Launch(m, c).effects;
            || es == [] || es == [WriteRecovery(p)]
            || (c.reply.NotSent? && es == start + UnsureWrites(m, c))
            || (!c.reply.NotSent? && es == start + [SubmitSent(c, MayBeAccepted(c.reply), "")] + UnsureWrites(m, c))
  {
  }

  lemma IdLaunchSafe(d: Job, m: Manifest, c: SubmitCall, id: string)
    requires Valid(d) && d.manifest == Some(m) && Submittable(m) && d.recovery.None? && m.preparedIncar != ""
    requires FreshId(d, c.reply) && c.reply == Id(id) && id != ""
    ensures Safe(d, Launch(m, c).effects)
  {
    LaunchStarts(d, m, c);
    LaunchSends(d, m, c, true, id);
    hide Valid, Submittable, Safe, SubmitSentIn, Leads, Launch, AcceptedIn;
    var p := PreparingFor(m, c);
    var s := p.(status := Submitting);
    var sent := [WriteRecovery(p), WriteRecovery(s)] + [SubmitSent(c, true, id)];
    var at := At(d, s, d.sent + [SubmitSent(c, true, id).c], m);
    AcceptedSubmissionSafe(d, sent, at, m, c, id);
    LeadsIsSafe(d, sent, at);
    AcceptedLaunch(m, c, id);
  }

  /** What a submission with an id writes. */
  lemma AcceptedLaunch(m: Manifest, c: SubmitCall, id: string)
    requires c.reply == Id(id) && id != ""
    ensures var p := PreparingFor(m, c); var s := p.(status := Submitting);
            var sent := [WriteRecovery(p), WriteRecovery(s)] + [SubmitSent(c, true, id)];
            var w := WriteRecovery(s.(status := SubmissionAccepted, jobId := id));
            var es := Launch(m, c).effects;
            || es == [] || es == [WriteRecovery(p)] || es == sent || es == sent + [w]
            || es == sent + [w] + [SaveManifest(AfterSubmit(m, c, id))]
            || es == sent + [w] + [SaveManifest(AfterSubmit(m, c, id))] + [ClearRecovery]
  {
  }

  lemma SentUnsure(d: Job, m: Manifest, c: SubmitCall, accepted: bool)
    requires Valid(d) && d.manifest == Some(m) && Submittable(m) && d.recovery.None?
    ensures var p := PreparingFor(m, c);
            Safe(d, [WriteRecovery(p), WriteRecovery(p.(status := Submitting))] + [SubmitSent(c, accepted, "")]
                    + UnsureWrites(m, c))
  {
    var p := PreparingFor(m, c);
    LaunchSends(d, m, c, accepted, "");
    UnsureSubmissionSafe(d, [WriteRecovery(p), WriteRecovery(p.(status := Submitting))] + [SubmitSent(c, accepted, "")],
                         At(d, p.(status := Submitting), d.sent + [SubmitSent(c, accepted, "").c], m), m, c);
  }

  lemma ReplayedSubmissionHasAttempt(d: Job, key: string)
    requires ReconcileSubmission(d, key) == Replay
    ensures Attempts(d) != []
  {
  }

  lemma SubmitSafe(d: Job, c: SubmitCall)
    requires Valid(d) && FreshId(d, c.reply)
    ensures Safe(d, SubmitPlan(d, c).effects)
  {
    hide Valid, FreshId, Launch, Submittable, ValidKey, Leads;
    NoEffects(d);
    if ReconcileSubmission(d, c.key) == Replay {
      ReplayedSubmissionHasAttempt(d, c.key);
      RecoveryDrops(d);
      Snoc(d, [], d, ClearRecovery);
      LeadsIsSafe(d, [] + [ClearRecovery], d.(recovery := None));
      assert [] + [ClearRecovery] == [ClearRecovery];
    } else if ReconcileSubmission(d, c.key) == Proceed && d.manifest.Some? && Submittable(d.manifest.value)
              && d.manifest.value.preparedIncar != "" {
      LaunchSafe(d, d.manifest.value, c);
    }
  }

  // ---- polling -------------------------------------------------------------------------------

  lemma RefreshSafe(d: Job, c: RefreshCall)
    requires Valid(d) && JobRefresh.ValidObservation(c.o)
    ensures Safe(d, RefreshPlan(d, c).effects)
  {
    NoEffects(d);
    if d.manifest.Some? {
      var m := d.manifest.value;
      var n := JobRefresh.Refreshed(m, c.o);
      assert ManifestOk(m);
      RefreshedIsEvent(m, c.o);
      EventSaveKeeps(d, m, n, JobRefresh.FailureAttempt);
      hide Valid, JobRefresh.Refreshed;
      NoEffects(d);
      Snoc(d, [], d, SaveManifest(n));
      assert [] + [SaveManifest(n)] == [SaveManifest(n)];
    }
  }

  /** A poll changes no identity, and it calls a run done only with a verdict that forbids restarting. */
  lemma RefreshedIsEvent(m: Manifest, o: JobRefresh.Observation)
    requires JobRefresh.ValidObservation(o) && ManifestOk(m)
    ensures var n := JobRefresh.Refreshed(m, o);
            && (n.attempts == m.attempts || n.attempts == m.attempts + [JobRefresh.FailureAttempt])
            && n.jobId == m.jobId && n.rounds == m.rounds && n.authority == m.authority
            && (n.state == Done && n.verdict.Some? ==> !n.verdict.value.restartable)
  {
    if o.Gone? {
      var f := Diagnosis.Classify(o.e);
    }
  }

  // ---- runs ------------------------------------------------------------------------------------

  datatype Call =
    | Submits(s: SubmitCall)
    | Continues(k: ContinueCall)
    | Tunes(t: TuneCall)
    | Cancels(x: CancelCall)
    | Refreshes(r: RefreshCall)

  function PlanOf(d: Job, c: Call): Plan
    requires c.Refreshes? ==> JobRefresh.ValidObservation(c.r.o)
  {
    match c
    case Submits(s) => SubmitPlan(d, s)
    case Continues(k) => ContinuePlan(d, k)
    case Tunes(t) => TunePlan(d, t)
    case Cancels(x) => CancelPlan(d, x)
    case Refreshes(r) => RefreshPlan(d, r)
  }

  /** Transaction ids and scheduler ids are new when they are drawn. */
  ghost predicate Fresh(d: Job, c: Call) {
    match c
    case Submits(s) => FreshId(d, s.reply)
    case Continues(k) => FreshTx(d, k.tx) && FreshId(d, k.reply)
    case Tunes(t) => FreshTx(d, t.tx) && FreshId(d, t.reply)
    case Cancels(x) => FreshTx(d, x.tx)
    case Refreshes(r) => JobRefresh.ValidObservation(r.o)
  }

  /** A call of which the first `budget` effects take place. */
  datatype Event = Event(call: Call, budget: nat)

  ghost predicate FreshRun(d: Job, es: seq<Event>) {
    es == [] || (FreshRun(d, es[..|es| - 1]) && Fresh(After(d, es[..|es| - 1]), es[|es| - 1].call))
  }

  ghost function After(d: Job, es: seq<Event>): Job {
    if es == [] then d
    else
      var before, e := After(d, es[..|es| - 1]), es[|es| - 1];
      if Fresh(before, e.call) then Crash(before, PlanOf(before, e.call).effects, e.budget) else before
  }

  lemma CallIsSafe(d: Job, c: Call)
    requires Valid(d) && Fresh(d, c)
    ensures Safe(d, PlanOf(d, c).effects)
  {
    match c {
      case Submits(s) => SubmitSafe(d, s);
      case Continues(k) => ContinueSafe(d, k);
      case Tunes(t) => TuneSafe(d, t);
      case Cancels(x) => CancelSafe(d, x);
      case Refreshes(r) => RefreshSafe(d, r);
    }
  }

  /** A newly created job, or none. */
  ghost predicate New(d: Job) {
    && d.journal == [] && d.recovery.None? && d.sent == []
    && (d.manifest.Some? ==>
          var m := d.manifest.value;
          m.state == Created && m.attempts == [] && m.jobId == "" && m.rounds == 0)
  }

  /** Every run from a new job, with any crashes, keeps the job valid. */
  lemma {:induction false} RunIsValid(d: Job, es: seq<Event>)
    requires New(d) && FreshRun(d, es)
    ensures Valid(After(d, es))
  {
    if es == [] {
      assert Generations([]) == [];
    } else {
      var before, e := After(d, es[..|es| - 1]), es[|es| - 1];
      RunIsValid(d, es[..|es| - 1]);
      hide Valid, Fresh, PlanOf;
      CallIsSafe(before, e.call);
      CrashIsValid(before, PlanOf(before, e.call).effects, e.budget);
    }
  }

  // ---- what that means ---------------------------------------------------------------------

  /** Per action and non-empty key the scheduler accepts at most one command over all calls and crashes. */
  lemma AcceptedAtMostOnce(d: Job, es: seq<Event>, i: nat, j: nat)
    requires New(d) && FreshRun(d, es)
    requires var sent := After(d, es).sent;
             && i < |sent| && j < |sent| && sent[i].accepted && sent[j].accepted
             && sent[i].kind.Act? && sent[i].kind == sent[j].kind && sent[i].key == sent[j].key && sent[i].key != ""
    ensures i == j
  {
    RunIsValid(d, es);
    var sent := After(d, es).sent;
    assert SameAction(sent[i], sent[j]) && SameAction(sent[j], sent[i]);
  }

  /** At most one submit command is ever sent. */
  lemma SubmittedAtMostOnce(d: Job, es: seq<Event>, i: nat, j: nat)
    requires New(d) && FreshRun(d, es)
    requires var sent := After(d, es).sent;
             i < |sent| && j < |sent| && sent[i].kind == Submit && sent[j].kind == Submit
    ensures i == j
  {
    RunIsValid(d, es);
  }

  /** The journal never outgrows 64 records, and only its last may be unresolved. */
  lemma JournalShape(d: Job, es: seq<Event>)
    requires New(d) && FreshRun(d, es)
    ensures var ops := After(d, es).journal;
            |ops| <= 64 && forall i :: 0 <= i < |ops| && Unresolved(ops[i].status) ==> i == |ops| - 1
  {
    RunIsValid(d, es);
  }

  // ---- replays ----------------------------------------------------------------------------------

  /** A replayed action is one that the scheduler accepted, under that action and key. */
  lemma ReplayMeansAccepted(d: Job, m: Manifest, action: ActionKind, key: string, intent: Option<Intent>, fails: bool)
    returns (i: nat)
    requires Valid(d) && d.manifest == Some(m)
    requires Reconcile(d, m, action, key, intent, fails).decision == Replay
    ensures i < |d.sent| && d.sent[i].kind == Act(action) && d.sent[i].accepted && d.sent[i].key == key && key != ""
  {
    hide Valid, Settle, Known, Proved, Decide, GenerationMatches;
    ValidIsKnown(d, m);
    SettleRecords(d, m);
    var e := ReplayedAttempt(m, Settle(m, d.journal).value, action, key, intent);
    assert CommandIn(d.sent, action, key, m.attempts[e].tx);
    i :| 0 <= i < |d.sent| && d.sent[i].kind == Act(action) && d.sent[i].accepted && d.sent[i].key == key
         && d.sent[i].tx == m.attempts[e].tx;
  }

  /** A replayed failure is true: the scheduler never accepted anything under that action and key. */
  lemma FailureReplayIsTrue(d: Job, m: Manifest, action: ActionKind, key: string, intent: Option<Intent>, fails: bool)
    requires Valid(d) && d.manifest == Some(m)
    requires Reconcile(d, m, action, key, intent, fails).decision == Deny(EarlierFailure)
    ensures forall i :: 0 <= i < |d.sent| && d.sent[i].accepted && d.sent[i].kind == Act(action) ==> d.sent[i].key != key
  {
    hide Valid, Settleable, GenerationMatches, Unused;
    ValidIsTruthful(d);
    var i := LastKey(Settle(m, d.journal).value, key).value;
    assert d.journal[i].status == Rejected && d.journal[i].key == key && d.journal[i].action == action;
    NothingAccepted(d.sent, action, key);
  }

  lemma ValidIsKnown(d: Job, m: Manifest)
    requires Valid(d) && d.manifest == Some(m)
    ensures Proved(d.journal, m.attempts) && Known(d.journal, m.attempts, d.sent) && Backed(m.attempts, d.sent)
  {
  }

  lemma ValidIsTruthful(d: Job)
    requires Valid(d)
    ensures Truthful(d.journal, d.sent)
  {
  }

  lemma NothingAccepted(sent: seq<Command>, action: ActionKind, key: string)
    requires Unused(sent, action, key) && key != ""
    ensures forall i :: 0 <= i < |sent| && sent[i].accepted && sent[i].kind == Act(action) ==> sent[i].key != key
  {
  }

  /** The attempt a replay rests on. */
  lemma ReplayedAttempt(m: Manifest, ops: seq<Operation>, action: ActionKind, key: string, intent: Option<Intent>)
    returns (e: nat)
    requires Proved(ops, m.attempts) && Decide(m, ops, action, key, intent) == Replay
    ensures e < |m.attempts| && m.attempts[e].kind == KindOf(action) && m.attempts[e].key == key && key != ""
  {
    var i := LastKey(ops, key);
    if i.Some? && ops[i.value].status == Succeeded {
      e := LastHit(ByTx(KindOf(action), ops[i.value].tx), m.attempts).value;
      assert m.attempts[e].tx == ops[i.value].tx;
    } else {
      e := LastHit(ByKey(KindOf(action), key), m.attempts).value;
    }
  }

  lemma {:induction false} LastGeneration(attempts: seq<Attempt>) returns (i: nat)
    requires Generations(attempts) != []
    requires forall j :: 0 <= j < |attempts| && !IsGeneration(attempts[j]) ==> attempts[j].jobId == ""
    requires forall j :: 0 <= j < |attempts| && IsGeneration(attempts[j]) ==> attempts[j].jobId != ""
    ensures var gs := Generations(attempts);
            var g := gs[|gs| - 1];
            i < |attempts| && attempts[i] == g && LastHit(ByJob(g.jobId), attempts) == Some(i)
  {
    var n := |attempts| - 1;
    if IsGeneration(attempts[n]) {
      i := n;
    } else {
      i := LastGeneration(attempts[..n]);
    }
  }

  lemma {:induction false} GenerationsAreOwned(attempts: seq<Attempt>, j: nat)
    requires j < |attempts| && IsGeneration(attempts[j])
    ensures exists k :: 0 <= k < |Generations(attempts)| && Generations(attempts)[k] == attempts[j]
  {
    var n := |attempts| - 1;
    var gs, before := Generations(attempts), Generations(attempts[..n]);
    if j == n {
      assert gs[|gs| - 1] == attempts[j];
    } else {
      GenerationsAreOwned(attempts[..n], j);
      var k :| 0 <= k < |before| && before[k] == attempts[j];
      assert gs[k] == attempts[j];
    }
  }

  /** The authority names the current id and carries the digest of the newest attempt with that id; so the
      digest a continuation may start from can always be resolved. */
  lemma AuthorityOfNewest(m: Manifest) returns (i: nat)
    requires ManifestOk(m) && m.jobId != ""
    ensures LastHit(ByJob(m.jobId), m.attempts) == Some(i) && IsGeneration(m.attempts[i])
    ensures m.attempts[i] == Generations(m.attempts)[|Generations(m.attempts)| - 1]
    ensures m.authority.Some? && m.authority.value.jobId == m.jobId && m.authority.value.incar == m.attempts[i].incar
    ensures CurrentAuthority(m) == Some(m.attempts[i].incar)
  {
    var gs := Generations(m.attempts);
    forall j | 0 <= j < |m.attempts| && IsGeneration(m.attempts[j]) ensures m.attempts[j].jobId != "" {
      GenerationsAreOwned(m.attempts, j);
      var k :| 0 <= k < |gs| && gs[k] == m.attempts[j];
      assert GenerationAt(gs, k);
    }
    assert GenerationAt(gs, |gs| - 1);
    i := LastGeneration(m.attempts);
  }

  lemma ManifestInvariant(d: Job, es: seq<Event>)
    requires New(d) && FreshRun(d, es) && After(d, es).manifest.Some?
    ensures ManifestOk(After(d, es).manifest.value)
  {
    RunIsValid(d, es);
  }

  /** Over every run: authority, frozen digests, the count of rounds, and the bounds they were given. */
  lemma InputAuthority(d: Job, es: seq<Event>, m: Manifest)
    requires New(d) && FreshRun(d, es) && After(d, es).manifest == Some(m)
    ensures var gs := Generations(m.attempts);
            && (m.jobId != "" <==> gs != [])
            && (gs != [] ==>
                  && CurrentAuthority(m) == Some(gs[|gs| - 1].incar) && m.jobId == gs[|gs| - 1].jobId
                  && m.rounds == |gs| - 1 && gs[0].kind == Submission)
    ensures var gs := Generations(m.attempts);
            forall i :: 0 < i < |gs| ==>
              && gs[i].kind != Submission && gs[i].round == i && gs[i].intent.Some?
              && (BoundIn(gs[i].intent.value).Some? ==> i <= BoundIn(gs[i].intent.value).value)
              && (gs[i].kind == ContcarRestart ==> gs[i].incar == gs[i - 1].incar)
              && (gs[i].kind == ContcarRestart ==> gs[i].request.Some? && gs[i].request.value.state != Done)
  {
    ManifestInvariant(d, es);
    hide New, FreshRun, After, CurrentAuthority;
    var gs := Generations(m.attempts);
    if gs != [] {
      assert GenerationAt(gs, |gs| - 1) && GenerationAt(gs, 0);
      var i := AuthorityOfNewest(m);
    }
    hide Generations;
    forall i | 0 < i < |gs|
      ensures gs[i].kind != Submission && gs[i].round == i && gs[i].intent.Some?
      ensures BoundIn(gs[i].intent.value).Some? ==> i <= BoundIn(gs[i].intent.value).value
      ensures gs[i].kind == ContcarRestart ==> gs[i].incar == gs[i - 1].incar
      ensures gs[i].kind == ContcarRestart ==> gs[i].request.Some? && gs[i].request.value.state != Done
    {
      assert GenerationAt(gs, i);
    }
  }

  predicate IsAutomatic(a: Attempt) {
    a.intent.Some? && BoundIn(a.intent.value).Some? && BoundIn(a.intent.value).value <= AutomaticRounds
  }

  /** The continuations made under the automatic limit. */
  function Automatic(gs: seq<Attempt>): nat {
    if gs == [] then 0 else Automatic(gs[..|gs| - 1]) + if IsAutomatic(gs[|gs| - 1]) then 1 else 0
  }

  lemma {:induction false} AutomaticCount(gs: seq<Attempt>)
    requires GenerationsOk(gs)
    ensures Automatic(gs) <= 3 && (gs != [] ==> Automatic(gs) <= |gs| - 1)
  {
    if gs != [] {
      var n := |gs| - 1;
      assert GenerationAt(gs, n);
      forall i | 0 <= i < n ensures GenerationAt(gs[..n], i) {
        assert GenerationAt(gs, i);
      }
      AutomaticCount(gs[..n]);
    }
  }

  /** Automatic continuations never exceed three. */
  lemma AtMostThreeAutomatic(d: Job, es: seq<Event>, m: Manifest)
    requires New(d) && FreshRun(d, es) && After(d, es).manifest == Some(m)
    ensures Automatic(Generations(m.attempts)) <= 3
  {
    ManifestInvariant(d, es);
    AutomaticCount(Generations(m.attempts));
  }

  /** A continuation the scheduler accepted starts under the guard against old output. */
  lemma ContinuationStartsGuarded(m: Manifest, a: Attempt, id: string, mtime: Option<int>)
    ensures JobRefresh.JustContinued(Continued(Rebased(m, mtime), a, id))
    ensures JobRefresh.BaselineOf(Continued(Rebased(m, mtime), a, id)) == Baseline(mtime, 0, true)
  {
  }

  // ---- replays of a submission -----------------------------------------------------------------------

  /** What a submission replays is the current generation, accepted under its id. After a recovery file
      that is the submission itself; by the key alone it is so exactly when nothing was continued. */
  lemma SubmissionReplay(d: Job, m: Manifest, key: string)
    requires Valid(d) && d.manifest == Some(m) && ReconcileSubmission(d, key) == Replay
    ensures m.jobId != "" && exists kind :: AcceptedIn(d.sent, kind, m.jobId)
    ensures AcceptedIn(d.sent, Submit, m.jobId) <==> m.rounds == 0
    ensures d.recovery.Some? ==> m.rounds == 0
  {
    var gs := Generations(m.attempts);
    var n := |gs| - 1;
    if d.recovery.None? {
      var i := LastHit(BySubmissionKey(key), m.attempts);
      assert m.attempts[i.value].jobId != "";
    }
    assert m.jobId != "" && gs != [];
    assert GenerationAt(gs, n);
    assert AcceptedIn(d.sent, CommandOf(gs[n].kind), gs[n].jobId);
    if AcceptedIn(d.sent, Submit, m.jobId) {
      OneCommandPerId(d.sent, Submit, CommandOf(gs[n].kind), m.jobId);
    }
  }

  lemma OneCommandPerId(sent: seq<Command>, a: CommandKind, b: CommandKind, id: string)
    requires Once(sent) && id != "" && AcceptedIn(sent, a, id) && AcceptedIn(sent, b, id)
    ensures a == b
  {
    var i :| 0 <= i < |sent| && sent[i].kind == a && sent[i].accepted && sent[i].id == id;
    var j :| 0 <= j < |sent| && sent[j].kind == b && sent[j].accepted && sent[j].id == id;
    if i < j {
      assert sent[j].id == sent[i].id;
    } else if j < i {
      assert sent[i].id == sent[j].id;
    }
  }
}
