/** What can start from a finished run, exactly; and two runs from a new job. */
module JobExamples {
  import opened JobModel
  import opened JobPlans
  import opened JobSafety
  import opened JobActions
  import opened JobRuns
  import opened JobOutcomes
  import JobRefresh
  import Diagnosis

  // ---- from a finished run -------------------------------------------------------------

  const NoFaults := Faults(false, false, false, false, false, false, false)

  /** The files of the job allow a tuned continuation; the call itself has still to be in order. */
  predicate CanTune(d: Job, m: Manifest) {
    && m.cluster != "" && m.binding != "" && m.remote != "" && ValidJobId(m.jobId)
    && CurrentAuthority(m) == Some(d.incar) && Settle(m, d.journal).Some?
  }

  /** A tuned continuation in order, without key and without a limit. */
  function TuneWith(m: Manifest, tx: string, reply: Reply): TuneCall {
    TuneCall(Profile(m.cluster, m.binding), "", map["ALGO" := "Normal"], true, false, None, tx, Sound, "new", true, None,
             reply, NoFaults)
  }

  lemma TuneRestSends(d: Job, m: Manifest, c: TuneCall, authority: string, journal: seq<Operation>)
    requires !Silent(TuneRest(d, m, c, authority, journal).effects)
    ensures m.remote != "" && d.incar == authority
  {
    hide Resubmit, Started;
  }

  /** A command of a tuned continuation means that the files allowed it. */
  lemma TuneSentMeansAllowed(d: Job, m: Manifest, c: TuneCall)
    requires d.manifest == Some(m) && !Silent(TunePlan(d, c).effects)
    ensures CanTune(d, m)
  {
    hide TuneRest, ValidKey, ValidJobId, CurrentAuthority, Settle, Decide;
    if CurrentAuthority(m).Some? {
      var g := Reconcile(d, m, Tune, c.key, Some(TuneIntent(c)), c.faults.settle);
      var authority := CurrentAuthority(m).value;
      GateIsSilent(d, m, Tune, c.key, Some(TuneIntent(c)), c.faults.settle);
      SilentJoins(g.effects, TuneRest(d, m, c, authority, g.journal).effects);
      if !Silent(TuneRest(d, m, c, authority, g.journal).effects) {
        TuneRestSends(d, m, c, authority, g.journal);
      }
    }
  }

  /** Without a key nothing but an unprovable record stands in the way, and the settled journal is free. */
  lemma GateLetsPass(d: Job, m: Manifest, c: TuneCall)
    requires CanTune(d, m) && c.key == "" && !c.faults.settle
    ensures var g := Reconcile(d, m, Tune, c.key, Some(TuneIntent(c)), false);
            g.decision == Proceed && forall i :: 0 <= i < |g.journal| ==> !Unresolved(g.journal[i].status)
  {
    hide Settleable, CurrentAuthority, ValidJobId;
  }

  /** The tuned continuation reaches the resubmission. */
  lemma TuneGoesAhead(d: Job, m: Manifest, tx: string, reply: Reply)
    requires d.manifest == Some(m) && CanTune(d, m) && Terminal(m.state)
    ensures var c := TuneWith(m, tx, reply);
            var r := TuneRequest(m, c, d.incar);
            var g := Reconcile(d, m, Tune, "", Some(TuneIntent(c)), false);
            var op := OperationFor(m, Tune, "", tx, r);
            && Started(g.journal, op).Some?
            && var rest := Resubmit(Started(g.journal, op).value, op, [WriteIncar("new")], Rebased(m, None),
                                    AttemptFor(m, TunedRestart, "", tx, r), reply, NoFaults);
            TunePlan(d, c) == Plan(g.effects + rest.effects, rest.outcome)
  {
    hide Reconcile, Settle, CurrentAuthority, ValidJobId, Resubmit, TuneRequest, OperationFor, AttemptFor;
    GateLetsPass(d, m, TuneWith(m, tx, reply));
  }

  lemma ResubmitSends(ops: seq<Operation>, op: Operation, before: seq<Effect>, m: Manifest, a: Attempt, f: Faults)
    ensures !Silent(Resubmit(ops, op, before, m, a, Lost(true), f).effects)
  {
    var es := Resubmit(ops, op, before, m, a, Lost(true), f).effects;
    assert es[1 + |before|].Send?;
  }

  /** A text longer than all of these. */
  function Longer(texts: seq<string>): (n: nat)
    ensures forall i :: 0 <= i < |texts| ==> |texts[i]| < n
  {
    if texts == [] then 1
    else
      var n, last := Longer(texts[..|texts| - 1]), |texts[|texts| - 1]|;
      if last < n then n else last + 1
  }

  lemma NewTx(d: Job) returns (tx: string)
    ensures FreshTx(d, tx)
  {
    var used := seq(|d.journal|, i requires 0 <= i < |d.journal| => d.journal[i].tx)
                + seq(|Attempts(d)|, i requires 0 <= i < |Attempts(d)| => Attempts(d)[i].tx)
                + seq(|d.sent|, i requires 0 <= i < |d.sent| => d.sent[i].tx);
    tx := seq(Longer(used), _ => 't');
    assert |tx| == Longer(used) > 0;
    var a, b := |d.journal|, |d.journal| + |Attempts(d)|;
    assert forall i :: 0 <= i < |d.journal| ==> used[i] == d.journal[i].tx;
    assert forall i :: 0 <= i < |Attempts(d)| ==> used[a + i] == Attempts(d)[i].tx;
    assert forall i :: 0 <= i < |d.sent| ==> used[b + i] == d.sent[i].tx;
    forall i | 0 <= i < |d.journal| ensures d.journal[i].tx != tx {
      assert |used[i]| < |tx|;
    }
    forall i | 0 <= i < |Attempts(d)| ensures Attempts(d)[i].tx != tx {
      assert |used[a + i]| < |tx|;
    }
    forall i | 0 <= i < |d.sent| ensures d.sent[i].tx != tx {
      assert |used[b + i]| < |tx|;
    }
  }

  lemma TuneSends(d: Job, m: Manifest) returns (c: TuneCall)
    requires d.manifest == Some(m) && CanTune(d, m) && Terminal(m.state)
    ensures FreshTx(d, c.tx) && FreshId(d, c.reply) && !Silent(TunePlan(d, c).effects)
  {
    var tx := NewTx(d);
    c := TuneWith(m, tx, Lost(true));
    hide FreshTx, Silent, TunePlan, Resubmit, CanTune, Reconcile, Started, TuneRequest, OperationFor, AttemptFor;
    TuneGoesAhead(d, m, tx, Lost(true));
    var r := TuneRequest(m, c, d.incar);
    var g := Reconcile(d, m, Tune, "", Some(TuneIntent(c)), false);
    var op := OperationFor(m, Tune, "", tx, r);
    var ops := Started(g.journal, op).value;
    var a := AttemptFor(m, TunedRestart, "", tx, r);
    ResubmitSends(ops, op, [WriteIncar("new")], Rebased(m, None), a, NoFaults);
    SilentJoins(g.effects, Resubmit(ops, op, [WriteIncar("new")], Rebased(m, None), a, Lost(true), NoFaults).effects);
  }

  lemma DoneIsNotRestartable(d: Job, m: Manifest, c: ContinueCall, authority: string, journal: seq<Operation>)
    requires Valid(d) && d.manifest == Some(m) && m.state == Done
    ensures var rest := ContinueRest(d, m, c, authority, journal); rest.effects == [] && rest.outcome.Failure?
  {
    assert ManifestOk(m);
    hide Valid, ManifestOk, Resubmit, Started;
  }

  lemma FrozenRefusesDone(d: Job, m: Manifest, c: ContinueCall)
    requires Valid(d) && d.manifest == Some(m) && m.state == Done
    ensures Silent(ContinuePlan(d, c).effects) && ContinuePlan(d, c).outcome != Completed
  {
    hide Valid, Reconcile, CurrentAuthority, ValidKey, ValidJobId, ContinueRest;
    var g := Reconcile(d, m, Continue, c.key, Some(Frozen(c.bound)), c.faults.settle);
    GateIsSilent(d, m, Continue, c.key, Some(Frozen(c.bound)), c.faults.settle);
    if CurrentAuthority(m).Some? { DoneIsNotRestartable(d, m, c, CurrentAuthority(m).value, g.journal); }
    assert g.effects + [] == g.effects;
  }

  /** From a finished run no frozen continuation ever sends a command; some tuned continuation does if and
      only if the job names its server and directory, its current id is usable, the local INCAR is the
      authorised one, and every unresolved record of the journal is proved by the manifest. */
  lemma OnlyTuningStartsFromDone(d: Job, m: Manifest)
    requires Valid(d) && d.manifest == Some(m) && m.state == Done
    ensures forall c :: Silent(ContinuePlan(d, c).effects) && ContinuePlan(d, c).outcome != Completed
    ensures (exists c: TuneCall :: FreshTx(d, c.tx) && FreshId(d, c.reply) && !Silent(TunePlan(d, c).effects)) <==> CanTune(d, m)
  {
    forall c ensures Silent(ContinuePlan(d, c).effects) && ContinuePlan(d, c).outcome != Completed {
      FrozenRefusesDone(d, m, c);
    }
    hide Valid, FreshTx, FreshId, Silent, TunePlan, ContinuePlan, CanTune;
    if c: TuneCall :| FreshTx(d, c.tx) && FreshId(d, c.reply) && !Silent(TunePlan(d, c).effects) {
      TuneSentMeansAllowed(d, m, c);
    }
    if CanTune(d, m) {
      var c := TuneSends(d, m);
    }
  }

  /** And it completes when the scheduler answers with a new id. */
  lemma TuneFromDoneCompletes(d: Job, m: Manifest, tx: string, id: string)
    requires Valid(d) && d.manifest == Some(m) && m.state == Done && CanTune(d, m)
    requires FreshTx(d, tx) && ValidJobId(id)
    ensures var c := TuneWith(m, tx, Id(id));
            var end := Run(d, TunePlan(d, c).effects);
            && TunePlan(d, c).outcome == Completed
            && end.manifest.Some? && end.manifest.value.jobId == id && end.manifest.value.state == Submitted
            && end.manifest.value.rounds == m.rounds + 1
            && end.sent == d.sent + [Command(Act(Tune), "", tx, true, id)]
  {
    var c := TuneWith(m, tx, Id(id));
    TuneGoesAhead(d, m, tx, Id(id));
    assert id != "";
    hide Valid, FreshTx, Silent, TunePlan, CanTune, Reconcile, Started, TuneRequest, OperationFor, ValidJobId, Run;
    var r := TuneRequest(m, c, d.incar);
    var g := Reconcile(d, m, Tune, "", Some(TuneIntent(c)), false);
    var op := OperationFor(m, Tune, "", tx, r);
    TuneOutcome(m, c, r, Started(g.journal, op).value, op, id);
    TuneCompletes(d, m, c);
  }

  lemma TuneOutcome(m: Manifest, c: TuneCall, r: Request, ops: seq<Operation>, op: Operation, id: string)
    requires c == TuneWith(m, c.tx, Id(id)) && ValidJobId(id)
    requires r == TuneRequest(m, c, r.incarSource)
    ensures Resubmit(ops, op, [WriteIncar("new")], Rebased(m, None), AttemptFor(m, TunedRestart, "", c.tx, r), Id(id), NoFaults).outcome
            == Completed
  {
  }

  // ---- runs ---------------------------------------------------------------------------

  /** A call that is not interrupted. */
  function Whole(d: Job, c: Call): Event
    requires c.Refreshes? ==> JobRefresh.ValidObservation(c.r.o)
  {
    Event(c, |PlanOf(d, c).effects|)
  }

  lemma WholeRuns(d: Job, es: seq<Event>, c: Call)
    requires FreshRun(d, es) && Fresh(After(d, es), c)
    ensures var longer := es + [Whole(After(d, es), c)];
            FreshRun(d, longer) && After(d, longer) == Run(After(d, es), PlanOf(After(d, es), c).effects)
  {
    var longer := es + [Whole(After(d, es), c)];
    assert longer[..|longer| - 1] == es;
    var effects := PlanOf(After(d, es), c).effects;
    CrashIsPrefix(After(d, es), effects, |effects|);
    hide PlanOf, Fresh, Run, Crash;
  }

  function NewJob(): Job {
    Job(Some(Manifest(Created, "", "", "", "", [], None, "h", 0, None, None, false)), [], None, "h", [])
  }

  function FirstSubmit(key: string): SubmitCall {
    SubmitCall(Profile("c", "b"), key, "t0", "/r", true, true, Id("1"), SubmitFaults(false, false, false, false, false, false))
  }

  function Submitted1(key: string): Manifest {
    AfterSubmit(NewJob().manifest.value, FirstSubmit(key), "1")
  }

  /** After the first submission. */
  lemma SubmitRuns(key: string) returns (es: seq<Event>)
    requires ValidKey(key)
    ensures FreshRun(NewJob(), es)
    ensures After(NewJob(), es) == Job(Some(Submitted1(key)), [], None, "h", [Command(Submit, key, "t0", true, "1")])
  {
    var c := FirstSubmit(key);
    assert ValidJobId("1");
    assert SubmitPlan(NewJob(), c).outcome == Completed;
    SubmitCompletes(NewJob(), NewJob().manifest.value, c);
    hide SubmitPlan, Run, ReconcileSubmission;
    es := [] + [Whole(NewJob(), Submits(c))];
    assert After(NewJob(), []) == NewJob();
    WholeRuns(NewJob(), [], Submits(c));
  }

  /** What a poll finds of a run that left output, converged or not. */
  function Found(converged: bool): JobRefresh.Observation {
    JobRefresh.Gone(Diagnosis.Evidence(
      Diagnosis.None, Diagnosis.Some(0), Diagnosis.Some(1), Diagnosis.Some(1), converged, Diagnosis.Some(true), false,
      false, false, false, Diagnosis.None, Diagnosis.None, false), None)
  }

  function Judged1(key: string, converged: bool): Manifest {
    JobRefresh.Refreshed(Submitted1(key), Found(converged))
  }

  lemma PollRuns(key: string, converged: bool) returns (es: seq<Event>)
    requires ValidKey(key)
    ensures FreshRun(NewJob(), es)
    ensures After(NewJob(), es) == Job(Some(Judged1(key, converged)), [], None, "h", [Command(Submit, key, "t0", true, "1")])
  {
    var before := SubmitRuns(key);
    var d := After(NewJob(), before);
    var c := RefreshCall(Profile("c", "b"), Found(converged), false);
    hide JobRefresh.Refreshed, FreshRun, After, Run;
    assert RefreshPlan(d, c).effects == [SaveManifest(Judged1(key, converged))];
    WholeRuns(NewJob(), before, Refreshes(c));
    RunOne(d, SaveManifest(Judged1(key, converged)));
    es := before + [Whole(d, Refreshes(c))];
  }

  /** The attempts and the fields of the polled job. */
  lemma JudgedShape(key: string, converged: bool)
    ensures var m, before := Judged1(key, converged), Submitted1(key);
            && m.attempts == (if converged then before.attempts else before.attempts + [JobRefresh.FailureAttempt])
            && m.state == (if converged then Done else Unconverged)
            && m.verdict.Some? && m.verdict.value.restartable == !converged
            && m.cluster == "c" && m.binding == "b" && m.remote == "/r" && m.jobId == "1" && m.rounds == 0
            && m.authority == before.authority
  {
    var f := Diagnosis.Classify(Found(converged).e);
    assert f.state == Diagnosis.Done <==> converged;
    assert f.restartable == !converged;
  }

  lemma JudgedAuthority(m: Manifest, key: string)
    requires m.jobId == "1" && m.authority == Submitted1(key).authority
    requires m.attempts == Submitted1(key).attempts || m.attempts == Submitted1(key).attempts + [JobRefresh.FailureAttempt]
    ensures CurrentAuthority(m) == Some("h")
    ensures forall i :: 0 <= i < |m.attempts| ==>
              m.attempts[i].tx == "" && (m.attempts[i].kind == Submission || m.attempts[i].kind == FailureMark)
  {
    assert Submitted1(key).attempts[0].jobId == "1";
    assert m.attempts[0] == Submitted1(key).attempts[0];
    assert LastHit(ByJob("1"), m.attempts) == Some(0);
  }

  lemma JudgedIs(key: string, converged: bool)
    ensures var m := Judged1(key, converged);
            && m.state == (if converged then Done else Unconverged) && m.verdict.Some? && m.verdict.value.restartable == !converged
            && m.cluster == "c" && m.binding == "b" && m.remote == "/r" && m.jobId == "1" && m.rounds == 0
            && CurrentAuthority(m) == Some("h")
            && (forall i :: 0 <= i < |m.attempts| ==>
                  m.attempts[i].tx == "" && (m.attempts[i].kind == Submission || m.attempts[i].kind == FailureMark))
  {
    hide Judged1, Submitted1, CurrentAuthority;
    JudgedShape(key, converged);
    JudgedAuthority(Judged1(key, converged), key);
  }

  function ContinueAgain(key: string): ContinueCall {
    ContinueCall(Profile("c", "b"), key, Some(AutomaticRounds), "t1", Sound, None, Id("2"), NoFaults)
  }

  lemma ContinueAgainPasses(d: Job, m: Manifest, c: ContinueCall)
    requires d.journal == [] && forall i :: 0 <= i < |m.attempts| ==> m.attempts[i].kind != ContcarRestart
    ensures Reconcile(d, m, Continue, c.key, Some(Frozen(c.bound)), false) == Gate([], [], Proceed)
  {
    assert LastHit(ByKey(ContcarRestart, c.key), m.attempts) == None;
    hide LastHit;
  }

  lemma ContinueAgainRest(d: Job, m: Manifest, key: string)
    requires d.incar == "h" && m.state == Unconverged && m.verdict.Some? && m.verdict.value.restartable
    requires m.rounds == 0 && m.remote != ""
    ensures ContinueRest(d, m, ContinueAgain(key), "h", []).outcome == Completed
  {
    assert ValidJobId("2");
    hide ValidJobId, Marked;
  }

  lemma ContinueAgainCompletes(d: Job, m: Manifest, key: string)
    requires ValidKey(key) && d.manifest == Some(m) && d.journal == [] && d.incar == "h" && m == Judged1(key, false)
    ensures ContinuePlan(d, ContinueAgain(key)).outcome == Completed
  {
    assert ValidJobId("1");
    hide CurrentAuthority, ValidKey, ValidJobId, Judged1, Reconcile, ContinueRest;
    JudgedIs(key, false);
    ContinueAgainPasses(d, m, ContinueAgain(key));
    ContinueAgainRest(d, m, key);
  }

  lemma StartIsNew()
    ensures New(NewJob())
  {
  }

  lemma LastAttemptReplays(d: Job, key: string)
    requires d.recovery.None? && d.manifest.Some? && key != ""
    requires var n := d.manifest.value;
             n.attempts != [] && n.attempts[|n.attempts| - 1].key == key && n.attempts[|n.attempts| - 1].jobId == n.jobId != ""
    ensures ReconcileSubmission(d, key) == Replay
  {
  }

  lemma SecondIsFresh(d: Job, key: string, converged: bool)
    requires d == Job(Some(Judged1(key, converged)), [], None, "h", [Command(Submit, key, "t0", true, "1")])
    ensures FreshTx(d, "t1") && FreshId(d, Id("2"))
  {
    hide Judged1, CurrentAuthority;
    JudgedIs(key, converged);
  }

  /** A submission key used again for a continuation replays that continuation as if it were the submission:
      a run from a new job that submits, polls and continues under one key. */
  lemma KeyCanReplayContinuation(key: string) returns (es: seq<Event>)
    requires ValidKey(key) && key != ""
    ensures New(NewJob()) && FreshRun(NewJob(), es)
    ensures var d := After(NewJob(), es);
            && ReconcileSubmission(d, key) == Replay
            && d.sent == [Command(Submit, key, "t0", true, "1"), Command(Act(Continue), key, "t1", true, "2")]
            && d.manifest.Some? && d.manifest.value.jobId == "2"
  {
    hide New, NewJob, After, FreshRun, Valid, FreshTx, FreshId, ContinuePlan, Run, Judged1, ReconcileSubmission, ContinueRequest;
    StartIsNew();
    var before := PollRuns(key, false);
    var d := After(NewJob(), before);
    var m := d.manifest.value;
    var c := ContinueAgain(key);
    RunIsValid(NewJob(), before);
    ContinueAgainCompletes(d, m, key);
    SecondIsFresh(d, key, false);
    ContinueCompletes(d, m, c);
    WholeRuns(NewJob(), before, Continues(c));
    es := before + [Whole(d, Continues(c))];
    LastAttemptReplays(After(NewJob(), es), key);
  }

  /** A run from a new job in which a continuation with changed INCAR starts from a finished run. */
  lemma TunedRunFromDone() returns (es: seq<Event>)
    ensures New(NewJob()) && FreshRun(NewJob(), es) && es != []
    ensures var before, end := After(NewJob(), es[..|es| - 1]), After(NewJob(), es);
            && before.manifest.Some? && before.manifest.value.state == Done
            && end.manifest.Some? && end.manifest.value.state == Submitted && end.manifest.value.jobId == "2"
            && end.sent == before.sent + [Command(Act(Tune), "", "t1", true, "2")]
  {
    hide New, NewJob, After, FreshRun, Valid, FreshTx, FreshId, TunePlan, Run, Judged1, CurrentAuthority;
    StartIsNew();
    var before := PollRuns("", true);
    var d := After(NewJob(), before);
    var m := d.manifest.value;
    var c := TuneWith(m, "t1", Id("2"));
    RunIsValid(NewJob(), before);
    JudgedIs("", true);
    assert ValidJobId("1") && ValidJobId("2");
    assert Settle(m, []) == Some([]);
    SecondIsFresh(d, "", true);
    TuneFromDoneCompletes(d, m, "t1", "2");
    WholeRuns(NewJob(), before, Tunes(c));
    es := before + [Whole(d, Tunes(c))];
    assert es[..|es| - 1] == before;
  }
}
