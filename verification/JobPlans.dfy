/** What each operation on a remote job does, as the effects that take place in order. */
module JobPlans {
  import opened JobModel
  import JobRefresh

  // ---- the environment -------------------------------------------------------------

  /** How the scheduler command went: the connection broke before or after it arrived, it came back
      with an error, or without a readable job id, or with one. */
  datatype Reply = NotSent | Lost(accepted: bool) | Refused | NoId(accepted: bool) | Id(id: string)

  /** Which of the operation's own file writes fail. */
  datatype Faults = Faults(settle: bool, start: bool, unknown: bool, advance: bool, reject: bool, save: bool, finish: bool)

  datatype Error =
    | NoManifest | BadKey | WrongServer | NoSource | NoAuthority | UnknownOutcome | KeyUsedForOther | EarlierFailure
    | OldGeneration | InputDrift | NotTerminal | NotRestartable | RoundLimit | NoRemote | BadStructure | WriteError
    | Preflight | PreparingLeft | CommandRefused | NotAllowed

  datatype Outcome = Replayed | Completed | Failure(error: Error)

  datatype Plan = Plan(effects: seq<Effect>, outcome: Outcome)

  // ---- the action journal -------------------------------------------------------------

  predicate Settleable(m: Manifest, op: Operation) {
    op.status == RemoteAccepted && GenerationMatches(m, op, LastHit(ByTx(KindOf(op.action), op.tx), m.attempts))
  }

  /** Accepted records that the manifest proves become succeeded; any other unresolved one blocks. */
  function Settle(m: Manifest, ops: seq<Operation>): (r: Option<seq<Operation>>)
    ensures r.Some? <==> forall i :: 0 <= i < |ops| ==> Unresolved(ops[i].status) ==> Settleable(m, ops[i])
    ensures r.Some? ==> |r.value| == |ops|
    ensures r.Some? ==> forall i :: 0 <= i < |ops| ==>
              r.value[i] == if Unresolved(ops[i].status) then ops[i].(status := Succeeded) else ops[i]
  {
    if ops == [] then Some([])
    else
      var last := ops[|ops| - 1];
      var r := Settle(m, ops[..|ops| - 1]);
      if r.None? || (Unresolved(last.status) && !Settleable(m, last)) then None
      else Some(r.value + [if Unresolved(last.status) then last.(status := Succeeded) else last])
  }

  datatype Decision = Proceed | Replay | Deny(error: Error)

  /** The record an attempt stands for once its journal record is gone. */
  function FromAttempt(action: ActionKind, ev: Attempt): Operation {
    Operation(ev.tx, action, Succeeded, ev.key, if action == Cancel then ev.target else ev.prev,
              if action == Cancel then ev.target else ev.jobId, None, ev.request, ev.intent)
  }

  function Decide(m: Manifest, ops: seq<Operation>, action: ActionKind, key: string, intent: Option<Intent>): Decision {
    var i := LastKey(ops, key);
    if key == "" then Proceed
    else if i.Some? && ops[i.value].action != action then Deny(KeyUsedForOther)
    else if i.Some? && intent.Some? && ops[i.value].intent != intent then Deny(KeyUsedForOther)
    else if i.Some? && ops[i.value].status == Rejected then Deny(EarlierFailure)
    else if i.Some? && ops[i.value].status == Succeeded then
      if GenerationMatches(m, ops[i.value], LastHit(ByTx(KindOf(action), ops[i.value].tx), m.attempts)) then Replay
      else Deny(OldGeneration)
    else
      var e := LastHit(ByKey(KindOf(action), key), m.attempts);
      if e.None? then Proceed
      else if intent.Some? && m.attempts[e.value].intent != intent then Deny(KeyUsedForOther)
      else if GenerationMatches(m, FromAttempt(action, m.attempts[e.value]), e) then Replay
      else Deny(OldGeneration)
  }

  datatype Gate = Gate(journal: seq<Operation>, effects: seq<Effect>, decision: Decision)

  /** `_reconcile_job_action`; the journal is what is on disk afterwards. */
  function Reconcile(d: Job, m: Manifest, action: ActionKind, key: string, intent: Option<Intent>, fails: bool): Gate {
    var settled := Settle(m, d.journal);
    if settled.None? then Gate(d.journal, [], Deny(UnknownOutcome))
    else
      var write := settled.value != d.journal && !fails;
      Gate(if write then settled.value else d.journal, if write then [WriteJournal(settled.value)] else [],
           Decide(m, settled.value, action, key, intent))
  }

  /** The last 63 records, all of them finished, and the new one. */
  function Started(ops: seq<Operation>, op: Operation): Option<seq<Operation>> {
    if exists i :: 0 <= i < |ops| && Unresolved(ops[i].status) then None
    else Some((if |ops| <= 63 then ops else ops[|ops| - 63..]) + [op])
  }

  /** `_update_job_action`: the first record of the transaction gets status and result. */
  function Marked(ops: seq<Operation>, tx: string, status: Status, result: string): seq<Operation>
    decreases |ops|
  {
    if ops == [] then []
    else if ops[0].tx == tx then [ops[0].(status := status, result := result)] + ops[1..]
    else [ops[0]] + Marked(ops[1..], tx, status, result)
  }

  /** `_mark_job_action_unknown` */
  function MarkUnknown(ops: seq<Operation>, tx: string, fails: bool): seq<Effect> {
    if fails then [] else [WriteJournal(Marked(ops, tx, Unknown, ""))]
  }

  // ---- the remote transaction shared by the actions ---------------------------------------

  /** From the prepared record on disk to the command: an unusable answer leaves the record unknown. */
  function Unsure(ops: seq<Operation>, op: Operation, sent: seq<Effect>, f: Faults): Plan {
    Plan([WriteJournal(ops)] + sent + MarkUnknown(ops, op.tx, f.unknown), Failure(UnknownOutcome))
  }

  /** The command was accepted: journal, then manifest, then journal again. */
  function Accepted(ops: seq<Operation>, op: Operation, before: seq<Effect>, sent: Effect, result: string,
                    m: Option<Manifest>, f: Faults): Plan {
    var accepted := Marked(ops, op.tx, RemoteAccepted, result);
    var done := Marked(accepted, op.tx, Succeeded, result);
    var start := [WriteJournal(ops)] + before + [sent];
    if f.advance then Plan(start, Failure(UnknownOutcome))
    else if m.None? then Plan(start + [WriteJournal(accepted)], Failure(UnknownOutcome))
    else if f.save then Plan(start + [WriteJournal(accepted)], Failure(UnknownOutcome))
    else if f.finish then Plan(start + [WriteJournal(accepted), SaveManifest(m.value)], Completed)
    else Plan(start + [WriteJournal(accepted), SaveManifest(m.value), WriteJournal(done)], Completed)
  }

  function SentBy(op: Operation, accepted: bool, id: string): Effect {
    Send(Command(Act(op.action), op.key, op.tx, accepted, id))
  }

  /** The tail common to both continuations. */
  function Resubmit(ops: seq<Operation>, op: Operation, before: seq<Effect>, m: Manifest, a: Attempt, reply: Reply,
                    f: Faults): Plan {
    match reply
    case NotSent => Unsure(ops, op, before, f)
    case Lost(accepted) => Unsure(ops, op, before + [SentBy(op, accepted, "")], f)
    case Refused => Unsure(ops, op, before + [SentBy(op, false, "")], f)
    case NoId(accepted) => Unsure(ops, op, before + [SentBy(op, accepted, "")], f)
    case Id(id) =>
      if id == "" then Unsure(ops, op, before + [SentBy(op, true, "")], f)
      else Accepted(ops, op, before, SentBy(op, true, id), id,
                    if ValidJobId(id) && a.incar != "" then Some(Continued(m, a, id)) else None, f)
  }

  /** The manifest after an accepted continuation. */
  function Continued(m: Manifest, a: Attempt, id: string): Manifest {
    var n := |m.attempts| + 1;
    var attempt := a.(jobId := id, token := Some(Token(id, m.remote, m.cluster, m.binding, n, Some(a.kind))));
    m.(jobId := id, verdict := None, rounds := m.rounds + 1, settling := false, state := Submitted,
       attempts := m.attempts + [attempt], authority := Some(Authority(id, a.incar, a.tx)))
  }

  predicate Terminal(s: JobState) {
    s == Done || s == Failed || s == Unconverged || s == NeedsHuman
  }

  predicate AtLimit(m: Manifest, bound: Option<int>) {
    bound.Some? && m.rounds >= bound.value
  }

  const AutomaticRounds: int := 3

  function RequestFor(m: Manifest, intent: Intent, bound: Option<int>, source: string, target: string): Request {
    Request(m.jobId, CurrentToken(m), if m.authority.Some? then m.authority.value.tx else "", m.state, m.rounds,
            m.binding, m.remote, intent, bound.None? && m.rounds >= AutomaticRounds, source, target)
  }

  function OperationFor(m: Manifest, action: ActionKind, key: string, tx: string, r: Request): Operation {
    Operation(tx, action, Prepared, key, m.jobId, "", Some(r), Some(r), Some(r.intent))
  }

  function AttemptFor(m: Manifest, kind: AttemptKind, key: string, tx: string, r: Request): Attempt {
    Attempt(kind, "", "", m.jobId, key, tx, Some(r), Some(r.intent), r.incarTarget, None, r.profile, r.remote,
            m.rounds + 1)
  }

  // ---- frozen continuation ---------------------------------------------------------------

  datatype Structure = Unreadable | Overlapping | Sound

  datatype ContinueCall = ContinueCall(
    profile: Profile, key: string, bound: Option<int>, tx: string, contcar: Structure, mtime: Option<int>, reply: Reply,
    faults: Faults)

  /** The checks between reconciliation and the first change. */
  function ContinueRefusal(d: Job, m: Manifest, c: ContinueCall, authority: string): Option<Error> {
    if d.incar != authority then Some(InputDrift)
    else if !Terminal(m.state) then Some(NotTerminal)
    else if m.verdict.None? || !m.verdict.value.restartable then Some(NotRestartable)
    else if AtLimit(m, c.bound) then Some(RoundLimit)
    else if m.remote == "" then Some(NoRemote)
    else if c.contcar == Unreadable then Some(BadStructure)
    else None
  }

  function ContinueRequest(m: Manifest, c: ContinueCall, authority: string): Request {
    RequestFor(m, Frozen(c.bound), c.bound, authority, authority)
  }

  /** The new baseline: the old outputs were archived. */
  function Rebased(m: Manifest, mtime: Option<int>): Manifest {
    m.(baseline := Some(Baseline(mtime, 0, true)))
  }

  /** After reconciliation let the call pass. */
  function ContinueRest(d: Job, m: Manifest, c: ContinueCall, authority: string, journal: seq<Operation>): Plan {
    var refusal := ContinueRefusal(d, m, c, authority);
    var r := ContinueRequest(m, c, authority);
    var op := OperationFor(m, Continue, c.key, c.tx, r);
    var ops := Started(journal, op);
    if refusal.Some? then Plan([], Failure(refusal.value))
    else if c.contcar == Overlapping then
      Plan(if c.faults.save then [] else [SaveManifest(m.(state := NeedsHuman))], Failure(BadStructure))
    else if ops.None? then Plan([], Failure(UnknownOutcome))
    else if c.faults.start then Plan([], Failure(WriteError))
    else
      Resubmit(ops.value, op, [], Rebased(m, c.mtime), AttemptFor(m, ContcarRestart, c.key, c.tx, r), c.reply, c.faults)
  }

  /** `continue_from_contcar`, without a correction binding. */
  function ContinuePlan(d: Job, c: ContinueCall): Plan {
    if !ValidKey(c.key) then Plan([], Failure(BadKey))
    else if d.manifest.None? then Plan([], Failure(NoManifest))
    else
      var m := d.manifest.value;
      var authority := CurrentAuthority(m);
      if !Bound(m, c.profile) then Plan([], Failure(WrongServer))
      else if !ValidJobId(m.jobId) then Plan([], Failure(NoSource))
      else if authority.None? then Plan([], Failure(NoAuthority))
      else
        var gate := Reconcile(d, m, Continue, c.key, Some(Frozen(c.bound)), c.faults.settle);
        Through(gate, ContinueRest(d, m, c, authority.value, gate.journal))
  }

  /** A gate, and what follows when it lets the call pass. */
  function Through(gate: Gate, rest: Plan): Plan {
    match gate.decision
    case Deny(error) => Plan(gate.effects, Failure(error))
    case Replay => Plan(gate.effects, Replayed)
    case Proceed => Plan(gate.effects + rest.effects, rest.outcome)
  }

  // ---- continuation with changed INCAR -------------------------------------------------------

  /** `allowed` says that the changes passed the white list; `newIncar` is the digest of the changed
      text, and `wroteIncar` whether a connection that broke before the command did so after the
      local INCAR was replaced. */
  datatype TuneCall = TuneCall(
    profile: Profile, key: string, changes: map<string, string>, allowed: bool, fromContcar: bool, bound: Option<int>,
    tx: string, contcar: Structure, newIncar: string, wroteIncar: bool, mtime: Option<int>, reply: Reply, faults: Faults)

  function TuneRefusal(d: Job, m: Manifest, c: TuneCall, authority: string): Option<Error> {
    if !Terminal(m.state) then Some(NotTerminal)
    else if AtLimit(m, c.bound) then Some(RoundLimit)
    else if m.remote == "" then Some(NoRemote)
    else if c.fromContcar && c.contcar != Sound then Some(BadStructure)
    else if d.incar != authority then Some(InputDrift)
    else None
  }

  function TuneIntent(c: TuneCall): Intent {
    Tuned(c.changes, c.fromContcar, c.bound)
  }

  function TuneRequest(m: Manifest, c: TuneCall, authority: string): Request {
    RequestFor(m, TuneIntent(c), c.bound, authority, c.newIncar)
  }

  function TuneRest(d: Job, m: Manifest, c: TuneCall, authority: string, journal: seq<Operation>): Plan {
    var refusal := TuneRefusal(d, m, c, authority);
    var r := TuneRequest(m, c, authority);
    var op := OperationFor(m, Tune, c.key, c.tx, r);
    var ops := Started(journal, op);
    if refusal.Some? then Plan([], Failure(refusal.value))
    else if ops.None? then Plan([], Failure(UnknownOutcome))
    else if c.faults.start then Plan([], Failure(WriteError))
    else
      var before := if c.reply.NotSent? && !c.wroteIncar then [] else [WriteIncar(c.newIncar)];
      Resubmit(ops.value, op, before, Rebased(m, c.mtime), AttemptFor(m, TunedRestart, c.key, c.tx, r), c.reply, c.faults)
  }

  /** `continue_with_incar_changes` */
  function TunePlan(d: Job, c: TuneCall): Plan {
    if !ValidKey(c.key) then Plan([], Failure(BadKey))
    else if !c.allowed then Plan([], Failure(NotAllowed))
    else if d.manifest.None? then Plan([], Failure(NoManifest))
    else
      var m := d.manifest.value;
      var authority := CurrentAuthority(m);
      if !Bound(m, c.profile) then Plan([], Failure(WrongServer))
      else if !ValidJobId(m.jobId) then Plan([], Failure(NoSource))
      else if authority.None? then Plan([], Failure(NoAuthority))
      else
        var gate := Reconcile(d, m, Tune, c.key, Some(TuneIntent(c)), c.faults.settle);
        Through(gate, TuneRest(d, m, c, authority.value, gate.journal))
  }

  // ---- cancellation -----------------------------------------------------------------------

  datatype CancelCall = CancelCall(profile: Profile, key: string, expected: string, tx: string, reply: Reply, faults: Faults)

  function Cancelled(m: Manifest, key: string, tx: string): Manifest {
    m.(attempts := m.attempts + [Attempt(CancelMark, "", m.jobId, "", key, tx, None, None, "", None, "", "", 0)],
       state := JobState.Failed)
  }

  function CancelRest(m: Manifest, c: CancelCall, journal: seq<Operation>): Plan {
    var op := Operation(c.tx, Cancel, Prepared, c.key, m.jobId, "", None, None, None);
    var ops := Started(journal, op);
    if m.jobId == "" then Plan([], Failure(NoSource))
    else if ops.None? then Plan([], Failure(UnknownOutcome))
    else if c.faults.start then Plan([], Failure(WriteError))
    else CancelCommand(ops.value, op, m, c)
  }

  /** `cancel_job` */
  function CancelPlan(d: Job, c: CancelCall): Plan {
    if !ValidKey(c.key) then Plan([], Failure(BadKey))
    else if d.manifest.None? then Plan([], Failure(NoManifest))
    else
      var m := d.manifest.value;
      if !Bound(m, c.profile) then Plan([], Failure(WrongServer))
      else if c.expected != "" && m.jobId != c.expected then Plan([], Failure(OldGeneration))
      else
        var gate := Reconcile(d, m, Cancel, c.key, None, c.faults.settle);
        Through(gate, CancelRest(m, c, gate.journal))
  }

  /** A complete error answer means that nothing was cancelled. */
  function CancelCommand(ops: seq<Operation>, op: Operation, m: Manifest, c: CancelCall): Plan {
    match c.reply
    case NotSent => Unsure(ops, op, [], c.faults)
    case Lost(accepted) => Unsure(ops, op, [SentBy(op, accepted, "")], c.faults)
    case Refused =>
      if c.faults.reject then Unsure(ops, op, [SentBy(op, false, "")], c.faults)
      else Plan([WriteJournal(ops), SentBy(op, false, ""), WriteJournal(Marked(ops, op.tx, Rejected, m.jobId))],
                Failure(CommandRefused))
    case _ => Accepted(ops, op, [], SentBy(op, true, ""), m.jobId, Some(Cancelled(m, c.key, c.tx)), c.faults)
  }

  // ---- submission --------------------------------------------------------------------------

  datatype SubmitFaults = SubmitFaults(prepare: bool, submitting: bool, unknown: bool, advance: bool, save: bool, clear: bool)

  datatype SubmitCall = SubmitCall(
    profile: Profile, key: string, tx: string, remote: string, checks: bool, uploaded: bool, reply: Reply,
    faults: SubmitFaults)

  /** `_reconcile_submission_recovery`: replay, refusal, or nothing in the way. */
  function ReconcileSubmission(d: Job, key: string): Decision {
    if d.recovery.None? then
      if d.manifest.None? then Proceed
      else
        var m := d.manifest.value;
        var i := LastHit(BySubmissionKey(key), m.attempts);
        if i.Some? && m.jobId == m.attempts[i.value].jobId then Replay else Proceed
    else
      var r := d.recovery.value;
      if r.status == Preparing then Deny(PreparingLeft)
      else if r.status == SubmissionAccepted && r.jobId != "" && Recorded(d.manifest, r) then Replay
      else Deny(UnknownOutcome)
  }

  /** The manifest already carries the accepted submission. */
  predicate Recorded(manifest: Option<Manifest>, r: Recovery) {
    manifest.Some? &&
    var m := manifest.value;
    && m.jobId == r.jobId && LastHit(ByJob(r.jobId), m.attempts).Some?
    && (r.incar == "" || (m.authority.Some? && m.authority.value.jobId == r.jobId && m.authority.value.incar == r.incar))
  }

  /** Only a fresh manifest without remote identity may be submitted. */
  predicate Submittable(m: Manifest) {
    m.state == Created && m.cluster == "" && m.remote == "" && m.jobId == "" && m.attempts == []
  }

  function AfterUpload(m: Manifest, c: SubmitCall): Manifest {
    m.(cluster := c.profile.name, binding := c.profile.fingerprint, remote := c.remote, state := Uploaded)
  }

  function AfterSubmit(m: Manifest, c: SubmitCall, id: string): Manifest {
    var n := |m.attempts| + 1;
    var attempt := Attempt(Submission, id, "", "", c.key, "", None, None, m.preparedIncar,
                           Some(Token(id, c.remote, c.profile.name, c.profile.fingerprint, n, Some(Submission))), "", "", 0);
    AfterUpload(m, c).(jobId := id, attempts := m.attempts + [attempt], state := Submitted,
                     authority := Some(Authority(id, m.preparedIncar, c.tx)))
  }

  /** `submit_job` */
  function SubmitPlan(d: Job, c: SubmitCall): Plan {
    if !ValidKey(c.key) then Plan([], Failure(BadKey))
    else
      var decision := ReconcileSubmission(d, c.key);
      if decision.Deny? then Plan([], Failure(decision.error))
      else if decision.Replay? then
        Plan(if d.recovery.Some? && !c.faults.clear then [ClearRecovery] else [], Replayed)
      else if d.manifest.None? || !Submittable(d.manifest.value) || !c.checks then Plan([], Failure(Preflight))
      else
        var m := d.manifest.value;
        if m.preparedIncar == "" || d.incar != m.preparedIncar then Plan([], Failure(InputDrift))
        else Launch(m, c)
  }

  /** From the recovery file on. */
  function Launch(m: Manifest, c: SubmitCall): Plan {
    var preparing := Recovery(c.tx, Preparing, c.key, "", m.preparedIncar);
    var submitting := preparing.(status := Submitting);
    if c.faults.prepare then Plan([], Failure(WriteError))
    else if !c.uploaded || c.faults.submitting then Plan([WriteRecovery(preparing)], Failure(WriteError))
    else
      var start := [WriteRecovery(preparing), WriteRecovery(submitting)];
      var unsure := (if c.faults.unknown then [] else [WriteRecovery(submitting.(status := UnknownSubmission))])
                    + (if c.faults.save then [] else [SaveManifest(AfterUpload(m, c))]);
      match c.reply
      case NotSent => Plan(start + unsure, Failure(UnknownOutcome))
      case Lost(accepted) => Plan(start + [SubmitSent(c, accepted, "")] + unsure, Failure(UnknownOutcome))
      case Refused => Plan(start + [SubmitSent(c, false, "")] + unsure, Failure(UnknownOutcome))
      case NoId(accepted) => Plan(start + [SubmitSent(c, accepted, "")] + unsure, Failure(UnknownOutcome))
      case Id(id) =>
        if id == "" then Plan(start + [SubmitSent(c, true, "")] + unsure, Failure(UnknownOutcome))
        else
          var sent := start + [SubmitSent(c, true, id)];
          var accepted := WriteRecovery(submitting.(status := SubmissionAccepted, jobId := id));
          if c.faults.advance then Plan(sent, Failure(UnknownOutcome))
          else if c.faults.save || !ValidJobId(id) then Plan(sent + [accepted], Failure(UnknownOutcome))
          else Plan(sent + [accepted, SaveManifest(AfterSubmit(m, c, id))]
                    + (if c.faults.clear then [] else [ClearRecovery]), Completed)
  }

  function SubmitSent(c: SubmitCall, accepted: bool, id: string): Effect {
    Send(Command(Submit, c.key, c.tx, accepted, id))
  }

  // ---- polling ---------------------------------------------------------------------------------

  datatype RefreshCall = RefreshCall(profile: Profile, o: JobRefresh.Observation, saveFails: bool)

  /** `refresh_job`; a manifest from before server bindings may still be read. */
  function RefreshPlan(d: Job, c: RefreshCall): Plan
    requires JobRefresh.ValidObservation(c.o)
  {
    if d.manifest.None? || d.manifest.value.jobId == "" then Plan([], Completed)
    else
      var m := d.manifest.value;
      if m.cluster == "" || m.cluster != c.profile.name || (m.binding != "" && m.binding != c.profile.fingerprint) then
        Plan([], Failure(WrongServer))
      else if c.saveFails then Plan([], Failure(WriteError))
      else Plan([SaveManifest(JobRefresh.Refreshed(m, c.o))], Completed)
  }
}
