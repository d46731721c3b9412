/** One remote job: its manifest, action journal, submission recovery file, and what the scheduler saw. */
module JobModel {
  import Diagnosis

  datatype Option<T> = None | Some(value: T)

  // ---- requests and records -----------------------------------------------------

  datatype JobState = Created | Uploaded | Submitted | Queued | Running | Done | Failed | Unconverged | NeedsHuman

  /** What the user decided; its digest is taken as the value itself (injective hash). */
  datatype Intent =
    | Frozen(bound: Option<int>)
    | Tuned(changes: map<string, string>, fromContcar: bool, bound: Option<int>)

  /** Binds an attempt to one scheduler generation. */
  datatype Token = Token(jobId: string, remote: string, cluster: string, binding: string, n: nat, kind: Option<AttemptKind>)

  datatype Request = Request(
    source: string, sourceToken: Token, authorityTx: string, state: JobState, round: nat,
    profile: string, remote: string, intent: Intent, manual: bool, incarSource: string, incarTarget: string)

  datatype ActionKind = Continue | Tune | Cancel

  datatype Status = Prepared | RemoteAccepted | Unknown | Succeeded | Rejected

  predicate Unresolved(s: Status) {
    s == Prepared || s == RemoteAccepted || s == Unknown
  }

  /** A journal record. Empty strings stand for missing values, as in the program. */
  datatype Operation = Operation(
    tx: string, action: ActionKind, status: Status, key: string, source: string, result: string,
    request: Option<Request>, requestSha: Option<Request>, intent: Option<Intent>)

  datatype AttemptKind = Submission | ContcarRestart | TunedRestart | CancelMark | FailureMark

  datatype Attempt = Attempt(
    kind: AttemptKind, jobId: string, target: string, prev: string, key: string, tx: string,
    request: Option<Request>, intent: Option<Intent>, incar: string, token: Option<Token>,
    profile: string, remote: string, round: nat)

  datatype Authority = Authority(jobId: string, incar: string, tx: string)

  datatype Verdict = Verdict(failure: Diagnosis.FailureClass, restartable: bool)

  datatype Baseline = Baseline(mtime: Option<int>, checks: nat, archived: bool)

  /** `job.yaml` of a single-image VASP job. INCAR digests are hex text, empty when absent or invalid. */
  datatype Manifest = Manifest(
    state: JobState, cluster: string, binding: string, remote: string, jobId: string, attempts: seq<Attempt>,
    authority: Option<Authority>, preparedIncar: string, rounds: nat, verdict: Option<Verdict>,
    baseline: Option<Baseline>, settling: bool)

  datatype RecoveryStatus = Preparing | Submitting | UnknownSubmission | SubmissionAccepted

  datatype Recovery = Recovery(tx: string, status: RecoveryStatus, key: string, jobId: string, incar: string)

  datatype CommandKind = Submit | Act(action: ActionKind)

  /** A command that reached the scheduler. */
  datatype Command = Command(kind: CommandKind, key: string, tx: string, accepted: bool, id: string)

  /** The durable files of the job, the digest of the local INCAR, and the scheduler's own record. */
  datatype Job = Job(
    manifest: Option<Manifest>, journal: seq<Operation>, recovery: Option<Recovery>, incar: string,
    sent: seq<Command>)

  // ---- durable effects --------------------------------------------------------------

  datatype Effect =
    | WriteJournal(ops: seq<Operation>)
    | SaveManifest(m: Manifest)
    | WriteRecovery(r: Recovery)
    | ClearRecovery
    | WriteIncar(digest: string)
    | Send(c: Command)

  function Apply(d: Job, e: Effect): Job {
    match e
    case WriteJournal(ops) => d.(journal := ops)
    case SaveManifest(m) => d.(manifest := Some(m))
    case WriteRecovery(r) => d.(recovery := Some(r))
    case ClearRecovery => d.(recovery := None)
    case WriteIncar(s) => d.(incar := s)
    case Send(c) => d.(sent := d.sent + [c])
  }

  /** The job after the first `budget` effects, where the process dies. */
  function Crash(d: Job, es: seq<Effect>, budget: nat): Job
    decreases |es|
  {
    if es == [] || budget == 0 then d else Crash(Apply(d, es[0]), es[1..], budget - 1)
  }

  // ---- searching attempts -------------------------------------------------------------

  function KindOf(a: ActionKind): AttemptKind {
    match a
    case Continue => ContcarRestart
    case Tune => TunedRestart
    case Cancel => CancelMark
  }

  datatype Query =
    | ByJob(jobId: string)
    | ByTx(kind: AttemptKind, tx: string)
    | ByKey(kind: AttemptKind, key: string)
    | BySubmissionKey(key: string)

  predicate Hit(q: Query, a: Attempt) {
    match q
    case ByJob(id) => id != "" && a.jobId == id
    case ByTx(kind, tx) => tx != "" && a.kind == kind && a.tx == tx
    case ByKey(kind, key) => key != "" && a.kind == kind && a.key == key
    case BySubmissionKey(key) => key != "" && a.key == key && a.jobId != ""
  }

  /** The newest attempt the query hits. */
  function LastHit(q: Query, attempts: seq<Attempt>): (r: Option<nat>)
    ensures r.Some? ==> r.value < |attempts| && Hit(q, attempts[r.value])
    ensures r.Some? ==> forall i :: r.value < i < |attempts| ==> !Hit(q, attempts[i])
    ensures r.None? ==> forall i :: 0 <= i < |attempts| ==> !Hit(q, attempts[i])
  {
    if attempts == [] then None
    else if Hit(q, attempts[|attempts| - 1]) then Some(|attempts| - 1)
    else LastHit(q, attempts[..|attempts| - 1])
  }

  /** The newest journal record with the key. */
  function LastKey(ops: seq<Operation>, key: string): (r: Option<nat>)
    ensures r.Some? ==> r.value < |ops| && ops[r.value].key == key
    ensures r.Some? ==> forall i :: r.value < i < |ops| ==> ops[i].key != key
    ensures r.None? ==> forall i :: 0 <= i < |ops| ==> ops[i].key != key
  {
    if ops == [] then None
    else if ops[|ops| - 1].key == key then Some(|ops| - 1)
    else LastKey(ops[..|ops| - 1], key)
  }

  // ---- identities -----------------------------------------------------------------------

  predicate Alphanumeric(c: char) {
    '0' <= c <= '9' || 'A' <= c <= 'Z' || 'a' <= c <= 'z'
  }

  predicate Plain(c: char) {
    Alphanumeric(c) || c == '_' || c == '.' || c == ':' || c == '-'
  }

  /** `valid_scheduler_job_id` */
  predicate ValidJobId(s: string) {
    0 < |s| <= 128 && Alphanumeric(s[0]) && forall i :: 0 <= i < |s| ==> Plain(s[i])
  }

  /** `_validate_job_action_key`: no key, or 12 to 128 plain characters. */
  predicate ValidKey(s: string) {
    s == "" || (12 <= |s| <= 128 && forall i :: 0 <= i < |s| ==> Plain(s[i]))
  }

  datatype Profile = Profile(name: string, fingerprint: string)

  /** `assert_profile_binding`, without the read-only exemption for old manifests. */
  predicate Bound(m: Manifest, p: Profile) {
    m.cluster != "" && m.cluster == p.name && m.binding != "" && m.binding == p.fingerprint
  }

  /** `current_attempt_token` */
  function CurrentToken(m: Manifest): Token {
    var i := LastHit(ByJob(m.jobId), m.attempts);
    if i.Some? && m.attempts[i.value].token.Some? then m.attempts[i.value].token.value
    else Token(m.jobId, m.remote, m.cluster, m.binding, if i.Some? then i.value + 1 else 0,
               if i.Some? then Some(m.attempts[i.value].kind) else None)
  }

  /** `_current_incar_authority`: the INCAR digest authorised for the source generation. */
  function CurrentAuthority(m: Manifest): Option<string> {
    if m.authority.Some? then
      var i := LastHit(ByJob(m.jobId), m.attempts);
      if m.authority.value.jobId != m.jobId || m.authority.value.incar == "" then None
      else if i.None? || m.attempts[i.value].incar != m.authority.value.incar then None
      else if m.attempts[i.value].kind in {ContcarRestart, TunedRestart}
              && (m.authority.value.tx == "" || m.authority.value.tx != m.attempts[i.value].tx) then None
      else Some(m.authority.value.incar)
    else if exists i :: 0 <= i < |m.attempts| && m.attempts[i].kind in {ContcarRestart, TunedRestart} then None
    else if m.preparedIncar == "" then None
    else Some(m.preparedIncar)
  }

  /** `_job_action_generation_matches`: the record and the attempt at e are of the manifest's current
      generation. */
  predicate GenerationMatches(m: Manifest, op: Operation, e: Option<nat>)
    requires e.Some? ==> e.value < |m.attempts|
  {
    e.Some? &&
    var ev := m.attempts[e.value];
    if op.action == Cancel then
      var expected := if op.source != "" then op.source else ev.target;
      expected != "" && m.jobId == expected
    else
      var expected := if op.result != "" then op.result else ev.jobId;
      var profile := if op.request.Some? && op.request.value.profile != "" then op.request.value.profile else ev.profile;
      var remote := if op.request.Some? && op.request.value.remote != "" then op.request.value.remote else ev.remote;
      && LastHit(ByJob(m.jobId), m.attempts) == e
      && op.requestSha == ev.request && op.intent == ev.intent
      && op.tx != "" && op.tx == ev.tx
      && m.authority.Some? && m.authority.value.tx == op.tx && m.authority.value.jobId == m.jobId
      && m.authority.value.incar != "" && m.authority.value.incar == ev.incar && ev.token.Some?
      && profile != "" && m.binding == profile && remote != "" && m.remote == remote
      && expected != "" && m.jobId == expected
  }
}
