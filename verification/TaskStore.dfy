/** Task files with revision compare-and-set, the append-only decision ledger, and acceptance. */
module TaskStore {
  import opened TaskGraph

  // ---- what is on disk ---------------------------------------------------------

  type Inputs = map<string, string>

  /** One task node; `notes` stands for the fields that no rule here looks at. */
  datatype TaskNode = TaskNode(
    id: Id, rung: Rung, revision: nat,
    methodFingerprint: string, inputs: Inputs,
    claimedBy: Option<string>, history: seq<Rung>, notes: string)

  datatype TaskFile = Readable(task: TaskNode) | Unreadable

  datatype Meta = Meta(id: string, methodFingerprint: string)

  datatype Fingerprints = Fingerprints(taskMethod: string, campaignMethod: string, taskInputs: Inputs)

  /** SHA-256 as an injective function: a digest is the value it was taken of. */
  datatype Digest = OfChecks(checks: seq<Check>) | OfFingerprints(value: Fingerprints) | OfRecord(record: Record)

  datatype Check = Check(name: string, ok: bool)

  datatype Gate = SubmitGate | AcceptGate | ReportGate

  datatype Status = Pass | BlockedStatus | Waived

  datatype WaiverRef = WaiverRef(decisionId: string, digest: Digest)

  datatype Kind = WaiverKind | GateDecisionKind | RevocationKind | OtherKind

  datatype Author = User | Auto | AiProposal

  datatype Schema = GateDecisionSchema | GateWaiverSchema | RevocationSchema | NoSchema

  datatype Scope = TaskScope | OtherScope

  /** The context of a ledger line; a kind that has no such field leaves it at any value. */
  datatype Context = Context(
    schema: Schema, scope: Scope, campaign: string, task: Id, gate: Gate, status: Status,
    revision: nat, fingerprints: Fingerprints, fingerprintsDigest: Digest, checksDigest: Digest,
    actor: string, waiver: Option<WaiverRef>, decisionId: string)

  datatype Record = Record(id: string, ts: string, kind: Kind, madeBy: Author, context: Context)

  datatype Campaign = Campaign(meta: Option<Meta>, files: map<string, TaskFile>, ledger: seq<Record>)

  datatype GateDecision = GateDecision(
    gate: Gate, status: Status, campaign: string, task: Id, revision: nat,
    checks: seq<Check>, checksDigest: Digest, fingerprints: Fingerprints,
    ledgerId: string, ledgerDigest: Digest, actor: string, decidedAt: string, waiver: Option<WaiverRef>)

  // ---- reading ---------------------------------------------------------------

  predicate SafeChar(c: char) {
    'a' <= c <= 'z' || 'A' <= c <= 'Z' || '0' <= c <= '9' || c == '_' || c == '.' || c == '-'
  }

  /** File name of a task id; different ids may share it. */
  function SafeStem(id: Id): string {
    if id == "" then "task" else seq(|id|, i requires 0 <= i < |id| => if SafeChar(id[i]) then id[i] else '_')
  }

  function LoadTask(c: Campaign, id: Id): (r: Option<TaskNode>)
    ensures r.Some? ==> r.value.id == id && SafeStem(id) in c.files && c.files[SafeStem(id)] == Readable(r.value)
  {
    var stem := SafeStem(id);
    if stem in c.files && c.files[stem].Readable? && c.files[stem].task.id == id then Some(c.files[stem].task) else None
  }

  function FindDecision(ledger: seq<Record>, id: string): (r: Option<Record>)
    ensures r.Some? ==> r.value in ledger && r.value.id == id
    ensures r.None? ==> forall x :: x in ledger ==> x.id != id
  {
    if ledger == [] then None
    else if ledger[0].id == id then Some(ledger[0])
    else FindDecision(ledger[1..], id)
  }

  /** A human revocation of that decision, made under that campaign. */
  predicate Revokes(r: Record, campaign: string, decisionId: string) {
    r.kind == RevocationKind && r.madeBy == User && r.context.schema == RevocationSchema
    && r.context.campaign == campaign && r.context.decisionId == decisionId
  }

  predicate IsRevoked(ledger: seq<Record>, campaign: string, decisionId: string) {
    exists r :: r in ledger && Revokes(r, campaign, decisionId)
  }

  /** `validate_waiver_decision` accepts this record for that task, gate, revision and inputs. */
  predicate WaiverStands(c: Campaign, ref: WaiverRef, campaign: string, task: Id, gate: Gate, revision: nat, fps: Fingerprints) {
    var found := FindDecision(c.ledger, ref.decisionId);
    && c.meta.Some? && c.meta.value.id == campaign
    && found.Some?
    && found.value.kind == WaiverKind && found.value.madeBy == User
    && found.value.context.schema == GateWaiverSchema && found.value.context.scope == TaskScope
    && found.value.context.campaign == campaign && found.value.context.task == task
    && found.value.context.gate == gate && found.value.context.revision == revision
    && found.value.context.fingerprintsDigest == OfFingerprints(fps) && found.value.context.fingerprints == fps
    && !IsRevoked(c.ledger, campaign, ref.decisionId)
    && OfRecord(found.value) == ref.digest
  }

  function FingerprintsOf(task: TaskNode, meta: Meta): Fingerprints {
    Fingerprints(task.methodFingerprint, meta.methodFingerprint, task.inputs)
  }

  /** The ledger line of the decision, as `verify_gate_decision` expects it. */
  predicate LedgerBacks(record: Record, d: GateDecision, fps: Fingerprints) {
    && record.kind == GateDecisionKind && OfRecord(record) == d.ledgerDigest
    && record.context.schema == GateDecisionSchema && record.context.scope == TaskScope
    && record.context.campaign == d.campaign && record.context.task == d.task
    && record.context.gate == d.gate && record.context.status == d.status
    && record.context.revision == d.revision
    && record.context.fingerprints == fps && record.context.fingerprintsDigest == OfFingerprints(fps)
    && record.context.checksDigest == d.checksDigest && record.context.actor == d.actor
    && record.context.waiver == d.waiver && record.ts == d.decidedAt
  }

  /** `verify_gate_decision` */
  predicate Verified(c: Campaign, d: GateDecision, task: TaskNode) {
    && d.gate == AcceptGate && (d.status == Pass || d.status == Waived)
    && c.meta.Some? && c.meta.value.id == d.campaign
    && LoadTask(c, d.task) == Some(task)
    && task.rung == Validated && task.revision == d.revision
    && d.fingerprints == FingerprintsOf(task, c.meta.value)
    && d.checksDigest == OfChecks(d.checks)
    && (var record := FindDecision(c.ledger, d.ledgerId);
        record.Some? && LedgerBacks(record.value, d, d.fingerprints))
    && !IsRevoked(c.ledger, d.campaign, d.ledgerId)
    && (d.status == Waived ==>
          d.waiver.Some? && WaiverStands(c, d.waiver.value, d.campaign, d.task, d.gate, d.revision, d.fingerprints))
  }

  // ---- writing ---------------------------------------------------------------

  datatype Error = InvalidRevision | InvalidTask | GateMissing | GateNotForThis | RevisionConflict | NotClaimable | GateRefused

  datatype Outcome = Done(campaign: Campaign, task: TaskNode) | Refused(error: Error)

  function Write(c: Campaign, task: TaskNode): Campaign {
    c.(files := c.files[SafeStem(task.id) := Readable(task)])
  }

  /** `save_task` without an expected revision: create only. */
  function Save(c: Campaign, task: TaskNode): Outcome {
    if task.id == "" then Refused(InvalidTask)
    else if task.rung == Accepted then Refused(GateMissing)
    else if SafeStem(task.id) in c.files then Refused(RevisionConflict)
    else Done(Write(c, task), task)
  }

  /** `persist_task`: compare, verify and write under the task and ledger locks. */
  function Persist(c: Campaign, task: TaskNode, expected: int, gate: Option<GateDecision>): Outcome {
    if expected < 0 then Refused(InvalidRevision)
    else if task.id == "" then Refused(InvalidTask)
    else if task.rung == Accepted && gate.None? then Refused(GateMissing)
    else if task.rung != Accepted && gate.Some? then Refused(GateNotForThis)
    else
      var current := LoadTask(c, task.id);
      if current.None? || current.value.revision != expected then Refused(RevisionConflict)
      else if gate.Some? && !(gate.value.task == task.id && Verified(c, gate.value, current.value)) then Refused(GateRefused)
      else
        var candidate := task.(revision := expected + 1);
        Done(Write(c, candidate), candidate)
  }

  /** `claim_task` */
  function Claim(c: Campaign, id: Id, expected: int, owner: string, allowed: set<Rung>): Outcome {
    if owner == "" then Refused(NotClaimable)
    else
      var current := LoadTask(c, id);
      if current.None? || current.value.revision != expected then Refused(RevisionConflict)
      else if id == "" then Refused(InvalidTask)
      else if current.value.rung !in allowed then Refused(NotClaimable)
      else
        var t := current.value;
        var candidate := t.(rung := Running, revision := expected + 1, claimedBy := Some(owner), history := t.history + [Running]);
        Done(Write(c, candidate), candidate)
  }

  // ---- the store and its callers ---------------------------------------------

  /** The caller's task dictionary, refilled by a successful write. */
  class TaskDict {
    var value: TaskNode

    constructor (value: TaskNode)
      ensures this.value == value
    {
      this.value := value;
    }
  }

  class CampaignStore {
    var meta: Option<Meta>
    var files: map<string, TaskFile>
    var ledger: seq<Record>

    ghost function View(): Campaign
      reads this
    {
      Campaign(meta, files, ledger)
    }

    constructor ()
      ensures View() == Campaign(None, map[], [])
    {
      meta, files, ledger := None, map[], [];
    }

    method Load(id: Id) returns (r: Option<TaskNode>)
      ensures r == LoadTask(View(), id)
    {
      var stem := SafeStem(id);
      if stem in files && files[stem].Readable? && files[stem].task.id == id {
        r := Some(files[stem].task);
      } else {
        r := None;
      }
    }

    method SaveTask(task: TaskDict) returns (e: Option<Error>)
      modifies this
      ensures unchanged(task)
      ensures match Save(old(View()), old(task.value))
              case Done(c, t) => e == None && View() == c
              case Refused(error) => e == Some(error) && View() == old(View())
    {
      var candidate := task.value;
      if candidate.id == "" { return Some(InvalidTask); }
      if candidate.rung == Accepted { return Some(GateMissing); }
      var stem := SafeStem(candidate.id);
      if stem in files { return Some(RevisionConflict); }
      files := files[stem := Readable(candidate)];
      e := None;
    }

    /** A conflict or a refused gate leaves both the disk and the caller's dictionary as they were. */
    method PersistTask(task: TaskDict, expected: int, gate: Option<GateDecision>) returns (e: Option<Error>)
      modifies this, task
      ensures match Persist(old(View()), old(task.value), expected, gate)
              case Done(c, t) => e == None && View() == c && task.value == t
              case Refused(error) => e == Some(error) && View() == old(View()) && task.value == old(task.value)
    {
      if expected < 0 { return Some(InvalidRevision); }
      if task.value.id == "" { return Some(InvalidTask); }
      var candidate := task.value.(revision := expected + 1);
      if candidate.rung == Accepted && gate.None? { return Some(GateMissing); }
      if gate.Some? && candidate.rung != Accepted { return Some(GateNotForThis); }
      var current := Load(candidate.id);
      if current.None? || current.value.revision != expected { return Some(RevisionConflict); }
      if gate.Some? {
        var ok := VerifyGateDecision(gate.value, current.value);
        if !ok || gate.value.task != candidate.id { return Some(GateRefused); }
      }
      files := files[SafeStem(candidate.id) := Readable(candidate)];
      task.value := candidate;
      e := None;
    }

    method ClaimTask(id: Id, expected: int, owner: string, allowed: set<Rung>) returns (e: Option<Error>, claimed: Option<TaskNode>)
      modifies this
      ensures match Claim(old(View()), id, expected, owner, allowed)
              case Done(c, t) => e == None && View() == c && claimed == Some(t)
              case Refused(error) => e == Some(error) && View() == old(View()) && claimed == None
    {
      claimed := None;
      if owner == "" { return Some(NotClaimable), None; }
      var current := Load(id);
      if current.None? || current.value.revision != expected { return Some(RevisionConflict), None; }
      if id == "" { return Some(InvalidTask), None; }
      if current.value.rung !in allowed { return Some(NotClaimable), None; }
      var t := current.value;
      var candidate := t.(rung := Running, revision := expected + 1, claimedBy := Some(owner), history := t.history + [Running]);
      files := files[SafeStem(id) := Readable(candidate)];
      e, claimed := None, Some(candidate);
    }

    method AppendRecord(r: Record)
      modifies this`ledger
      ensures ledger == old(ledger) + [r]
    {
      ledger := ledger + [r];
    }

    method FindRecord(id: string) returns (r: Option<Record>)
      ensures r == FindDecision(ledger, id)
    {
      var k := 0;
      while k < |ledger|
        invariant k <= |ledger|
        invariant FindDecision(ledger, id) == FindDecision(ledger[k..], id)
      {
        if ledger[k].id == id { return Some(ledger[k]); }
        assert ledger[k..][1..] == ledger[k + 1..];
        k := k + 1;
      }
      r := None;
    }

    method CheckRevoked(campaign: string, decisionId: string) returns (revoked: bool)
      ensures revoked <==> IsRevoked(ledger, campaign, decisionId)
    {
      var k := 0;
      while k < |ledger|
        invariant k <= |ledger|
        invariant forall i :: 0 <= i < k ==> !Revokes(ledger[i], campaign, decisionId)
      {
        if Revokes(ledger[k], campaign, decisionId) { return true; }
        k := k + 1;
      }
      revoked := false;
    }

    method ValidateWaiver(ref: WaiverRef, campaign: string, task: Id, gate: Gate, revision: nat, fps: Fingerprints)
      returns (ok: bool)
      ensures ok <==> WaiverStands(View(), ref, campaign, task, gate, revision, fps)
    {
      if meta.None? || meta.value.id != campaign { return false; }
      var found := FindRecord(ref.decisionId);
      if found.None? || found.value.kind != WaiverKind || found.value.madeBy != User { return false; }
      var x := found.value.context;
      if x.schema != GateWaiverSchema || x.scope != TaskScope || x.campaign != campaign || x.task != task
         || x.gate != gate || x.revision != revision || x.fingerprintsDigest != OfFingerprints(fps)
         || x.fingerprints != fps {
        return false;
      }
      var revoked := CheckRevoked(campaign, ref.decisionId);
      ok := !revoked && OfRecord(found.value) == ref.digest;
    }

    method VerifyGateDecision(d: GateDecision, task: TaskNode) returns (ok: bool)
      ensures ok <==> Verified(View(), d, task)
    {
      if d.gate != AcceptGate || (d.status != Pass && d.status != Waived) { return false; }
      if meta.None? || meta.value.id != d.campaign { return false; }
      var onDisk := Load(d.task);
      if onDisk != Some(task) || task.rung != Validated || task.revision != d.revision { return false; }
      if d.fingerprints != FingerprintsOf(task, meta.value) || d.checksDigest != OfChecks(d.checks) { return false; }
      var record := FindRecord(d.ledgerId);
      if record.None? || !LedgerBacks(record.value, d, d.fingerprints) { return false; }
      var revoked := CheckRevoked(d.campaign, d.ledgerId);
      if revoked { return false; }
      if d.status == Waived {
        if d.waiver.None? { return false; }
        ok := ValidateWaiver(d.waiver.value, d.campaign, d.task, d.gate, d.revision, d.fingerprints);
        return;
      }
      ok := true;
    }

    /** `accept_gate`: three checks, each of which may add an issue, and the decision goes to the ledger. */
    method RunAcceptGate(taskHash: string, campaignHash: string, required: seq<Check>, energyFinite: bool, b: Binding,
                         waiverId: Option<string>, id: string, ts: string) returns (decision: Option<GateDecision>)
      modifies this`ledger
      ensures var v := AcceptVerdict(taskHash, campaignHash, required, energyFinite);
              match Finalize(old(View()), AcceptGate, v, b, waiverId, id, ts)
              case Finalized(c, d) => decision == Some(d) && View() == c
              case FinalizeRefused => decision == None && View() == old(View())
    {
      var checks: seq<Check>, issues: seq<string> := [], [];
      var ok := taskHash != "" && campaignHash != "" && taskHash == campaignHash;
      checks := checks + [Check("fingerprint_consistent", ok)];
      if !ok { issues := issues + ["fingerprint"]; }
      var k := 0;
      while k < |required| && required[k].ok
        invariant 0 <= k <= |required| && forall i :: 0 <= i < k ==> required[i].ok
      {
        k := k + 1;
      }
      checks := checks + [Check("required_checks", k == |required|)];
      if k < |required| { issues := issues + ["required_checks"]; }
      checks := checks + [Check("energy_present_finite", energyFinite)];
      if !energyFinite { issues := issues + ["energy"]; }
      ghost var v := AcceptVerdict(taskHash, campaignHash, required, energyFinite);
      assert checks == v.checks && issues == v.issues;
      decision := FinalizeGate(AcceptGate, Verdict(checks, issues), b, waiverId, id, ts);
    }

    /** `_finalize` for a decision bound to campaign, task and revision. */
    method FinalizeGate(gate: Gate, v: Verdict, b: Binding, waiverId: Option<string>, id: string, ts: string)
      returns (decision: Option<GateDecision>)
      modifies this`ledger
      ensures match Finalize(old(View()), gate, v, b, waiverId, id, ts)
              case Finalized(c, d) => decision == Some(d) && View() == c
              case FinalizeRefused => decision == None && View() == old(View())
    {
      hide WaiverStands, FindDecision;
      if meta.None? || meta.value.id != b.campaign { return None; }
      var status, actor, waiver := if v.issues == [] then Pass else BlockedStatus, b.actor, None;
      if v.issues != [] && waiverId.Some? {
        var found := FindRecord(waiverId.value);
        if found.None? { return None; }
        var ref := WaiverRef(waiverId.value, OfRecord(found.value));
        var stands := ValidateWaiver(ref, b.campaign, b.task, gate, b.revision, b.fingerprints);
        if !stands { return None; }
        status, waiver := Waived, Some(ref);
        actor := if found.value.context.actor == "" then "user" else found.value.context.actor;
      }
      var record := GateRecord(b, gate, status, v.checks, actor, waiver, id, ts);
      AppendRecord(record);
      decision := Some(GateDecision(gate, status, b.campaign, b.task, b.revision, v.checks, OfChecks(v.checks),
                                    b.fingerprints, id, OfRecord(record), actor, ts, waiver));
    }

    /** `promote_accepted`: verify, copy, persist the copy, and only then change the caller's dictionary. */
    method PromoteAccepted(task: TaskDict, d: GateDecision) returns (e: Option<Error>)
      modifies this, task
      ensures e.None? ==>
                && Verified(old(View()), d, old(task.value))
                && Persist(old(View()), Promotion(old(task.value)), d.revision, Some(d)) == Done(View(), task.value)
                && task.value == Promotion(old(task.value)).(revision := old(task.value).revision + 1)
                && LoadTask(View(), task.value.id) == Some(task.value)
      ensures e.Some? ==> View() == old(View()) && task.value == old(task.value)
    {
      if task.value.rung != Validated { return Some(GateRefused); }
      var verified := VerifyGateDecision(d, task.value);
      if !verified { return Some(GateRefused); }
      hide Verified;
      var candidate := new TaskDict(Promotion(task.value));
      e := PersistTask(candidate, d.revision, Some(d));
      if e.None? { task.value := candidate.value; }
    }
  }

  // ---- runs -------------------------------------------------------------------

  datatype Event =
    | SaveEvent(task: TaskNode)
    | PersistEvent(task: TaskNode, expected: int, gate: Option<GateDecision>)
    | ClaimEvent(id: Id, expected: int, owner: string, allowed: set<Rung>)
    | AppendEvent(record: Record)
    | MetaEvent(meta: Meta)

  /** One step that some process takes while it holds the locks of that step. */
  function Attempt(c: Campaign, e: Event): Outcome {
    match e
    case SaveEvent(t) => Save(c, t)
    case PersistEvent(t, expected, gate) => Persist(c, t, expected, gate)
    case ClaimEvent(id, expected, owner, allowed) => Claim(c, id, expected, owner, allowed)
    case AppendEvent(_) => Refused(InvalidTask)
    case MetaEvent(_) => Refused(InvalidTask)
  }

  function Step(c: Campaign, e: Event): Campaign {
    match e
    case AppendEvent(r) => c.(ledger := c.ledger + [r])
    case MetaEvent(m) => c.(meta := Some(m))
    case _ => if Attempt(c, e).Done? then Attempt(c, e).campaign else c
  }

  /** The campaign after the first n events. */
  function After(c: Campaign, events: seq<Event>, n: nat): Campaign
    requires n <= |events|
  {
    if n == 0 then c else Step(After(c, events, n - 1), events[n - 1])
  }

  /** The file at this name holds a readable task. */
  predicate Holds(c: Campaign, stem: string) {
    stem in c.files && c.files[stem].Readable?
  }

  /** A step writes at most one task file, raises its revision by one and keeps its id. */
  lemma StepOnFile(c: Campaign, e: Event, stem: string)
    requires Holds(c, stem)
    ensures Holds(Step(c, e), stem)
    ensures Step(c, e).files[stem] == c.files[stem]
         || (&& Step(c, e).files[stem].task.revision == c.files[stem].task.revision + 1
             && Step(c, e).files[stem].task.id == c.files[stem].task.id
             && Attempt(c, e).Done? && Attempt(c, e).task == Step(c, e).files[stem].task)
  {
  }

  /** Over any run a task file keeps its id, and its content is fixed by its revision. */
  lemma {:induction false} RevisionFixesContent(c: Campaign, events: seq<Event>, i: nat, j: nat, stem: string)
    requires i <= j <= |events| && Holds(After(c, events, i), stem)
    ensures Holds(After(c, events, j), stem)
    ensures var a, b := After(c, events, i).files[stem].task, After(c, events, j).files[stem].task;
            && a.id == b.id && a.revision <= b.revision
            && (a.revision == b.revision ==> a == b)
    decreases j
  {
    if i < j {
      RevisionFixesContent(c, events, i, j - 1, stem);
      StepOnFile(After(c, events, j - 1), events[j - 1], stem);
    }
  }

  /** A persist or a claim of this task against this revision. */
  predicate Competes(e: Event, id: Id, expected: int) {
    || (e.PersistEvent? && e.task.id == id && e.expected == expected)
    || (e.ClaimEvent? && e.id == id && e.expected == expected)
  }

  ghost predicate Succeeds(c: Campaign, events: seq<Event>, i: nat)
    requires i < |events|
  {
    Attempt(After(c, events, i), events[i]).Done?
  }

  /** Every successful persist or claim is against the disk revision and raises it by exactly one. */
  lemma WinnerAdvances(c: Campaign, e: Event, id: Id, expected: int)
    requires Competes(e, id, expected) && Attempt(c, e).Done?
    ensures LoadTask(c, id).Some? && LoadTask(c, id).value.revision == expected
    ensures LoadTask(Step(c, e), id).Some? && LoadTask(Step(c, e), id).value.revision == expected + 1
    ensures forall stem :: stem != SafeStem(id) ==>
              (stem in Step(c, e).files <==> stem in c.files)
              && (stem in c.files ==> Step(c, e).files[stem] == c.files[stem])
    ensures Step(c, e).ledger == c.ledger
  {
  }

  /** Of all calls against one expected revision of one task at most one succeeds. */
  lemma AtMostOneWinner(c: Campaign, events: seq<Event>, id: Id, expected: int, i: nat, j: nat)
    requires i < j < |events| && Competes(events[i], id, expected) && Competes(events[j], id, expected)
    ensures !(Succeeds(c, events, i) && Succeeds(c, events, j))
  {
    if Succeeds(c, events, i) && Succeeds(c, events, j) {
      WinnerAdvances(After(c, events, i), events[i], id, expected);
      WinnerAdvances(After(c, events, j), events[j], id, expected);
      RevisionFixesContent(c, events, i + 1, j, SafeStem(id));
    }
  }

  // ---- acceptance --------------------------------------------------------------

  /** Event k accepted the task of this file: before it the file was validated one revision earlier. */
  ghost predicate AcceptedBy(c: Campaign, events: seq<Event>, k: nat, task: TaskNode)
    requires k < |events|
  {
    var before := After(c, events, k);
    && events[k].PersistEvent? && events[k].gate.Some? && task.revision >= 1
    && LoadTask(before, task.id).Some?
    && LoadTask(before, task.id).value.rung == Validated
    && LoadTask(before, task.id).value.revision == task.revision - 1
    && events[k].gate.value.revision == task.revision - 1
    && events[k].gate.value.task == task.id
    && Verified(before, events[k].gate.value, LoadTask(before, task.id).value)
  }

  ghost predicate NothingAccepted(c: Campaign) {
    forall stem :: Holds(c, stem) ==> c.files[stem].task.rung != Accepted
  }

  /** The file holds the same task in both. */
  predicate HoldsSame(a: Campaign, b: Campaign, stem: string) {
    Holds(a, stem) && Holds(b, stem) && a.files[stem] == b.files[stem]
  }

  /** A file that one event made accepted: that event carried the decision. */
  lemma NewlyAccepted(c: Campaign, events: seq<Event>, k: nat, stem: string)
    requires k < |events| && Holds(After(c, events, k + 1), stem)
    requires var now := After(c, events, k + 1).files[stem];
             now.task.rung == Accepted && !HoldsSame(After(c, events, k), After(c, events, k + 1), stem)
    ensures AcceptedBy(c, events, k, After(c, events, k + 1).files[stem].task)
  {
    var before := After(c, events, k);
    assert After(c, events, k + 1) == Step(before, events[k]);
    hide After;
  }

  /** In every run an accepted task was validated at the revision its standing gate decision is bound to. */
  lemma {:induction false} AcceptanceIsSafe(c: Campaign, events: seq<Event>, n: nat, stem: string) returns (k: nat)
    requires n <= |events| && NothingAccepted(c)
    requires Holds(After(c, events, n), stem) && After(c, events, n).files[stem].task.rung == Accepted
    ensures k < n && AcceptedBy(c, events, k, After(c, events, n).files[stem].task)
    ensures forall m :: k < m <= n ==> HoldsSame(After(c, events, m), After(c, events, n), stem)
  {
    hide Step, AcceptedBy;
    assert n > 0;
    hide NothingAccepted, Holds;
    var prev := After(c, events, n - 1);
    if HoldsSame(prev, After(c, events, n), stem) {
      k := AcceptanceIsSafe(c, events, n - 1, stem);
    } else {
      k := n - 1;
      NewlyAccepted(c, events, k, stem);
    }
  }

  /** Spelled out: at the write no revocation of the decision or of its waiver was in the ledger. */
  lemma NoRevocationPrecedes(c: Campaign, events: seq<Event>, k: nat, task: TaskNode)
    requires k < |events| && AcceptedBy(c, events, k, task)
    ensures var d := events[k].gate.value;
            var ledger := After(c, events, k).ledger;
            && (forall r :: r in ledger ==> !Revokes(r, d.campaign, d.ledgerId))
            && (d.status == Waived ==>
                  d.waiver.Some? && forall r :: r in ledger ==> !Revokes(r, d.campaign, d.waiver.value.decisionId))
            && (exists r :: r in ledger && r.kind == GateDecisionKind && r.context.task == task.id
                            && r.context.revision == task.revision - 1 && r.context.status == d.status)
  {
    var d := events[k].gate.value;
    var record := FindDecision(After(c, events, k).ledger, d.ledgerId);
    assert record.value in After(c, events, k).ledger;
  }

  /** Once a revocation is in the ledger the decision never verifies again. */
  lemma {:induction false} RevocationIsFinal(c: Campaign, events: seq<Event>, i: nat, j: nat, d: GateDecision, task: TaskNode)
    requires i <= j <= |events| && IsRevoked(After(c, events, i).ledger, d.campaign, d.ledgerId)
    ensures IsRevoked(After(c, events, j).ledger, d.campaign, d.ledgerId)
    ensures !Verified(After(c, events, j), d, task)
    decreases j
  {
    if i < j {
      RevocationIsFinal(c, events, i, j - 1, d, task);
      var before := After(c, events, j - 1);
      var r :| r in before.ledger && Revokes(r, d.campaign, d.ledgerId);
      assert r in After(c, events, j).ledger;
    }
  }

  // ---- promote_accepted ---------------------------------------------------------

  /** What `promote_accepted` writes for a validated task. */
  function Promotion(task: TaskNode): TaskNode {
    task.(rung := Accepted, history := task.history + [Accepted], claimedBy := None)
  }

  /** The task that was verified first is the one on disk when the write succeeds, however long in between. */
  lemma PromotionAcceptsWhatWasVerified(c: Campaign, events: seq<Event>, i: nat, j: nat, d: GateDecision, task: TaskNode)
    requires i <= j < |events| && Verified(After(c, events, i), d, task)
    requires events[j] == PersistEvent(Promotion(task), d.revision, Some(d)) && Succeeds(c, events, j)
    ensures LoadTask(After(c, events, j), task.id) == Some(task)
    ensures LoadTask(After(c, events, j + 1), task.id) == Some(Promotion(task).(revision := task.revision + 1))
    ensures d.fingerprints.taskInputs == task.inputs && d.fingerprints.taskMethod == task.methodFingerprint
  {
    assert LoadTask(After(c, events, i), d.task) == Some(task) && task.id == d.task;
    WinnerAdvances(After(c, events, j), events[j], task.id, d.revision);
    RevisionFixesContent(c, events, i, j, SafeStem(task.id));
  }

  /** The inputs that an accepted task carries are the ones its decision is bound to. */
  predicate CarriesBoundInputs(task: TaskNode, d: GateDecision) {
    d.fingerprints.taskInputs == task.inputs && d.fingerprints.taskMethod == task.methodFingerprint
  }

  /** `persist_task` alone does not compare the candidate with the verified task: exactly when they agree. */
  lemma DirectPersistBindsInputsIff(c: Campaign, candidate: TaskNode, d: GateDecision)
    requires Persist(c, candidate, d.revision, Some(d)).Done?
    ensures LoadTask(c, candidate.id).Some?
    ensures var onDisk := LoadTask(c, candidate.id).value;
            CarriesBoundInputs(Persist(c, candidate, d.revision, Some(d)).task, d)
            <==> candidate.inputs == onDisk.inputs && candidate.methodFingerprint == onDisk.methodFingerprint
  {
  }

  /** A direct call that accepts other inputs than the gate saw. */
  lemma DirectPersistCanDrift() returns (c: Campaign, candidate: TaskNode, d: GateDecision)
    ensures Persist(c, candidate, d.revision, Some(d)).Done?
    ensures !CarriesBoundInputs(Persist(c, candidate, d.revision, Some(d)).task, d)
  {
    var task := TaskNode("a", Validated, 0, "m", map[], None, [Validated], "");
    var start := Campaign(Some(Meta("c", "m")), map["a" := Readable(task)], []);
    assert SafeStem("a") == "a";
    var v := AcceptVerdict("m", "m", [], true);
    var b := Binding("c", "a", 0, FingerprintsOf(task, Meta("c", "m")), "gate:auto");
    FreshDecisionVerifies(start, task, v, b, None, "dec", "t");
    var f := Finalize(start, AcceptGate, v, b, None, "dec", "t");
    c, d := f.campaign, f.decision;
    candidate := task.(rung := Accepted, inputs := map["k" := "changed"]);
    assert "k" in candidate.inputs && "k" !in task.inputs;
  }

  // ---- the gate that produces decisions -------------------------------------------

  datatype Verdict = Verdict(checks: seq<Check>, issues: seq<string>)

  /** `accept_gate` on its three conditions; `energyFinite` is the finiteness test of the energy. */
  function AcceptVerdict(taskHash: string, campaignHash: string, required: seq<Check>, energyFinite: bool): Verdict {
    var same := taskHash != "" && campaignHash != "" && taskHash == campaignHash;
    var passed := forall i :: 0 <= i < |required| ==> required[i].ok;
    Verdict(
      [Check("fingerprint_consistent", same), Check("required_checks", passed), Check("energy_present_finite", energyFinite)],
      (if same then [] else ["fingerprint"]) + (if passed then [] else ["required_checks"])
      + (if energyFinite then [] else ["energy"]))
  }

  datatype Binding = Binding(campaign: string, task: Id, revision: nat, fingerprints: Fingerprints, actor: string)

  datatype Finalized = Finalized(campaign: Campaign, decision: GateDecision) | FinalizeRefused

  function GateRecord(b: Binding, gate: Gate, status: Status, checks: seq<Check>, actor: string,
                      waiver: Option<WaiverRef>, id: string, ts: string): Record {
    Record(id, ts, GateDecisionKind, if status == Waived then User else Auto,
           Context(GateDecisionSchema, TaskScope, b.campaign, b.task, gate, status, b.revision, b.fingerprints,
                   OfFingerprints(b.fingerprints), OfChecks(checks), actor, waiver, ""))
  }

  /** `_finalize` with a full binding: a waiver only helps a blocked verdict, and the result goes to the ledger. */
  function Finalize(c: Campaign, gate: Gate, v: Verdict, b: Binding, waiverId: Option<string>, id: string, ts: string): Finalized {
    var blocked := v.issues != [];
    if c.meta.None? || c.meta.value.id != b.campaign then FinalizeRefused
    else if blocked && waiverId.Some? then
      var found := FindDecision(c.ledger, waiverId.value);
      if found.None? then FinalizeRefused
      else
        var ref := WaiverRef(waiverId.value, OfRecord(found.value));
        if !WaiverStands(c, ref, b.campaign, b.task, gate, b.revision, b.fingerprints) then FinalizeRefused
        else
          var actor := if found.value.context.actor == "" then "user" else found.value.context.actor;
          Recorded(c, gate, Waived, v, b, actor, Some(ref), id, ts)
    else Recorded(c, gate, if blocked then BlockedStatus else Pass, v, b, b.actor, None, id, ts)
  }

  function Recorded(c: Campaign, gate: Gate, status: Status, v: Verdict, b: Binding, actor: string,
                    waiver: Option<WaiverRef>, id: string, ts: string): Finalized {
    var record := GateRecord(b, gate, status, v.checks, actor, waiver, id, ts);
    Finalized(c.(ledger := c.ledger + [record]),
              GateDecision(gate, status, b.campaign, b.task, b.revision, v.checks, OfChecks(v.checks), b.fingerprints,
                           id, OfRecord(record), actor, ts, waiver))
  }

  lemma {:induction false} FindAppended(ledger: seq<Record>, r: Record)
    requires forall x :: x in ledger ==> x.id != r.id
    ensures FindDecision(ledger + [r], r.id) == Some(r)
  {
    if ledger != [] {
      FindAppended(ledger[1..], r);
      assert (ledger + [r])[1..] == ledger[1..] + [r];
    }
  }

  lemma {:induction false} FindKept(ledger: seq<Record>, r: Record, id: string)
    requires FindDecision(ledger, id).Some?
    ensures FindDecision(ledger + [r], id) == FindDecision(ledger, id)
  {
    if ledger != [] && ledger[0].id != id {
      FindKept(ledger[1..], r, id);
      assert (ledger + [r])[1..] == ledger[1..] + [r];
    }
  }

  /** The line the gate appended is found and backs the decision, and no revocation is new. */
  lemma GateIsOnRecord(c: Campaign, v: Verdict, b: Binding, waiverId: Option<string>, id: string, ts: string)
    requires forall r :: r in c.ledger ==> r.id != id && r.context.decisionId != id
    requires Finalize(c, AcceptGate, v, b, waiverId, id, ts).Finalized?
    ensures var f := Finalize(c, AcceptGate, v, b, waiverId, id, ts);
            var record := FindDecision(f.campaign.ledger, f.decision.ledgerId);
            && f.decision.ledgerId == id && f.campaign.meta == c.meta && f.campaign.files == c.files
            && record.Some? && LedgerBacks(record.value, f.decision, b.fingerprints)
            && (forall campaign, other :: IsRevoked(f.campaign.ledger, campaign, other) ==> IsRevoked(c.ledger, campaign, other))
            && !IsRevoked(f.campaign.ledger, b.campaign, id)
            && f.campaign.ledger == c.ledger + [record.value]
  {
    var f := Finalize(c, AcceptGate, v, b, waiverId, id, ts);
    var record := f.campaign.ledger[|c.ledger|];
    assert f.campaign.ledger == c.ledger + [record];
    FindAppended(c.ledger, record);
    hide FindDecision, WaiverStands;
    assert forall r :: r in f.campaign.ledger <==> r in c.ledger || r == record;
  }

  /** A waiver that stood before the gate's line was appended stands after it. */
  lemma WaiverKept(c: Campaign, after: Campaign, record: Record, ref: WaiverRef, campaign: string, task: Id, gate: Gate,
                   revision: nat, fps: Fingerprints)
    requires WaiverStands(c, ref, campaign, task, gate, revision, fps)
    requires after.ledger == c.ledger + [record] && after.meta == c.meta
    requires IsRevoked(after.ledger, campaign, ref.decisionId) ==> IsRevoked(c.ledger, campaign, ref.decisionId)
    ensures WaiverStands(after, ref, campaign, task, gate, revision, fps)
  {
    FindKept(c.ledger, record, ref.decisionId);
  }

  lemma VerifiedPersists(c: Campaign, d: GateDecision, task: TaskNode)
    requires Verified(c, d, task) && task.id != "" && d.task == task.id
    ensures Persist(c, Promotion(task), task.revision, Some(d)).Done?
  {
    hide LedgerBacks, WaiverStands, IsRevoked;
  }

  /** A decision bound to the validated task on disk verifies right after the gate exactly when it is not blocked. */
  lemma FreshDecisionVerifies(c: Campaign, task: TaskNode, v: Verdict, b: Binding, waiverId: Option<string>, id: string, ts: string)
    requires c.meta.Some? && task.id != "" && LoadTask(c, task.id) == Some(task) && task.rung == Validated
    requires b == Binding(c.meta.value.id, task.id, task.revision, FingerprintsOf(task, c.meta.value), b.actor)
    requires forall r :: r in c.ledger ==> r.id != id && r.context.decisionId != id
    requires Finalize(c, AcceptGate, v, b, waiverId, id, ts).Finalized?
    ensures var f := Finalize(c, AcceptGate, v, b, waiverId, id, ts);
            && (Verified(f.campaign, f.decision, task) <==> f.decision.status != BlockedStatus)
            && (f.decision.status == BlockedStatus <==> v.issues != [] && waiverId.None?)
            && (f.decision.status != BlockedStatus ==>
                  Persist(f.campaign, Promotion(task), task.revision, Some(f.decision)).Done?)
  {
    hide FindDecision, LedgerBacks, IsRevoked, WaiverStands, Persist;
    GateIsOnRecord(c, v, b, waiverId, id, ts);
    var f := Finalize(c, AcceptGate, v, b, waiverId, id, ts);
    var d := f.decision;
    if d.status == Waived {
      WaiverKept(c, f.campaign, f.campaign.ledger[|c.ledger|], d.waiver.value, d.campaign, d.task, d.gate, d.revision, d.fingerprints);
    }
    if d.status != BlockedStatus { VerifiedPersists(f.campaign, d, task); }
  }

  predicate Conditions(taskHash: string, campaignHash: string, required: seq<Check>, energyFinite: bool) {
    taskHash == campaignHash && taskHash != "" && energyFinite && forall r :: r in required ==> r.ok
  }

  lemma NoIssuesIff(taskHash: string, campaignHash: string, required: seq<Check>, energyFinite: bool)
    ensures AcceptVerdict(taskHash, campaignHash, required, energyFinite).issues == []
       <==> Conditions(taskHash, campaignHash, required, energyFinite)
  {
  }

  lemma OnlyVerifiedPersists(c: Campaign, d: GateDecision, task: TaskNode)
    requires task.id != "" && LoadTask(c, task.id) == Some(task)
    requires Persist(c, Promotion(task), task.revision, Some(d)).Done?
    ensures Verified(c, d, task)
  {
    hide LedgerBacks, WaiverStands, IsRevoked;
  }

  /** What the accept gate on a validated task leads to: the ledger line it appends says pass exactly when
      equal non-empty fingerprints, all required checks and a finite energy were there, and the task can
      then be promoted exactly when they were, or when the gate took a standing waiver. */
  lemma GateDecidesPromotion(c: Campaign, task: TaskNode, taskHash: string, campaignHash: string, required: seq<Check>,
                             energyFinite: bool, b: Binding, waiverId: Option<string>, id: string, ts: string)
    requires c.meta.Some? && task.id != "" && LoadTask(c, task.id) == Some(task) && task.rung == Validated
    requires b == Binding(c.meta.value.id, task.id, task.revision, FingerprintsOf(task, c.meta.value), b.actor)
    requires forall r :: r in c.ledger ==> r.id != id && r.context.decisionId != id
    requires Finalize(c, AcceptGate, AcceptVerdict(taskHash, campaignHash, required, energyFinite), b, waiverId, id, ts).Finalized?
    ensures var f := Finalize(c, AcceptGate, AcceptVerdict(taskHash, campaignHash, required, energyFinite), b, waiverId, id, ts);
            var ok := Conditions(taskHash, campaignHash, required, energyFinite);
            && |f.campaign.ledger| == |c.ledger| + 1
            && (f.campaign.ledger[|c.ledger|].context.status == Pass <==> ok)
            && (Persist(f.campaign, Promotion(task), task.revision, Some(f.decision)).Done? <==> ok || waiverId.Some?)
  {
    hide Persist, Verified, WaiverStands, FindDecision, AcceptVerdict;
    var v := AcceptVerdict(taskHash, campaignHash, required, energyFinite);
    var f := Finalize(c, AcceptGate, v, b, waiverId, id, ts);
    NoIssuesIff(taskHash, campaignHash, required, energyFinite);
    FreshDecisionVerifies(c, task, v, b, waiverId, id, ts);
    assert f.campaign.files == c.files;
    if Persist(f.campaign, Promotion(task), task.revision, Some(f.decision)).Done? {
      OnlyVerifiedPersists(f.campaign, f.decision, task);
    }
  }
}
