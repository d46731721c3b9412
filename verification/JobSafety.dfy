/** What every durable step of every operation keeps. */
module JobSafety {
  import opened JobModel
  import opened JobPlans
  import JobRefresh

  // ---- invariants ---------------------------------------------------------------------

  function Attempts(d: Job): seq<Attempt> {
    if d.manifest.None? then [] else d.manifest.value.attempts
  }

  /** At most 64 records, only the last of which may be unresolved, each of its own transaction. */
  ghost predicate JournalOk(ops: seq<Operation>) {
    && |ops| <= 64
    && (forall i :: 0 <= i < |ops| - 1 ==> !Unresolved(ops[i].status))
    && (forall i, j :: 0 <= i < j < |ops| ==> ops[i].tx != ops[j].tx)
    && (forall i :: 0 <= i < |ops| ==> ops[i].tx != "")
  }

  ghost predicate HasAttempt(attempts: seq<Attempt>, kind: AttemptKind, key: string, tx: string) {
    exists i :: 0 <= i < |attempts| && attempts[i].kind == kind && attempts[i].key == key && attempts[i].tx == tx
  }

  ghost predicate HasRecord(ops: seq<Operation>, action: ActionKind, key: string, tx: string) {
    exists i :: 0 <= i < |ops| && ops[i].action == action && ops[i].key == key && ops[i].tx == tx
                && ops[i].status != Rejected
  }

  /** Every accepted action is still known, from the journal or from the attempts. */
  ghost predicate Known(ops: seq<Operation>, attempts: seq<Attempt>, sent: seq<Command>) {
    forall i :: 0 <= i < |sent| && sent[i].kind.Act? && sent[i].accepted ==>
      HasRecord(ops, sent[i].kind.action, sent[i].key, sent[i].tx)
      || HasAttempt(attempts, KindOf(sent[i].kind.action), sent[i].key, sent[i].tx)
  }

  /** A succeeded record has its attempt, and an attempt of a recorded transaction has its key. */
  ghost predicate Proved(ops: seq<Operation>, attempts: seq<Attempt>) {
    && (forall i :: 0 <= i < |ops| && ops[i].status == Succeeded ==>
          HasAttempt(attempts, KindOf(ops[i].action), ops[i].key, ops[i].tx))
    && (forall i, j :: 0 <= i < |ops| && 0 <= j < |attempts| && attempts[j].tx == ops[i].tx ==>
          attempts[j].key == ops[i].key)
  }

  predicate SameAction(a: Command, b: Command) {
    a.kind.Act? && a.kind == b.kind && a.key == b.key && a.key != ""
  }

  /** Per action and key the scheduler accepted at most one command; one submission was ever sent. */
  ghost predicate Once(sent: seq<Command>) {
    && (forall i, j :: 0 <= i < j < |sent| && sent[i].accepted && sent[j].accepted ==> !SameAction(sent[i], sent[j]))
    && (forall i, j :: 0 <= i < j < |sent| && sent[i].kind == Submit ==> sent[j].kind != Submit)
    && (forall i, j :: 0 <= i < j < |sent| && sent[i].id != "" ==> sent[j].id != sent[i].id)
  }

  ghost predicate SubmitSentIn(sent: seq<Command>) {
    exists i :: 0 <= i < |sent| && sent[i].kind == Submit
  }

  ghost predicate AcceptedIn(sent: seq<Command>, kind: CommandKind, id: string) {
    exists i :: 0 <= i < |sent| && sent[i].kind == kind && sent[i].accepted && sent[i].id == id
  }

  /** A sent submission is guarded by the recovery file or by the attempts. */
  ghost predicate Guarded(recovery: Option<Recovery>, attempts: seq<Attempt>, sent: seq<Command>) {
    && (SubmitSentIn(sent) ==> (recovery.Some? && recovery.value.status != Preparing) || attempts != [])
    && (recovery.Some? && recovery.value.status == SubmissionAccepted ==> AcceptedIn(sent, Submit, recovery.value.jobId))
  }

  predicate IsGeneration(a: Attempt) {
    a.kind == Submission || a.kind == ContcarRestart || a.kind == TunedRestart
  }

  /** The attempts that own a scheduler generation, oldest first. */
  function Generations(attempts: seq<Attempt>): (gs: seq<Attempt>)
    ensures forall i :: 0 <= i < |gs| ==> IsGeneration(gs[i])
  {
    if attempts == [] then []
    else
      var last := attempts[|attempts| - 1];
      Generations(attempts[..|attempts| - 1]) + if IsGeneration(last) then [last] else []
  }

  function CommandOf(k: AttemptKind): CommandKind {
    match k
    case ContcarRestart => Act(Continue)
    case TunedRestart => Act(Tune)
    case _ => Submit
  }

  function BoundIn(i: Intent): Option<int> {
    match i
    case Frozen(b) => b
    case Tuned(_, _, b) => b
  }

  /** Generation i: the submission first, then continuation after continuation; a frozen one keeps the
      INCAR and did not start from a finished run. */
  ghost predicate GenerationAt(gs: seq<Attempt>, i: nat)
    requires i < |gs|
  {
    var g := gs[i];
    && (g.kind == Submission <==> i == 0) && g.jobId != "" && g.incar != "" && g.round == i
    && (i == 0 ==> g.intent == None)
    && (i > 0 ==> g.tx != "" && g.intent.Some? && (BoundIn(g.intent.value).Some? ==> i <= BoundIn(g.intent.value).value))
    && (g.kind == ContcarRestart ==>
          i > 0 && g.incar == gs[i - 1].incar && g.request.Some?
          && Terminal(g.request.value.state) && g.request.value.state != Done)
  }

  ghost predicate GenerationsOk(gs: seq<Attempt>) {
    forall i :: 0 <= i < |gs| ==> GenerationAt(gs, i)
  }

  /** The authority names the current id and carries the digest of the newest generation. */
  ghost predicate ManifestOk(m: Manifest) {
    var gs := Generations(m.attempts);
    && GenerationsOk(gs)
    && (forall i :: 0 <= i < |m.attempts| && !IsGeneration(m.attempts[i]) ==> m.attempts[i].jobId == "")
    && (gs == [] ==> m.jobId == "" && m.rounds == 0)
    && (gs != [] ==>
          var g := gs[|gs| - 1];
          && m.jobId == g.jobId && m.rounds == |gs| - 1
          && m.authority.Some? && m.authority.value.jobId == m.jobId && m.authority.value.incar == g.incar
          && (|gs| > 1 ==> m.authority.value.tx == g.tx))
    && (m.state == Done && m.verdict.Some? ==> !m.verdict.value.restartable)
  }

  /** Every generation was accepted by the scheduler under its id. */
  ghost predicate Owned(attempts: seq<Attempt>, sent: seq<Command>) {
    var gs := Generations(attempts);
    forall i :: 0 <= i < |gs| ==> AcceptedIn(sent, CommandOf(gs[i].kind), gs[i].jobId)
  }

  predicate IsAction(k: AttemptKind) {
    k == ContcarRestart || k == TunedRestart || k == CancelMark
  }

  function ActionOf(k: AttemptKind): ActionKind {
    match k
    case ContcarRestart => Continue
    case TunedRestart => Tune
    case _ => Cancel
  }

  ghost predicate CommandIn(sent: seq<Command>, action: ActionKind, key: string, tx: string) {
    exists i :: 0 <= i < |sent| && sent[i].kind == Act(action) && sent[i].accepted && sent[i].key == key && sent[i].tx == tx
  }

  /** An attempt stands for a command that was accepted. */
  ghost predicate Backed(attempts: seq<Attempt>, sent: seq<Command>) {
    forall j :: 0 <= j < |attempts| && IsAction(attempts[j].kind) ==>
      CommandIn(sent, ActionOf(attempts[j].kind), attempts[j].key, attempts[j].tx)
  }

  /** No command of the action and key was accepted so far. */
  ghost predicate Unused(sent: seq<Command>, action: ActionKind, key: string) {
    forall i :: 0 <= i < |sent| && sent[i].accepted && sent[i].kind == Act(action) ==> key == "" || sent[i].key != key
  }

  /** A record marked as rejected speaks the truth: nothing was accepted under its action and key. */
  ghost predicate Truthful(ops: seq<Operation>, sent: seq<Command>) {
    forall i :: 0 <= i < |ops| && ops[i].status == Rejected ==> Unused(sent, ops[i].action, ops[i].key)
  }

  ghost predicate Valid(d: Job) {
    && JournalOk(d.journal) && Backed(Attempts(d), d.sent) && Truthful(d.journal, d.sent)
    && Known(d.journal, Attempts(d), d.sent) && Proved(d.journal, Attempts(d))
    && Once(d.sent) && Guarded(d.recovery, Attempts(d), d.sent) && Owned(Attempts(d), d.sent)
    && (d.manifest.Some? ==> ManifestOk(d.manifest.value))
  }

  // ---- runs of effects -------------------------------------------------------------------

  function Run(d: Job, es: seq<Effect>): Job {
    if es == [] then d else Apply(Run(d, es[..|es| - 1]), es[|es| - 1])
  }

  /** After each of the effects the job is valid. */
  ghost predicate Safe(d: Job, es: seq<Effect>) {
    if es == [] then Valid(d) else Safe(d, es[..|es| - 1]) && Valid(Run(d, es))
  }

  ghost predicate Leads(d: Job, es: seq<Effect>, end: Job) {
    Safe(d, es) && Run(d, es) == end
  }

  lemma NoEffects(d: Job)
    requires Valid(d)
    ensures Leads(d, [], d) && Safe(d, [])
  {
    hide Valid;
  }

  lemma Snoc(d: Job, es: seq<Effect>, mid: Job, e: Effect)
    requires Leads(d, es, mid) && Valid(Apply(mid, e))
    ensures Leads(d, es + [e], Apply(mid, e))
  {
    hide Valid, Apply;
    assert (es + [e])[..|es|] == es;
  }

  lemma {:induction false} Joined(d: Job, a: seq<Effect>, mid: Job, b: seq<Effect>, end: Job)
    requires Leads(d, a, mid) && Leads(mid, b, end)
    ensures Leads(d, a + b, end)
  {
    hide Valid, Apply;
    if b == [] {
      assert a + b == a;
    } else {
      var init, e := b[..|b| - 1], b[|b| - 1];
      Joined(d, a, mid, init, Run(mid, init));
      Snoc(d, a + init, Run(mid, init), e);
      assert a + b == (a + init) + [e];
    }
  }

  lemma {:induction false} CrashIsPrefix(d: Job, es: seq<Effect>, budget: nat)
    ensures Crash(d, es, budget) == Run(d, if budget < |es| then es[..budget] else es)
    decreases |es|
  {
    if es != [] && budget > 0 {
      var rest := es[1..];
      CrashIsPrefix(Apply(d, es[0]), rest, budget - 1);
      var cut := if budget - 1 < |rest| then rest[..budget - 1] else rest;
      RunFront(d, es[0], cut);
      assert [es[0]] + cut == if budget < |es| then es[..budget] else es;
    } else if es != [] {
      assert es[..0] == [];
    }
  }

  lemma {:induction false} RunFront(d: Job, e: Effect, es: seq<Effect>)
    ensures Run(d, [e] + es) == Run(Apply(d, e), es)
  {
    if es == [] {
      assert [e] + es == [e] && [e][..0] == [];
    } else {
      RunFront(d, e, es[..|es| - 1]);
      assert ([e] + es)[..|es|] == [e] + es[..|es| - 1];
    }
  }

  lemma {:induction false} SafePrefix(d: Job, es: seq<Effect>, n: nat)
    requires Safe(d, es) && n <= |es|
    ensures Valid(Run(d, es[..n]))
  {
    hide Valid, Apply;
    if n == |es| {
      assert es[..n] == es;
    } else {
      SafePrefix(d, es[..|es| - 1], n);
      assert es[..|es| - 1][..n] == es[..n];
    }
  }

  /** Wherever the process dies, the job is valid. */
  lemma CrashIsValid(d: Job, es: seq<Effect>, budget: nat)
    requires Safe(d, es)
    ensures Valid(Crash(d, es, budget))
  {
    CrashIsPrefix(d, es, budget);
    SafePrefix(d, es, if budget < |es| then budget else |es|);
    assert es[..|es|] == es;
  }

  // ---- steps of the journal -----------------------------------------------------------

  predicate FreshTx(d: Job, tx: string) {
    && tx != ""
    && (forall i :: 0 <= i < |d.journal| ==> d.journal[i].tx != tx)
    && (forall i :: 0 <= i < |Attempts(d)| ==> Attempts(d)[i].tx != tx)
    && (forall i :: 0 <= i < |d.sent| ==> d.sent[i].tx != tx)
  }

  /** The records of the journal after settling keep what is known. */
  lemma SettleKeeps(d: Job, m: Manifest)
    requires Valid(d) && d.manifest == Some(m) && Settle(m, d.journal).Some?
    ensures Valid(d.(journal := Settle(m, d.journal).value))
  {
    var ops := Settle(m, d.journal).value;
    SettleRecords(d, m);
    assert forall i :: 0 <= i < |ops| ==> ops[i].tx == d.journal[i].tx;
  }

  lemma SettleRecords(d: Job, m: Manifest)
    requires Proved(d.journal, m.attempts) && Known(d.journal, m.attempts, d.sent)
    requires Settle(m, d.journal).Some?
    ensures var ops := Settle(m, d.journal).value;
            Proved(ops, m.attempts) && Known(ops, m.attempts, d.sent)
  {
    var ops := Settle(m, d.journal).value;
    forall i | 0 <= i < |ops| && ops[i].status == Succeeded
      ensures HasAttempt(m.attempts, KindOf(ops[i].action), ops[i].key, ops[i].tx)
    {
      var op := d.journal[i];
      if Unresolved(op.status) {
        assert Settleable(m, op);
        var e := LastHit(ByTx(KindOf(op.action), op.tx), m.attempts).value;
        assert m.attempts[e].tx == op.tx;
      }
    }
    forall action, key, tx | HasRecord(d.journal, action, key, tx) ensures HasRecord(ops, action, key, tx) {
      var i :| 0 <= i < |d.journal| && d.journal[i].action == action && d.journal[i].key == key
               && d.journal[i].tx == tx && d.journal[i].status != Rejected;
      assert ops[i].tx == tx;
    }
  }

  /** What Started keeps of the old journal is a suffix of it. */
  lemma StartedShape(prior: seq<Operation>, op: Operation)
    requires Started(prior, op).Some?
    ensures var ops := Started(prior, op).value;
            && 0 < |ops| <= 64 && |ops| <= |prior| + 1 && ops[|ops| - 1] == op
            && (forall i :: 0 <= i < |ops| - 1 ==> ops[i] == prior[i + (|prior| + 1 - |ops|)])
            && (forall i :: 0 <= i < |prior| ==> !Unresolved(prior[i].status))
  {
  }

  lemma StartedJournal(ops: seq<Operation>, op: Operation)
    requires JournalOk(ops) && op.tx != "" && (forall i :: 0 <= i < |ops| ==> ops[i].tx != op.tx)
    requires Started(ops, op).Some?
    ensures JournalOk(Started(ops, op).value)
  {
    StartedShape(ops, op);
    hide Started;
  }

  lemma StartedKnown(ops: seq<Operation>, op: Operation, attempts: seq<Attempt>, sent: seq<Command>)
    requires Known(ops, attempts, sent) && Proved(ops, attempts) && Started(ops, op).Some?
    ensures Known(Started(ops, op).value, attempts, sent)
  {
    StartedShape(ops, op);
    hide Started;
    forall i | 0 <= i < |sent| && sent[i].kind.Act? && sent[i].accepted
      ensures HasAttempt(attempts, KindOf(sent[i].kind.action), sent[i].key, sent[i].tx)
    {
      var c := sent[i];
      if HasRecord(ops, c.kind.action, c.key, c.tx) {
        var j :| 0 <= j < |ops| && ops[j].action == c.kind.action && ops[j].key == c.key && ops[j].tx == c.tx
                 && ops[j].status != Rejected;
        assert ops[j].status == Succeeded;
      }
    }
  }

  lemma StartedProved(ops: seq<Operation>, op: Operation, attempts: seq<Attempt>)
    requires Proved(ops, attempts) && Started(ops, op).Some? && op.status == Prepared
    requires forall i :: 0 <= i < |attempts| ==> attempts[i].tx != op.tx
    ensures Proved(Started(ops, op).value, attempts)
  {
    StartedShape(ops, op);
    hide Started, HasAttempt;
  }

  lemma StartedTruthful(ops: seq<Operation>, op: Operation, sent: seq<Command>)
    requires Truthful(ops, sent) && Started(ops, op).Some? && op.status == Prepared
    ensures Truthful(Started(ops, op).value, sent)
  {
    StartedShape(ops, op);
    hide Started, Unused;
  }

  /** Old records may go: what they knew, the attempts know. */
  lemma StartKeeps(d: Job, op: Operation)
    requires Valid(d) && FreshTx(d, op.tx) && op.status == Prepared && Started(d.journal, op).Some?
    ensures Valid(d.(journal := Started(d.journal, op).value))
  {
    StartedJournal(d.journal, op);
    StartedKnown(d.journal, op, Attempts(d), d.sent);
    StartedProved(d.journal, op, Attempts(d));
    StartedTruthful(d.journal, op, d.sent);
    hide Started, JournalOk, Known, Proved, Truthful;
  }

  // ---- steps of one action -----------------------------------------------------------------

  /** The record in hand: the last of the journal. */
  ghost predicate Current(d: Job, op: Operation) {
    d.journal != [] && d.journal[|d.journal| - 1] == op
  }

  function WithLast(ops: seq<Operation>, op: Operation): seq<Operation>
    requires ops != []
  {
    ops[..|ops| - 1] + [op]
  }

  lemma {:induction false} MarkedLast(ops: seq<Operation>, status: Status, result: string)
    requires ops != []
    requires forall i, j :: 0 <= i < j < |ops| ==> ops[i].tx != ops[j].tx
    ensures var last := ops[|ops| - 1];
            Marked(ops, last.tx, status, result) == WithLast(ops, last.(status := status, result := result))
  {
    if |ops| > 1 {
      MarkedLast(ops[1..], status, result);
    }
  }

  /** Marking the record in hand with a status that is not rejected keeps everything known. */
  lemma MarkKeeps(d: Job, op: Operation, status: Status, result: string)
    requires Valid(d) && Current(d, op)
    requires status == Succeeded ==> HasAttempt(Attempts(d), KindOf(op.action), op.key, op.tx)
    requires status == Rejected ==>
               && Unused(d.sent, op.action, op.key)
               && forall i :: 0 <= i < |d.sent| && d.sent[i].accepted && d.sent[i].kind.Act? ==> d.sent[i].tx != op.tx
    ensures var ops := Marked(d.journal, op.tx, status, result);
            Valid(d.(journal := ops)) && Current(d.(journal := ops), op.(status := status, result := result))
  {
    var prior := d.journal;
    MarkedLast(prior, status, result);
    var ops := WithLast(prior, op.(status := status, result := result));
    MarkedKnown(prior, ops, Attempts(d), d.sent);
    MarkedProved(prior, ops, Attempts(d));
    MarkedJournal(prior, ops, d.sent);
    hide Known, Proved, Unused, JournalOk, Truthful, Once, Backed, Owned, Guarded, ManifestOk;
  }

  lemma MarkedJournal(prior: seq<Operation>, ops: seq<Operation>, sent: seq<Command>)
    requires prior != [] && |ops| == |prior| && JournalOk(prior) && Truthful(prior, sent)
    requires forall i :: 0 <= i < |ops| - 1 ==> ops[i] == prior[i]
    requires var n := |ops| - 1;
             ops[n].tx == prior[n].tx && (ops[n].status == Rejected ==> Unused(sent, ops[n].action, ops[n].key))
    ensures JournalOk(ops) && Truthful(ops, sent)
  {
    hide Unused;
  }

  lemma MarkedKnown(prior: seq<Operation>, ops: seq<Operation>, attempts: seq<Attempt>, sent: seq<Command>)
    requires prior != [] && |ops| == |prior| && Known(prior, attempts, sent)
    requires forall i :: 0 <= i < |ops| - 1 ==> ops[i] == prior[i]
    requires var n := |ops| - 1;
             && ops[n].action == prior[n].action && ops[n].key == prior[n].key && ops[n].tx == prior[n].tx
             && (ops[n].status == Rejected ==>
                   forall i :: 0 <= i < |sent| && sent[i].accepted && sent[i].kind.Act? ==> sent[i].tx != ops[n].tx)
    ensures Known(ops, attempts, sent)
  {
    forall i | 0 <= i < |sent| && sent[i].kind.Act? && sent[i].accepted
               && HasRecord(prior, sent[i].kind.action, sent[i].key, sent[i].tx)
      ensures HasRecord(ops, sent[i].kind.action, sent[i].key, sent[i].tx)
    {
      var c := sent[i];
      var j :| 0 <= j < |prior| && prior[j].action == c.kind.action && prior[j].key == c.key && prior[j].tx == c.tx
               && prior[j].status != Rejected;
      assert ops[j].tx == c.tx;
    }
  }

  lemma MarkedProved(prior: seq<Operation>, ops: seq<Operation>, attempts: seq<Attempt>)
    requires prior != [] && |ops| == |prior| && Proved(prior, attempts)
    requires forall i :: 0 <= i < |ops| - 1 ==> ops[i] == prior[i]
    requires var n := |ops| - 1;
             && ops[n].key == prior[n].key && ops[n].tx == prior[n].tx
             && (ops[n].status == Succeeded ==> HasAttempt(attempts, KindOf(ops[n].action), ops[n].key, ops[n].tx))
    ensures Proved(ops, attempts)
  {
    hide HasAttempt;
    forall i, j | 0 <= i < |ops| && 0 <= j < |attempts| && attempts[j].tx == ops[i].tx
      ensures attempts[j].key == ops[i].key
    {
      assert prior[i].tx == ops[i].tx;
    }
  }

  /** A command for the record in hand, of an action and key not accepted before. */
  lemma SendKeeps(d: Job, op: Operation, c: Command)
    requires Valid(d) && Current(d, op) && op.status == Prepared
    requires c.kind == Act(op.action) && c.key == op.key && c.tx == op.tx && Unused(d.sent, op.action, op.key)
    requires KeyAlone(d.journal, op.key)
    requires c.id != "" ==> forall i :: 0 <= i < |d.sent| ==> d.sent[i].id != c.id
    ensures Valid(d.(sent := d.sent + [c]))
  {
    var next := d.sent + [c];
    SentTruthful(d.journal, d.sent, c);
    assert HasRecord(d.journal, op.action, op.key, op.tx);
    forall i | 0 <= i < |next| && next[i].kind.Act? && next[i].accepted
      ensures HasRecord(d.journal, next[i].kind.action, next[i].key, next[i].tx)
              || HasAttempt(Attempts(d), KindOf(next[i].kind.action), next[i].key, next[i].tx)
    {
      if i < |d.sent| { assert next[i] == d.sent[i]; }
    }
    SentOnce(d.sent, c);
    SentElse(d, c);
    hide Known, Proved, Once, HasRecord, HasAttempt, Guarded, Owned, ManifestOk, JournalOk, Backed, Truthful;
    assert Known(d.journal, Attempts(d), next);
  }

  /** No record but the last bears the key. */
  predicate KeyAlone(ops: seq<Operation>, key: string) {
    key == "" || forall i :: 0 <= i < |ops| - 1 ==> ops[i].key != key
  }

  lemma SentTruthful(ops: seq<Operation>, sent: seq<Command>, c: Command)
    requires Truthful(ops, sent) && KeyAlone(ops, c.key) && (ops != [] ==> ops[|ops| - 1].status != Rejected || c.kind == Submit)
    ensures Truthful(ops, sent + [c])
  {
    forall i | 0 <= i < |ops| && ops[i].status == Rejected ensures Unused(sent + [c], ops[i].action, ops[i].key) {
      assert Unused(sent, ops[i].action, ops[i].key);
    }
  }

  lemma SentOnce(sent: seq<Command>, c: Command)
    requires Once(sent) && (c.kind.Act? ==> Unused(sent, c.kind.action, c.key))
    requires c.kind == Submit ==> !SubmitSentIn(sent)
    requires c.id != "" ==> forall i :: 0 <= i < |sent| ==> sent[i].id != c.id
    ensures Once(sent + [c])
  {
  }

  lemma SentElse(d: Job, c: Command)
    requires Guarded(d.recovery, Attempts(d), d.sent) && Owned(Attempts(d), d.sent)
    requires c.kind != Submit || (d.recovery.Some? && d.recovery.value.status != Preparing)
    requires Backed(Attempts(d), d.sent)
    ensures Guarded(d.recovery, Attempts(d), d.sent + [c]) && Owned(Attempts(d), d.sent + [c])
    ensures Backed(Attempts(d), d.sent + [c])
  {
    var next := d.sent + [c];
    forall action, key, tx | CommandIn(d.sent, action, key, tx) ensures CommandIn(next, action, key, tx) {
      var i :| 0 <= i < |d.sent| && d.sent[i].kind == Act(action) && d.sent[i].accepted && d.sent[i].key == key
               && d.sent[i].tx == tx;
      assert next[i] == d.sent[i];
    }
    forall kind, id | AcceptedIn(d.sent, kind, id) ensures AcceptedIn(next, kind, id) {
      var i :| 0 <= i < |d.sent| && d.sent[i].kind == kind && d.sent[i].accepted && d.sent[i].id == id;
      assert next[i] == d.sent[i];
    }
    if SubmitSentIn(next) && c.kind != Submit {
      var i :| 0 <= i < |next| && next[i].kind == Submit;
      assert d.sent[i].kind == Submit;
    }
  }

  // ---- steps of the manifest --------------------------------------------------------------

  lemma GenerationsExtend(attempts: seq<Attempt>, a: Attempt)
    ensures Generations(attempts + [a]) == Generations(attempts) + if IsGeneration(a) then [a] else []
  {
    assert (attempts + [a])[..|attempts|] == attempts;
  }

  lemma HasAttemptExtends(attempts: seq<Attempt>, a: Attempt, kind: AttemptKind, key: string, tx: string)
    ensures HasAttempt(attempts + [a], kind, key, tx)
       <==> HasAttempt(attempts, kind, key, tx) || (a.kind == kind && a.key == key && a.tx == tx)
  {
    var next := attempts + [a];
    if HasAttempt(attempts, kind, key, tx) {
      var i :| 0 <= i < |attempts| && attempts[i].kind == kind && attempts[i].key == key && attempts[i].tx == tx;
      assert next[i] == attempts[i];
    }
    assert next[|attempts|] == a;
  }

  /** Adding an attempt keeps what is known and proved, if it bears the key of its transaction's record. */
  lemma AttemptAdded(ops: seq<Operation>, attempts: seq<Attempt>, a: Attempt, sent: seq<Command>)
    requires Known(ops, attempts, sent) && Proved(ops, attempts)
    requires forall i :: 0 <= i < |ops| && ops[i].tx == a.tx ==> ops[i].key == a.key
    ensures Known(ops, attempts + [a], sent) && Proved(ops, attempts + [a])
  {
    forall kind, key, tx | HasAttempt(attempts, kind, key, tx) ensures HasAttempt(attempts + [a], kind, key, tx) {
      HasAttemptExtends(attempts, a, kind, key, tx);
    }
    hide HasAttempt, HasRecord;
  }

  /** The attempt continues the generations of m. */
  ghost predicate Continues(m: Manifest, a: Attempt) {
    && (a.kind == ContcarRestart || a.kind == TunedRestart) && a.jobId != "" && a.incar != "" && a.tx != ""
    && a.round == m.rounds + 1 && a.intent.Some? && !AtLimit(m, BoundIn(a.intent.value))
    && (a.kind == ContcarRestart ==>
          m.authority.Some? && a.incar == m.authority.value.incar && a.request.Some?
          && Terminal(a.request.value.state) && a.request.value.state != Done)
  }

  lemma ContinuedOk(m: Manifest, n: Manifest, a: Attempt)
    requires ManifestOk(m) && m.jobId != "" && Continues(m, a)
    requires n.attempts == m.attempts + [a] && n.jobId == a.jobId && n.rounds == m.rounds + 1
    requires n.authority == Some(Authority(a.jobId, a.incar, a.tx)) && n.verdict == None
    ensures ManifestOk(n)
  {
    GenerationsExtend(m.attempts, a);
    var gs, all := Generations(m.attempts), Generations(n.attempts);
    forall i | 0 <= i < |all| ensures GenerationAt(all, i) {
      assert i < |gs| ==> GenerationAt(gs, i) && all[i] == gs[i];
    }
    hide Generations;
  }

  /** Saving the manifest of an accepted continuation. */
  lemma ContinueSaveKeeps(d: Job, m: Manifest, n: Manifest, a: Attempt, op: Operation)
    requires Valid(d) && d.manifest == Some(m) && Current(d, op) && m.jobId != "" && Continues(m, a)
    requires a.tx == op.tx && a.key == op.key && a.kind == KindOf(op.action)
    requires n.attempts == m.attempts + [a] && n.jobId == a.jobId && n.rounds == m.rounds + 1
    requires n.authority == Some(Authority(a.jobId, a.incar, a.tx)) && n.verdict == None
    requires AcceptedIn(d.sent, Act(op.action), a.jobId) && CommandIn(d.sent, op.action, op.key, op.tx)
    ensures Valid(d.(manifest := Some(n))) && HasAttempt(n.attempts, a.kind, op.key, op.tx)
  {
    AttemptAdded(d.journal, m.attempts, a, d.sent);
    ContinuedOk(m, n, a);
    HasAttemptExtends(m.attempts, a, a.kind, op.key, op.tx);
    OwnedExtends(m.attempts, a, d.sent);
    BackedExtends(m.attempts, a, d.sent);
    hide ManifestOk, HasAttempt, Known, Proved, Owned, Once, Continues, Backed;
  }

  lemma OwnedExtends(attempts: seq<Attempt>, a: Attempt, sent: seq<Command>)
    requires Owned(attempts, sent) && (IsGeneration(a) ==> AcceptedIn(sent, CommandOf(a.kind), a.jobId))
    ensures Owned(attempts + [a], sent)
  {
    GenerationsExtend(attempts, a);
    hide AcceptedIn;
  }

  lemma BackedExtends(attempts: seq<Attempt>, a: Attempt, sent: seq<Command>)
    requires Backed(attempts, sent) && (IsAction(a.kind) ==> CommandIn(sent, ActionOf(a.kind), a.key, a.tx))
    ensures Backed(attempts + [a], sent)
  {
    hide CommandIn;
  }

  lemma PlainAttemptOk(m: Manifest, n: Manifest, a: Attempt)
    requires ManifestOk(m) && !IsGeneration(a) && a.jobId == ""
    requires n.attempts == m.attempts || n.attempts == m.attempts + [a]
    requires n.jobId == m.jobId && n.rounds == m.rounds && n.authority == m.authority
    requires n.state == Done && n.verdict.Some? ==> !n.verdict.value.restartable
    ensures ManifestOk(n)
  {
    GenerationsExtend(m.attempts, a);
    assert Generations(n.attempts) == Generations(m.attempts);
    forall i | 0 <= i < |n.attempts| && !IsGeneration(n.attempts[i]) ensures n.attempts[i].jobId == "" {
      assert i < |m.attempts| ==> n.attempts[i] == m.attempts[i];
    }
    hide Generations;
  }

  /** Saving a manifest that only records an event: a cancellation, a verdict, a change of state. */
  lemma EventSaveKeeps(d: Job, m: Manifest, n: Manifest, a: Attempt)
    requires Valid(d) && d.manifest == Some(m) && !IsGeneration(a) && a.jobId == ""
    requires n.attempts == m.attempts || n.attempts == m.attempts + [a]
    requires n.jobId == m.jobId && n.rounds == m.rounds && n.authority == m.authority
    requires n.state == Done && n.verdict.Some? ==> !n.verdict.value.restartable
    requires forall i :: 0 <= i < |d.journal| && d.journal[i].tx == a.tx ==> d.journal[i].key == a.key
    requires IsAction(a.kind) ==> CommandIn(d.sent, ActionOf(a.kind), a.key, a.tx)
    ensures Valid(d.(manifest := Some(n)))
  {
    BackedExtends(m.attempts, a, d.sent);
    AttemptAdded(d.journal, m.attempts, a, d.sent);
    PlainAttemptOk(m, n, a);
    OwnedExtends(m.attempts, a, d.sent);
    hide ManifestOk, Known, Proved, Owned, Once, Backed;
  }

  // ---- reconciliation --------------------------------------------------------------------------

  /** What reconciliation lets pass has not been accepted before, though its journal record may be gone. */
  lemma ProceedMeansUnused(d: Job, m: Manifest, action: ActionKind, key: string, intent: Option<Intent>, fails: bool)
    requires Valid(d) && d.manifest == Some(m)
    requires Reconcile(d, m, action, key, intent, fails).decision == Proceed
    ensures Unused(d.sent, action, key)
    ensures key == "" || forall i :: 0 <= i < |d.journal| ==> d.journal[i].key != key
  {
    var ops := Settle(m, d.journal).value;
    SettleRecords(d, m);
    ProceedMeansNewKey(m, ops, action, key, intent);
    assert key == "" || forall i :: 0 <= i < |ops| ==> d.journal[i].key == ops[i].key != key;
    assert forall i :: 0 <= i < |ops| ==> !Unresolved(ops[i].status);
    hide Valid, Settle, Reconcile, Decide, Known, Proved;
    forall i | 0 <= i < |d.sent| && d.sent[i].accepted && d.sent[i].kind == Act(action)
      ensures key == "" || d.sent[i].key != key
    {
      if d.sent[i].key == key { AcceptedIsDecided(m, ops, d.sent, action, key, intent, i); }
    }
  }

  lemma ProceedMeansNewKey(m: Manifest, ops: seq<Operation>, action: ActionKind, key: string, intent: Option<Intent>)
    requires forall i :: 0 <= i < |ops| ==> !Unresolved(ops[i].status)
    requires Decide(m, ops, action, key, intent) == Proceed
    ensures key == "" || forall i :: 0 <= i < |ops| ==> ops[i].key != key
  {
    forall i | 0 <= i < |ops| && ops[i].key == key ensures key == "" {
      DecideByRecord(m, ops, action, key, intent, i);
    }
  }

  lemma AcceptedIsDecided(m: Manifest, ops: seq<Operation>, sent: seq<Command>, action: ActionKind, key: string,
                          intent: Option<Intent>, i: nat)
    requires Known(ops, m.attempts, sent) && forall j :: 0 <= j < |ops| ==> !Unresolved(ops[j].status)
    requires i < |sent| && sent[i].accepted && sent[i].kind == Act(action) && sent[i].key == key
    ensures Decide(m, ops, action, key, intent) == Proceed ==> key == ""
  {
    var tx := sent[i].tx;
    hide Decide;
    if HasRecord(ops, action, key, tx) {
      var j :| 0 <= j < |ops| && ops[j].action == action && ops[j].key == key && ops[j].tx == tx
               && ops[j].status != Rejected;
      DecideByRecord(m, ops, action, key, intent, j);
    } else {
      DecideByAttempt(m, ops, action, key, intent, tx);
    }
  }

  lemma DecideByRecord(m: Manifest, ops: seq<Operation>, action: ActionKind, key: string, intent: Option<Intent>, j: nat)
    requires j < |ops| && ops[j].key == key
    requires forall i :: 0 <= i < |ops| ==> !Unresolved(ops[i].status)
    ensures Decide(m, ops, action, key, intent) == Proceed ==> key == ""
  {
    var i := LastKey(ops, key);
    if i.Some? {
      assert ops[i.value].status == Succeeded || ops[i.value].status == Rejected;
    }
  }

  lemma DecideByAttempt(m: Manifest, ops: seq<Operation>, action: ActionKind, key: string, intent: Option<Intent>, tx: string)
    requires forall i :: 0 <= i < |ops| ==> !Unresolved(ops[i].status)
    requires HasAttempt(m.attempts, KindOf(action), key, tx)
    ensures Decide(m, ops, action, key, intent) == Proceed ==> key == ""
  {
    var i := LastKey(ops, key);
    if i.Some? {
      assert ops[i.value].status == Succeeded || ops[i.value].status == Rejected;
    }
    var j :| 0 <= j < |m.attempts| && m.attempts[j].kind == KindOf(action) && m.attempts[j].key == key
             && m.attempts[j].tx == tx;
    assert key != "" ==> Hit(ByKey(KindOf(action), key), m.attempts[j]);
  }
}
