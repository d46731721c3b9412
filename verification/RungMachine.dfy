/** The rung machine of a task: executor, checker and gate edges, and recorded downgrades. */
module RungMachine {
  import opened TaskGraph
  import opened TaskStore

  predicate IsExec(r: Rung) {
    r == Pending || r == Running || r == Failed
  }

  function Rank(r: Rung): nat {
    match r
    case Pending => 0
    case Failed => 0
    case Running => 1
    case Completed => 2
    case Validated => 3
    case Accepted => 4
  }

  datatype Move =
    | SetExec(state: Rung)
    | MarkCompleted
    | PromoteValidated(checks: seq<Check>)
    | PromoteAccepted(gatePasses: bool)
    | Downgrade(to: Rung, reason: string)

  predicate AllOk(checks: seq<Check>) {
    forall i :: 0 <= i < |checks| ==> checks[i].ok
  }

  /** When the source lets this move happen from this rung. */
  predicate Allowed(from: Rung, m: Move) {
    match m
    case SetExec(s) => IsExec(s)
    case MarkCompleted => IsExec(from) || from == Completed
    case PromoteValidated(checks) => from == Completed && checks != [] && AllOk(checks)
    case PromoteAccepted(passes) => from == Validated && passes
    case Downgrade(to, reason) => reason != "" && Rank(to) < Rank(from)
  }

  function Target(m: Move): Rung {
    match m
    case SetExec(s) => s
    case MarkCompleted => Completed
    case PromoteValidated(_) => Validated
    case PromoteAccepted(_) => Accepted
    case Downgrade(to, _) => to
  }

  /** The rung and its audit trail after a move; a move that is not allowed changes nothing. */
  function Apply(t: TaskNode, m: Move): TaskNode {
    if Allowed(t.rung, m) then t.(rung := Target(m), history := t.history + [Target(m)]) else t
  }

  function Run(t: TaskNode, moves: seq<Move>): TaskNode {
    if moves == [] then t else Apply(Run(t, moves[..|moves| - 1]), moves[|moves| - 1])
  }

  method Record(task: TaskDict, rung: Rung)
    modifies task
    ensures task.value == old(task.value).(rung := rung, history := old(task.value.history) + [rung])
  {
    task.value := task.value.(rung := rung, history := task.value.history + [rung]);
  }

  /** The state functions change the caller's dictionary in place, or raise and leave it alone. */
  method Perform(task: TaskDict, m: Move) returns (ok: bool)
    modifies task
    ensures ok <==> Allowed(old(task.value.rung), m)
    ensures task.value == Apply(old(task.value), m)
  {
    var from := task.value.rung;
    match m {
      case SetExec(s) =>
        if !IsExec(s) { return false; }
        Record(task, s);
      case MarkCompleted =>
        if !(IsExec(from) || from == Completed) { return false; }
        Record(task, Completed);
      case PromoteValidated(checks) =>
        if from != Completed || checks == [] { return false; }
        var k := 0;
        while k < |checks|
          invariant k <= |checks| && AllOk(checks[..k])
          invariant task.value == old(task.value)
        {
          if !checks[k].ok { return false; }
          assert forall i :: 0 <= i < k ==> checks[i] == checks[..k][i];
          k := k + 1;
        }
        assert checks[..k] == checks;
        Record(task, Validated);
      case PromoteAccepted(passes) =>
        if from != Validated || !passes { return false; }
        Record(task, Accepted);
      case Downgrade(to, reason) =>
        if reason == "" || Rank(to) >= Rank(from) { return false; }
        Record(task, to);
    }
    ok := true;
  }

  // ---- what the audit trail shows -----------------------------------------------

  /** Entry j is a checker promotion out of completed, and nothing left the upper rungs up to entry i. */
  ghost predicate CheckedAt(history: seq<Rung>, j: int, i: int) {
    && 1 <= j <= i < |history|
    && history[j - 1] == Completed && history[j] == Validated
    && forall k :: j <= k <= i ==> history[k] == Validated || history[k] == Accepted
  }

  ghost predicate Checked(history: seq<Rung>, i: int) {
    exists j :: CheckedAt(history, j, i)
  }

  /** What entry i of the trail proves about the entries before it. */
  ghost predicate Justified(history: seq<Rung>, i: nat)
    requires i < |history|
  {
    && (history[i] == Validated || history[i] == Accepted ==> Checked(history, i))
    && (history[i] == Accepted ==> i >= 1 && history[i - 1] == Validated)
  }

  ghost predicate Audited(history: seq<Rung>) {
    forall i :: 0 <= i < |history| ==> Justified(history, i)
  }

  ghost predicate TrailMatches(t: TaskNode) {
    && (t.history == [] ==> t.rung == Pending)
    && (t.history != [] ==> t.rung == t.history[|t.history| - 1])
  }

  lemma CheckedSurvives(h: seq<Rung>, r: Rung, i: nat)
    requires i < |h| && Checked(h, i)
    ensures Checked(h + [r], i)
  {
    var j :| CheckedAt(h, j, i);
    assert CheckedAt(h + [r], j, i);
  }

  lemma CheckedExtends(h: seq<Rung>, r: Rung)
    requires h != [] && (r == Validated || r == Accepted)
    requires (h[|h| - 1] == Completed && r == Validated) || Checked(h, |h| - 1)
    ensures Checked(h + [r], |h|)
  {
    var h' := h + [r];
    if h[|h| - 1] == Completed && r == Validated {
      assert CheckedAt(h', |h|, |h|);
    } else {
      var j :| CheckedAt(h, j, |h| - 1);
      assert CheckedAt(h', j, |h|);
    }
  }

  lemma ApplyKeepsAudit(t: TaskNode, m: Move)
    requires TrailMatches(t) && Audited(t.history)
    ensures TrailMatches(Apply(t, m)) && Audited(Apply(t, m).history)
  {
    if Allowed(t.rung, m) {
      hide Checked;
      var h, r := t.history, Target(m);
      var h' := h + [r];
      forall i | 0 <= i < |h'| ensures Justified(h', i) {
        if i < |h| {
          assert Justified(h, i);
          if Checked(h, i) { CheckedSurvives(h, r, i); }
        } else if r == Validated || r == Accepted {
          assert Justified(h, |h| - 1);
          CheckedExtends(h, r);
        }
      }
    }
  }

  /** Whatever is called in whatever order, a task at accepted went from completed through the
      checker to validated, stayed there or above since, and came to accepted straight from validated. */
  lemma {:induction false} EveryAcceptanceWasChecked(t: TaskNode, moves: seq<Move>)
    requires t.rung == Pending && t.history == []
    ensures Audited(Run(t, moves).history) && TrailMatches(Run(t, moves))
    ensures Run(t, moves).rung == Accepted ==>
              Checked(Run(t, moves).history, |Run(t, moves).history| - 1)
  {
    if moves != [] {
      EveryAcceptanceWasChecked(t, moves[..|moves| - 1]);
      ApplyKeepsAudit(Run(t, moves[..|moves| - 1]), moves[|moves| - 1]);
    }
    var h := Run(t, moves).history;
    assert h != [] ==> Justified(h, |h| - 1);
  }
}
