/** Polling a job, and the guard that keeps a continuation from being judged by old output. */
module JobRefresh {
  import opened JobModel
  import Diagnosis

  const SettleMaxChecks: nat := 3

  /** What one poll sees; the scheduler no longer lists a gone job. */
  datatype Observation = InQueue | OnNode | Gone(e: Diagnosis.Evidence, mtime: Option<int>)

  predicate Active(s: JobState) {
    s == Submitted || s == Queued || s == Running
  }

  function BaselineOf(m: Manifest): Baseline {
    if m.baseline.Some? then m.baseline.value else Baseline(None, 0, false)
  }

  predicate HasOutcar(e: Diagnosis.Evidence) {
    e.outcar.Some? && e.outcar.value > 0
  }

  /** The OUTCAR is the present round's. */
  predicate Rewritten(b: Baseline, e: Diagnosis.Evidence, mtime: Option<int>) {
    if b.archived then HasOutcar(e) else mtime.Some? && mtime != b.mtime
  }

  /** The condition of `_in_continue_settling`. */
  predicate Settling(m: Manifest, e: Diagnosis.Evidence, mtime: Option<int>) {
    m.rounds >= 1 && Active(m.state) && !Rewritten(BaselineOf(m), e, mtime)
  }

  const NotObserved := Verdict(Diagnosis.RunNotObserved, false)

  const FailureAttempt := Attempt(FailureMark, "", "", "", "", "", None, None, "", None, "", "", 0)

  /** One settling observation; the third, or one for which the scheduler gives a reason, is final. */
  function Waited(m: Manifest, e: Diagnosis.Evidence): Manifest {
    var b := BaselineOf(m);
    var checks := if e.reason.Some? then SettleMaxChecks else b.checks + 1;
    var waiting := m.(baseline := Some(b.(checks := checks)), settling := true);
    if checks < SettleMaxChecks then waiting
    else waiting.(verdict := Some(NotObserved), attempts := m.attempts + [FailureAttempt], state := NeedsHuman)
  }

  function FinalState(s: Diagnosis.FinalState): JobState {
    match s
    case Done => JobState.Done
    case Failed => JobState.Failed
    case Unconverged => JobState.Unconverged
    case NeedsHuman => JobState.NeedsHuman
  }

  /** The verdict on the outputs found. */
  function Judged(m: Manifest, e: Diagnosis.Evidence): Manifest
    requires e.Valid()
  {
    var f := Diagnosis.Classify(e);
    m.(settling := false, verdict := Some(Verdict(f.failure, f.restartable)), state := FinalState(f.state),
       attempts := if f.failure == Diagnosis.Converged then m.attempts else m.attempts + [FailureAttempt])
  }

  predicate ValidObservation(o: Observation) {
    o.Gone? ==> o.e.Valid()
  }

  /** `refresh_job` for a single-image VASP job. */
  function Refreshed(m: Manifest, o: Observation): Manifest
    requires ValidObservation(o)
  {
    match o
    case InQueue => m.(state := Queued)
    case OnNode => m.(state := Running, settling := false)
    case Gone(e, mtime) => if Settling(m, e, mtime) then Waited(m, e) else Judged(m, e)
  }

  predicate ValidAll(os: seq<Observation>) {
    forall i :: 0 <= i < |os| ==> ValidObservation(os[i])
  }

  function Polled(m: Manifest, os: seq<Observation>): Manifest
    requires ValidAll(os)
  {
    if os == [] then m else Refreshed(Polled(m, os[..|os| - 1]), os[|os| - 1])
  }

  // ---- the guard ---------------------------------------------------------------------

  /** The manifest of a continued job at its start, with archived outputs or with an older baseline. */
  predicate JustContinued(m: Manifest) {
    m.rounds >= 1 && Active(m.state) && m.verdict == None && BaselineOf(m).checks == 0
  }

  /** The poll shows no output of the present round: no OUTCAR with content where the old one was archived,
      and otherwise none with another time stamp. */
  predicate NothingNew(b: Baseline, o: Observation) {
    ValidObservation(o) && (o.Gone? ==> !Rewritten(b, o.e, o.mtime))
  }

  predicate NothingNewAll(b: Baseline, os: seq<Observation>) {
    forall i :: 0 <= i < |os| ==> ValidObservation(os[i]) && (os[i].Gone? ==> !Rewritten(b, os[i].e, os[i].mtime))
  }

  /** Settling checks the polls amount to: queued and running polls neither add nor reset. */
  function Checks(os: seq<Observation>): nat {
    if os == [] then 0
    else
      var before, o := Checks(os[..|os| - 1]), os[|os| - 1];
      if !o.Gone? then before else if o.e.reason.Some? then SettleMaxChecks else before + 1
  }

  function GoneCount(os: seq<Observation>): nat {
    if os == [] then 0 else GoneCount(os[..|os| - 1]) + if os[|os| - 1].Gone? then 1 else 0
  }

  lemma {:induction false} ChecksCount(os: seq<Observation>)
    ensures Checks(os) >= (if GoneCount(os) < SettleMaxChecks then GoneCount(os) else SettleMaxChecks)
  {
    if os != [] { ChecksCount(os[..|os| - 1]); }
  }

  lemma {:induction false} WaitsForOutput(m: Manifest, os: seq<Observation>)
    requires JustContinued(m) && NothingNewAll(BaselineOf(m), os)
    requires Checks(os) < SettleMaxChecks
    ensures var n := Polled(m, os);
            && Active(n.state) && n.verdict == None && n.rounds == m.rounds && n.attempts == m.attempts
            && BaselineOf(n) == BaselineOf(m).(checks := Checks(os))
  {
    if os != [] {
      WaitsForOutput(m, os[..|os| - 1]);
    }
  }

  /** After a continuation, while no output of the present round has appeared: nothing is judged until the
      settling checks reach three, and the poll that reaches them hands the job to a human. That is at
      most the third poll that finds the job gone, however many queued or running polls lie between. */
  lemma StaleOutputIsNotJudged(m: Manifest, os: seq<Observation>)
    requires JustContinued(m) && os != [] && NothingNewAll(BaselineOf(m), os)
    requires Checks(os[..|os| - 1]) < SettleMaxChecks
    ensures var n := Polled(m, os);
            if Checks(os) < SettleMaxChecks then Active(n.state) && n.verdict == None
            else n.state == NeedsHuman && n.verdict == Some(NotObserved)
    ensures GoneCount(os) >= SettleMaxChecks ==> Checks(os) >= SettleMaxChecks
  {
    ChecksCount(os);
    WaitsForOutput(m, os[..|os| - 1]);
    if Checks(os) < SettleMaxChecks { WaitsForOutput(m, os); }
  }

  /** Of a continued job not judged so far, a poll that finds it gone without new output judges it exactly
      when it is no longer in an active state: the guard ends with the hand-over to a human. */
  lemma JudgedWithoutOutputIff(m: Manifest, o: Observation)
    requires m.rounds >= 1
    requires m.verdict == None || m.verdict == Some(NotObserved)
    requires o.Gone? && NothingNew(BaselineOf(m), o)
    ensures var f := Diagnosis.Classify(o.e);
            Refreshed(m, o).verdict == Some(Verdict(f.failure, f.restartable)) <==> !Active(m.state)
  {
    assert Diagnosis.Classify(o.e).failure != Diagnosis.RunNotObserved;
  }

  /** The fourth poll of a job that never ran is judged, on no output at all. */
  lemma FourthPollIsJudged(m: Manifest)
    requires JustContinued(m)
    ensures exists os :: |os| == 4 && NothingNewAll(BaselineOf(m), os)
              && Polled(m, os).verdict == Some(Verdict(Diagnosis.NoOutput, false))
  {
    var e := Diagnosis.Evidence(Diagnosis.None, Diagnosis.None, Diagnosis.None, Diagnosis.None, false, Diagnosis.None,
                                false, false, false, false, Diagnosis.None, Diagnosis.None, false);
    var o := Gone(e, None);
    var os := [o, o, o, o];
    assert os[..3] == [o, o, o] && [o, o, o][..2] == [o, o] && [o, o][..1] == [o] && [o][..0] == [];
    assert Checks([]) == 0;
    assert Checks([o]) == 1;
    assert Checks([o, o]) == 2;
    assert Checks([o, o, o]) == 3;
    StaleOutputIsNotJudged(m, [o, o, o]);
    var third := Polled(m, [o, o, o]);
    assert Refreshed(third, o) == Judged(third, e);
    assert Polled(m, os) == Refreshed(third, o);
  }
}
