/** The verdict on a finished run, and the restartable flag that continuations rely on. */
module Diagnosis {

  datatype Option<T> = None | Some(value: T)

  datatype Reason = TimedOut | OutOfMemory | CancelledByScheduler | NodeFailed | FailedSomehow

  datatype FailureClass =
    | Converged | Nonconverged | Walltime | Zbrent | Oom | Cancelled | NodeFail | Sigsegv | SilentExit | NoOutput
    | BadEnergy | DiskFull | ScfSloshing | UserStopped | Unknown | VaspError(name: string) | RunNotObserved

  datatype FinalState = Done | Failed | Unconverged | NeedsHuman

  /** What was found on the remote side; the text scans are given as their results. */
  datatype Evidence = Evidence(
    reason: Option<Reason>, exit: Option<int>, outcar: Option<nat>, oszicar: Option<nat>,
    converged: bool, cleanExit: Option<bool>, stopped: bool, ioError: bool, saturated: bool, implausible: bool,
    signature: Option<FailureClass>, vaspError: Option<string>, sloshing: bool)
  {
    /** `scan_log` knows three signatures. */
    predicate Valid() {
      signature.Some? ==> signature.value in {Zbrent, Oom, Sigsegv}
    }

    predicate Output() {
      (outcar.Some? && outcar.value > 0) || (oszicar.Some? && oszicar.value > 0)
    }

    predicate ExitOk() {
      exit.None? || exit.value == 0
    }
  }

  datatype Finding = Finding(failure: FailureClass, state: FinalState, restartable: bool)

  /** `FAILURE_TO_STATE` */
  function StateOf(f: FailureClass): FinalState {
    match f
    case Converged => Done
    case Nonconverged | Walltime | Zbrent => Unconverged
    case Oom | Cancelled | NodeFail | Sigsegv => Failed
    case _ => NeedsHuman
  }

  predicate Restartable(f: FailureClass) {
    f in {Nonconverged, Walltime, Zbrent}
  }

  function ReasonClass(r: Option<Reason>): Option<FailureClass> {
    match r
    case Some(TimedOut) => Some(Walltime)
    case Some(OutOfMemory) => Some(Oom)
    case Some(CancelledByScheduler) => Some(Cancelled)
    case Some(NodeFailed) => Some(NodeFail)
    case _ => None
  }

  function Stop(f: FailureClass): Finding {
    Finding(f, StateOf(f), false)
  }

  /** `classify`. A run is done exactly when it converged, closed its output cleanly, no exit code or
      scheduler speaks against it and its energy can be trusted; it may be continued from CONTCAR
      exactly when it left output and the one reading of the evidence is a run cut short. */
  function Classify(e: Evidence): (f: Finding)
    requires e.Valid()
    ensures f.state == Done <==>
              e.converged && e.reason.None? && e.cleanExit == Some(true) && e.ExitOk() && !e.saturated && !e.implausible
    ensures f.restartable <==>
              && e.Output()
              && (if e.converged
                  then e.reason.None? && e.cleanExit == Some(true) && !e.saturated && !e.implausible && !e.ExitOk()
                  else !e.stopped && !e.ioError)
              && (|| e.reason == Some(TimedOut)
                  || ((e.reason.None? || e.reason == Some(FailedSomehow)) &&
                      (|| e.signature == Some(Zbrent)
                       || (e.signature.None? && e.exit == Some(137))
                       || (e.signature.None? && e.vaspError.None? && e.reason.None? && e.ExitOk() && !e.sloshing))))
    ensures f.restartable ==> f.state == Unconverged
    ensures f.failure != RunNotObserved && (f.state == Done <==> f.failure == Converged)
  {
    var named := ReasonClass(e.reason);
    if e.converged && e.reason.Some? then
      Finding(if named.Some? then named.value else Unknown, NeedsHuman, false)
    else if e.stopped && !e.converged then Stop(UserStopped)
    else if e.ioError && !e.converged then Stop(DiskFull)
    else if e.converged && e.cleanExit != Some(true) then Stop(Unknown)
    else if e.converged && e.saturated then Stop(ScfSloshing)
    else if e.converged && e.implausible then Stop(BadEnergy)
    else if e.converged && e.ExitOk() then Finding(Converged, Done, false)
    else if !e.Output() then
      if named.Some? then Stop(named.value)
      else if e.exit == Some(0) then Stop(SilentExit)
      else Stop(NoOutput)
    else if named.Some? then Finding(named.value, StateOf(named.value), Restartable(named.value))
    else if e.signature.Some? then
      Finding(e.signature.value, StateOf(e.signature.value), Restartable(e.signature.value))
    else if e.exit == Some(137) then Finding(Walltime, Unconverged, true)
    else if e.vaspError.Some? then Stop(VaspError(e.vaspError.value))
    else if e.reason == Some(FailedSomehow) then Stop(Unknown)
    else if !e.ExitOk() then Stop(Unknown)
    else if e.sloshing then Stop(ScfSloshing)
    else Finding(Nonconverged, Unconverged, true)
  }
}
