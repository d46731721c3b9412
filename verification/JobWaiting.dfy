/** The guard against old output over whole runs, with other calls between the polls. */
module JobWaiting {
  import opened JobModel
  import opened JobPlans
  import opened JobSafety
  import opened JobRuns
  import opened JobRefresh

  predicate SavesNothing(es: seq<Effect>) {
    forall i :: 0 <= i < |es| ==> !es[i].SaveManifest?
  }

  lemma {:induction false} NothingSaved(d: Job, es: seq<Effect>, budget: nat)
    requires SavesNothing(es)
    ensures Crash(d, es, budget).manifest == d.manifest
    decreases |es|
  {
    if es != [] && budget > 0 {
      assert !es[0].SaveManifest?;
      NothingSaved(Apply(d, es[0]), es[1..], budget - 1);
    }
  }

  lemma ContinueSavesNothing(d: Job, m: Manifest, c: ContinueCall)
    requires d.manifest == Some(m) && Active(m.state)
    ensures SavesNothing(ContinuePlan(d, c).effects)
  {
    hide Resubmit, Started, CurrentAuthority, ValidKey, ValidJobId, Settle, Decide;
  }

  lemma TuneSavesNothing(d: Job, m: Manifest, c: TuneCall)
    requires d.manifest == Some(m) && Active(m.state)
    ensures SavesNothing(TunePlan(d, c).effects)
  {
    hide Resubmit, Started, CurrentAuthority, ValidKey, ValidJobId, Settle, Decide;
  }

  lemma SubmitSavesNothing(d: Job, m: Manifest, c: SubmitCall)
    requires d.manifest == Some(m) && Active(m.state)
    ensures SavesNothing(SubmitPlan(d, c).effects)
  {
    hide Launch, ValidKey, ReconcileSubmission;
  }

  /** The poll of this event, if it got as far as to save what it found. */
  function PollOf(d: Job, e: Event): seq<Observation>
    requires e.call.Refreshes? ==> ValidObservation(e.call.r.o)
  {
    if e.call.Refreshes? && RefreshPlan(d, e.call.r).effects != [] && e.budget > 0 then [e.call.r.o] else []
  }

  /** The polls of a run, in order. */
  ghost function Polls(d: Job, es: seq<Event>): seq<Observation> {
    if es == [] then []
    else
      var before, e := After(d, es[..|es| - 1]), es[|es| - 1];
      Polls(d, es[..|es| - 1]) + if Fresh(before, e.call) then PollOf(before, e) else []
  }

  /** No cancellation, and no poll shows output of the present round. */
  ghost predicate Undisturbed(b: Baseline, es: seq<Event>) {
    forall i :: 0 <= i < |es| ==>
      !es[i].call.Cancels? && (es[i].call.Refreshes? ==> NothingNew(b, es[i].call.r.o))
  }

  lemma {:induction false} PollsShowNothing(d: Job, b: Baseline, es: seq<Event>)
    requires Undisturbed(b, es)
    ensures NothingNewAll(b, Polls(d, es))
  {
    hide After, Fresh, RefreshPlan, Rewritten;
    if es != [] {
      assert Undisturbed(b, es[..|es| - 1]);
      PollsShowNothing(d, b, es[..|es| - 1]);
    }
  }

  lemma ChecksBefore(os: seq<Observation>, o: Observation)
    ensures Checks(os + [o]) < SettleMaxChecks ==> Checks(os) < SettleMaxChecks
  {
    assert (os + [o])[..|os|] == os;
  }

  /** What one call does to the manifest of a job that is waiting. */
  lemma WaitingStep(d: Job, m: Manifest, e: Event)
    requires d.manifest == Some(m) && Active(m.state) && Fresh(d, e.call) && !e.call.Cancels?
    ensures var next := Crash(d, PlanOf(d, e.call).effects, e.budget);
            var os := PollOf(d, e);
            next.manifest == Some(if os == [] then m else Refreshed(m, os[0]))
  {
    hide Refreshed, ContinuePlan, TunePlan, SubmitPlan;
    var es := PlanOf(d, e.call).effects;
    match e.call {
      case Submits(s) => SubmitSavesNothing(d, m, s); NothingSaved(d, es, e.budget);
      case Continues(k) => ContinueSavesNothing(d, m, k); NothingSaved(d, es, e.budget);
      case Tunes(t) => TuneSavesNothing(d, m, t); NothingSaved(d, es, e.budget);
      case Refreshes(r) =>
        if es != [] { assert es == [SaveManifest(Refreshed(m, r.o))] && es[1..] == []; }
    }
  }

  /** Until the settling checks are used up, only the polls move the manifest. */
  lemma {:induction false} OnlyPollsMove(d: Job, m: Manifest, es: seq<Event>)
    requires d.manifest == Some(m) && JustContinued(m) && FreshRun(d, es) && Undisturbed(BaselineOf(m), es)
    requires es == [] || Checks(Polls(d, es[..|es| - 1])) < SettleMaxChecks
    ensures NothingNewAll(BaselineOf(m), Polls(d, es))
    ensures After(d, es).manifest == Some(Polled(m, Polls(d, es)))
  {
    PollsShowNothing(d, BaselineOf(m), es);
    if es != [] {
      var n := |es| - 1;
      var init, e := es[..n], es[n];
      assert Undisturbed(BaselineOf(m), init);
      var os, before := Polls(d, init), After(d, init);
      if n > 0 {
        var earlier := Polls(d, init[..n - 1]);
        if os != earlier { ChecksBefore(earlier, os[|earlier|]); }
      }
      hide Crash, PlanOf, Refreshed, FreshRun, Fresh;
      OnlyPollsMove(d, m, init);
      WaitsForOutput(m, os);
      WaitingStep(before, before.manifest.value, e);
      var all := Polls(d, es);
      assert all == os + PollOf(before, e);
      if PollOf(before, e) != [] {
        assert all[..|all| - 1] == os;
      } else {
        assert all == os;
      }
    }
  }

  /** Over any run after a continuation, with submissions, continuations, tuned continuations, crashes and
      failed writes between the polls, but no cancellation: while no output of the present round has
      appeared nothing is judged until the settling checks reach three, and the event that reaches them
      hands the job to a human. */
  lemma StaleOutputOverRun(d: Job, m: Manifest, es: seq<Event>)
    requires d.manifest == Some(m) && JustContinued(m) && FreshRun(d, es) && Undisturbed(BaselineOf(m), es)
    requires es != [] && Checks(Polls(d, es[..|es| - 1])) < SettleMaxChecks
    ensures var end := After(d, es).manifest;
            && end.Some?
            && if Checks(Polls(d, es)) < SettleMaxChecks then Active(end.value.state) && end.value.verdict == None
               else end.value.state == NeedsHuman && end.value.verdict == Some(NotObserved)
    ensures GoneCount(Polls(d, es)) >= SettleMaxChecks ==> Checks(Polls(d, es)) >= SettleMaxChecks
  {
    OnlyPollsMove(d, m, es);
    var init := es[..|es| - 1];
    var os, all := Polls(d, init), Polls(d, es);
    assert all == os || (|all| == |os| + 1 && all[..|os|] == os);
    ChecksCount(all);
    hide After, Polls, Polled, Fresh, FreshRun;
    if all == os {
      WaitsForOutput(m, all);
    } else {
      StaleOutputIsNotJudged(m, all);
    }
  }
}
