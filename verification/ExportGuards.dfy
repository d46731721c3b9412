/** What recovery and confirmation never do, on any disk at all: damaged, edited or foreign. */
module ExportGuards {
  import opened SelectionLog
  import opened SelectionDisk
  import opened ExportSelection
  import opened ExportHistory

  // ---- deletions ----------------------------------------------------------------------

  /** Recovery deletes a bundle only if the reservation says that its transaction created it, it is not
      selected, and it is unchanged; and a stage only if the reservation names it. */
  lemma RecoveryDeletesOnlyItsOwn(d: Disk, input: string, w: Write)
    requires w in RecoverPlan(d, input).writes && (w.DropBundle? || w.DropStage?)
    ensures d.reservation.Some?
    ensures var r := d.reservation.value;
            && (w.DropBundle? ==>
                  && r.created && r.token == w.token && Selected(d.current) != Some(w.token)
                  && w.token in d.bundles && OfFiles(d.bundles[w.token]) == r.integrity)
            && (w.DropStage? ==> r.stage == Some(w.stage))
  {
    hide Transition, RecoverPlan, StateOf, LogAccepted, CommitRecord;
    RestHolds(d, input, w);
  }

  function RestPlan(d: Disk): Plan {
    var s := StateOf(d.log);
    if s.pending.Some? then RedoPlan(d, s, s.pending.value) else TidyPlan(d, s)
  }

  lemma RestHolds(d: Disk, input: string, w: Write)
    requires w in RecoverPlan(d, input).writes && w != CutTail
    ensures w in RestPlan(d).writes && LogAccepted(d.log, input)
  {
    hide RedoPlan, TidyPlan, LogAccepted, StateOf;
  }

  // ---- commits -------------------------------------------------------------------------

  /** Recovery appends only the commit of the open prepare, and only while the bundle it selects is there
      exactly as reserved, its stage is gone, and the selection is the base or the target. */
  lemma RecoveryCommitsOnlyIntact(d: Disk, input: string, w: Write)
    requires w in RecoverPlan(d, input).writes && w.AppendRecord?
    ensures StateOf(d.log).pending.Some? && d.reservation.Some?
    ensures var p, r := StateOf(d.log).pending.value, d.reservation.value;
            && CommitRecord(StateOf(d.log), p) == Some(w.record) && OfReservation(r) == p.body.reservation
            && p.body.target.selection.selected == r.token
            && r.token in d.bundles && OfFiles(d.bundles[r.token]) == r.integrity
            && (r.stage.Some? ==> r.stage.value !in d.stages)
            && (Matches(d.current, StateOf(d.log).committed) || Matches(d.current, Some(p.body.target)))
  {
    RestHolds(d, input, w);
    hide StateOf, CommitRecord, LogAccepted;
  }

  /** A recovery that reports no failure leaves a log without open prepare, the selection it commits, and
      neither a reservation nor a torn tail, whatever the disk was. */
  lemma RecoveryLeavesConsistent(d: Disk, input: string)
    requires RecoverPlan(d, input).failure == None
    ensures var now := Run(d, RecoverPlan(d, input).writes);
            && now.reservation == None && !now.torn && LogAccepted(now.log, input)
            && StateOf(now.log).pending == None && Matches(now.current, StateOf(now.log).committed)
  {
    var cut := d.(torn := false);
    RunJoins(d, Cut(d), RestPlan(d).writes);
    assert [CutTail][1..] == [];
    assert Run(d, Cut(d)) == cut;
    if StateOf(d.log).pending.Some? {
      RedoLeaves(d, cut, input);
    } else {
      TidyLeaves(d, cut);
    }
  }

  lemma RedoLeaves(d: Disk, cut: Disk, input: string)
    requires LogAccepted(d.log, input) && StateOf(d.log).pending.Some? && cut == d.(torn := false)
    requires RedoPlan(d, StateOf(d.log), StateOf(d.log).pending.value).failure == None
    ensures var now := Run(cut, RedoPlan(d, StateOf(d.log), StateOf(d.log).pending.value).writes);
            && now.reservation == None && !now.torn && LogAccepted(now.log, input)
            && StateOf(now.log).pending == None && Matches(now.current, StateOf(now.log).committed)
  {
    var s := StateOf(d.log);
    var p := s.pending.value;
    var c := CommitRecord(s, p).value;
    CommitKeepsLog(d.log, input);
    TargetIsValid(d.log, input);
    assert |d.log| < MaxRecords;
    hide Chained, StateOf, CommitRecord, Transition, Run;
    var ws := [AppendRecord(c), DropReservation];
    assert [] + ws == ws;
    RunTwo(cut, AppendRecord(c), DropReservation);
    var swapped := cut.(current := Some(p.body.target.selection));
    RunTwo(swapped, AppendRecord(c), DropReservation);
    RunFirst(cut, ReplaceCurrent(p.body.target.selection), [AppendRecord(c), DropReservation]);
  }

  lemma TargetIsValid(rs: seq<Record>, input: string)
    requires Chained(rs, input) && StateOf(rs).pending.Some?
    ensures ValidDescriptor(StateOf(rs).pending.value.body.target, input)
  {
    assert ChainedAt(rs, |rs| - 1, input);
  }

  lemma TidyLeaves(d: Disk, cut: Disk)
    requires StateOf(d.log).pending == None && cut == d.(torn := false)
    requires TidyPlan(d, StateOf(d.log)).failure == None
    ensures var now := Run(cut, TidyPlan(d, StateOf(d.log)).writes);
            && now.reservation == None && !now.torn && now.log == d.log && now.current == d.current
            && Matches(now.current, StateOf(now.log).committed)
  {
    hide StateOf, Transition, Run;
    if d.reservation.Some? {
      var r := d.reservation.value;
      var end := [DropReservation];
      var both := [DropBundle(r.token), DropReservation];
      assert [] + end == end && [] + both == both;
      RunFirst(cut, DropReservation, []);
      RunTwo(cut, DropBundle(r.token), DropReservation);
      if r.stage.Some? {
        var w := DropStage(r.stage.value);
        RunFirst(cut, w, end);
        RunFirst(Apply(cut, w), DropReservation, []);
        RunFirst(cut, w, both);
        RunTwo(Apply(cut, w), DropBundle(r.token), DropReservation);
      }
    } else {
      RunNothing(cut);
    }
  }

  lemma RunNothing(d: Disk)
    ensures Run(d, []) == d
  {
  }

  lemma RunFirst(d: Disk, w: Write, ws: seq<Write>)
    ensures Run(d, [w] + ws) == Run(Apply(d, w), ws)
    ensures Run(d, [w]) == Apply(d, w)
  {
    assert ([w] + ws)[1..] == ws && [w][1..] == [];
  }

  lemma RunTwo(d: Disk, a: Write, b: Write)
    ensures Run(d, [a, b]) == Apply(Apply(d, a), b)
  {
    assert [a, b] == [a] + [b];
    RunFirst(d, a, [b]);
    RunFirst(Apply(d, a), b, []);
  }

  // ---- bundles ---------------------------------------------------------------------------

  predicate Touches(w: Write, token: string) {
    w == DropBundle(token) || (w.Publish? && w.token == token)
  }

  lemma {:induction false} UntouchedBundleStays(m: Machine, ws: seq<Write>, token: string)
    requires token in m.disk.bundles && forall w :: w in ws ==> !Touches(w, token)
    ensures token in Exec(m, ws).disk.bundles && Exec(m, ws).disk.bundles[token] == m.disk.bundles[token]
    decreases |ws|
  {
    if ws != [] {
      assert ws[0] in ws;
      UntouchedBundleStays(Attempt(m, ws[0]), ws[1..], token);
    }
  }

  lemma RecoveryPublishesNothing(d: Disk, input: string, w: Write)
    requires w in RecoverPlan(d, input).writes
    ensures !w.Publish?
  {
    if w != CutTail { RestHolds(d, input, w); }
    hide StateOf, Transition, CommitRecord, LogAccepted;
  }

  lemma CleanupTouches(r: Reservation, files: seq<File>)
    ensures forall n, w, token :: w in Cleanup(r, files, n) && Touches(w, token) ==> r.stage.Some? && token == r.token
  {
    hide BeforePrepare;
  }

  lemma BuildingTouches(r: Reservation, files: seq<File>)
    ensures forall w, token :: w in Building(r, files) && Touches(w, token) ==> r.stage.Some? && token == r.token
  {
  }

  lemma SelectTouches(d: Disk, r: Reservation)
    ensures forall w, token :: w in SelectPlan(d, r).writes ==> !Touches(w, token)
  {
    hide StateOf, PrepareRecord, CommitRecord;
  }

  /** A transaction publishes, and cleans up, only a bundle that was not there. */
  lemma TransactionKeepsBundle(m: Machine, input: string, q: Request, tx: string, token: string)
    requires token in m.disk.bundles
    ensures var end := Transaction(m, ReservationFor(m.disk, input, q, tx), q.files).machine.disk;
            token in end.bundles && end.bundles[token] == m.disk.bundles[token]
  {
    hide Building, Cleanup, SelectPlan, Exec, BeforePrepare;
    var r := ReservationFor(m.disk, input, q, tx);
    assert r.stage.Some? ==> token != r.token;
    BuildingTouches(r, q.files);
    CleanupTouches(r, q.files);
    SelectTouches(m.disk, r);
    var built := Exec(m, Building(r, q.files));
    UntouchedBundleStays(m, Building(r, q.files), token);
    UntouchedBundleStays(Caught(built), Cleanup(r, q.files, FirstFault(m)), token);
    UntouchedBundleStays(built, Cleanup(r, q.files, |BeforePrepare(r, q.files)|), token);
    UntouchedBundleStays(built, SelectPlan(m.disk, r).writes, token);
  }

  /** A bundle that recovery does not drop is never changed by a confirmation, on any disk, with any
      exceptions and any crash. */
  lemma BundlesAreImmutable(d: Disk, input: string, call: Call, token: string)
    requires token in d.bundles && DropBundle(token) !in RecoverPlan(d, input).writes
    ensures var end := Executed(d, input, call).machine.disk;
            token in end.bundles && end.bundles[token] == d.bundles[token]
  {
    hide RecoverPlan, Transaction, Exec, Admission;
    var m := Start(d, call);
    var writes := RecoverPlan(d, input).writes;
    forall w | w in writes ensures !Touches(w, token) {
      RecoveryPublishesNothing(d, input, w);
    }
    UntouchedBundleStays(m, writes, token);
    TransactionKeepsBundle(Exec(m, writes), input, call.q, call.tx, token);
  }
}
