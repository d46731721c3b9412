/** The export directory of one input as durable objects, and what each operation writes, in order. */
module SelectionDisk {
  import opened SelectionLog

  const MaxBundles: nat := 32

  /** Every object that survives a crash. A stage or bundle is its files in name order; `torn` says
      that an incomplete record follows the whole records of the log. */
  datatype Disk = Disk(
    reservation: Option<Reservation>, stages: map<string, seq<File>>, bundles: map<string, seq<File>>,
    log: seq<Record>, torn: bool, current: Option<Selection>)

  /** One durable write. */
  datatype Write =
    | PutReservation(reservation: Reservation)
    | MakeStage(stage: string)
    | PutFile(stage: string, file: File)
    | Publish(stage: string, token: string)
    | AppendRecord(record: Record)
    | ReplaceCurrent(selection: Selection)
    | DropReservation
    | DropStage(stage: string)
    | DropBundle(token: string)
    | CutTail
    | Inspect  // a check of what was written: it changes nothing, but it may raise

  function Apply(d: Disk, w: Write): Disk {
    match w
    case PutReservation(r) => d.(reservation := Some(r))
    case MakeStage(s) => d.(stages := d.stages[s := []])
    case PutFile(s, f) => if s in d.stages then d.(stages := d.stages[s := d.stages[s] + [f]]) else d
    case Publish(s, t) =>
      if s in d.stages then d.(stages := d.stages - {s}, bundles := d.bundles[t := d.stages[s]]) else d
    case AppendRecord(r) => d.(log := d.log + [r])
    case ReplaceCurrent(s) => d.(current := Some(s))
    case DropReservation => d.(reservation := None)
    case DropStage(s) => d.(stages := d.stages - {s})
    case DropBundle(t) => d.(bundles := d.bundles - {t})
    case CutTail => d.(torn := false)
    case Inspect => d
  }

  function Run(d: Disk, ws: seq<Write>): Disk
    decreases |ws|
  {
    if ws == [] then d else Run(Apply(d, ws[0]), ws[1..])
  }

  /** An exception: it comes instead of the step after this many steps; instead of an append it may leave a
      part of the record. */
  datatype Fault = Fault(after: nat, part: bool)

  /** A process with some steps left before it dies, where `tear` says that dying in an append leaves an
      incomplete record; and with exceptions to come, one after the other. While an exception is on its
      way out nothing is written. */
  datatype Machine = Machine(disk: Disk, budget: nat, tear: bool, alive: bool, faults: seq<Fault>, raising: bool) {
    predicate Running() {
      alive && !raising
    }
  }

  function TornIf(d: Disk, w: Write, part: bool): Disk {
    if w.AppendRecord? && part then d.(torn := true) else d
  }

  /** The exceptions to come after n more steps without one. */
  function Spent(fs: seq<Fault>, n: nat): seq<Fault> {
    if fs == [] then [] else [fs[0].(after := if fs[0].after >= n then fs[0].after - n else 0)] + fs[1..]
  }

  function Attempt(m: Machine, w: Write): Machine {
    if !m.Running() then m
    else if m.budget == 0 then m.(alive := false, disk := TornIf(m.disk, w, m.tear))
    else if m.faults != [] && m.faults[0].after == 0 then
      m.(raising := true, disk := TornIf(m.disk, w, m.faults[0].part), faults := m.faults[1..])
    else m.(budget := m.budget - 1, faults := Spent(m.faults, 1), disk := Apply(m.disk, w))
  }

  /** A handler took the exception. */
  function Caught(m: Machine): Machine {
    m.(raising := false)
  }

  function Exec(m: Machine, ws: seq<Write>): Machine
    decreases |ws|
  {
    if ws == [] then m else Exec(Attempt(m, ws[0]), ws[1..])
  }

  // ---- selections on disk ----------------------------------------------------------

  function Revision(current: Option<Selection>): int {
    if current.None? then 0 else current.value.revision
  }

  function Selected(current: Option<Selection>): Option<string> {
    if current.None? then None else Some(current.value.selected)
  }

  predicate ValidCurrent(current: Option<Selection>, input: string) {
    current.Some? ==> current.value.input == input && current.value.revision >= 1
  }

  predicate ValidReservation(r: Option<Reservation>, input: string) {
    r.Some? ==> r.value.input == input && r.value.expectedRevision >= 0 && (r.value.stage.None? <==> !r.value.created)
  }

  /** `_selection_matches_descriptor` */
  predicate Matches(current: Option<Selection>, d: Option<Descriptor>) {
    if d.None? then current.None?
    else current == Some(d.value.selection) && OfSelection(d.value.selection) == d.value.selectionSha
  }

  function BaseSelected(base: Option<Descriptor>): Option<string> {
    if base.None? then None else Some(base.value.selection.selected)
  }

  function BaseRevision(base: Option<Descriptor>): int {
    if base.None? then 0 else base.value.selection.revision
  }

  /** `_validate_reservation_for_transition` */
  predicate Transition(r: Reservation, base: Option<Descriptor>, target: Descriptor, d: Disk) {
    && r.input == target.input && r.token == target.selection.selected
    && r.expectedRevision == BaseRevision(base) && r.expectedSelected == BaseSelected(base)
    && target.selection.revision == BaseRevision(base) + 1
    && (r.stage.Some? ==> r.stage.value !in d.stages)
    && r.token in d.bundles && OfFiles(d.bundles[r.token]) == r.integrity
  }

  // ---- recovery -----------------------------------------------------------------------

  datatype Failure =
    | LogInvalid | FileInvalid | ReservationLost | TransitionInvalid | NeitherBaseNorTarget | NotAnchored
    | NotBasedOnCurrent | BundleChanged | LogFull
    | NotConfirmed | TokenMismatch | NotReady | BadExpectation | Conflict | UnknownEntries | QuotaExceeded
    | WriteFailed

  /** The writes an operation makes in order, and how it ends. */
  datatype Plan = Plan(writes: seq<Write>, failure: Option<Failure>)

  ghost predicate LogAccepted(log: seq<Record>, input: string) {
    |log| <= MaxRecords && Chained(log, input)
  }

  function Cut(d: Disk): seq<Write> {
    if d.torn then [CutTail] else []
  }

  /** `_discard_unprepared_reservation` */
  function DiscardPlan(d: Disk, r: Reservation): Plan {
    if r.expectedRevision != Revision(d.current) || r.expectedSelected != Selected(d.current) then
      Plan([], Some(NotBasedOnCurrent))
    else
      var stage := if r.stage.Some? && r.stage.value in d.stages then [DropStage(r.stage.value)] else [];
      if r.created && Selected(d.current) != Some(r.token) && r.token in d.bundles then
        if OfFiles(d.bundles[r.token]) != r.integrity then Plan(stage, Some(BundleChanged))
        else Plan(stage + [DropBundle(r.token), DropReservation], None)
      else Plan(stage + [DropReservation], None)
  }

  /** Forward recovery of the open prepare. */
  function RedoPlan(d: Disk, s: State, p: Record): Plan {
    if d.reservation.None? || d.reservation.value.tx != p.body.tx
       || OfReservation(d.reservation.value) != p.body.reservation then Plan([], Some(ReservationLost))
    else if !Transition(d.reservation.value, s.committed, p.body.target, d) then Plan([], Some(TransitionInvalid))
    else
      var swap := if Matches(d.current, s.committed) then [ReplaceCurrent(p.body.target.selection)] else [];
      if swap == [] && !Matches(d.current, Some(p.body.target)) then Plan([], Some(NeitherBaseNorTarget))
      else
        var commit := CommitRecord(s, p);
        if commit.None? then Plan(swap, Some(LogFull))
        else Plan(swap + [AppendRecord(commit.value), DropReservation], None)
  }

  /** Nothing is open: finish or discard what a reservation left behind. */
  function TidyPlan(d: Disk, s: State): Plan {
    if !Matches(d.current, s.committed) then Plan([], Some(NotAnchored))
    else if d.reservation.None? then Plan([], None)
    else
      var r := d.reservation.value;
      if s.committedTx == Some(r.tx) && s.committedReservation == Some(OfReservation(r)) then
        if |s.records| < 2 || s.committed.None?
           || !Transition(r, BaseOf(s.records[|s.records| - 2].body), s.committed.value, d)
        then Plan([], Some(TransitionInvalid))
        else Plan([DropReservation], None)
      else DiscardPlan(d, r)
  }

  function BaseOf(b: Body): Option<Descriptor> {
    if b.Prepare? then b.base else None
  }

  /** `_recover_selection_axis` */
  ghost function RecoverPlan(d: Disk, input: string): Plan {
    if !LogAccepted(d.log, input) then Plan([], Some(LogInvalid))
    else if !ValidCurrent(d.current, input) || !ValidReservation(d.reservation, input) then
      Plan(Cut(d), Some(FileInvalid))
    else
      var s := StateOf(d.log);
      var rest := if s.pending.Some? then RedoPlan(d, s, s.pending.value) else TidyPlan(d, s);
      Plan(Cut(d) + rest.writes, rest.failure)
  }

  // ---- confirmation ------------------------------------------------------------------------

  /** A confirmation and the bundle built for it; the two flags say whether the byte quota holds for
      what is retained, and for that with the candidate. */
  datatype Request = Request(
    confirmed: bool, token: string, built: string, ready: bool, files: seq<File>,
    expectedRevision: int, expectedSelected: Option<string>, retainedFits: bool, candidateFits: bool)

  function StageName(tx: string): string {
    ".vcs-kinetics-stage-" + tx
  }

  function ReservationFor(d: Disk, input: string, q: Request, tx: string): Reservation {
    var created := q.token !in d.bundles;
    Reservation(input, q.token, q.expectedRevision, q.expectedSelected, tx, created,
                if created then Some(StageName(tx)) else None, OfFiles(q.files))
  }

  function PutFiles(stage: string, files: seq<File>): (ws: seq<Write>)
    ensures |ws| == |files| && forall i :: 0 <= i < |files| ==> ws[i] == PutFile(stage, files[i])
  {
    if files == [] then [] else [PutFile(stage, files[0])] + PutFiles(stage, files[1..])
  }

  /** The writes up to the point where the prepare record is built. */
  function BeforePrepare(r: Reservation, files: seq<File>): seq<Write> {
    [PutReservation(r)] +
    if r.stage.None? then []
    else [MakeStage(r.stage.value)] + PutFiles(r.stage.value, files) + [Publish(r.stage.value, r.token)]
  }

  /** What the exception handler removes when an exception comes after n of those writes. */
  function Cleanup(r: Reservation, files: seq<File>, n: nat): seq<Write> {
    if n == 0 then []
    else if r.stage.None? || n == 1 then [DropReservation]
    else if n < |BeforePrepare(r, files)| then [DropStage(r.stage.value), DropReservation]
    else [DropBundle(r.token), DropReservation]
  }

  function SelectionFor(r: Reservation): Selection {
    Selection(r.input, r.expectedRevision + 1, r.token)
  }

  /** The guarded steps: the writes before the prepare, and the check of the published bundle. */
  function Building(r: Reservation, files: seq<File>): seq<Write> {
    BeforePrepare(r, files) + [Inspect]
  }

  /** From the prepare record on; no exception is handled there. */
  function SelectPlan(d: Disk, r: Reservation): Plan {
    var prepare := PrepareRecord(StateOf(d.log), SelectionFor(r), r);
    if prepare.None? then Plan([], Some(LogFull))
    else
      var start := [AppendRecord(prepare.value), ReplaceCurrent(SelectionFor(r))];
      var commit := CommitRecord(StateOf(d.log + [prepare.value]), prepare.value);
      if commit.None? then Plan(start, Some(LogFull))
      else Plan(start + [AppendRecord(commit.value), DropReservation, Inspect], None)
  }

  /** How an operation left the process, and what it reported if the process lives: with a failure it
      raised. */
  datatype Ended = Ended(machine: Machine, failure: Option<Failure>)

  function FirstFault(m: Machine): nat {
    if m.faults == [] then 0 else m.faults[0].after
  }

  /** The transaction proper, from a recovered disk. An exception in a guarded step is handled by the
      clean-up and raised again; so is a full log. */
  function Transaction(m: Machine, r: Reservation, files: seq<File>): Ended {
    var built := Exec(m, Building(r, files));
    var plan := SelectPlan(m.disk, r);
    if !m.Running() then Ended(m, Some(WriteFailed))
    else if built.raising then Ended(Exec(Caught(built), Cleanup(r, files, FirstFault(m))), Some(WriteFailed))
    else if plan.writes == [] then Ended(Exec(built, Cleanup(r, files, |BeforePrepare(r, files)|)), plan.failure)
    else
      var selected := Exec(built, plan.writes);
      Ended(selected, if selected.raising then Some(WriteFailed) else plan.failure)
  }

  /** The checks made on a recovered disk before anything is written. */
  function Admission(d: Disk, q: Request): Option<Failure> {
    if Revision(d.current) != q.expectedRevision || Selected(d.current) != q.expectedSelected then Some(Conflict)
    else if d.stages != map[] then Some(UnknownEntries)
    else if |d.bundles| > MaxBundles || !q.retainedFits then Some(QuotaExceeded)
    else if q.token in d.bundles && d.bundles[q.token] != q.files then Some(BundleChanged)
    else if q.token !in d.bundles && (|d.bundles| + 1 > MaxBundles || !q.candidateFits) then Some(QuotaExceeded)
    else None
  }

  function Precheck(q: Request): Option<Failure> {
    if !q.confirmed then Some(NotConfirmed)
    else if q.token != q.built then Some(TokenMismatch)
    else if !q.ready then Some(NotReady)
    else if q.expectedRevision < 0 then Some(BadExpectation)
    else None
  }

  /** `confirm_export` */
  ghost function Confirmation(m: Machine, input: string, q: Request, tx: string): Ended {
    if Precheck(q).Some? then Ended(m, Precheck(q))
    else
      var recovery := RecoverPlan(m.disk, input);
      var now := Exec(m, recovery.writes);
      if !now.Running() then Ended(now, Some(WriteFailed))
      else if recovery.failure.Some? then Ended(now, recovery.failure)
      else if Admission(now.disk, q).Some? then Ended(now, Admission(now.disk, q))
      else Transaction(now, ReservationFor(now.disk, input, q, tx), q.files)
  }

  // ---- readers ---------------------------------------------------------------------------

  /** `_read_consistent_selection`: the selection it returns, or nothing when it raises. */
  ghost function ReadSelection(d: Disk, input: string): Option<Option<Selection>> {
    if !LogAccepted(d.log, input) || !ValidCurrent(d.current, input) then None
    else if StateOf(d.log).pending.Some? then None
    else if !Matches(d.current, StateOf(d.log).committed) then None
    else Some(d.current)
  }

  /** What a read leaves on disk. */
  ghost function AfterRead(d: Disk, input: string): Disk {
    Run(d, if LogAccepted(d.log, input) then Cut(d) else [])
  }
}
