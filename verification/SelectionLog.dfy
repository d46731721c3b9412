/** The hash-chained write-ahead log of export selections: its validator, its builders, its shape. */
module SelectionLog {

  datatype Option<T> = None | Some(value: T)

  datatype Result<T> = Ok(value: T) | Err(error: Error)

  datatype Error = TooManyRecords | BadRecord(index: nat) | IncompleteTail | TooLarge

  const MaxRecords: nat := 8192

  /** What `current.json` holds. */
  datatype Selection = Selection(input: string, revision: int, selected: string)

  datatype File = File(name: string, content: string)

  datatype Reservation = Reservation(
    input: string, token: string, expectedRevision: int, expectedSelected: Option<string>,
    tx: string, created: bool, stage: Option<string>, integrity: Digest)

  /** SHA-256 taken as injective and never all zero: a digest is the value it was taken of.
      `Unknown` stands for hex text that no modelled value hashes to. */
  datatype Digest =
    | Zero
    | OfSelection(selection: Selection)
    | OfChain(previous: Digest, input: string, revision: int, selectionSha: Digest)
    | OfReservation(reservation: Reservation)
    | OfFiles(files: seq<File>)
    | OfRecord(body: Body)
    | Unknown(hex: string)

  datatype Descriptor = Descriptor(
    input: string, revision: int, selected: string, selectionSha: Digest, selection: Selection, chain: Digest)

  datatype Body =
    | Prepare(sequence: int, previous: Digest, tx: string, base: Option<Descriptor>, target: Descriptor,
              reservation: Digest)
    | Commit(sequence: int, previous: Digest, tx: string, prepareSha: Digest, target: Descriptor,
             reservation: Digest)

  datatype Record = Record(body: Body, seal: Digest)

  /** `_SelectionAnchorState` */
  datatype State = State(
    records: seq<Record>, committed: Option<Descriptor>, pending: Option<Record>, last: Digest,
    committedTx: Option<string>, committedReservation: Option<Digest>)

  // ---- descriptors ------------------------------------------------------------

  /** `_validated_selection` and `_validated_selection_anchor_descriptor` */
  predicate ValidDescriptor(d: Descriptor, input: string) {
    && d.selection.input == input && d.selection.revision >= 1
    && d.input == input && d.revision == d.selection.revision && d.selected == d.selection.selected
    && d.selectionSha == OfSelection(d.selection)
  }

  function ChainOf(s: Selection, previous: Digest): Digest {
    OfChain(previous, s.input, s.revision, OfSelection(s))
  }

  function Describe(s: Selection, previous: Digest): Descriptor {
    Descriptor(s.input, s.revision, s.selected, OfSelection(s), s, ChainOf(s, previous))
  }

  function ChainBefore(committed: Option<Descriptor>): Digest {
    if committed.None? then Zero else committed.value.chain
  }

  function RevisionOf(committed: Option<Descriptor>): int {
    if committed.None? then 0 else committed.value.revision
  }

  // ---- the shape of an accepted log -----------------------------------------------

  function LastSeal(rs: seq<Record>): Digest {
    if rs == [] then Zero else rs[|rs| - 1].seal
  }

  /** The last committed target: that of the last record at an odd position. */
  function CommittedOf(rs: seq<Record>): Option<Descriptor> {
    if |rs| < 2 then None else Some(rs[|rs| / 2 * 2 - 1].body.target)
  }

  function StateOf(rs: seq<Record>): State {
    var open := |rs| % 2 == 1;
    State(rs, CommittedOf(rs), if open then Some(rs[|rs| - 1]) else None, LastSeal(rs),
          if |rs| < 2 then None else Some(rs[|rs| / 2 * 2 - 1].body.tx),
          if |rs| < 2 then None else Some(rs[|rs| / 2 * 2 - 1].body.reservation))
  }

  /** A prepare opens the transition from what the log has committed. */
  predicate Opens(rs: seq<Record>, b: Body, input: string) {
    && b.Prepare? && b.base == CommittedOf(rs)
    && (b.base.Some? ==> ValidDescriptor(b.base.value, input))
    && b.target.revision == RevisionOf(CommittedOf(rs)) + 1
    && b.target.chain == ChainOf(b.target.selection, ChainBefore(CommittedOf(rs)))
  }

  /** A commit repeats the prepare right before it. */
  predicate Closes(prepare: Record, b: Body) {
    && b.Commit? && b.prepareSha == prepare.seal && b.tx == prepare.body.tx
    && b.reservation == prepare.body.reservation && b.target == prepare.body.target
  }

  /** Record r may follow the accepted log rs. */
  predicate Follows(rs: seq<Record>, r: Record, input: string) {
    && r.body.sequence == |rs| + 1 && r.body.previous == LastSeal(rs)
    && r.seal == OfRecord(r.body) && ValidDescriptor(r.body.target, input)
    && if |rs| % 2 == 0 then Opens(rs, r.body, input) else Closes(rs[|rs| - 1], r.body)
  }

  /** Position by position: prepares and commits alternate, numbered and chained from the zero digest. */
  ghost predicate Chained(rs: seq<Record>, input: string) {
    forall i :: 0 <= i < |rs| ==> ChainedAt(rs, i, input)
  }

  ghost predicate ChainedAt(rs: seq<Record>, i: nat, input: string)
    requires i < |rs|
  {
    Follows(rs[..i], rs[i], input)
  }

  predicate Decoded(lines: seq<Option<Record>>) {
    forall i :: 0 <= i < |lines| ==> lines[i].Some?
  }

  function Values(lines: seq<Option<Record>>): (rs: seq<Record>)
    requires Decoded(lines)
    ensures |rs| == |lines| && forall i :: 0 <= i < |lines| ==> rs[i] == lines[i].value
  {
    seq(|lines|, i requires 0 <= i < |lines| => lines[i].value)
  }

  ghost predicate Accepted(lines: seq<Option<Record>>, input: string) {
    |lines| <= MaxRecords && Decoded(lines) && Chained(Values(lines), input)
  }

  /** The tests the validator makes on one record, against what it kept of the records before. */
  predicate Admits(s: State, raw: Record, input: string) {
    var body := raw.body;
    && body.sequence == |s.records| + 1 && body.previous == s.last && raw.seal == OfRecord(body)
    && ValidDescriptor(body.target, input)
    && if body.Prepare? then
         && s.pending.None?
         && (if s.committed.None? then body.base.None? && body.target.revision == 1
             else body.base.Some? && ValidDescriptor(body.base.value, input) && body.base == s.committed
                  && body.target.revision == s.committed.value.revision + 1)
         && body.target.chain == ChainOf(body.target.selection, ChainBefore(s.committed))
       else
         s.pending.Some? && Closes(s.pending.value, body)
  }

  /** What the validator keeps after one more record. */
  function Absorb(s: State, raw: Record): State {
    var next := s.(records := s.records + [raw], last := raw.seal);
    if raw.body.Prepare? then next.(pending := Some(raw))
    else next.(committed := Some(raw.body.target), committedTx := Some(raw.body.tx),
               committedReservation := Some(raw.body.reservation), pending := None)
  }

  /** The loop of `_validated_selection_anchor_log`: it keeps a committed and a pending transition, and
      accepts exactly the logs that are chained position by position. */
  method ValidateLog(lines: seq<Option<Record>>, input: string) returns (r: Result<State>)
    ensures r.Ok? <==> Accepted(lines, input)
    ensures r.Ok? ==> r.value == StateOf(Values(lines))
    ensures |lines| > MaxRecords ==> r == Err(TooManyRecords)
    ensures r.Err? && |lines| <= MaxRecords ==>
              && r.error.BadRecord? && r.error.index < |lines|
              && Accepted(lines[..r.error.index], input) && !Accepted(lines[..r.error.index + 1], input)
  {
    if |lines| > MaxRecords { return Err(TooManyRecords); }
    var s := State([], None, None, Zero, None, None);
    var k := 0;
    NoRecords(lines, input);
    while k < |lines|
      invariant k <= |lines| && Validated(lines, k, input, s)
    {
      ValidateStep(lines, k, input, s);
      if lines[k].None? { return Err(BadRecord(k)); }
      var raw := lines[k].value;
      if !Admits(s, raw, input) { return Err(BadRecord(k)); }
      s := Absorb(s, raw);
      k := k + 1;
    }
    assert lines[..k] == lines;
    r := Ok(s);
  }

  /** The first k lines are accepted so far and s is what the validator keeps of them. */
  ghost predicate Validated(lines: seq<Option<Record>>, k: nat, input: string, s: State)
    requires k <= |lines|
  {
    Decoded(lines[..k]) && Chained(Values(lines[..k]), input) && s == StateOf(Values(lines[..k]))
  }

  lemma NoRecords(lines: seq<Option<Record>>, input: string)
    ensures Validated(lines, 0, input, State([], None, None, Zero, None, None))
  {
    assert Values(lines[..0]) == [];
  }

  lemma ValidateStep(lines: seq<Option<Record>>, k: nat, input: string, s: State)
    requires k < |lines| <= MaxRecords && Validated(lines, k, input, s)
    ensures Accepted(lines[..k], input)
    ensures if lines[k].Some? && Admits(s, lines[k].value, input)
            then Validated(lines, k + 1, input, Absorb(s, lines[k].value))
            else !Accepted(lines[..k + 1], input) && !Accepted(lines, input)
  {
    ValuesExtend(lines, k);
    if lines[k].Some? {
      var rs, raw := Values(lines[..k]), lines[k].value;
      AdmitsIsFollows(rs, raw, input);
      ChainedExtends(rs, raw, input);
      if Admits(s, raw, input) { StateExtends(rs, raw); }
    }
    hide Admits, Follows, Chained;
    if Decoded(lines) {
      assert Values(lines[..k + 1]) == Values(lines)[..k + 1];
      if Chained(Values(lines), input) { ChainedPrefix(Values(lines), k + 1, input); }
    }
  }

  lemma ChainedPrefix(rs: seq<Record>, n: nat, input: string)
    requires n <= |rs| && Chained(rs, input)
    ensures Chained(rs[..n], input)
  {
    forall i | 0 <= i < n ensures ChainedAt(rs[..n], i, input) {
      assert rs[..n][..i] == rs[..i] && ChainedAt(rs, i, input);
    }
  }

  lemma AdmitsIsFollows(rs: seq<Record>, raw: Record, input: string)
    requires Chained(rs, input)
    ensures Admits(StateOf(rs), raw, input) <==> Follows(rs, raw, input)
  {
    assert |rs| >= 2 <==> CommittedOf(rs).Some?;
    ParityIsKind(rs, input);
  }

  /** Records at even positions are prepares, at odd positions commits. */
  lemma ParityIsKind(rs: seq<Record>, input: string)
    requires Chained(rs, input)
    ensures forall i :: 0 <= i < |rs| ==> (rs[i].body.Prepare? <==> i % 2 == 0)
  {
    forall i | 0 <= i < |rs| ensures rs[i].body.Prepare? <==> i % 2 == 0 {
      assert ChainedAt(rs, i, input);
    }
  }

  lemma StateExtends(rs: seq<Record>, r: Record)
    requires r.body.Prepare? <==> |rs| % 2 == 0
    ensures StateOf(rs + [r]) == Absorb(StateOf(rs), r)
  {
    var all, n := rs + [r], |rs|;
    if n % 2 == 0 {
      assert (n + 1) / 2 * 2 - 1 == n - 1;
    } else {
      assert (n + 1) / 2 * 2 - 1 == n;
    }
  }

  lemma ValuesExtend(lines: seq<Option<Record>>, k: nat)
    requires k < |lines| && Decoded(lines[..k])
    ensures Decoded(lines[..k + 1]) <==> lines[k].Some?
    ensures lines[k].Some? ==> Values(lines[..k + 1]) == Values(lines[..k]) + [lines[k].value]
  {
    assert lines[..k + 1] == lines[..k] + [lines[k]];
  }

  lemma ChainedExtends(rs: seq<Record>, r: Record, input: string)
    requires Chained(rs, input)
    ensures Chained(rs + [r], input) <==> Follows(rs, r, input)
  {
    var all := rs + [r];
    assert all[..|rs|] == rs;
    forall i | 0 <= i < |rs| ensures ChainedAt(all, i, input) {
      assert all[..i] == rs[..i] && ChainedAt(rs, i, input);
    }
    assert ChainedAt(all, |rs|, input) <==> Follows(rs, r, input);
  }

  // ---- the shape of accepted logs ------------------------------------------------------

  /** A committed revision is the number of commits, and at most one prepare, the last record, is open. */
  lemma {:induction false} LogShape(rs: seq<Record>, input: string)
    requires Chained(rs, input)
    ensures forall i :: 0 <= i < |rs| ==> (rs[i].body.Prepare? <==> i % 2 == 0)
    ensures forall i :: 0 <= i < |rs| ==> rs[i].body.target.revision == i / 2 + 1
    ensures RevisionOf(CommittedOf(rs)) == |rs| / 2
    ensures StateOf(rs).pending.Some? <==> |rs| % 2 == 1
  {
    ParityIsKind(rs, input);
    if rs != [] {
      var n := |rs| - 1;
      ChainedPrefix(rs, n, input);
      LogShape(rs[..n], input);
      assert ChainedAt(rs, n, input);
      assert forall i :: 0 <= i < n ==> rs[..n][i] == rs[i];
    }
  }

  lemma CommittedIsValid(rs: seq<Record>, input: string)
    requires Chained(rs, input) && |rs| >= 2
    ensures ValidDescriptor(CommittedOf(rs).value, input)
  {
    assert ChainedAt(rs, |rs| / 2 * 2 - 1, input);
  }

  lemma LastSealNotZero(rs: seq<Record>, input: string)
    requires Chained(rs, input) && rs != []
    ensures LastSeal(rs) != Zero
  {
    assert ChainedAt(rs, |rs| - 1, input);
  }

  /** The last digest fixes the whole log. */
  lemma {:induction false} LastSealBindsHistory(a: seq<Record>, b: seq<Record>, inputA: string, inputB: string)
    requires Chained(a, inputA) && Chained(b, inputB) && LastSeal(a) == LastSeal(b)
    ensures a == b
  {
    if a != [] { LastSealNotZero(a, inputA); }
    if b != [] { LastSealNotZero(b, inputB); }
    if a != [] && b != [] {
      var m, n := |a| - 1, |b| - 1;
      assert ChainedAt(a, m, inputA) && ChainedAt(b, n, inputB);
      assert m == n;
      ChainedPrefix(a, m, inputA);
      ChainedPrefix(b, n, inputB);
      LastSealBindsHistory(a[..m], b[..n], inputA, inputB);
      assert a == a[..m] + [a[m]] && b == b[..n] + [b[n]];
    }
  }

  /** The selections a log committed, oldest first. */
  function Selections(rs: seq<Record>): (r: seq<Selection>)
    ensures |r| == |rs| / 2
    ensures forall i :: 0 <= i < |rs| / 2 ==> r[i] == rs[2 * i + 1].body.target.selection
  {
    seq(|rs| / 2, i requires 0 <= i < |rs| / 2 => rs[2 * i + 1].body.target.selection)
  }

  lemma CommittedChain(rs: seq<Record>, input: string)
    requires Chained(rs, input) && |rs| >= 2
    ensures var n := |rs| / 2 * 2 - 1;
            && rs[n].body.target.chain == ChainOf(rs[n].body.target.selection, ChainBefore(CommittedOf(rs[..n - 1])))
            && Selections(rs) == Selections(rs[..n - 1]) + [rs[n].body.target.selection]
            && Chained(rs[..n - 1], input)
  {
    var n := |rs| / 2 * 2 - 1;
    assert ChainedAt(rs, n, input) && ChainedAt(rs, n - 1, input);
    ChainedPrefix(rs, n - 1, input);
  }

  /** The chain digest of the committed descriptor alone fixes every selection ever committed. */
  lemma {:induction false} ChainBindsSelections(a: seq<Record>, b: seq<Record>, inputA: string, inputB: string)
    requires Chained(a, inputA) && Chained(b, inputB)
    requires ChainBefore(CommittedOf(a)) == ChainBefore(CommittedOf(b))
    ensures Selections(a) == Selections(b)
  {
    if |a| >= 2 { CommittedChain(a, inputA); }
    if |b| >= 2 { CommittedChain(b, inputB); }
    if |a| >= 2 && |b| >= 2 {
      var m, n := |a| / 2 * 2 - 1, |b| / 2 * 2 - 1;
      assert ChainedAt(a, m, inputA) && ChainedAt(b, n, inputB);
      ChainBindsSelections(a[..m - 1], b[..n - 1], inputA, inputB);
    }
  }

  // ---- the builders -----------------------------------------------------------------------

  function Seal(b: Body): Record {
    Record(b, OfRecord(b))
  }

  /** `_selection_anchor_prepare_record`, refused once the log is full. */
  function PrepareRecord(s: State, sel: Selection, res: Reservation): Option<Record> {
    if |s.records| >= MaxRecords then None
    else Some(Seal(Prepare(|s.records| + 1, s.last, res.tx, s.committed,
                           Describe(sel, ChainBefore(s.committed)), OfReservation(res))))
  }

  /** `_selection_anchor_commit_record` */
  function CommitRecord(s: State, prepare: Record): Option<Record> {
    if |s.records| >= MaxRecords then None
    else Some(Seal(Commit(|s.records| + 1, s.last, prepare.body.tx, prepare.seal, prepare.body.target,
                          prepare.body.reservation)))
  }

  /** A built prepare keeps the log acceptable exactly when nothing is open and it raises the committed
      revision by one; there is then room for its commit. */
  lemma PrepareKeepsLog(rs: seq<Record>, sel: Selection, res: Reservation, input: string)
    requires Chained(rs, input) && |rs| < MaxRecords
    ensures Chained(rs + [PrepareRecord(StateOf(rs), sel, res).value], input)
       <==> StateOf(rs).pending.None? && sel.input == input && sel.revision == RevisionOf(CommittedOf(rs)) + 1
    ensures StateOf(rs).pending.None? ==> |rs| + 1 < MaxRecords
  {
    LogShape(rs, input);
    ParityIsKind(rs, input);
    if |rs| >= 2 {
      var n := |rs| / 2 * 2 - 1;
      assert ChainedAt(rs, n, input);
    }
    ChainedExtends(rs, PrepareRecord(StateOf(rs), sel, res).value, input);
  }

  /** The open prepare of an accepted log always has a slot left, and its built commit is accepted. */
  lemma CommitKeepsLog(rs: seq<Record>, input: string)
    requires Chained(rs, input) && |rs| <= MaxRecords && StateOf(rs).pending.Some?
    ensures var c := CommitRecord(StateOf(rs), StateOf(rs).pending.value);
            && c.Some? && Chained(rs + [c.value], input)
            && StateOf(rs + [c.value]).committed == Some(StateOf(rs).pending.value.body.target)
            && StateOf(rs + [c.value]).pending == None
  {
    assert ChainedAt(rs, |rs| - 1, input);
    var c := CommitRecord(StateOf(rs), StateOf(rs).pending.value).value;
    ChainedExtends(rs, c, input);
    StateExtends(rs, c);
  }
}
