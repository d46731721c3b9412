/** Whole runs of the job ledger: what a rollback may touch, whatever others do in between. */
module LedgerHistory {
  import opened JobLedger

  datatype Op =
    | RegisterOp(e: Entry)
    | UnregisterOp(e: Entry)
    | RegisterOwnedOp(e: Entry, t: Tx)
    | UnregisterOwnedOp(e: Entry, t: Tx)
    | ReleaseOwnerOp(e: Entry, t: Tx)
    | EnsureReleasedOp(e: Entry, t: Tx)
    | MergeOp(t: Tx, base: seq<Entry>, projected: seq<Entry>)
    | RollbackOp(t: Tx)
    | ReleaseOp(t: Tx)

  function Kept(l: Ledger, o: Outcome): Ledger {
    match o
    case Done(next) => next
    case Refused(_) => l
  }

  ghost function Step(l: Ledger, op: Op): Ledger {
    match op
    case RegisterOp(e) => Register(l, e)
    case UnregisterOp(e) => Unregister(l, e)
    case RegisterOwnedOp(e, t) => Kept(l, RegisterOwned(l, e, t))
    case UnregisterOwnedOp(e, t) => UnregisterOwned(l, e, t)
    case ReleaseOwnerOp(e, t) => ReleaseOwner(l, e, t)
    case EnsureReleasedOp(e, t) => Kept(l, EnsureReleased(l, e, t))
    case MergeOp(t, base, projected) => Kept(l, Merge(l, t, base, projected))
    case RollbackOp(t) => Rollback(l, t)
    case ReleaseOp(t) => Release(l, t)
  }

  /** The ledger after the first n operations. */
  ghost function After(l: Ledger, ops: seq<Op>, n: nat): Ledger
    requires n <= |ops|
  {
    if n == 0 then l else Step(After(l, ops, n - 1), ops[n - 1])
  }

  predicate HasTag(l: Ledger, e: Entry, t: Tx) {
    e in l.owners && l.owners[e] == Lifecycle(t)
  }

  /** A receipt never took an owned entry out, and its two halves speak of different keys. */
  ghost predicate SoundReceipt(r: Receipt) {
    && (forall x :: x in r.removed ==> x.originalOwner == None)
    && (forall x, e :: x in r.removed && e in r.added ==> x.entry.key != e.key)
  }

  ghost predicate Sound(l: Ledger) {
    l.Valid() && forall t :: t in l.receipts ==> SoundReceipt(l.receipts[t])
  }

  /** No lifecycle transaction is in flight. */
  ghost predicate Quiet(l: Ledger) {
    l.Valid() && l.receipts == map[] && forall e, t :: !HasTag(l, e, t)
  }

  // ---- restoring ---------------------------------------------------------------

  lemma {:induction false} RestoreOnlyAppends(dirs: seq<Entry>, owners: map<Entry, Owner>, removed: seq<Removal>)
    requires forall x :: x in removed ==> x.originalOwner == None
    ensures Restore(dirs, owners, removed).1 == owners
    ensures forall e :: e in dirs ==> e in Restore(dirs, owners, removed).0
    ensures forall e :: e in Restore(dirs, owners, removed).0 && e !in dirs ==>
              e.key !in Keys(dirs) && Removal(e, None) in removed
  {
    if removed != [] {
      var init, last := removed[..|removed| - 1], removed[|removed| - 1];
      RestoreOnlyAppends(dirs, owners, init);
      var d := Restore(dirs, owners, init).0;
      assert forall e :: e in dirs ==> e in d;
      assert last == Removal(last.entry, None) && last in removed;
      assert Keys(dirs) <= Keys(d);
    }
  }

  // ---- one step ------------------------------------------------------------------

  lemma SavedKeeps(l: Ledger, dirs: seq<Entry>, owners: map<Entry, Owner>)
    requires Sound(l)
    ensures Sound(Saved(l, dirs, owners))
  {
    var s := Saved(l, dirs, owners);
    forall t | t in s.receipts ensures SoundReceipt(s.receipts[t]) {
      assert SoundReceipt(l.receipts[t]);
    }
  }

  lemma MergeKeeps(l: Ledger, t: Tx, base: seq<Entry>, projected: seq<Entry>)
    requires Sound(l)
    ensures Sound(Kept(l, Merge(l, t, base, projected)))
  {
    var o := Merge(l, t, base, projected);
    if o.Done? && t !in l.receipts {
      var s := o.ledger;
      forall u | u in s.receipts ensures SoundReceipt(s.receipts[u]) {
        if u == t {
          var r := s.receipts[t];
          forall x | x in r.removed
            ensures x.originalOwner == None && x.entry.key in Keys(base)
          {
            assert x.entry in ByKey(l.dirs, RemovedKeys(base, projected), true);
          }
        } else {
          assert SoundReceipt(l.receipts[u]);
        }
      }
    }
  }

  lemma RollbackKeeps(l: Ledger, t: Tx)
    requires Sound(l)
    ensures Sound(Rollback(l, t))
  {
    if t in l.receipts {
      var gone := StillOwned(l, t);
      RestoreOnlyAppends(Except(l.dirs, gone), l.owners - gone, l.receipts[t].removed);
    }
  }

  lemma StepKeeps(l: Ledger, op: Op)
    requires Sound(l)
    ensures Sound(Step(l, op))
  {
    match op {
      case RegisterOp(e) => SavedKeeps(l, l.dirs + [e], l.owners);
      case UnregisterOp(e) => SavedKeeps(l, Except(l.dirs, {e}), l.owners - {e});
      case RegisterOwnedOp(e, t) => SavedKeeps(l, l.dirs + [e], l.owners[e := Registration(t)]);
      case UnregisterOwnedOp(e, t) => SavedKeeps(l, Except(l.dirs, {e}), l.owners - {e});
      case ReleaseOwnerOp(e, t) => SavedKeeps(l, l.dirs, l.owners - {e});
      case EnsureReleasedOp(e, t) => SavedKeeps(l, if e in l.dirs then l.dirs else l.dirs + [e], l.owners - {e});
      case MergeOp(t, base, projected) => MergeKeeps(l, t, base, projected);
      case RollbackOp(t) => RollbackKeeps(l, t);
      case ReleaseOp(t) =>
    }
  }

  lemma {:induction false} RunKeeps(l: Ledger, ops: seq<Op>, n: nat)
    requires n <= |ops| && Sound(l)
    ensures Sound(After(l, ops, n))
  {
    if n > 0 {
      RunKeeps(l, ops, n - 1);
      StepKeeps(After(l, ops, n - 1), ops[n - 1]);
    }
  }

  /** Only a merge by t of an entry that was not listed puts the tag of t on it. */
  lemma TagComesFromMerge(l: Ledger, op: Op, e: Entry, t: Tx)
    requires Sound(l) && HasTag(Step(l, op), e, t) && !HasTag(l, e, t)
    ensures op.MergeOp? && op.t == t && e !in l.dirs && e in Step(l, op).dirs
  {
    match op {
      case RollbackOp(u) =>
        if u in l.receipts {
          var gone := StillOwned(l, u);
          RestoreOnlyAppends(Except(l.dirs, gone), l.owners - gone, l.receipts[u].removed);
        }
      case _ =>
    }
  }

  /** While the entry stays listed and t neither rolls back nor releases, nobody takes tag or receipt away. */
  lemma TagStays(l: Ledger, op: Op, e: Entry, t: Tx)
    requires Sound(l) && HasTag(l, e, t) && t in l.receipts && e in l.receipts[t].added
    requires e in Step(l, op).dirs && op != RollbackOp(t) && op != ReleaseOp(t)
    ensures HasTag(Step(l, op), e, t) && t in Step(l, op).receipts && e in Step(l, op).receipts[t].added
  {
    match op {
      case RollbackOp(u) =>
        if u in l.receipts {
          var gone := StillOwned(l, u);
          RestoreOnlyAppends(Except(l.dirs, gone), l.owners - gone, l.receipts[u].removed);
        }
      case _ =>
    }
  }

  // ---- what a rollback removes ------------------------------------------------------

  /** Merge m by t listed e, and e stayed listed with t's receipt still open up to n. */
  ghost predicate AddedAndKept(l: Ledger, ops: seq<Op>, m: nat, n: nat, e: Entry, t: Tx)
    requires n <= |ops|
  {
    && m < n && ops[m].MergeOp? && ops[m].t == t
    && e !in After(l, ops, m).dirs
    && (forall j :: m < j <= n ==> e in After(l, ops, j).dirs)
    && (forall j :: m < j < n ==> ops[j] != RollbackOp(t) && ops[j] != ReleaseOp(t))
  }

  lemma {:induction false} TagHistory(l: Ledger, ops: seq<Op>, n: nat, e: Entry, t: Tx) returns (m: nat)
    requires n <= |ops| && Quiet(l) && HasTag(After(l, ops, n), e, t)
    ensures m < n && ops[m].MergeOp? && ops[m].t == t && e !in After(l, ops, m).dirs
    ensures forall j :: m < j <= n ==> e in After(l, ops, j).dirs && HasTag(After(l, ops, j), e, t)
  {
    hide Step;
    assert n > 0;
    var prev := After(l, ops, n - 1);
    RunKeeps(l, ops, n - 1);
    RunKeeps(l, ops, n);
    if HasTag(prev, e, t) {
      m := TagHistory(l, ops, n - 1, e, t);
    } else {
      TagComesFromMerge(prev, ops[n - 1], e, t);
      m := n - 1;
    }
  }

  /** A tag does not outlive the rollback or the release of its transaction while a receipt lists the entry. */
  ghost predicate TagsHaveReceipts(l: Ledger) {
    forall e, t :: HasTag(l, e, t) ==> t in l.receipts && e in l.receipts[t].added
  }

  lemma StepKeepsTagReceipts(l: Ledger, op: Op)
    requires Sound(l) && TagsHaveReceipts(l)
    ensures TagsHaveReceipts(Step(l, op))
  {
    StepKeeps(l, op);
    var s := Step(l, op);
    forall e, t | HasTag(s, e, t) ensures t in s.receipts && e in s.receipts[t].added {
      if HasTag(l, e, t) {
        assert e in s.dirs;
        if op == RollbackOp(t) {
          var gone := StillOwned(l, t);
          RestoreOnlyAppends(Except(l.dirs, gone), l.owners - gone, l.receipts[t].removed);
          assert false;
        } else if op == ReleaseOp(t) {
          assert false;
        } else {
          TagStays(l, op, e, t);
        }
      } else {
        TagComesFromMerge(l, op, e, t);
      }
    }
  }

  lemma {:induction false} RunKeepsTagReceipts(l: Ledger, ops: seq<Op>, n: nat)
    requires n <= |ops| && Quiet(l)
    ensures TagsHaveReceipts(After(l, ops, n))
  {
    if n > 0 {
      RunKeepsTagReceipts(l, ops, n - 1);
      RunKeeps(l, ops, n - 1);
      StepKeepsTagReceipts(After(l, ops, n - 1), ops[n - 1]);
    }
  }

  lemma TagEndsWithItsTransaction(l: Ledger, op: Op, e: Entry, t: Tx)
    requires Sound(l) && TagsHaveReceipts(l) && HasTag(l, e, t) && (op == RollbackOp(t) || op == ReleaseOp(t))
    ensures !HasTag(Step(l, op), e, t)
  {
    if op == RollbackOp(t) {
      var gone := StillOwned(l, t);
      RestoreOnlyAppends(Except(l.dirs, gone), l.owners - gone, l.receipts[t].removed);
      assert e in gone;
    }
  }

  lemma {:induction false} KeptMeansTagged(l: Ledger, ops: seq<Op>, m: nat, n: nat, e: Entry, t: Tx)
    requires n <= |ops| && Quiet(l) && AddedAndKept(l, ops, m, n, e, t)
    ensures HasTag(After(l, ops, n), e, t)
  {
    hide Step;
    RunKeeps(l, ops, n - 1);
    RunKeepsTagReceipts(l, ops, n - 1);
    assert e in After(l, ops, n).dirs;
    if n == m + 1 {
      MergeTags(After(l, ops, m), ops[m], e);
    } else {
      assert forall j :: m < j <= n - 1 ==> e in After(l, ops, j).dirs;
      KeptMeansTagged(l, ops, m, n - 1, e, t);
      TagStays(After(l, ops, n - 1), ops[n - 1], e, t);
    }
  }

  lemma MergeTags(l: Ledger, op: Op, e: Entry)
    requires op.MergeOp? && e !in l.dirs && e in Step(l, op).dirs
    ensures HasTag(Step(l, op), e, op.t)
  {
    assert e !in ByKey(l.dirs, RemovedKeys(op.base, op.projected), false);
  }

  /** What one rollback does to the listed entries. */
  lemma RollbackEffect(l: Ledger, t: Tx, e: Entry)
    requires Sound(l)
    ensures e in l.dirs ==>
              (e !in Rollback(l, t).dirs <==> t in l.receipts && e in StillOwned(l, t))
    ensures e !in l.dirs && e in Rollback(l, t).dirs ==>
              t in l.receipts && Removal(e, None) in l.receipts[t].removed && e.key !in Keys(l.dirs)
  {
    if t in l.receipts {
      var gone, r := StillOwned(l, t), l.receipts[t];
      assert SoundReceipt(r);
      RestoreOnlyAppends(Except(l.dirs, gone), l.owners - gone, r.removed);
      if e !in l.dirs && e in Rollback(l, t).dirs {
        assert Removal(e, None) in r.removed;
        forall d | d in l.dirs ensures d.key != e.key {
          assert d in gone || d in Except(l.dirs, gone);
        }
      }
    }
  }

  lemma NoEndInBetween(l: Ledger, ops: seq<Op>, m: nat, n: nat, e: Entry, t: Tx)
    requires n <= |ops| && Quiet(l)
    requires forall j :: m < j <= n ==> HasTag(After(l, ops, j), e, t)
    ensures forall j :: m < j < n ==> ops[j] != RollbackOp(t) && ops[j] != ReleaseOp(t)
  {
    hide Step, HasTag;
    forall j | m < j < n ensures ops[j] != RollbackOp(t) && ops[j] != ReleaseOp(t) {
      RunKeeps(l, ops, j);
      RunKeepsTagReceipts(l, ops, j);
      assert After(l, ops, j + 1) == Step(After(l, ops, j), ops[j]);
      if ops[j] == RollbackOp(t) || ops[j] == ReleaseOp(t) {
        TagEndsWithItsTransaction(After(l, ops, j), ops[j], e, t);
      }
    }
  }

  /** A rollback takes an entry out exactly when its transaction listed that entry and it stayed
      listed, under the open receipt, ever since. */
  lemma RollbackRemovesExactlyItsOwn(l: Ledger, ops: seq<Op>, n: nat, e: Entry, t: Tx)
    requires n < |ops| && Quiet(l) && ops[n] == RollbackOp(t) && e in After(l, ops, n).dirs
    ensures e !in After(l, ops, n + 1).dirs <==> exists m :: AddedAndKept(l, ops, m, n, e, t)
  {
    var now := After(l, ops, n);
    RunKeeps(l, ops, n);
    RunKeepsTagReceipts(l, ops, n);
    RollbackEffect(now, t, e);
    assert After(l, ops, n + 1) == Rollback(now, t);
    hide Step;
    if e !in Rollback(now, t).dirs {
      var m := TagHistory(l, ops, n, e, t);
      NoEndInBetween(l, ops, m, n, e, t);
      assert AddedAndKept(l, ops, m, n, e, t);
    }
    if m :| AddedAndKept(l, ops, m, n, e, t) {
      KeptMeansTagged(l, ops, m, n, e, t);
    }
  }

  // ---- what a rollback restores ------------------------------------------------------

  lemma ReceiptStep(l: Ledger, op: Op, t: Tx)
    requires t in Step(l, op).receipts
    ensures t in l.receipts ==> Step(l, op).receipts[t].removed == l.receipts[t].removed
    ensures t !in l.receipts ==> op.MergeOp? && op.t == t
  {
  }

  lemma {:induction false} ReceiptHistory(l: Ledger, ops: seq<Op>, n: nat, t: Tx) returns (m: nat)
    requires n <= |ops| && Quiet(l) && t in After(l, ops, n).receipts
    ensures m < n && ops[m].MergeOp? && ops[m].t == t && t !in After(l, ops, m).receipts
    ensures t in After(l, ops, m + 1).receipts
    ensures After(l, ops, m + 1).receipts[t].removed == After(l, ops, n).receipts[t].removed
  {
    hide Step;
    assert n > 0;
    var prev := After(l, ops, n - 1);
    ReceiptStep(prev, ops[n - 1], t);
    if t in prev.receipts {
      m := ReceiptHistory(l, ops, n - 1, t);
    } else {
      m := n - 1;
    }
  }

  lemma MergeRemoves(l: Ledger, op: Op, e: Entry)
    requires op.MergeOp? && op.t !in l.receipts && op.t in Step(l, op).receipts
    requires Removal(e, None) in Step(l, op).receipts[op.t].removed
    ensures e in l.dirs && e !in Step(l, op).dirs
  {
    assert e in ByKey(l.dirs, RemovedKeys(op.base, op.projected), true);
    assert e.key in Keys(op.base);
    assert e !in ActuallyAdded(l, op.base, op.projected);
  }

  /** A rollback lists an entry again only if no entry of that key is listed, and only one that a
      merge of the same transaction took out. */
  lemma RollbackRestoresOnlyAbsent(l: Ledger, ops: seq<Op>, n: nat, e: Entry, t: Tx) returns (m: nat)
    requires n < |ops| && Quiet(l) && ops[n] == RollbackOp(t)
    requires e !in After(l, ops, n).dirs && e in After(l, ops, n + 1).dirs
    ensures e.key !in Keys(After(l, ops, n).dirs)
    ensures m < n && ops[m].MergeOp? && ops[m].t == t
    ensures e in After(l, ops, m).dirs && e !in After(l, ops, m + 1).dirs
  {
    var now := After(l, ops, n);
    RunKeeps(l, ops, n);
    assert After(l, ops, n + 1) == Rollback(now, t);
    RollbackEffect(now, t, e);
    hide Step, Rollback;
    m := ReceiptHistory(l, ops, n, t);
    assert After(l, ops, m + 1) == Step(After(l, ops, m), ops[m]);
    MergeRemoves(After(l, ops, m), ops[m], e);
  }
}
