/** Lifecycle transactions with disjoint keys undo independently of each other. */
module LedgerUndo {
  import opened JobLedger
  import opened LedgerHistory

  datatype Plan = Plan(base: seq<Entry>, projected: seq<Entry>)

  type Plans = map<Tx, Plan>

  function Touched(p: Plan): set<string> {
    (Keys(p.base) - Keys(p.projected)) + (Keys(p.projected) - Keys(p.base))
  }

  ghost predicate Disjoint(plans: Plans) {
    forall t, u :: t in plans && u in plans && t != u ==> Touched(plans[t]) !! Touched(plans[u])
  }

  /** One step of a planned transaction. */
  ghost predicate Planned(plans: Plans, op: Op) {
    match op
    case MergeOp(t, base, projected) => t in plans && plans[t] == Plan(base, projected)
    case RollbackOp(t) => t in plans
    case ReleaseOp(t) => t in plans
    case _ => false
  }

  ghost predicate Tags(l: Ledger, t: Tx) {
    exists e :: HasTag(l, e, t)
  }

  /** The planned transactions have not started: no receipt and no tag bears their id. */
  ghost predicate Fresh(l: Ledger, plans: Plans) {
    && Sound(l) && DistinctKeys(l.dirs)
    && (forall t :: t in plans ==> t !in l.receipts && !Tags(l, t))
  }

  datatype Status = Absent | Applied | Released

  /** A merge is refused for duplicate locators, or when it would take an owned entry out. */
  ghost predicate Admissible(l: Ledger, p: Plan) {
    && DistinctKeys(p.base) && DistinctKeys(p.projected)
    && forall e :: e in l.owners ==> e.key !in RemovedKeys(p.base, p.projected)
  }

  function Next(s: Status, op: Op, t: Tx, admissible: bool): Status {
    match op
    case MergeOp(u, _, _) => if u == t && s == Absent && admissible then Applied else s
    case RollbackOp(u) => if u == t && s == Applied then Absent else s
    case ReleaseOp(u) => if u == t && s == Applied then Released else s
    case _ => s
  }

  ghost function StatusAfter(l: Ledger, plans: Plans, ops: seq<Op>, n: nat, t: Tx): Status
    requires n <= |ops| && t in plans
  {
    if n == 0 then Absent
    else Next(StatusAfter(l, plans, ops, n - 1, t), ops[n - 1], t, Admissible(l, plans[t]))
  }

  // ---- what a transaction's keys look like ------------------------------------------

  function OwnerAt(l: Ledger, e: Entry): Option<Owner> {
    if e in l.owners then Some(l.owners[e]) else None
  }

  ghost predicate NewEntry(l0: Ledger, p: Plan, e: Entry) {
    e in p.projected && e.key !in Keys(p.base) && e.key !in Keys(l0.dirs)
  }

  /** A touched entry is listed: as before, or as the plan wants it when the plan is in effect. */
  ghost predicate ListedUnder(l0: Ledger, p: Plan, inEffect: bool, e: Entry) {
    if !inEffect then e in l0.dirs
    else NewEntry(l0, p, e) || (e in l0.dirs && e.key !in RemovedKeys(p.base, p.projected))
  }

  ghost function OwnerUnder(l0: Ledger, p: Plan, t: Tx, s: Status, e: Entry): Option<Owner> {
    if s == Applied && NewEntry(l0, p, e) then Some(Lifecycle(t)) else OwnerAt(l0, e)
  }

  ghost predicate ReceiptFor(l0: Ledger, p: Plan, r: Receipt) {
    && (forall e :: e in r.added <==> NewEntry(l0, p, e))
    && (forall x :: x in r.removed <==>
          x.originalOwner == None && x.entry in l0.dirs && x.entry.key in RemovedKeys(p.base, p.projected))
    && (forall i, j :: 0 <= i < j < |r.removed| ==> r.removed[i].entry.key != r.removed[j].entry.key)
  }

  ghost predicate ReceiptUnder(l0: Ledger, l: Ledger, p: Plan, t: Tx, s: Status) {
    match s
    case Absent => t !in l.receipts
    case Applied => t in l.receipts && ReceiptFor(l0, p, l.receipts[t])
    case Released => t in l.receipts ==> l.receipts[t] == Receipt([], [])
  }

  /** In l the keys of the plan stand as its status says, starting from l0. */
  ghost predicate Local(l0: Ledger, l: Ledger, p: Plan, t: Tx, s: Status) {
    && (s != Absent ==> Admissible(l0, p))
    && ReceiptUnder(l0, l, p, t, s)
    && (forall e: Entry :: e.key in Touched(p) ==> (e in l.dirs <==> ListedUnder(l0, p, s != Absent, e)))
    && (forall e: Entry :: e.key in Touched(p) ==> OwnerAt(l, e) == OwnerUnder(l0, p, t, s, e))
  }

  /** The two ledgers agree about this entry. */
  ghost predicate SameAt(l: Ledger, m: Ledger, e: Entry) {
    (e in l.dirs <==> e in m.dirs) && OwnerAt(l, e) == OwnerAt(m, e)
  }

  // ---- distinct keys ---------------------------------------------------------------

  lemma {:induction false} ByKeyDistinct(es: seq<Entry>, keys: set<string>, inside: bool)
    requires DistinctKeys(es)
    ensures DistinctKeys(ByKey(es, keys, inside))
  {
    if es != [] {
      var init := es[..|es| - 1];
      ByKeyDistinct(init, keys, inside);
      var d := ByKey(init, keys, inside);
      forall i | 0 <= i < |d| ensures d[i].key != es[|es| - 1].key {
        assert d[i] in init;
      }
    }
  }

  lemma {:induction false} ExceptDistinct(es: seq<Entry>, gone: set<Entry>)
    requires DistinctKeys(es)
    ensures DistinctKeys(Except(es, gone))
  {
    if es != [] {
      var init := es[..|es| - 1];
      ExceptDistinct(init, gone);
      var d := Except(init, gone);
      forall i | 0 <= i < |d| ensures d[i].key != es[|es| - 1].key {
        assert d[i] in init;
      }
    }
  }

  lemma {:induction false} RestoreDistinct(dirs: seq<Entry>, owners: map<Entry, Owner>, removed: seq<Removal>)
    requires DistinctKeys(dirs)
    ensures DistinctKeys(Restore(dirs, owners, removed).0)
  {
    if removed != [] {
      RestoreDistinct(dirs, owners, removed[..|removed| - 1]);
    }
  }

  /** Removals with distinct keys: each comes back if and only if its key is absent. */
  lemma {:induction false} RestoreExactly(dirs: seq<Entry>, owners: map<Entry, Owner>, removed: seq<Removal>, e: Entry)
    requires forall x :: x in removed ==> x.originalOwner == None
    requires forall i, j :: 0 <= i < j < |removed| ==> removed[i].entry.key != removed[j].entry.key
    ensures e in Restore(dirs, owners, removed).0 <==>
              e in dirs || (Removal(e, None) in removed && e.key !in Keys(dirs))
  {
    if removed != [] {
      var init, last := removed[..|removed| - 1], removed[|removed| - 1];
      RestoreExactly(dirs, owners, init, e);
      RestoreOnlyAppends(dirs, owners, init);
      var d := Restore(dirs, owners, init).0;
      assert last == Removal(last.entry, None);
      assert forall x :: x in removed <==> x in init || x == last;
      forall f | f in d && f !in dirs ensures f.key != last.entry.key {
        assert Removal(f, None) in init;
      }
    }
  }

  lemma StepKeepsDistinct(l: Ledger, plans: Plans, op: Op)
    requires DistinctKeys(l.dirs) && Planned(plans, op)
    ensures DistinctKeys(Step(l, op).dirs)
  {
    match op {
      case MergeOp(t, base, projected) =>
        ByKeyDistinct(l.dirs, RemovedKeys(base, projected), false);
        if DistinctKeys(projected) {
          ByKeyDistinct(projected, Keys(base) + Keys(l.dirs), false);
        }
      case RollbackOp(t) =>
        if t in l.receipts {
          var gone := StillOwned(l, t);
          ExceptDistinct(l.dirs, gone);
          RestoreDistinct(Except(l.dirs, gone), l.owners - gone, l.receipts[t].removed);
        }
      case ReleaseOp(t) =>
    }
  }

  // ---- one step of the transaction itself ---------------------------------------------

  lemma SameKeys(l0: Ledger, l: Ledger, p: Plan, t: Tx, key: string)
    requires Local(l0, l, p, t, Absent) && key in Touched(p)
    ensures key in Keys(l.dirs) <==> key in Keys(l0.dirs)
  {
    if key in Keys(l0.dirs) {
      var e :| e in l0.dirs && e.key == key;
      assert ListedUnder(l0, p, false, e);
    }
    if key in Keys(l.dirs) {
      var e :| e in l.dirs && e.key == key;
      assert ListedUnder(l0, p, false, e);
    }
  }

  lemma MergeRefusedAlike(l0: Ledger, l: Ledger, p: Plan, t: Tx)
    requires Local(l0, l, p, t, Absent)
    ensures (exists e :: e in l.owners && e.key in RemovedKeys(p.base, p.projected))
       <==> (exists e :: e in l0.owners && e.key in RemovedKeys(p.base, p.projected))
  {
    if e :| e in l.owners && e.key in RemovedKeys(p.base, p.projected) {
      assert OwnerAt(l, e) == OwnerUnder(l0, p, t, Absent, e);
    }
    if e :| e in l0.owners && e.key in RemovedKeys(p.base, p.projected) {
      assert OwnerAt(l, e) == OwnerUnder(l0, p, t, Absent, e);
    }
  }

  lemma RemovalsDistinct(l: Ledger, keys: set<string>)
    requires DistinctKeys(l.dirs) && forall e :: e in l.owners ==> e.key !in keys
    ensures var r := Removals(ByKey(l.dirs, keys, true), l.owners);
            && (forall i, j :: 0 <= i < j < |r| ==> r[i].entry.key != r[j].entry.key)
            && (forall x :: x in r <==> x.originalOwner == None && x.entry in l.dirs && x.entry.key in keys)
  {
    ByKeyDistinct(l.dirs, keys, true);
    var es := ByKey(l.dirs, keys, true);
    var r := Removals(es, l.owners);
    forall x: Removal | x.originalOwner == None && x.entry in l.dirs && x.entry.key in keys ensures x in r {
      var i :| 0 <= i < |es| && es[i] == x.entry;
      assert r[i] == x;
    }
  }

  /** A merge that goes through, entry by entry. */
  lemma MergeGoesThrough(l: Ledger, p: Plan, t: Tx)
    requires l.Valid() && DistinctKeys(l.dirs) && t !in l.receipts && Admissible(l, p)
    ensures var s := Step(l, MergeOp(t, p.base, p.projected));
            var removed, added := RemovedKeys(p.base, p.projected), ActuallyAdded(l, p.base, p.projected);
            && t in s.receipts && s.receipts[t] == Receipt(added, Removals(ByKey(l.dirs, removed, true), l.owners))
            && (forall e :: e in s.dirs <==> e in added || (e in l.dirs && e.key !in removed))
            && (forall e :: OwnerAt(s, e) == if e in added then Some(Lifecycle(t)) else OwnerAt(l, e))
  {
  }

  /** What the merge adds and finds, on touched keys, is what the original ledger says. */
  lemma MergeSees(l0: Ledger, l: Ledger, p: Plan, t: Tx)
    requires Local(l0, l, p, t, Absent)
    ensures forall e :: e in ActuallyAdded(l, p.base, p.projected) <==> NewEntry(l0, p, e)
    ensures forall e: Entry :: e.key in Touched(p) ==> (e in l.dirs <==> e in l0.dirs) && OwnerAt(l, e) == OwnerAt(l0, e)
  {
    var added := ActuallyAdded(l, p.base, p.projected);
    forall e: Entry | e.key in Touched(p)
      ensures e in added <==> NewEntry(l0, p, e)
      ensures (e in l.dirs <==> e in l0.dirs) && OwnerAt(l, e) == OwnerAt(l0, e)
    {
      SameKeys(l0, l, p, t, e.key);
      assert e in l.dirs <==> ListedUnder(l0, p, false, e);
    }
    forall e ensures e in added <==> NewEntry(l0, p, e) {
      assert e in added || NewEntry(l0, p, e) ==> e.key in Touched(p);
    }
  }

  lemma MergeReceipt(l0: Ledger, l: Ledger, p: Plan, t: Tx)
    requires DistinctKeys(l.dirs) && Local(l0, l, p, t, Absent) && Admissible(l, p)
    ensures ReceiptFor(l0, p, Receipt(ActuallyAdded(l, p.base, p.projected),
                                      Removals(ByKey(l.dirs, RemovedKeys(p.base, p.projected), true), l.owners)))
  {
    MergeSees(l0, l, p, t);
    RemovalsDistinct(l, RemovedKeys(p.base, p.projected));
    assert RemovedKeys(p.base, p.projected) <= Touched(p);
    hide Local, ActuallyAdded, Removals, NewEntry, DistinctKeys, Admissible;
  }

  lemma LocalMergeApplies(l0: Ledger, l: Ledger, p: Plan, t: Tx)
    requires l0.Valid() && l.Valid() && DistinctKeys(l.dirs)
    requires Local(l0, l, p, t, Absent) && Admissible(l0, p)
    ensures Local(l0, Step(l, MergeOp(t, p.base, p.projected)), p, t, Applied)
  {
    MergeRefusedAlike(l0, l, p, t);
    assert Admissible(l, p);
    MergeGoesThrough(l, p, t);
    MergeSees(l0, l, p, t);
    MergeReceipt(l0, l, p, t);
    hide Step, ReceiptFor, ActuallyAdded, DistinctKeys, Admissible, RemovedKeys, Removals, Local;
    var s := Step(l, MergeOp(t, p.base, p.projected));
    forall e: Entry | e.key in Touched(p)
      ensures e in s.dirs <==> ListedUnder(l0, p, true, e)
      ensures OwnerAt(s, e) == OwnerUnder(l0, p, t, Applied, e)
    {
    }
    MergedLocal(l0, s, p, t);
  }

  lemma MergedLocal(l0: Ledger, s: Ledger, p: Plan, t: Tx)
    requires Admissible(l0, p) && ReceiptUnder(l0, s, p, t, Applied)
    requires forall e: Entry :: e.key in Touched(p) ==> (e in s.dirs <==> ListedUnder(l0, p, true, e))
    requires forall e: Entry :: e.key in Touched(p) ==> OwnerAt(s, e) == OwnerUnder(l0, p, t, Applied, e)
    ensures Local(l0, s, p, t, Applied)
  {
    hide ListedUnder, OwnerUnder, ReceiptUnder, Admissible, OwnerAt, Touched;
  }

  /** After a release nothing of the plan is left to do. */
  lemma NothingLeft(l0: Ledger, l: Ledger, p: Plan, t: Tx)
    requires Local(l0, l, p, t, Released)
    ensures ActuallyAdded(l, p.base, p.projected) == []
    ensures ByKey(l.dirs, RemovedKeys(p.base, p.projected), true) == []
  {
    var taken, added := ByKey(l.dirs, RemovedKeys(p.base, p.projected), true), ActuallyAdded(l, p.base, p.projected);
    assert (added == [] || added[0] in added) && (taken == [] || taken[0] in taken);
    forall e | e in l.dirs ensures e.key !in RemovedKeys(p.base, p.projected) {
      assert ListedUnder(l0, p, true, e) || e.key !in Touched(p);
    }
    forall e | e in p.projected && e.key !in Keys(p.base) ensures e.key in Keys(l.dirs) {
      if e.key in Keys(l0.dirs) {
        var d :| d in l0.dirs && d.key == e.key;
        assert ListedUnder(l0, p, true, d);
      } else {
        assert ListedUnder(l0, p, true, e);
      }
    }
  }

  lemma MergeOfNothing(l: Ledger, p: Plan, t: Tx)
    requires l.Valid() && ActuallyAdded(l, p.base, p.projected) == []
    requires ByKey(l.dirs, RemovedKeys(p.base, p.projected), true) == []
    requires t !in l.receipts && Merge(l, t, p.base, p.projected).Done?
    ensures var kept := ByKey(l.dirs, RemovedKeys(p.base, p.projected), false);
            && Merge(l, t, p.base, p.projected)
               == Done(Ledger(kept, l.owners, l.receipts[t := Receipt([], [])]))
            && forall e :: e in kept <==> e in l.dirs
  {
    hide DistinctKeys, RemovedKeys, ActuallyAdded, Retained, Tagged, Removals, ByKey;
    var removed := RemovedKeys(p.base, p.projected);
    var kept := ByKey(l.dirs, removed, false);
    NoneTaken(l.dirs, removed);
    NothingTagged(l, kept, Lifecycle(t));
    assert kept + [] == kept;
    assert Removals([], l.owners) == [];
  }

  lemma NoneTaken(dirs: seq<Entry>, removed: set<string>)
    requires ByKey(dirs, removed, true) == []
    ensures forall e :: e in ByKey(dirs, removed, false) <==> e in dirs
  {
    assert forall e :: e !in ByKey(dirs, removed, true);
  }

  lemma NothingTagged(l: Ledger, kept: seq<Entry>, o: Owner)
    requires l.Valid() && forall e :: e in kept <==> e in l.dirs
    ensures Retained(l.owners, kept) + Tagged([], o) == l.owners
  {
  }

  /** The local picture depends only on the touched entries and the transaction's own receipt. */
  lemma LocalCarries(l0: Ledger, l: Ledger, s: Ledger, p: Plan, t: Tx, st: Status)
    requires Local(l0, l, p, t, st) && ReceiptUnder(l0, s, p, t, st)
    requires forall e: Entry :: e.key in Touched(p) ==> SameAt(l, s, e)
    ensures Local(l0, s, p, t, st)
  {
    hide ListedUnder, OwnerUnder, ReceiptUnder, Admissible, OwnerAt, Touched;
    forall e: Entry | e.key in Touched(p)
      ensures e in s.dirs <==> ListedUnder(l0, p, st != Absent, e)
      ensures OwnerAt(s, e) == OwnerUnder(l0, p, t, st, e)
    {
      assert SameAt(l, s, e);
    }
  }

  lemma LocalMergeAgain(l0: Ledger, l: Ledger, p: Plan, t: Tx)
    requires l0.Valid() && l.Valid() && Local(l0, l, p, t, Released)
    ensures Local(l0, Step(l, MergeOp(t, p.base, p.projected)), p, t, Released)
  {
    if t !in l.receipts && Merge(l, t, p.base, p.projected).Done? {
      var s := Step(l, MergeOp(t, p.base, p.projected));
      NothingLeft(l0, l, p, t);
      MergeOfNothing(l, p, t);
      hide Merge, Local, ActuallyAdded, RemovedKeys, Touched;
      LocalCarries(l0, l, s, p, t, Released);
    }
  }

  lemma LocalRollback(l0: Ledger, l: Ledger, p: Plan, t: Tx)
    requires l0.Valid() && l.Valid() && Local(l0, l, p, t, Applied)
    ensures Local(l0, Rollback(l, t), p, t, Absent)
  {
    var gone, r := StillOwned(l, t), l.receipts[t];
    var d, o := Except(l.dirs, gone), l.owners - gone;
    var s := Rollback(l, t);
    RestoreOnlyAppends(d, o, r.removed);
    forall e: Entry | e.key in Touched(p)
      ensures e in gone <==> NewEntry(l0, p, e)
      ensures e in d <==> e in l0.dirs && e.key !in RemovedKeys(p.base, p.projected)
    {
      assert e in l.dirs <==> ListedUnder(l0, p, true, e);
      assert OwnerAt(l, e) == OwnerUnder(l0, p, t, Applied, e);
    }
    forall e: Entry | e.key in Touched(p)
      ensures e in s.dirs <==> ListedUnder(l0, p, false, e)
      ensures OwnerAt(s, e) == OwnerUnder(l0, p, t, Absent, e)
    {
      RestoreExactly(d, o, r.removed, e);
      assert OwnerAt(l, e) == OwnerUnder(l0, p, t, Applied, e);
    }
  }

  lemma LocalRelease(l0: Ledger, l: Ledger, p: Plan, t: Tx)
    requires l0.Valid() && l.Valid() && Local(l0, l, p, t, Applied)
    ensures Local(l0, Release(l, t), p, t, Released)
  {
    var s := Release(l, t);
    forall e: Entry | e.key in Touched(p)
      ensures OwnerAt(s, e) == OwnerUnder(l0, p, t, Released, e)
    {
      assert OwnerAt(l, e) == OwnerUnder(l0, p, t, Applied, e);
    }
  }

  // ---- frames ------------------------------------------------------------------------

  /** A step of u leaves entries of other keys and the receipts of other transactions alone. */
  ghost predicate Framed(l: Ledger, s: Ledger, p: Plan, u: Tx) {
    && (forall e: Entry :: e.key !in Touched(p) ==> SameAt(l, s, e))
    && (forall v :: v != u ==> (v in s.receipts <==> v in l.receipts))
    && (forall v :: v != u && v in l.receipts ==> s.receipts[v] == l.receipts[v])
  }

  lemma MergeFrame(l: Ledger, p: Plan, u: Tx)
    requires l.Valid()
    ensures Framed(l, Step(l, MergeOp(u, p.base, p.projected)), p, u)
  {
    var s := Step(l, MergeOp(u, p.base, p.projected));
    if u !in l.receipts && Merge(l, u, p.base, p.projected).Done? {
      var removed, added := RemovedKeys(p.base, p.projected), ActuallyAdded(l, p.base, p.projected);
      forall e: Entry | e.key !in Touched(p) ensures SameAt(l, s, e) {
        assert e !in added && e.key !in removed;
      }
    }
  }

  /** The receipt of u names touched keys only. */
  lemma OwnReceipt(l0: Ledger, l: Ledger, p: Plan, u: Tx, st: Status)
    requires Local(l0, l, p, u, st) && u in l.receipts
    ensures forall e :: e in l.receipts[u].added ==> e.key in Touched(p)
    ensures forall x :: x in l.receipts[u].removed ==> x.originalOwner == None && x.entry.key in Touched(p)
  {
  }

  lemma RollbackFrame(l0: Ledger, l: Ledger, p: Plan, u: Tx, st: Status)
    requires l.Valid() && Local(l0, l, p, u, st)
    ensures Framed(l, Rollback(l, u), p, u)
  {
    if u in l.receipts {
      OwnReceipt(l0, l, p, u, st);
      hide Local, Touched;
      var gone := StillOwned(l, u);
      RestoreOnlyAppends(Except(l.dirs, gone), l.owners - gone, l.receipts[u].removed);
    }
  }

  lemma ReleaseFrame(l0: Ledger, l: Ledger, p: Plan, u: Tx, st: Status)
    requires l.Valid() && Local(l0, l, p, u, st)
    ensures Framed(l, Release(l, u), p, u)
  {
    if u in l.receipts {
      OwnReceipt(l0, l, p, u, st);
      hide Local, Touched;
    }
  }

  /** Ending a released transaction again changes nothing but its empty receipt. */
  lemma EndAgain(l0: Ledger, l: Ledger, p: Plan, t: Tx, op: Op)
    requires Local(l0, l, p, t, Released) && (op == RollbackOp(t) || op == ReleaseOp(t))
    ensures Local(l0, Step(l, op), p, t, Released)
  {
    if t in l.receipts {
      var gone := StillOwned(l, t);
      assert gone == {};
      assert l.owners - {} == l.owners;
      assert t !in Step(l, op).receipts && forall e :: SameAt(l, Step(l, op), e);
      hide Local, Step, Touched;
      LocalCarries(l0, l, Step(l, op), p, t, Released);
    }
  }

  lemma OwnStep(l0: Ledger, l: Ledger, plans: Plans, op: Op, st: Status)
    requires Planned(plans, op) && l0.Valid() && l.Valid() && DistinctKeys(l.dirs)
    requires Local(l0, l, plans[op.t], op.t, st)
    ensures Local(l0, Step(l, op), plans[op.t], op.t, Next(st, op, op.t, Admissible(l0, plans[op.t])))
    ensures Framed(l, Step(l, op), plans[op.t], op.t)
  {
    var p, t := plans[op.t], op.t;
    match op {
      case MergeOp(_, _, _) =>
        MergeFrame(l, p, t);
        if st == Released {
          LocalMergeAgain(l0, l, p, t);
        } else if st == Absent && Admissible(l0, p) {
          LocalMergeApplies(l0, l, p, t);
        } else if st == Absent {
          MergeRefusedAlike(l0, l, p, t);
        }
      case RollbackOp(_) =>
        RollbackFrame(l0, l, p, t, st);
        if st == Applied { LocalRollback(l0, l, p, t); } else if st == Released { EndAgain(l0, l, p, t, op); }
      case ReleaseOp(_) =>
        ReleaseFrame(l0, l, p, t, st);
        if st == Applied { LocalRelease(l0, l, p, t); } else if st == Released { EndAgain(l0, l, p, t, op); }
    }
  }

  lemma OtherStep(l0: Ledger, l: Ledger, s: Ledger, plans: Plans, u: Tx, t: Tx, st: Status)
    requires Disjoint(plans) && t in plans && u in plans && t != u
    requires Framed(l, s, plans[u], u) && Local(l0, l, plans[t], t, st)
    ensures Local(l0, s, plans[t], t, st)
  {
    assert Touched(plans[t]) !! Touched(plans[u]);
    assert ReceiptUnder(l0, s, plans[t], t, st);
    hide Local, Touched, ReceiptUnder;
    LocalCarries(l0, l, s, plans[t], t, st);
  }

  // ---- whole runs -----------------------------------------------------------------------

  ghost predicate AllPlanned(plans: Plans, ops: seq<Op>) {
    forall i :: 0 <= i < |ops| ==> Planned(plans, ops[i])
  }

  ghost predicate Untouched(plans: Plans, key: string) {
    forall t :: t in plans ==> key !in Touched(plans[t])
  }

  /** After n steps every transaction's keys stand as its status says, and no other key moved. */
  ghost predicate Picture(l: Ledger, s: Ledger, plans: Plans, ops: seq<Op>, n: nat)
    requires n <= |ops|
  {
    && Sound(s) && DistinctKeys(s.dirs)
    && (forall t :: t in plans ==> Local(l, s, plans[t], t, StatusAfter(l, plans, ops, n, t)))
    && (forall e: Entry :: Untouched(plans, e.key) ==> SameAt(l, s, e))
  }

  lemma PictureStep(l: Ledger, prev: Ledger, plans: Plans, ops: seq<Op>, n: nat)
    requires n < |ops| && Disjoint(plans) && l.Valid() && Planned(plans, ops[n])
    requires Picture(l, prev, plans, ops, n)
    ensures Picture(l, Step(prev, ops[n]), plans, ops, n + 1)
  {
    var op := ops[n];
    var s := Step(prev, op);
    assert prev.Valid();
    hide Step, Local, Sound, DistinctKeys, Touched, SameAt;
    StepKeeps(prev, op);
    StepKeepsDistinct(prev, plans, op);
    OwnStep(l, prev, plans, op, StatusAfter(l, plans, ops, n, op.t));
    forall t | t in plans ensures Local(l, s, plans[t], t, StatusAfter(l, plans, ops, n + 1, t)) {
      if t != op.t {
        OtherStep(l, prev, s, plans, op.t, t, StatusAfter(l, plans, ops, n, t));
      }
    }
    forall e: Entry | Untouched(plans, e.key) ensures SameAt(l, s, e) {
      assert SameAt(l, prev, e) && SameAt(prev, s, e);
      SameAtChains(l, prev, s, e);
    }
  }

  lemma PictureStart(l: Ledger, plans: Plans, ops: seq<Op>)
    requires Fresh(l, plans)
    ensures Picture(l, l, plans, ops, 0) && l.Valid()
  {
  }

  lemma {:induction false} RunIsLocal(l: Ledger, plans: Plans, ops: seq<Op>, n: nat)
    requires n <= |ops| && Disjoint(plans) && Fresh(l, plans) && AllPlanned(plans, ops)
    ensures Picture(l, After(l, ops, n), plans, ops, n)
  {
    hide Fresh, Picture, Disjoint, Planned, Step;
    PictureStart(l, plans, ops);
    if n > 0 {
      RunIsLocal(l, plans, ops, n - 1);
      PictureStep(l, After(l, ops, n - 1), plans, ops, n - 1);
    }
  }

  lemma PictureAt(l: Ledger, s: Ledger, plans: Plans, ops: seq<Op>, n: nat, t: Tx)
    requires n <= |ops| && Picture(l, s, plans, ops, n) && t in plans
    ensures Local(l, s, plans[t], t, StatusAfter(l, plans, ops, n, t))
  {
  }

  lemma PictureElsewhere(l: Ledger, s: Ledger, plans: Plans, ops: seq<Op>, n: nat, e: Entry)
    requires n <= |ops| && Picture(l, s, plans, ops, n) && Untouched(plans, e.key)
    ensures SameAt(l, s, e)
  {
  }

  lemma SameAtChains(a: Ledger, b: Ledger, c: Ledger, e: Entry)
    requires SameAt(a, b, e) && SameAt(b, c, e)
    ensures SameAt(a, c, e)
  {
  }

  /** The transactions of the list, merged one after the other and nothing else. */
  function Merges(plans: Plans, ts: seq<Tx>): (ops: seq<Op>)
    requires forall i :: 0 <= i < |ts| ==> ts[i] in plans
    ensures |ops| == |ts|
    ensures forall i :: 0 <= i < |ts| ==> ops[i] == MergeOp(ts[i], plans[ts[i]].base, plans[ts[i]].projected)
  {
    seq(|ts|, i requires 0 <= i < |ts| => MergeOp(ts[i], plans[ts[i]].base, plans[ts[i]].projected))
  }

  lemma {:induction false} MergesStatus(l: Ledger, plans: Plans, ts: seq<Tx>, n: nat, t: Tx)
    requires (forall i :: 0 <= i < |ts| ==> ts[i] in plans) && n <= |ts| && t in plans
    ensures StatusAfter(l, plans, Merges(plans, ts), n, t)
            == if t in ts[..n] && Admissible(l, plans[t]) then Applied else Absent
  {
    hide Admissible;
    if n > 0 {
      MergesStatus(l, plans, ts, n - 1, t);
      assert ts[..n] == ts[..n - 1] + [ts[n - 1]];
    }
  }

  lemma {:induction false} InEffectMeansAdmissible(l: Ledger, plans: Plans, ops: seq<Op>, n: nat, t: Tx)
    requires n <= |ops| && t in plans && StatusAfter(l, plans, ops, n, t) != Absent
    ensures Admissible(l, plans[t])
  {
    if StatusAfter(l, plans, ops, n - 1, t) != Absent {
      InEffectMeansAdmissible(l, plans, ops, n - 1, t);
    }
  }

  /** The list holds exactly the transactions that the run leaves in effect. */
  ghost predicate Survivors(l: Ledger, plans: Plans, ops: seq<Op>, ts: seq<Tx>) {
    && (forall i :: 0 <= i < |ts| ==> ts[i] in plans)
    && (forall t :: t in plans ==> (t in ts <==> StatusAfter(l, plans, ops, |ops|, t) != Absent))
  }

  lemma MergesArePlanned(plans: Plans, ts: seq<Tx>)
    requires forall i :: 0 <= i < |ts| ==> ts[i] in plans
    ensures AllPlanned(plans, Merges(plans, ts))
  {
  }

  lemma LocalListedAlike(l0: Ledger, a: Ledger, b: Ledger, p: Plan, t: Tx, sa: Status, sb: Status, e: Entry)
    requires Local(l0, a, p, t, sa) && Local(l0, b, p, t, sb) && e.key in Touched(p)
    requires sa == Absent <==> sb == Absent
    ensures e in a.dirs <==> e in b.dirs
    ensures sa == sb ==> OwnerAt(a, e) == OwnerAt(b, e)
    ensures sa == Released && sb == Applied && l0.Valid() ==>
              OwnerAt(a, e) == if NewEntry(l0, p, e) then None else OwnerAt(b, e)
    ensures sb == Applied && NewEntry(l0, p, e) ==> OwnerAt(b, e) == Some(Lifecycle(t))
    ensures !NewEntry(l0, p, e) ==> OwnerAt(b, e) == OwnerAt(l0, e)
  {
  }

  /** The owner a run leaves: released transactions gave their tags up. */
  ghost function OwnerCleared(l: Ledger, plans: Plans, ops: seq<Op>, clean: Ledger, e: Entry): Option<Owner> {
    match OwnerAt(clean, e)
    case Some(Lifecycle(t)) =>
      if t in plans && StatusAfter(l, plans, ops, |ops|, t) == Released then None else OwnerAt(clean, e)
    case _ => OwnerAt(clean, e)
  }

  /** No tag of a planned transaction is on a fresh ledger. */
  lemma OwnerIsForeign(l: Ledger, plans: Plans, e: Entry)
    requires Fresh(l, plans)
    ensures l.Valid()
    ensures OwnerAt(l, e).Some? && OwnerAt(l, e).value.Lifecycle? ==> OwnerAt(l, e).value.tx !in plans
  {
    if OwnerAt(l, e).Some? && OwnerAt(l, e).value.Lifecycle? {
      assert HasTag(l, e, OwnerAt(l, e).value.tx);
    }
  }

  lemma UntouchedAlike(l: Ledger, plans: Plans, ops: seq<Op>, final: Ledger, clean: Ledger, e: Entry)
    requires Fresh(l, plans) && SameAt(l, final, e) && SameAt(l, clean, e)
    ensures (e in final.dirs <==> e in clean.dirs) && OwnerAt(final, e) == OwnerCleared(l, plans, ops, clean, e)
  {
    OwnerIsForeign(l, plans, e);
    hide Fresh;
  }

  lemma TouchedAlike(l: Ledger, plans: Plans, ops: seq<Op>, final: Ledger, clean: Ledger, t: Tx, e: Entry)
    requires Fresh(l, plans) && t in plans && e.key in Touched(plans[t])
    requires Local(l, final, plans[t], t, StatusAfter(l, plans, ops, |ops|, t))
    requires Local(l, clean, plans[t], t, if StatusAfter(l, plans, ops, |ops|, t) == Absent then Absent else Applied)
    ensures (e in final.dirs <==> e in clean.dirs) && OwnerAt(final, e) == OwnerCleared(l, plans, ops, clean, e)
  {
    var sa := StatusAfter(l, plans, ops, |ops|, t);
    OwnerIsForeign(l, plans, e);
    LocalListedAlike(l, final, clean, plans[t], t, sa, if sa == Absent then Absent else Applied, e);
    hide Fresh, Local, Touched, OwnerAt, NewEntry;
  }

  /** Any interleaving of merges, rollbacks and releases with pairwise disjoint keys lists what merging
      only the transactions still in effect lists, in any order, and leaves the same owners but for
      the tags of released transactions. */
  lemma IndependentUndo(l: Ledger, plans: Plans, ops: seq<Op>, ts: seq<Tx>, e: Entry)
    requires Disjoint(plans) && Fresh(l, plans) && AllPlanned(plans, ops) && Survivors(l, plans, ops, ts)
    ensures var final, clean := After(l, ops, |ops|), After(l, Merges(plans, ts), |ts|);
            && (e in final.dirs <==> e in clean.dirs)
            && OwnerAt(final, e) == OwnerCleared(l, plans, ops, clean, e)
  {
    hide Fresh, Picture, Disjoint, After, Local, Touched, OwnerAt, OwnerCleared, SameAt, AllPlanned, Admissible;
    MergesArePlanned(plans, ts);
    RunIsLocal(l, plans, ops, |ops|);
    RunIsLocal(l, plans, Merges(plans, ts), |ts|);
    var final, clean := After(l, ops, |ops|), After(l, Merges(plans, ts), |ts|);
    if Untouched(plans, e.key) {
      PictureElsewhere(l, final, plans, ops, |ops|, e);
      PictureElsewhere(l, clean, plans, Merges(plans, ts), |ts|, e);
      UntouchedAlike(l, plans, ops, final, clean, e);
    } else {
      var t :| t in plans && e.key in Touched(plans[t]);
      if StatusAfter(l, plans, ops, |ops|, t) != Absent { InEffectMeansAdmissible(l, plans, ops, |ops|, t); }
      MergesStatus(l, plans, ts, |ts|, t);
      assert ts[..|ts|] == ts;
      PictureAt(l, final, plans, ops, |ops|, t);
      PictureAt(l, clean, plans, Merges(plans, ts), |ts|, t);
      TouchedAlike(l, plans, ops, final, clean, t, e);
    }
  }
}
