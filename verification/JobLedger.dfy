/** The job ledger: registered directories, transaction owners and undo receipts of projections. */
module JobLedger {

  datatype Option<T> = None | Some(value: T)

  type Tx = string

  /** A stored locator: the path it names (its key) and how it is spelled. */
  datatype Entry = Entry(key: string, spelling: string)

  /** Digest of a lifecycle transaction, or the owner id of a registration transaction. */
  datatype Owner = Lifecycle(tx: Tx) | Registration(tx: Tx)

  datatype Removal = Removal(entry: Entry, originalOwner: Option<Owner>)

  /** What a merge really did; every added entry was tagged with the transaction's own owner. */
  datatype Receipt = Receipt(added: seq<Entry>, removed: seq<Removal>)

  datatype Ledger = Ledger(dirs: seq<Entry>, owners: map<Entry, Owner>, receipts: map<Tx, Receipt>) {
    /** The strict decoder refuses a ledger that owns an entry it does not list. */
    ghost predicate Valid() {
      forall e :: e in owners ==> e in dirs
    }
  }

  function Keys(es: seq<Entry>): set<string> {
    set e | e in es :: e.key
  }

  ghost predicate DistinctKeys(es: seq<Entry>) {
    forall i, j :: 0 <= i < j < |es| ==> es[i].key != es[j].key
  }

  /** The entries whose key is in the set, or with `inside` false is not. */
  function ByKey(es: seq<Entry>, keys: set<string>, inside: bool): (r: seq<Entry>)
    ensures forall e :: e in r <==> e in es && (e.key in keys <==> inside)
  {
    if es == [] then []
    else ByKey(es[..|es| - 1], keys, inside) + (if (es[|es| - 1].key in keys) == inside then [es[|es| - 1]] else [])
  }

  /** The entries outside the set. */
  function Except(es: seq<Entry>, gone: set<Entry>): (r: seq<Entry>)
    ensures forall e :: e in r <==> e in es && e !in gone
  {
    if es == [] then []
    else Except(es[..|es| - 1], gone) + (if es[|es| - 1] in gone then [] else [es[|es| - 1]])
  }

  function Listed(es: seq<Entry>, dirs: seq<Entry>): (r: seq<Entry>)
    ensures forall e :: e in r <==> e in es && e in dirs
  {
    if es == [] then []
    else Listed(es[..|es| - 1], dirs) + (if es[|es| - 1] in dirs then [es[|es| - 1]] else [])
  }

  // ---- the operations as functions -----------------------------------------------

  datatype Error = DuplicateLocators | RemovesOwnedEntry | OwnedByAnother

  datatype Outcome = Done(ledger: Ledger) | Refused(error: Error)

  function Retained(owners: map<Entry, Owner>, dirs: seq<Entry>): map<Entry, Owner> {
    map e | e in owners && e in dirs :: owners[e]
  }

  /** `_prune_receipt_additions`: an entry that left the ledger can no longer be rolled back. */
  function Pruned(receipts: map<Tx, Receipt>, dirs: seq<Entry>): map<Tx, Receipt> {
    map t | t in receipts :: receipts[t].(added := Listed(receipts[t].added, dirs))
  }

  /** `_save_state` */
  function Saved(l: Ledger, dirs: seq<Entry>, owners: map<Entry, Owner>): Ledger {
    Ledger(dirs, Retained(owners, dirs), Pruned(l.receipts, dirs))
  }

  function Register(l: Ledger, e: Entry): Ledger {
    if e in l.dirs then l else Saved(l, l.dirs + [e], l.owners)
  }

  function Unregister(l: Ledger, e: Entry): Ledger {
    if e !in l.dirs then l else Saved(l, Except(l.dirs, {e}), l.owners - {e})
  }

  function RegisterOwned(l: Ledger, e: Entry, t: Tx): Outcome {
    if e in l.dirs then
      if e in l.owners && l.owners[e] != Registration(t) then Refused(OwnedByAnother) else Done(l)
    else Done(Saved(l, l.dirs + [e], l.owners[e := Registration(t)]))
  }

  function UnregisterOwned(l: Ledger, e: Entry, t: Tx): Ledger {
    if e in l.dirs && e in l.owners && l.owners[e] == Registration(t) then Unregister(l, e) else l
  }

  function ReleaseOwner(l: Ledger, e: Entry, t: Tx): Ledger {
    if e in l.dirs && e in l.owners && l.owners[e] == Registration(t) then Saved(l, l.dirs, l.owners - {e}) else l
  }

  function EnsureReleased(l: Ledger, e: Entry, t: Tx): Outcome {
    if e in l.owners && l.owners[e] != Registration(t) then Refused(OwnedByAnother)
    else if e in l.dirs && e !in l.owners then Done(l)
    else Done(Saved(l, if e in l.dirs then l.dirs else l.dirs + [e], l.owners - {e}))
  }

  function RemovedKeys(base: seq<Entry>, projected: seq<Entry>): set<string> {
    Keys(base) - Keys(projected)
  }

  function ActuallyAdded(l: Ledger, base: seq<Entry>, projected: seq<Entry>): seq<Entry> {
    ByKey(projected, Keys(base) + Keys(l.dirs), false)
  }

  function Removals(es: seq<Entry>, owners: map<Entry, Owner>): (r: seq<Removal>)
    ensures |r| == |es|
    ensures forall i :: 0 <= i < |es| ==> r[i] == Removal(es[i], if es[i] in owners then Some(owners[es[i]]) else None)
  {
    seq(|es|, i requires 0 <= i < |es| => Removal(es[i], if es[i] in owners then Some(owners[es[i]]) else None))
  }

  function Tagged(es: seq<Entry>, owner: Owner): map<Entry, Owner> {
    map e | e in es :: owner
  }

  /** `merge_projection` */
  ghost function Merge(l: Ledger, t: Tx, base: seq<Entry>, projected: seq<Entry>): Outcome {
    if !DistinctKeys(base) || !DistinctKeys(projected) then Refused(DuplicateLocators)
    else if t in l.receipts then Done(l)
    else if exists e :: e in l.owners && e.key in RemovedKeys(base, projected) then Refused(RemovesOwnedEntry)
    else if !DistinctKeys(l.dirs) then Refused(DuplicateLocators)
    else
      var removed := RemovedKeys(base, projected);
      var added := ActuallyAdded(l, base, projected);
      var dirs := ByKey(l.dirs, removed, false) + added;
      Done(Ledger(dirs, Retained(l.owners, dirs) + Tagged(added, Lifecycle(t)),
                  l.receipts[t := Receipt(added, Removals(ByKey(l.dirs, removed, true), l.owners))]))
  }

  /** Those of the added entries that are listed and still carry the transaction's tag. */
  function TaggedAmong(added: seq<Entry>, dirs: seq<Entry>, owners: map<Entry, Owner>, t: Tx): set<Entry> {
    set e | e in added && e in dirs && e in owners && owners[e] == Lifecycle(t)
  }

  function StillOwned(l: Ledger, t: Tx): set<Entry>
    requires t in l.receipts
  {
    TaggedAmong(l.receipts[t].added, l.dirs, l.owners, t)
  }

  /** The removals are put back in order, each only if its key is absent. */
  function Restore(dirs: seq<Entry>, owners: map<Entry, Owner>, removed: seq<Removal>): (seq<Entry>, map<Entry, Owner>) {
    if removed == [] then (dirs, owners)
    else
      var (d, o) := Restore(dirs, owners, removed[..|removed| - 1]);
      var last := removed[|removed| - 1];
      if last.entry.key in Keys(d) then (d, o)
      else (d + [last.entry], if last.originalOwner.Some? then o[last.entry := last.originalOwner.value] else o)
  }

  /** `rollback_projection` */
  function Rollback(l: Ledger, t: Tx): Ledger {
    if t !in l.receipts then l
    else
      var gone := StillOwned(l, t);
      var (dirs, owners) := Restore(Except(l.dirs, gone), l.owners - gone, l.receipts[t].removed);
      Ledger(dirs, owners, l.receipts - {t})
  }

  /** `release_projection_receipt` */
  function Release(l: Ledger, t: Tx): Ledger {
    if t !in l.receipts then l
    else
      var tagged := set e | e in l.receipts[t].added && e in l.owners && l.owners[e] == Lifecycle(t);
      l.(owners := l.owners - tagged, receipts := l.receipts - {t})
  }

  // ---- the ledger file -------------------------------------------------------------

  class LedgerFile {
    var dirs: seq<Entry>
    var owners: map<Entry, Owner>
    var receipts: map<Tx, Receipt>

    ghost function View(): Ledger
      reads this
    {
      Ledger(dirs, owners, receipts)
    }

    constructor ()
      ensures View() == Ledger([], map[], map[])
    {
      dirs, owners, receipts := [], map[], map[];
    }

    /** Locators with one key each, as `_validated_entries` demands. */
    method HasDistinctKeys(es: seq<Entry>) returns (ok: bool)
      ensures ok <==> DistinctKeys(es)
    {
      var keys: set<string> := {};
      var k := 0;
      while k < |es|
        invariant k <= |es| && keys == Keys(es[..k])
        invariant DistinctKeys(es[..k])
      {
        if es[k].key in keys {
          var e :| e in es[..k] && e.key == es[k].key;
          assert exists i :: 0 <= i < k && es[i] == e;
          return false;
        }
        assert es[..k + 1] == es[..k] + [es[k]];
        keys := keys + {es[k].key};
        k := k + 1;
      }
      assert es[..k] == es;
      ok := true;
    }

    /** The payload is written with the owners and receipt additions of listed entries only. */
    method Save(newDirs: seq<Entry>, newOwners: map<Entry, Owner>)
      modifies this
      ensures View() == Saved(old(View()), newDirs, newOwners)
    {
      receipts := map t | t in receipts :: receipts[t].(added := Listed(receipts[t].added, newDirs));
      owners := map e | e in newOwners && e in newDirs :: newOwners[e];
      dirs := newDirs;
    }

    method RegisterEntry(e: Entry) returns (added: bool)
      modifies this
      ensures View() == Register(old(View()), e)
      ensures added <==> e !in old(dirs)
    {
      if e in dirs { return false; }
      Save(dirs + [e], owners);
      added := true;
    }

    method UnregisterEntry(e: Entry) returns (removed: bool)
      modifies this
      ensures View() == Unregister(old(View()), e)
      ensures removed <==> e in old(dirs)
    {
      if e !in dirs { return false; }
      Save(Except(dirs, {e}), owners - {e});
      removed := true;
    }

    method RegisterOwnedEntry(e: Entry, t: Tx) returns (error: Option<Error>)
      modifies this
      ensures match RegisterOwned(old(View()), e, t)
              case Done(l) => error == None && View() == l
              case Refused(x) => error == Some(x) && View() == old(View())
    {
      if e in dirs {
        return if e in owners && owners[e] != Registration(t) then Some(OwnedByAnother) else None;
      }
      Save(dirs + [e], owners[e := Registration(t)]);
      error := None;
    }

    method UnregisterOwnedEntry(e: Entry, t: Tx) returns (removed: bool)
      modifies this
      ensures View() == UnregisterOwned(old(View()), e, t)
    {
      if e !in dirs || e !in owners || owners[e] != Registration(t) { return false; }
      Save(Except(dirs, {e}), owners - {e});
      removed := true;
    }

    method ReleaseRegistrationOwner(e: Entry, t: Tx) returns (released: bool)
      modifies this
      ensures View() == ReleaseOwner(old(View()), e, t)
    {
      if e !in dirs || e !in owners || owners[e] != Registration(t) { return false; }
      Save(dirs, owners - {e});
      released := true;
    }

    method EnsureRegistrationReleased(e: Entry, t: Tx) returns (error: Option<Error>)
      modifies this
      ensures match EnsureReleased(old(View()), e, t)
              case Done(l) => error == None && View() == l
              case Refused(x) => error == Some(x) && View() == old(View())
    {
      if e in owners && owners[e] != Registration(t) { return Some(OwnedByAnother); }
      var present, owned := e in dirs, e in owners;
      if !present || owned {
        Save(if present then dirs else dirs + [e], owners - {e});
      }
      error := None;
    }

    /** `_merge_entry_delta`: append each new locator whose key is not yet present. */
    method AppendNew(kept: seq<Entry>, base: seq<Entry>, projected: seq<Entry>) returns (merged: seq<Entry>)
      requires DistinctKeys(projected)
      ensures merged == kept + ByKey(projected, Keys(base) + Keys(kept), false)
    {
      ghost var known := Keys(base) + Keys(kept);
      merged := kept;
      var k := 0;
      while k < |projected|
        invariant k <= |projected|
        invariant merged == kept + ByKey(projected[..k], known, false)
      {
        var item := projected[k];
        assert projected[..k + 1][..k] == projected[..k];
        ghost var soFar := ByKey(projected[..k], known, false);
        NewKey(projected, k, known);
        assert Keys(kept + soFar) == Keys(kept) + Keys(soFar);
        if item.key !in Keys(base) && item.key !in Keys(merged) {
          merged := merged + [item];
        }
        k := k + 1;
      }
      assert projected[..k] == projected;
    }

    method MergeProjection(t: Tx, base: seq<Entry>, projected: seq<Entry>) returns (error: Option<Error>)
      requires View().Valid()
      modifies this
      ensures match Merge(old(View()), t, base, projected)
              case Done(l) => error == None && View() == l
              case Refused(x) => error == Some(x) && View() == old(View())
    {
      var baseOk := HasDistinctKeys(base);
      var projectedOk := HasDistinctKeys(projected);
      if !baseOk || !projectedOk { return Some(DuplicateLocators); }
      if t in receipts { return None; }
      var removed := RemovedKeys(base, projected);
      if exists e :: e in owners && e.key in removed { return Some(RemovesOwnedEntry); }
      var dirsOk := HasDistinctKeys(dirs);
      if !dirsOk { return Some(DuplicateLocators); }
      var added := ByKey(projected, Keys(base) + Keys(dirs), false);
      var removals := Removals(ByKey(dirs, removed, true), owners);
      var kept := ByKey(dirs, removed, false);
      var merged := AppendNew(kept, base, projected);
      SameByKey(projected, Keys(base) + Keys(kept), Keys(base) + Keys(dirs)) by {
        forall e | e in projected && e.key !in Keys(base) && e.key in Keys(dirs) ensures e.key in Keys(kept) {
          var d :| d in dirs && d.key == e.key;
          assert d in kept;
        }
      }
      owners := Retained(owners, merged) + Tagged(added, Lifecycle(t));
      receipts := receipts[t := Receipt(added, removals)];
      dirs := merged;
      error := None;
    }

    /** Take out what the receipt added and the tag still proves to be this transaction's. */
    method DropOwned(added: seq<Entry>, t: Tx) returns (d: seq<Entry>, o: map<Entry, Owner>)
      ensures var gone := TaggedAmong(added, dirs, owners, t);
              d == Except(dirs, gone) && o == owners - gone
    {
      hide TaggedAmong, Except;
      d, o := dirs, owners;
      DropStart(added, dirs, owners, t);
      var k := 0;
      while k < |added|
        invariant k <= |added|
        invariant d == Except(dirs, TaggedAmong(added[..k], dirs, owners, t))
        invariant o == owners - TaggedAmong(added[..k], dirs, owners, t)
      {
        var e := added[k];
        DropStep(added, k, dirs, owners, t);
        if e in d && e in o && o[e] == Lifecycle(t) {
          d := Except(d, {e});
          o := o - {e};
        }
        k := k + 1;
      }
      assert added[..k] == added;
    }

    method PutBack(d0: seq<Entry>, o0: map<Entry, Owner>, removed: seq<Removal>)
      returns (d: seq<Entry>, o: map<Entry, Owner>)
      ensures (d, o) == Restore(d0, o0, removed)
    {
      d, o := d0, o0;
      var k := 0;
      while k < |removed|
        invariant k <= |removed|
        invariant (d, o) == Restore(d0, o0, removed[..k])
      {
        var item := removed[k];
        assert removed[..k + 1][..k] == removed[..k];
        if item.entry.key !in Keys(d) {
          d := d + [item.entry];
          if item.originalOwner.Some? {
            o := o[item.entry := item.originalOwner.value];
          }
        }
        k := k + 1;
      }
      assert removed[..k] == removed;
    }

    method RollbackProjection(t: Tx) returns (rolledBack: bool)
      modifies this
      ensures View() == Rollback(old(View()), t)
      ensures rolledBack <==> t in old(receipts)
    {
      if t !in receipts { return false; }
      var receipt := receipts[t];
      var d, o := DropOwned(receipt.added, t);
      d, o := PutBack(d, o, receipt.removed);
      dirs, owners, receipts := d, o, receipts - {t};
      rolledBack := true;
    }

    method ReleaseReceipt(t: Tx) returns (released: bool)
      modifies this
      ensures View() == Release(old(View()), t)
      ensures released <==> t in old(receipts)
    {
      if t !in receipts { return false; }
      var receipt := receipts[t];
      var o := owners;
      var k := 0;
      while k < |receipt.added|
        invariant k <= |receipt.added|
        invariant o == owners - (set e | e in receipt.added[..k] && e in owners && owners[e] == Lifecycle(t))
        invariant View() == old(View())
      {
        var e := receipt.added[k];
        assert receipt.added[..k + 1] == receipt.added[..k] + [e];
        if e in o && o[e] == Lifecycle(t) {
          o := o - {e};
        }
        k := k + 1;
      }
      assert receipt.added[..k] == receipt.added;
      owners, receipts := o, receipts - {t};
      released := true;
    }
  }

  lemma NewKey(es: seq<Entry>, k: nat, known: set<string>)
    requires DistinctKeys(es) && k < |es|
    ensures es[k].key !in Keys(ByKey(es[..k], known, false))
  {
  }

  lemma TaggedStep(added: seq<Entry>, k: nat, dirs: seq<Entry>, owners: map<Entry, Owner>, t: Tx)
    requires k < |added|
    ensures var gone, e := TaggedAmong(added[..k], dirs, owners, t), added[k];
            TaggedAmong(added[..k + 1], dirs, owners, t)
            == if e in dirs && e in owners && owners[e] == Lifecycle(t) then gone + {e} else gone
  {
    assert added[..k + 1] == added[..k] + [added[k]];
  }

  lemma DropStart(added: seq<Entry>, dirs: seq<Entry>, owners: map<Entry, Owner>, t: Tx)
    ensures dirs == Except(dirs, TaggedAmong(added[..0], dirs, owners, t))
    ensures owners == owners - TaggedAmong(added[..0], dirs, owners, t)
  {
    assert TaggedAmong(added[..0], dirs, owners, t) == {};
    ExceptNone(dirs);
  }

  /** Testing the reduced list and owners is as good as testing the originals. */
  lemma DropStep(added: seq<Entry>, k: nat, dirs: seq<Entry>, owners: map<Entry, Owner>, t: Tx)
    requires k < |added|
    ensures var gone, e := TaggedAmong(added[..k], dirs, owners, t), added[k];
            var gone' := TaggedAmong(added[..k + 1], dirs, owners, t);
            var d, o := Except(dirs, gone), owners - gone;
            if e in d && e in o && o[e] == Lifecycle(t)
            then Except(d, {e}) == Except(dirs, gone') && o - {e} == owners - gone'
            else gone' == gone
  {
    var gone, e := TaggedAmong(added[..k], dirs, owners, t), added[k];
    TaggedStep(added, k, dirs, owners, t);
    var d, o := Except(dirs, gone), owners - gone;
    ExceptTwice(dirs, gone, e);
    hide TaggedAmong;
    if e in d && e in o && o[e] == Lifecycle(t) {
      assert o - {e} == owners - (gone + {e});
    }
  }

  lemma {:induction false} ExceptNone(es: seq<Entry>)
    ensures Except(es, {}) == es
  {
    if es != [] { ExceptNone(es[..|es| - 1]); }
  }

  lemma {:induction false} SameByKey(es: seq<Entry>, a: set<string>, b: set<string>)
    requires forall e :: e in es ==> (e.key in a <==> e.key in b)
    ensures ByKey(es, a, false) == ByKey(es, b, false)
  {
    if es != [] {
      assert es[|es| - 1] in es;
      SameByKey(es[..|es| - 1], a, b);
    }
  }

  lemma {:induction false} ExceptTwice(es: seq<Entry>, gone: set<Entry>, e: Entry)
    ensures Except(Except(es, gone), {e}) == Except(es, gone + {e})
  {
    if es != [] {
      var init, last := es[..|es| - 1], es[|es| - 1];
      ExceptTwice(init, gone, e);
      var inner := Except(init, gone);
      assert inner + [] == inner && (inner + [last])[..|inner|] == inner;
    }
  }
}
