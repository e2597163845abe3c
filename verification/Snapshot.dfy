/**
 The primitives of a namespace and their snapshot on disk (server.go, lines
 120-163, 1096-1633, 2396-2484 and 2572-2703).  Handlers run one after the
 other; the JSON text of the file is left abstract.
 */
module Snapshot {
  import opened Namespaces

  datatype Kind = RWLock | FairRWLock | Semaphore | Mutex | CondVar | Barrier | WaitGroup | Once | Singleflight

  const KINDS := [RWLock, FairRWLock, Semaphore, Mutex, CondVar, Barrier, WaitGroup, Once, Singleflight]

  /** Entry id of the typed map for that kind. */
  datatype Slot = Slot(kind: Kind, id: string)

  /** The nine typed maps as one, with the capacity of a semaphore, the parties of a barrier and zero otherwise;
      and the names the scheduler has, by qualified id. */
  datatype Store = Store(slots: map<Slot, int>, names: map<string, string>)

  const EMPTY := Store(map[], map[])

  const MAX_ID_LEN := 256
  const MAX_NAME_LEN := 256

  datatype Reply = Done | Refused(reason: string)

  predicate Sized(kind: Kind) { kind == Semaphore || kind == Barrier }

  /** primExists looks into all nine maps. */
  predicate PrimExists(slots: map<Slot, int>, id: string) {
    || Slot(RWLock, id) in slots || Slot(FairRWLock, id) in slots || Slot(Semaphore, id) in slots
    || Slot(Mutex, id) in slots || Slot(CondVar, id) in slots || Slot(Barrier, id) in slots
    || Slot(WaitGroup, id) in slots || Slot(Once, id) in slots || Slot(Singleflight, id) in slots
  }

  function Put(s: Store, ns: string, kind: Kind, id: string, n: int, name: string): Store {
    Store(s.slots[Slot(kind, id) := n], s.names[Qualify(ns, id) := name])
  }

  /** Deletion tries all nine maps. */
  function Remove(s: Store, ns: string, id: string): Store {
    Store(s.slots - {Slot(RWLock, id), Slot(FairRWLock, id), Slot(Semaphore, id), Slot(Mutex, id), Slot(CondVar, id),
                     Slot(Barrier, id), Slot(WaitGroup, id), Slot(Once, id), Slot(Singleflight, id)},
          s.names - {Qualify(ns, id)})
  }

  /** No id is in two of the maps. */
  ghost predicate Disjoint(slots: map<Slot, int>) {
    forall a, b :: a in slots && b in slots && a.id == b.id ==> a == b
  }

  ghost predicate SlotOk(s: Store, ns: string, a: Slot)
    requires a in s.slots
  {
    a.id != "" && (if Sized(a.kind) then s.slots[a] > 0 else s.slots[a] == 0) && Qualify(ns, a.id) in s.names
  }

  ghost predicate StoreOk(s: Store, ns: string) {
    Disjoint(s.slots) && forall a :: a in s.slots ==> SlotOk(s, ns, a)
  }

  /** One entry of the snapshot file. */
  datatype Entry = Entry(id: string, typ: string, name: string, capacity: int, parties: int)

  function KindName(kind: Kind): string {
    match kind
    case RWLock => "RWLock"
    case FairRWLock => "FairRWLock"
    case Semaphore => "Semaphore"
    case Mutex => "Mutex"
    case CondVar => "CondVar"
    case Barrier => "Barrier"
    case WaitGroup => "WaitGroup"
    case Once => "Once"
    case Singleflight => "Singleflight"
  }

  datatype MaybeKind = Unknown | Is(kind: Kind)

  /** The switch of restoreSnapshotPrimitives. */
  function KindOf(typ: string): MaybeKind {
    if typ == "RWLock" then Is(RWLock)
    else if typ == "FairRWLock" then Is(FairRWLock)
    else if typ == "Semaphore" then Is(Semaphore)
    else if typ == "Mutex" then Is(Mutex)
    else if typ == "CondVar" then Is(CondVar)
    else if typ == "Barrier" then Is(Barrier)
    else if typ == "WaitGroup" then Is(WaitGroup)
    else if typ == "Once" then Is(Once)
    else if typ == "Singleflight" then Is(Singleflight)
    else Unknown
  }

  lemma KindRoundTrip(kind: Kind)
    ensures KindOf(KindName(kind)) == Is(kind)
  {
    assert |"RWLock"| == 6 && |"FairRWLock"| == 10 && |"Semaphore"| == 9 && |"Mutex"| == 5 && |"CondVar"| == 7
        && |"Barrier"| == 7 && |"WaitGroup"| == 9 && |"Once"| == 4 && |"Singleflight"| == 12;
    assert "Semaphore"[0] != "WaitGroup"[0] && "CondVar"[0] != "Barrier"[0];
  }

  lemma EveryKind(kind: Kind)
    ensures exists i :: 0 <= i < |KINDS| && KINDS[i] == kind
    ensures forall i, j :: 0 <= i < j < |KINDS| ==> KINDS[i] != KINDS[j]
  {
    var ks := KINDS;
    assert ks[0] == RWLock && ks[1] == FairRWLock && ks[2] == Semaphore && ks[3] == Mutex && ks[4] == CondVar
        && ks[5] == Barrier && ks[6] == WaitGroup && ks[7] == Once && ks[8] == Singleflight;
  }

  // ---- Saving ------------------------------------------------------------

  /** nameFor falls back on the id. */
  function NameFor(s: Store, id: string): string { if id in s.names then s.names[id] else id }

  function EntryOf(s: Store, ns: string, a: Slot): Entry
    requires a in s.slots
  {
    Entry(a.id, KindName(a.kind), NameFor(s, Qualify(ns, a.id)),
          if a.kind == Semaphore then s.slots[a] else 0, if a.kind == Barrier then s.slots[a] else 0)
  }

  /** The entries list every slot among `done` once. */
  ghost predicate Lists(entries: seq<Entry>, s: Store, ns: string, done: set<Slot>) {
    && done <= s.slots.Keys
    && (forall a :: a in done ==> EntryOf(s, ns, a) in entries)
    && (forall e :: e in entries ==> exists a :: a in done && e == EntryOf(s, ns, a))
    && |entries| == |done|
  }

  lemma ListsNothing(s: Store, ns: string)
    ensures Lists([], s, ns, {})
  {
  }

  lemma ListsOneMore(entries: seq<Entry>, s: Store, ns: string, done: set<Slot>, a: Slot)
    requires Lists(entries, s, ns, done) && a in s.slots && a !in done
    ensures Lists(entries + [EntryOf(s, ns, a)], s, ns, done + {a})
  {
    hide EntryOf;
  }

  // ---- Restoring ---------------------------------------------------------

  function AtLeastOne(n: int): int { if n <= 0 then 1 else n }

  function SizeOf(kind: Kind, e: Entry): int {
    if kind == Semaphore then AtLeastOne(e.capacity) else if kind == Barrier then AtLeastOne(e.parties) else 0
  }

  /** An entry with an id and a known type. */
  predicate Restores(e: Entry) { e.id != "" && KindOf(e.typ).Is? }

  function RestoreOne(s: Store, ns: string, e: Entry): Store {
    if Restores(e) then
      var kind := KindOf(e.typ).kind;
      Put(s, ns, kind, e.id, SizeOf(kind, e), e.name)
    else s
  }

  function RestoreAll(s: Store, ns: string, entries: seq<Entry>): Store {
    if entries == [] then s
    else RestoreOne(RestoreAll(s, ns, entries[..|entries| - 1]), ns, entries[|entries| - 1])
  }

  // ---- The handlers ------------------------------------------------------

  /** The primitives of one namespace. */
  class Registry {
    const ns: string
    var store: Store

    constructor (ns: string)
      ensures this.ns == ns && store == EMPTY
    {
      this.ns := ns;
      store := EMPTY;
    }

    /** The nine create handlers; size matters to a semaphore and a barrier only. */
    method Create(kind: Kind, id: string, name: string, size: int) returns (reply: Reply)
      requires StoreOk(store, ns)
      modifies this
      ensures StoreOk(store, ns)
      ensures reply == Done <==>
              && 0 < |id| <= 256 && |name| <= 256 && (Sized(kind) ==> size > 0)
              && forall k :: Slot(k, id) !in old(store).slots
      ensures reply == Done ==> store == Put(old(store), ns, kind, id, if Sized(kind) then size else 0, name)
      ensures reply != Done ==> store == old(store)
    {
      if id == "" { return Refused("id must not be empty"); }
      if |id| > MAX_ID_LEN { return Refused("id is too long"); }
      if |name| > MAX_NAME_LEN { return Refused("name is too long"); }
      if Sized(kind) && size <= 0 { return Refused("size must be a positive integer"); }
      ExistsInSome(store.slots, id);
      if PrimExists(store.slots, id) { return Refused("primitive with ID already exists"); }
      ghost var was := store;
      store := Put(store, ns, kind, id, if Sized(kind) then size else 0, name);
      forall a | a in store.slots ensures SlotOk(store, ns, a) { if a in was.slots { assert SlotOk(was, ns, a); } }
      return Done;
    }

    /** handleDeletePrimitive */
    method Delete(id: string) returns (reply: Reply)
      requires StoreOk(store, ns)
      modifies this
      ensures StoreOk(store, ns)
      ensures reply == Done <==> exists k :: Slot(k, id) in old(store).slots
      ensures forall a :: a in store.slots <==> a in old(store).slots && a.id != id
      ensures forall a :: a in store.slots ==> EntryOf(store, ns, a) == EntryOf(old(store), ns, a)
      ensures reply == Done ==> Qualify(ns, id) !in store.names
      ensures reply != Done ==> store == old(store)
    {
      ExistsInSome(store.slots, id);
      if !PrimExists(store.slots, id) { return Refused("Primitive not found"); }
      ghost var was := store;
      store := Remove(store, ns, id);
      RemoveClears(was, ns, id);
      return Done;
    }

    /** saveSnapshot: one loop a map, in any order within it. */
    method Save() returns (entries: seq<Entry>)
      ensures Lists(entries, store, ns, store.slots.Keys)
    {
      hide Lists;
      entries := [];
      ghost var done: set<Slot> := {};
      assert Lists(entries, store, ns, done) by { ListsNothing(store, ns); }
      var i := 0;
      while i < |KINDS|
        invariant 0 <= i <= |KINDS|
        invariant Lists(entries, store, ns, done)
        invariant forall a :: a in done <==> a in store.slots && exists j :: 0 <= j < i && KINDS[j] == a.kind
      {
        EveryKind(KINDS[i]);
        entries, done := SaveKind(KINDS[i], entries, done);
        i := i + 1;
      }
      forall a | a in store.slots ensures a in done { EveryKind(a.kind); }
      assert done == store.slots.Keys;
    }

    /** Appends the entries of one map to those of the maps before it. */
    method SaveKind(kind: Kind, before: seq<Entry>, ghost done: set<Slot>) returns (entries: seq<Entry>, ghost done': set<Slot>)
      requires Lists(before, store, ns, done) && forall a :: a in done ==> a.kind != kind
      ensures Lists(entries, store, ns, done')
      ensures forall a :: a in done' <==> a in done || (a in store.slots && a.kind == kind)
    {
      hide Lists, EntryOf;
      var rest := set a | a in store.slots && a.kind == kind;
      entries := before;
      done' := done;
      while rest != {}
        invariant forall a :: a in rest ==> a in store.slots && a.kind == kind
        invariant Lists(entries, store, ns, done')
        invariant forall a :: a in done' <==> a in done || (a in store.slots && a.kind == kind && a !in rest)
        decreases |rest|
      {
        var a :| a in rest;
        rest := rest - {a};
        ListsOneMore(entries, store, ns, done', a);
        entries := entries + [EntryOf(store, ns, a)];
        done' := done' + {a};
      }
    }

    /** restoreSnapshotPrimitives: takes whatever the file has, in its order. */
    method Restore(entries: seq<Entry>)
      modifies this
      ensures store == RestoreAll(old(store), ns, entries)
    {
      var i := 0;
      assert entries[..0] == [];
      while i < |entries|
        invariant 0 <= i <= |entries| && store == RestoreAll(old(store), ns, entries[..i])
      {
        assert entries[..i + 1][..i] == entries[..i];
        store := RestoreOne(store, ns, entries[i]);
        i := i + 1;
      }
      assert entries[..i] == entries;
    }
  }

  lemma ExistsInSome(slots: map<Slot, int>, id: string)
    ensures PrimExists(slots, id) <==> exists k :: Slot(k, id) in slots
  {
    forall k | Slot(k, id) in slots ensures PrimExists(slots, id) {
      assert k.RWLock? || k.FairRWLock? || k.Semaphore? || k.Mutex? || k.CondVar? || k.Barrier? || k.WaitGroup? || k.Once?
          || k.Singleflight?;
    }
  }

  lemma QualifyInjective(ns: string, a: string, b: string)
    requires Qualify(ns, a) == Qualify(ns, b)
    ensures a == b
  {
    assert Qualify(ns, a)[|ns| + 1..] == a && Qualify(ns, b)[|ns| + 1..] == b;
  }

  lemma RemoveSlots(s: Store, ns: string, id: string, a: Slot)
    ensures var s' := Remove(s, ns, id);
            && (a in s'.slots <==> a in s.slots && a.id != id)
            && (a in s'.slots ==> s'.slots[a] == s.slots[a])
            && (a.id != id ==> SameName(s', s, Qualify(ns, a.id)))
  {
    var k := a.kind;
    assert a == Slot(k, a.id);
    assert k.RWLock? || k.FairRWLock? || k.Semaphore? || k.Mutex? || k.CondVar? || k.Barrier? || k.WaitGroup? || k.Once?
        || k.Singleflight?;
    if a.id != id && Qualify(ns, a.id) == Qualify(ns, id) { QualifyInjective(ns, a.id, id); }
  }

  /** Deleting takes the id out of every map and touches nothing else. */
  lemma RemoveClears(s: Store, ns: string, id: string)
    requires StoreOk(s, ns)
    ensures var s' := Remove(s, ns, id);
            && StoreOk(s', ns)
            && (forall a :: a in s'.slots <==> a in s.slots && a.id != id)
            && (forall a :: a in s'.slots ==> EntryOf(s', ns, a) == EntryOf(s, ns, a))
  {
    hide Remove, Qualify;
    var s' := Remove(s, ns, id);
    forall a ensures a in s'.slots <==> a in s.slots && a.id != id { RemoveSlots(s, ns, id, a); }
    forall a | a in s'.slots ensures SlotOk(s', ns, a) && EntryOf(s', ns, a) == EntryOf(s, ns, a) {
      RemoveSlots(s, ns, id, a);
      assert SlotOk(s, ns, a);
    }
  }

  // ---- Round trip --------------------------------------------------------

  /** The slot an entry is restored to. */
  function SlotOf(e: Entry): Slot
    requires Restores(e)
  {
    Slot(KindOf(e.typ).kind, e.id)
  }

  /** Saving a slot and restoring it gives the slot, the size and the name. */
  lemma EntryRoundTrip(s: Store, ns: string, a: Slot)
    requires a in s.slots && SlotOk(s, ns, a)
    ensures var e := EntryOf(s, ns, a);
            && e.id == a.id && Restores(e) && SlotOf(e) == a && SizeOf(a.kind, e) == s.slots[a]
            && e.name == s.names[Qualify(ns, a.id)]
  {
    hide KindOf, KindName;
    KindRoundTrip(a.kind);
  }

  ghost predicate SameSlot(r: Store, s: Store, ns: string, a: Slot) {
    && a in r.slots && a in s.slots && r.slots[a] == s.slots[a]
    && Qualify(ns, a.id) in r.names && Qualify(ns, a.id) in s.names
    && r.names[Qualify(ns, a.id)] == s.names[Qualify(ns, a.id)]
  }

  ghost predicate From(s: Store, ns: string, e: Entry) { exists b :: b in s.slots && e == EntryOf(s, ns, b) }

  /** Restoring some of the entries of s gives these slots as they are in s, and no others. */
  lemma {:induction false} RestoreSome(s: Store, ns: string, entries: seq<Entry>, a: Slot)
    requires StoreOk(s, ns)
    requires forall i :: 0 <= i < |entries| ==> From(s, ns, entries[i])
    ensures var r := RestoreAll(EMPTY, ns, entries);
            if a in s.slots && EntryOf(s, ns, a) in entries then SameSlot(r, s, ns, a) else a !in r.slots
  {
    hide EntryOf, Restores, SlotOf, SizeOf, Qualify, KindOf;
    if entries == [] {
      assert RestoreAll(EMPTY, ns, entries).slots == map[];
    } else {
      var n := |entries| - 1;
      var e := entries[n];
      assert entries == entries[..n] + [e];
      RestoreSome(s, ns, entries[..n], a);
      assert From(s, ns, e);
      var b :| b in s.slots && e == EntryOf(s, ns, b);
      assert SlotOk(s, ns, b);
      EntryRoundTrip(s, ns, b);
      RestoreLast(RestoreAll(EMPTY, ns, entries[..n]), ns, e, a);
      if a in s.slots {
        assert SlotOk(s, ns, a);
        EntryRoundTrip(s, ns, a);
      }
    }
  }

  lemma RestoreLast(r: Store, ns: string, e: Entry, a: Slot)
    requires Restores(e)
    ensures var r' := RestoreOne(r, ns, e);
            && (a == SlotOf(e) ==> a in r'.slots && r'.slots[a] == SizeOf(a.kind, e)
                                   && Qualify(ns, a.id) in r'.names && r'.names[Qualify(ns, a.id)] == e.name)
            && (a != SlotOf(e) ==> (a in r'.slots <==> a in r.slots) && (a in r.slots ==> r'.slots[a] == r.slots[a]))
            && (a.id != e.id ==> SameName(r', r, Qualify(ns, a.id)))
  {
    if a.id != e.id && Qualify(ns, a.id) == Qualify(ns, e.id) { QualifyInjective(ns, a.id, e.id); }
  }

  predicate SameName(r: Store, s: Store, q: string) {
    (q in r.names <==> q in s.names) && (q in r.names ==> r.names[q] == s.names[q])
  }

  /**
   Restore undoes save: whatever the order of the entries in the file, a server
   that starts from it has the same primitives, with the same type, name and
   capacity or number of parties.
   */
  lemma {:induction false} RestoreUndoesSave(s: Store, ns: string, entries: seq<Entry>)
    requires StoreOk(s, ns) && Lists(entries, s, ns, s.slots.Keys)
    ensures var r := RestoreAll(EMPTY, ns, entries);
            && r.slots == s.slots && StoreOk(r, ns)
            && forall a :: a in s.slots ==> EntryOf(r, ns, a) == EntryOf(s, ns, a)
  {
    hide RestoreAll, KindName, Qualify;
    var r := RestoreAll(EMPTY, ns, entries);
    forall i | 0 <= i < |entries| ensures From(s, ns, entries[i]) { assert entries[i] in entries; }
    forall a ensures a in r.slots <==> a in s.slots { RestoreSome(s, ns, entries, a); }
    forall a | a in s.slots ensures SameSlot(r, s, ns, a) && SlotOk(r, ns, a) && EntryOf(r, ns, a) == EntryOf(s, ns, a) {
      RestoreSome(s, ns, entries, a);
      assert SlotOk(s, ns, a);
    }
  }

  // ---- Arbitrary files ---------------------------------------------------

  /** Restoring reaches exactly the slots of the entries it does not skip. */
  lemma {:induction false} RestoredSlots(ns: string, entries: seq<Entry>, a: Slot)
    ensures a in RestoreAll(EMPTY, ns, entries).slots <==>
            exists i :: 0 <= i < |entries| && Restores(entries[i]) && SlotOf(entries[i]) == a
  {
    hide KindOf, SizeOf, Qualify;
    if entries == [] {
      assert RestoreAll(EMPTY, ns, entries).slots == map[];
    } else {
      var n := |entries| - 1;
      RestoredSlots(ns, entries[..n], a);
      assert forall i :: 0 <= i < n ==> entries[..n][i] == entries[i];
    }
  }

  /** Entry i counts for its slot and no later one does; likewise for its id. */
  ghost predicate LastForSlot(entries: seq<Entry>, i: nat) {
    && i < |entries| && Restores(entries[i])
    && forall j :: i < j < |entries| && Restores(entries[j]) ==> SlotOf(entries[j]) != SlotOf(entries[i])
  }

  ghost predicate LastForId(entries: seq<Entry>, i: nat) {
    && i < |entries| && Restores(entries[i])
    && forall j :: i < j < |entries| && Restores(entries[j]) ==> entries[j].id != entries[i].id
  }

  /** The last entry of a slot gives its size, where a semaphore without capacity and a barrier without parties get one, */
  lemma {:induction false} LastEntryWins(ns: string, entries: seq<Entry>, i: nat)
    requires LastForSlot(entries, i)
    ensures var (r, e, a) := (RestoreAll(EMPTY, ns, entries), entries[i], SlotOf(entries[i]));
            && a in r.slots
            && (a.kind == Semaphore ==> r.slots[a] == if e.capacity >= 1 then e.capacity else 1)
            && (a.kind == Barrier ==> r.slots[a] == if e.parties >= 1 then e.parties else 1)
            && (!Sized(a.kind) ==> r.slots[a] == 0)
  {
    hide KindOf, Qualify;
    var n := |entries| - 1;
    var r := RestoreAll(EMPTY, ns, entries[..n]);
    if i < n {
      assert forall j :: 0 <= j < n ==> entries[..n][j] == entries[j];
      LastEntryWins(ns, entries[..n], i);
    }
    if Restores(entries[n]) { RestoreLast(r, ns, entries[n], SlotOf(entries[i])); }
  }

  /** and the last entry of an id its name. */
  lemma {:induction false} LastNameWins(ns: string, entries: seq<Entry>, i: nat)
    requires LastForId(entries, i)
    ensures var (r, q) := (RestoreAll(EMPTY, ns, entries), Qualify(ns, entries[i].id));
            q in r.names && r.names[q] == entries[i].name
  {
    hide KindOf, Qualify, SizeOf;
    var n := |entries| - 1;
    var r := RestoreAll(EMPTY, ns, entries[..n]);
    if i < n {
      assert forall j :: 0 <= j < n ==> entries[..n][j] == entries[j];
      LastNameWins(ns, entries[..n], i);
    }
    if Restores(entries[n]) { RestoreLast(r, ns, entries[n], SlotOf(entries[i])); }
  }

  /** No two entries that count give one id two types. */
  predicate OneTypeEach(entries: seq<Entry>) {
    forall i, j :: 0 <= i < |entries| && 0 <= j < |entries| ==>
      Restores(entries[i]) && Restores(entries[j]) && entries[i].id == entries[j].id ==> entries[i].typ == entries[j].typ
  }

  /** Restore does not look for existing ids: it keeps the maps disjoint exactly for files that give each id one type. */
  lemma {:induction false} RestoreDisjointExactly(ns: string, entries: seq<Entry>)
    ensures Disjoint(RestoreAll(EMPTY, ns, entries).slots) <==> OneTypeEach(entries)
  {
    hide RestoreAll, KindOf;
    var slots := RestoreAll(EMPTY, ns, entries).slots;
    if OneTypeEach(entries) {
      forall a, b | a in slots && b in slots && a.id == b.id ensures a == b {
        RestoredSlots(ns, entries, a);
        RestoredSlots(ns, entries, b);
      }
    }
    if Disjoint(slots) {
      forall i, j | 0 <= i < |entries| && 0 <= j < |entries|
        && Restores(entries[i]) && Restores(entries[j]) && entries[i].id == entries[j].id
        ensures entries[i].typ == entries[j].typ
      {
        RestoredSlots(ns, entries, SlotOf(entries[i]));
        RestoredSlots(ns, entries, SlotOf(entries[j]));
        KindOfInjective(entries[i].typ, entries[j].typ);
      }
    }
  }

  lemma KindOfInjective(a: string, b: string)
    ensures KindOf(a).Is? && KindOf(a) == KindOf(b) ==> a == b
  {
  }
}
