/**
 Delta broadcasts: the server remembers per connection what it has sent
 (server.go, lines 752-787 and 2234-2296) and sends only the differences, which
 the browser merges into its copy (app.js, lines 241-279).
 Snapshots that the scheduler's full channel drops never get here, so a run is
 any sequence of those that do.
 */
module DeltaBroadcast {
  import opened Namespaces

  /** primitiveSnapshotKey: everything but the age. The JSON text is left abstract. */
  function Key(prim: PrimInfo): PrimInfo { prim.(stats := prim.stats - {"Age"}) }

  /** The two are the same primitive in the same state but for its age. */
  ghost predicate SameButAge(a: PrimInfo, b: PrimInfo) {
    && a.id == b.id && a.kind == b.kind && a.name == b.name && a.created == b.created && a.blocked == b.blocked
    && (forall f :: f != "Age" ==> (f in a.stats <==> f in b.stats) && (f in a.stats && f in b.stats ==> a.stats[f] == b.stats[f]))
  }

  /** Equal keys say exactly that. */
  lemma KeyExactly(a: PrimInfo, b: PrimInfo)
    ensures Key(a) == Key(b) <==> SameButAge(a, b)
  {
    if SameButAge(a, b) {
      assert Key(a).stats == Key(b).stats;
    }
    if Key(a) == Key(b) {
      forall f | f != "Age"
        ensures (f in a.stats <==> f in b.stats) && (f in a.stats && f in b.stats ==> a.stats[f] == b.stats[f])
      {
        assert f in Key(a).stats <==> f in a.stats;
        assert f in Key(b).stats <==> f in b.stats;
      }
    }
  }

  /** The two maps have the same ids, with primitives that are the same but for their age. */
  ghost predicate Agree(a: Prims, b: Prims) {
    a.Keys == b.Keys && forall id :: id in a && id in b ==> SameButAge(a[id], b[id])
  }

  /** Equal baselines say exactly that. */
  lemma KeysExactly(a: Prims, b: Prims)
    ensures Keys(a) == Keys(b) <==> Agree(a, b)
  {
    hide Key, SameButAge;
    forall id | id in a && id in b ensures Key(a[id]) == Key(b[id]) <==> SameButAge(a[id], b[id]) {
      KeyExactly(a[id], b[id]);
    }
    if Keys(a) == Keys(b) {
      assert Keys(a).Keys == a.Keys && Keys(b).Keys == b.Keys;
      forall id | id in a && id in b ensures SameButAge(a[id], b[id]) { assert Keys(a)[id] == Keys(b)[id]; }
    }
  }

  function Keys(prims: Prims): Prims { map id | id in prims :: Key(prims[id]) }

  function Changed(last: Prims, prims: Prims): Prims {
    map id | id in prims && (id !in last || last[id] != Key(prims[id])) :: prims[id]
  }

  /** deleted lists, each once and in any order, the ids of last that prims does not have. */
  ghost predicate ListsGone(deleted: seq<string>, last: Prims, prims: Prims) {
    && (forall i, j :: 0 <= i < j < |deleted| ==> deleted[i] != deleted[j])
    && (forall id :: id in deleted <==> id in last && id !in prims)
  }

  lemma NothingSeen(last: Prims)
    ensures Changed(last, map[]) == map[] && last + Keys(map[]) == last
  {
  }

  /** One more primitive, in the delta and in the baseline. */
  lemma SeeOne(was: Prims, seen: Prims, id: string, prim: PrimInfo)
    requires id !in seen
    ensures var seen', last := seen[id := prim], was + Keys(seen);
            if id in last && last[id] == Key(prim) then Changed(was, seen') == Changed(was, seen) && was + Keys(seen') == last
            else Changed(was, seen') == Changed(was, seen)[id := prim] && was + Keys(seen') == last[id := Key(prim)]
  {
    hide Key, Keys, Changed;
    SeeInBaseline(was, seen, id, prim);
    SeeInDelta(was, seen, id, prim);
  }

  lemma SeeInBaseline(was: Prims, seen: Prims, id: string, prim: PrimInfo)
    requires id !in seen
    ensures was + Keys(seen[id := prim]) == (was + Keys(seen))[id := Key(prim)]
    ensures var last := was + Keys(seen); (id in last <==> id in was) && (id in last ==> last[id] == was[id])
    ensures var last := was + Keys(seen); id in last && last[id] == Key(prim) ==> last[id := Key(prim)] == last
  {
    hide Key;
  }

  lemma SeeInDelta(was: Prims, seen: Prims, id: string, prim: PrimInfo)
    requires id !in seen
    ensures Changed(was, seen[id := prim]) ==
            if id in was && was[id] == Key(prim) then Changed(was, seen) else Changed(was, seen)[id := prim]
  {
    hide Key;
    var all, some := Changed(was, seen[id := prim]), Changed(was, seen);
    forall x ensures x in all <==> x in some || (x == id && !(id in was && was[id] == Key(prim))) {
    }
  }

  /** The part of a deltaState that deltas are computed from. */
  class DeltaState {
    var last: Prims

    constructor ()
      ensures last == map[]
    {
      last := map[];
    }

    /** seedDeltaState */
    method Seed(prims: Prims)
      modifies this
      ensures last == Keys(prims)
    {
      var seed: Prims := map[];
      var rest := prims.Keys;
      while rest != {}
        invariant rest <= prims.Keys
        invariant seed == map id | id in prims.Keys - rest :: Key(prims[id])
        decreases |rest|
      {
        var id :| id in rest;
        rest := rest - {id};
        seed := seed[id := Key(prims[id])];
      }
      last := seed;
    }

    /** buildDeltaUpdatePayload, for the primitives it has filtered. */
    method Build(prims: Prims) returns (changed: Prims, deleted: seq<string>)
      modifies this
      ensures changed == Changed(old(last), prims) && ListsGone(deleted, old(last), prims)
      ensures last == Keys(prims)
    {
      changed := FindChanged(prims);
      deleted := DropGone(prims);
    }

    /** The first loop: what is new or different goes into the delta and the baseline. */
    method FindChanged(prims: Prims) returns (changed: Prims)
      modifies this
      ensures changed == Changed(old(last), prims)
      ensures last == old(last) + Keys(prims)
    {
      hide Key, Keys, Changed;
      changed := map[];
      ghost var was, seen: Prims := last, map[];
      assert changed == Changed(was, seen) && last == was + Keys(seen) by { NothingSeen(was); }
      var rest := prims.Keys;
      while rest != {}
        invariant rest <= prims.Keys && seen == map id | id in prims.Keys - rest :: prims[id]
        invariant changed == Changed(was, seen) && last == was + Keys(seen)
        decreases |rest|
      {
        var id :| id in rest;
        rest := rest - {id};
        SeeOne(was, seen, id, prims[id]);
        seen := seen[id := prims[id]];
        var snapshot := Key(prims[id]);
        if id !in last || last[id] != snapshot {
          changed := changed[id := prims[id]];
          last := last[id := snapshot];
        }
      }
      assert seen == prims;
    }

    /** The second loop: what is gone leaves the baseline and is listed. */
    method DropGone(prims: Prims) returns (deleted: seq<string>)
      requires forall id :: id in prims ==> id in last
      modifies this
      ensures ListsGone(deleted, old(last), prims)
      ensures last == map id | id in prims :: old(last)[id]
    {
      deleted := [];
      ghost var was := last;
      var rest := last.Keys;
      while rest != {}
        invariant rest <= was.Keys
        invariant forall id :: id in last <==> id in was && (id in rest || id in prims)
        invariant forall id :: id in last ==> last[id] == was[id]
        invariant forall i, j :: 0 <= i < j < |deleted| ==> deleted[i] != deleted[j]
        invariant forall id :: id in deleted <==> id in was && id !in rest && id !in prims
        decreases |rest|
      {
        var id :| id in rest;
        rest := rest - {id};
        if id !in prims {
          deleted := deleted + [id];
          last := last - {id};
        }
      }
    }
  }

  /** The browser's copy. */
  class Client {
    var primitives: Prims
    var lastSequence: nat

    constructor ()
      ensures primitives == map[] && lastSequence == 0
    {
      primitives := map[];
      lastSequence := 0;
    }

    /** handleInitialState: a sequence of zero reads as missing. */
    method HandleInitialState(prims: Prims, sequence: nat)
      modifies this
      ensures primitives == prims
      ensures lastSequence == if sequence == 0 then old(lastSequence) else sequence
    {
      primitives := prims;
      if sequence != 0 { lastSequence := sequence; }
    }

    /** handleUpdate; refresh says whether it asks the server for a full state. */
    method HandleUpdate(changed: Prims, deleted: seq<string>, sequence: nat) returns (refresh: bool)
      modifies this
      ensures primitives == Apply(old(primitives), Delta(changed, deleted))
      ensures refresh <==> old(lastSequence) != 0 && sequence > old(lastSequence) + 1
      ensures lastSequence >= old(lastSequence) && lastSequence >= sequence
      ensures lastSequence == old(lastSequence) || lastSequence == sequence
    {
      refresh := false;
      if sequence != 0 {
        refresh := lastSequence != 0 && sequence > lastSequence + 1;
        if sequence > lastSequence { lastSequence := sequence; }
      }
      primitives := primitives + changed;
      var i := 0;
      ghost var merged := primitives;
      while i < |deleted|
        invariant 0 <= i <= |deleted|
        invariant primitives == merged - (set id | id in deleted[..i])
        invariant lastSequence >= old(lastSequence) && lastSequence >= sequence
        invariant lastSequence == old(lastSequence) || lastSequence == sequence
      {
        primitives := primitives - {deleted[i]};
        i := i + 1;
        assert deleted[..i] == deleted[..i - 1] + [deleted[i - 1]];
      }
      assert deleted[..i] == deleted;
    }
  }

  // ---- The protocol ------------------------------------------------------

  datatype Message = Full(prims: Prims) | Delta(changed: Prims, deleted: seq<string>)

  /** A message merged into the browser's copy. */
  function Apply(client: Prims, msg: Message): Prims {
    match msg
    case Full(prims) => prims
    case Delta(changed, deleted) => (client + changed) - (set id | id in deleted)
  }

  function ApplyAll(msgs: seq<Message>): Prims {
    if msgs == [] then map[] else Apply(ApplyAll(msgs[..|msgs| - 1]), msgs[|msgs| - 1])
  }

  /** The scheduler's primitives of all namespaces, for a full state or for an update. */
  datatype Event = State(all: Prims) | Update(all: Prims)

  /** The latest snapshot as one namespace sees it. */
  function Latest(ns: string, events: seq<Event>): Prims {
    if events == [] then map[] else Filter(events[|events| - 1].all, ns)
  }

  /** What Seed or Build makes of the next event, on the baseline the events before it have left. */
  ghost predicate Sent(ns: string, before: seq<Event>, event: Event, msg: Message) {
    var prims, last := Filter(event.all, ns), Keys(Latest(ns, before));
    match event
    case State(_) => msg == Full(prims)
    case Update(_) => msg.Delta? && msg.changed == Changed(last, prims) && ListsGone(msg.deleted, last, prims)
  }

  /** The messages of a run, in the order of its events. */
  ghost predicate Session(ns: string, events: seq<Event>, msgs: seq<Message>) {
    |msgs| == |events| && forall i :: 0 <= i < |events| ==> Sent(ns, events[..i], events[i], msgs[i])
  }

  /** One delta takes a copy that agrees with the baseline to one that agrees with the snapshot. */
  lemma DeltaAgrees(client: Prims, last: Prims, prims: Prims, deleted: seq<string>)
    requires Keys(client) == last && ListsGone(deleted, last, prims)
    ensures Keys(Apply(client, Delta(Changed(last, prims), deleted))) == Keys(prims)
  {
    var client' := Apply(client, Delta(Changed(last, prims), deleted));
    assert client'.Keys == prims.Keys by {
      forall id ensures id in client' <==> id in prims {
        assert id in client <==> id in last;
      }
    }
    forall id | id in prims ensures Key(client'[id]) == Key(prims[id]) {
      if id !in Changed(last, prims) { assert last[id] == Key(client[id]); }
    }
  }

  /**
   Delta broadcast equals full broadcast: whatever has been delivered of a run,
   the browser's copy agrees with the latest snapshot among it, in every field
   but the age, deletions included.
   */
  lemma {:induction false} DeltaEqualsFull(ns: string, events: seq<Event>, msgs: seq<Message>, k: nat)
    requires Session(ns, events, msgs) && k <= |msgs|
    ensures Agree(ApplyAll(msgs[..k]), Latest(ns, events[..k]))
  {
    hide ApplyAll, Latest, Keys;
    KeysAfter(ns, events, msgs, k);
    KeysExactly(ApplyAll(msgs[..k]), Latest(ns, events[..k]));
  }

  lemma {:induction false} KeysAfter(ns: string, events: seq<Event>, msgs: seq<Message>, k: nat)
    requires Session(ns, events, msgs) && k <= |msgs|
    ensures Keys(ApplyAll(msgs[..k])) == Keys(Latest(ns, events[..k]))
  {
    if k == 0 {
      assert ApplyAll(msgs[..k]) == map[] == Latest(ns, events[..k]);
    } else {
      KeysAfter(ns, events, msgs, k - 1);
      assert msgs[..k][..k - 1] == msgs[..k - 1];
      var client, last := ApplyAll(msgs[..k - 1]), Keys(Latest(ns, events[..k - 1]));
      assert Sent(ns, events[..k - 1], events[k - 1], msgs[k - 1]);
      if events[k - 1].Update? {
        DeltaAgrees(client, last, Filter(events[k - 1].all, ns), msgs[k - 1].deleted);
      }
    }
  }

  /** A delta names exactly the primitives that differ, so an idle server sends empty ones. */
  lemma {:induction false} DeltaIsMinimal(ns: string, events: seq<Event>, msgs: seq<Message>, k: nat, id: string)
    requires Session(ns, events, msgs) && k < |msgs| && msgs[k].Delta?
    ensures var was, now := Latest(ns, events[..k]), Latest(ns, events[..k + 1]);
            && (id in msgs[k].changed <==> id in now && !(id in was && SameButAge(was[id], now[id])))
            && (id in msgs[k].changed ==> msgs[k].changed[id] == now[id])
            && (id in msgs[k].deleted <==> id in was && id !in now)
  {
    assert Sent(ns, events[..k], events[k], msgs[k]);
    assert events[..k + 1][|events[..k + 1]| - 1] == events[k];
    var was, now := Latest(ns, events[..k]), Latest(ns, events[..k + 1]);
    if id in was && id in now { KeyExactly(was[id], now[id]); }
  }

  /**
   Seeding the baseline and sending the state are two steps. When an update of
   prims' is built and sent between them, the copy is left agreeing with the
   baseline exactly if nothing had changed between the two snapshots.
   */
  lemma StateOvertaken(client: Prims, prims: Prims, prims': Prims, deleted: seq<string>)
    requires ListsGone(deleted, Keys(prims), prims')
    ensures var client' := Apply(Apply(client, Delta(Changed(Keys(prims), prims'), deleted)), Full(prims));
            Agree(client', prims') <==> Changed(Keys(prims), prims') == map[] && deleted == []
  {
    KeysExactly(prims, prims');
    hide Agree;
    var last := Keys(prims);
    if Changed(last, prims') == map[] && deleted == [] {
      forall id | id in prims' ensures id in last && last[id] == Key(prims'[id]) {
        assert id !in Changed(last, prims');
      }
      forall id | id in prims ensures id in prims' { assert id in last && id !in deleted; }
      assert Keys(prims) == Keys(prims');
    }
    assert deleted == [] || deleted[0] in deleted;
    if Keys(prims) == Keys(prims') {
      forall id ensures id !in deleted { assert id in Keys(prims) <==> id in Keys(prims'); }
      forall id ensures id !in Changed(last, prims') {
        if id in prims' { assert Keys(prims)[id] == Keys(prims')[id]; }
      }
    }
  }

  /** The other overlap: a delta built on the old baseline is sent after a fresh state. The copy is left agreeing
      with the new baseline exactly if the delta says nothing that the state does not. */
  lemma DeltaOvertaken(client: Prims, prims: Prims, changed: Prims, deleted: seq<string>)
    ensures var client' := Apply(Apply(client, Full(prims)), Delta(changed, deleted));
            Agree(client', prims) <==>
            && (forall id :: id in deleted ==> id !in prims)
            && (forall id :: id in changed && id !in deleted ==> id in prims && SameButAge(changed[id], prims[id]))
  {
    var client' := Apply(Apply(client, Full(prims)), Delta(changed, deleted));
    if Agree(client', prims) {
      forall id | id in deleted ensures id !in prims {
        assert id !in client';
        assert id in client'.Keys <==> id in prims.Keys;
      }
      forall id | id in changed && id !in deleted ensures id in prims && SameButAge(changed[id], prims[id]) {
        assert id in client' && client'[id] == changed[id];
        assert id in client'.Keys <==> id in prims.Keys;
      }
    }
  }

  // ---- End to end --------------------------------------------------------

  /** The number of updates among the events. */
  function Updates(events: seq<Event>): nat {
    if events == [] then 0
    else Updates(events[..|events| - 1]) + if events[|events| - 1].Update? then 1 else 0
  }

  lemma NothingSent(ns: string)
    ensures Latest(ns, []) == map[] && Keys(map[]) == map[]
  {
  }

  lemma LatestOf(ns: string, events: seq<Event>, i: nat)
    requires i < |events|
    ensures Latest(ns, events[..i + 1]) == Filter(events[i].all, ns)
  {
  }

  /**
   The broadcast loop for one connection, with each message delivered before the next event. The server's counter
   starts anywhere and advances on updates only, so a browser that misses nothing never asks for a refresh.
   */
  method Broadcast(server: DeltaState, client: Client, ns: string, events: seq<Event>, start: nat)
    returns (sequence: nat, refreshed: bool)
    requires ns != "" && server.last == map[] && client.primitives == map[] && client.lastSequence == 0
    modifies server, client
    ensures Agree(client.primitives, Latest(ns, events)) && server.last == Keys(Latest(ns, events))
    ensures !refreshed && sequence == start + Updates(events)
    ensures client.lastSequence == 0 || client.lastSequence == sequence
  {
    hide Keys, Apply, Changed, ListsGone, Latest, Filter, RawIds, CopiedFrom, Agree;
    sequence, refreshed := start, false;
    var i := 0;
    NothingSent(ns);
    assert events[..0] == [];
    while i < |events|
      invariant 0 <= i <= |events|
      invariant Keys(client.primitives) == server.last == Keys(Latest(ns, events[..i]))
      invariant !refreshed && sequence == start + Updates(events[..i])
      invariant client.lastSequence == 0 || client.lastSequence == sequence
    {
      var prims := FilterPrimitives(events[i].all, ns);
      LatestOf(ns, events, i);
      assert events[..i + 1][..i] == events[..i];
      if events[i].State? {
        server.Seed(prims);
        client.HandleInitialState(prims, sequence);
      } else {
        ghost var last, copy := server.last, client.primitives;
        var changed, deleted := server.Build(prims);
        sequence := sequence + 1;
        var refresh := client.HandleUpdate(changed, deleted, sequence);
        refreshed := refreshed || refresh;
        DeltaAgrees(copy, last, prims, deleted);
      }
      i := i + 1;
    }
    assert events[..i] == events;
    KeysExactly(client.primitives, Latest(ns, events));
  }
}
