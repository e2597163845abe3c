/**
 The two goroutines that send to one browser (server.go, lines 753-787,
 1044-1084 and 2187-2272): the handler of its connection, which answers with a
 full state, and the broadcaster, which sends deltas.  Each takes several steps
 from the baseline to the message, so the messages may be sent in another order
 than the baseline was changed.  Messages are applied in the order of sending.
 */
module DeltaRace {
  import opened Namespaces
  import opened DeltaBroadcast

  /** A full state on its way: baseline seeded, then sequence number loaded. `counted` is history: the broadcaster has
      counted an update since. */
  datatype Handler = Quiet | Seeded(prims: Prims) | Loaded(prims: Prims, sequence: nat, counted: bool)

  /** An update on its way: sequence number counted, then delta built. */
  datatype Broadcaster =
    | Waiting
    | Counted(prims: Prims, sequence: nat)
    | Built(prims: Prims, delta: Message, sequence: nat)

  /** `last` is the baseline, `latest` the snapshot it was made from and `counter` the server's update counter; `copy` and `seen` are the browser's primitives
      and last sequence number, and `asked` says whether the latest update made it ask for a refresh. `stateFirst` is
      history: of two messages on their way, the state changed the baseline first. */
  datatype Race = Race(last: Prims, latest: Prims, counter: nat, handler: Handler, broadcaster: Broadcaster, stateFirst: bool,
                         copy: Prims, seen: nat, asked: bool)

  datatype Action = Seed(prims: Prims) | Load | SendState | Count(prims: Prims) | Build(deleted: seq<string>) | SendDelta

  function Init(counter: nat): Race { Race(map[], map[], counter, Quiet, Waiting, false, map[], 0, false) }

  /** An action that does not fit changes nothing. */
  ghost function Step(s: Race, a: Action): Race {
    match a
    case Seed(prims) =>
      if s.handler.Quiet? then
        s.(last := Keys(prims), latest := prims, handler := Seeded(prims), stateFirst := !s.broadcaster.Built?)
      else s
    case Load => if s.handler.Seeded? then s.(handler := Loaded(s.handler.prims, s.counter, false)) else s
    case SendState =>
      if s.handler.Loaded? then
        s.(copy := Apply(s.copy, Full(s.handler.prims)),
           seen := if s.handler.sequence == 0 then s.seen else s.handler.sequence,
           handler := Quiet)
      else s
    case Count(prims) =>
      if s.broadcaster.Waiting? then
        s.(counter := s.counter + 1, broadcaster := Counted(prims, s.counter + 1),
           handler := if s.handler.Loaded? then s.handler.(counted := true) else s.handler)
      else s
    case Build(deleted) =>
      if s.broadcaster.Counted? && ListsGone(deleted, s.last, s.broadcaster.prims) then
        var prims := s.broadcaster.prims;
        s.(last := Keys(prims), latest := prims,
           broadcaster := Built(prims, Delta(Changed(s.last, prims), deleted), s.broadcaster.sequence),
           stateFirst := !s.handler.Quiet?)
      else s
    case SendDelta =>
      if s.broadcaster.Built? then
        var n := s.broadcaster.sequence;
        s.(copy := Apply(s.copy, s.broadcaster.delta),
           asked := s.seen != 0 && n > s.seen + 1,
           seen := if n > s.seen then n else s.seen,
           broadcaster := Waiting)
      else s
  }

  ghost function Exec(s: Race, run: seq<Action>): Race {
    if run == [] then s else Step(Exec(s, run[..|run| - 1]), run[|run| - 1])
  }

  // ---- Messages in the order of the baseline -----------------------------

  predicate BothOnTheWay(s: Race) { !s.handler.Quiet? && s.broadcaster.Built? }

  predicate NothingOnTheWay(s: Race) { s.handler.Quiet? && !s.broadcaster.Built? }

  /** The action sends a message past one that changed the baseline before it. */
  predicate Overtakes(s: Race, a: Action) {
    BothOnTheWay(s) && (if s.stateFirst then a == SendDelta else a == SendState && s.handler.Loaded?)
  }

  /** What the browser will have once all messages on their way have arrived in the order of the baseline. */
  function Arrived(s: Race): Prims {
    var state := if s.handler.Quiet? then s.copy else Apply(s.copy, Full(s.handler.prims));
    if !s.broadcaster.Built? then state
    else if s.handler.Quiet? || s.stateFirst then Apply(state, s.broadcaster.delta)
    else Apply(Apply(s.copy, s.broadcaster.delta), Full(s.handler.prims))
  }

  /** The browser will agree with the baseline. */
  ghost predicate Agrees(s: Race) { Keys(Arrived(s)) == s.last && s.last == Keys(s.latest) }

  /** Two messages on their way come from successive baselines. */
  ghost predicate Successive(s: Race) {
    && (s.broadcaster.Built? ==> s.broadcaster.delta.Delta?)
    && (!s.handler.Quiet? && !(s.broadcaster.Built? && s.stateFirst) ==>
          s.last == Keys(s.handler.prims) && s.latest == s.handler.prims)
    && (BothOnTheWay(s) && s.stateFirst ==>
          && s.last == Keys(s.broadcaster.prims) && s.latest == s.broadcaster.prims
          && s.broadcaster.delta.changed == Changed(Keys(s.handler.prims), s.broadcaster.prims)
          && ListsGone(s.broadcaster.delta.deleted, Keys(s.handler.prims), s.broadcaster.prims))
  }

  /** A number on its way is at most the counter, which stands still while an update is on its way; a state that was
      seeded after the delta was built has the number of that update. */
  ghost predicate Numbered(s: Race) {
    && s.seen <= s.counter
    && (s.handler.Loaded? ==> s.handler.sequence <= s.counter && (s.handler.counted <==> s.handler.sequence < s.counter))
    && (!s.broadcaster.Waiting? ==> s.broadcaster.sequence == s.counter > 0)
    && (BothOnTheWay(s) && !s.stateFirst && s.handler.Loaded? ==> s.handler.sequence == s.counter)
  }

  lemma StepNumbered(s: Race, a: Action)
    requires Numbered(s)
    ensures Numbered(Step(s, a))
  {
    hide Keys, Changed, Apply, ListsGone;
  }

  lemma StepSuccessive(s: Race, a: Action)
    requires Successive(s) && !Overtakes(s, a)
    ensures Successive(Step(s, a))
  {
    hide Keys, Changed, Apply, ListsGone;
  }

  /** A message that is sent in its turn, and a change of the baseline, keep the browser on its way to agreement. */
  lemma StepAgrees(s: Race, a: Action)
    requires Agrees(s) && Successive(s) && !Overtakes(s, a)
    ensures Agrees(Step(s, a))
  {
    hide Keys, Changed, ListsGone;
    if a.Build? && s.broadcaster.Counted? && ListsGone(a.deleted, s.last, s.broadcaster.prims) {
      DeltaAgrees(Arrived(s), s.last, s.broadcaster.prims, a.deleted);
    }
  }

  // ---- Runs --------------------------------------------------------------

  /** Whatever is on its way, the browser will agree with the baseline. */
  ghost predicate Sound(s: Race) { Agrees(s) && Successive(s) && Numbered(s) }

  ghost predicate NoOvertaking(s: Race, run: seq<Action>) {
    forall i {:trigger run[i]} :: 0 <= i < |run| ==> !Overtakes(Exec(s, run[..i]), run[i])
  }

  lemma InitSound(counter: nat)
    ensures Sound(Init(counter))
  {
    NothingSent("");
  }

  /** In every run in which no message overtakes another, however the two goroutines take their turns, the browser is on
      its way to agreement with the baseline; when nothing is on its way it has the snapshot that the baseline was made
      from, but for the ages. */
  lemma {:induction false} InOrderAgrees(s: Race, run: seq<Action>)
    requires Sound(s) && NoOvertaking(s, run)
    ensures Sound(Exec(s, run))
    ensures NothingOnTheWay(Exec(s, run)) ==> Agree(Exec(s, run).copy, Exec(s, run).latest)
  {
    hide Step, Agrees, Successive, Numbered, Overtakes;
    if run == [] {
      assert Exec(s, run) == s;
    } else {
      var k := |run| - 1;
      var before := run[..k];
      forall i | 0 <= i < k ensures !Overtakes(Exec(s, before[..i]), before[i]) {
        assert before[..i] == run[..i] && before[i] == run[i];
      }
      InOrderAgrees(s, before);
      StepAgrees(Exec(s, before), run[k]);
      StepSuccessive(Exec(s, before), run[k]);
      StepNumbered(Exec(s, before), run[k]);
    }
    QuietAgrees(Exec(s, run));
  }

  lemma QuietAgrees(s: Race)
    requires Agrees(s)
    ensures NothingOnTheWay(s) ==> Agree(s.copy, s.latest)
  {
    KeysExactly(s.copy, s.latest);
  }

  /** The next update, from counting to sending. */
  ghost function NextUpdate(s: Race, prims: Prims, deleted: seq<string>): Race {
    Step(Step(Step(s, Count(prims)), Build(deleted)), SendDelta)
  }

  /** When nothing is on its way, the next update makes the browser ask for a refresh exactly if it has seen a number, and
      not the latest. */
  lemma AsksExactly(s: Race, prims: Prims, deleted: seq<string>)
    requires Numbered(s) && s.handler.Quiet? && s.broadcaster.Waiting? && ListsGone(deleted, s.last, prims)
    ensures NextUpdate(s, prims, deleted).asked <==> s.seen != 0 && s.seen != s.counter
  {
    hide Keys, Changed, Apply, ListsGone;
  }

  /**
   A delta overtakes the full state it was built on.  The browser is left agreeing exactly if the delta was empty; and
   the next update makes it ask for a refresh exactly if the state had loaded its number before the update was counted,
   and the number was not zero, which reads as missing.
   */
  lemma LateState(s: Race, prims: Prims, deleted: seq<string>)
    requires Sound(s) && s.handler.Loaded? && s.broadcaster.Built? && s.stateFirst
    requires ListsGone(deleted, Step(Step(s, SendDelta), SendState).last, prims)
    ensures var s' := Step(Step(s, SendDelta), SendState);
            && (Agree(s'.copy, s'.latest) <==> s.broadcaster.delta.changed == map[] && s.broadcaster.delta.deleted == [])
            && (NextUpdate(s', prims, deleted).asked <==> s.handler.counted && s.handler.sequence != 0)
  {
    hide Keys, Changed, Apply, ListsGone;
    var s' := Step(Step(s, SendDelta), SendState);
    StepNumbered(s, SendDelta);
    StepNumbered(Step(s, SendDelta), SendState);
    AsksExactly(s', prims, deleted);
    StateOvertaken(s.copy, s.handler.prims, s.broadcaster.prims, s.broadcaster.delta.deleted);
    assert s.broadcaster.delta == Delta(s.broadcaster.delta.changed, s.broadcaster.delta.deleted);
  }

  /**
   A full state overtakes a delta built before it was seeded.  The browser is left agreeing exactly if the delta says
   nothing that the state does not, and the next update never makes it ask.
   */
  lemma LateDelta(s: Race, prims: Prims, deleted: seq<string>)
    requires Sound(s) && s.handler.Loaded? && s.broadcaster.Built? && !s.stateFirst
    requires ListsGone(deleted, Step(Step(s, SendState), SendDelta).last, prims)
    ensures var s' := Step(Step(s, SendState), SendDelta);
            && (Agree(s'.copy, s'.latest) <==> SaysNothingElse(s.broadcaster.delta, s.handler.prims))
            && !s'.asked && !NextUpdate(s', prims, deleted).asked
  {
    hide Keys, Changed, Apply, ListsGone;
    var s' := Step(Step(s, SendState), SendDelta);
    StepNumbered(s, SendState);
    StepNumbered(Step(s, SendState), SendDelta);
    AsksExactly(s', prims, deleted);
    DeltaOvertaken(s.copy, s.handler.prims, s.broadcaster.delta.changed, s.broadcaster.delta.deleted);
    assert s.broadcaster.delta == Delta(s.broadcaster.delta.changed, s.broadcaster.delta.deleted);
  }

  /** What the delta deletes is not in the state, and what else it changes the state has alike. */
  ghost predicate SaysNothingElse(delta: Message, prims: Prims)
    requires delta.Delta?
  {
    && (forall id :: id in delta.deleted ==> id !in prims)
    && (forall id :: id in delta.changed && id !in delta.deleted ==>
          id in prims && SameButAge(delta.changed[id], prims[id]))
  }

  /** A full state that is seeded and sent while nothing is on its way restores agreement, whatever happened before. */
  lemma RefreshHeals(s: Race, prims: Prims)
    requires Numbered(s) && NothingOnTheWay(s)
    ensures Sound(Step(Step(Step(s, Seed(prims)), Load), SendState))
  {
    hide Keys, Changed;
    StepNumbered(s, Seed(prims));
    StepNumbered(Step(s, Seed(prims)), Load);
    StepNumbered(Step(Step(s, Seed(prims)), Load), SendState);
  }

  /** Such a state is reached: a primitive is created while a full state without it is on its way, and the browser that
      got the delta first is left without it, and the next update does not make it ask. */
  lemma MissesUnnoticed(counter: nat, id: string, prim: PrimInfo, prims: Prims, deleted: seq<string>)
    requires ListsGone(deleted, Keys(map[id := prim]), prims)
    ensures var s := Lost(counter, id, prim);
            && NothingOnTheWay(s) && id in s.latest && id !in s.copy
            && !NextUpdate(s, prims, deleted).asked
  {
    hide Key;
    var s := Step(Step(Step(Step(Init(counter), Seed(map[])), Count(map[id := prim])), Load), Build([]));
    InitSound(counter);
    StepNumbered(Init(counter), Seed(map[]));
    StepNumbered(Step(Init(counter), Seed(map[])), Count(map[id := prim]));
    StepNumbered(Step(Step(Init(counter), Seed(map[])), Count(map[id := prim])), Load);
    StepNumbered(Step(Step(Step(Init(counter), Seed(map[])), Count(map[id := prim])), Load), Build([]));
    StepNumbered(s, SendDelta);
    StepNumbered(Step(s, SendDelta), SendState);
    AsksExactly(Lost(counter, id, prim), prims, deleted);
  }

  ghost function Lost(counter: nat, id: string, prim: PrimInfo): Race {
    var s := Step(Step(Step(Step(Init(counter), Seed(map[])), Count(map[id := prim])), Load), Build([]));
    Step(Step(s, SendDelta), SendState)
  }
}
