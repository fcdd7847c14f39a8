/** Prayers: a Cleric's energy goes out with a question for the oracle, and the answer
comes back later as a queued command, whatever happened meanwhile
(internal/game/cleric.go:107-159).

Each event is one command on the world's goroutine, or one step of a goroutine that is
waiting on the oracle. The rest of the game is the event `Change`: new words, energy won
and lost, a slate wiped clean. */
module Prayers {
  import opened Wordle
  import Boards
  import opened DuelRules

  const MAX_PRAYERS := 4

  datatype PrayerKind = Minor | Major

  function CostOf(kind: PrayerKind): nat {
    if kind.Minor? then Cost(MinorPrayer) else Cost(MajorPrayer)
  }

  datatype Outcome = Answered | Refunded | Dropped

  /** Asking the oracle; its word posted as a command; or all over. */
  datatype Phase = Asking | Posted(answered: bool) | Resolved(outcome: Outcome)

  datatype Prayer = Prayer(side: nat, word: Word, kind: PrayerKind, phase: Phase)

  /** One side of one duel. `granted` adds up every other change to its energy. */
  datatype Cleric = Cleric(live: bool, word: Word, energy: int, granted: int)

  datatype State = State(
    sides: seq<Cleric>, prayers: seq<Prayer>,
    // slots held, by prayer, and the commands not carried out yet
    slots: set<nat>, commands: seq<nat>)

  datatype Event =
    | Start(word: Word)
    | Change(side: nat, word: Word, energy: int)
    | End(side: nat)
    | Pray(side: nat, kind: PrayerKind, oracle: bool)
    | Reply(id: nat, answered: bool)
    | Release(id: nat)
    | Deliver

  ghost predicate Init(s: State) {
    s.sides == [] && s.prayers == [] && s.slots == {} && s.commands == []
  }

  predicate Asks(s: State, id: nat) {
    id < |s.prayers| && s.prayers[id].phase == Asking
  }

  predicate Enabled(s: State, e: Event) {
    match e
    case Start(_) => true
    case Change(i, _, energy) => i < |s.sides| && s.sides[i].live && energy >= 0
    case End(i) => i < |s.sides| && s.sides[i].live
    case Pray(i, kind, _) => i < |s.sides| && s.sides[i].live && s.sides[i].energy >= CostOf(kind)
    case Reply(id, _) => Asks(s, id)
    case Release(id) => id in s.slots && !Asks(s, id)
    case Deliver => s.commands != [] && s.commands[0] < |s.prayers| && s.prayers[s.commands[0]].side < |s.sides|
  }

  function Plus(side: Cleric, n: int): Cleric {
    side.(energy := side.energy + n)
  }

  function WithPhase(s: State, id: nat, phase: Phase): State
    requires id < |s.prayers|
  {
    s.(prayers := s.prayers[id := s.prayers[id].(phase := phase)])
  }

  /** What becomes of a prayer the oracle has had its say on. */
  function Verdict(side: Cleric, p: Prayer): Outcome {
    if !side.live then Dropped
    else if p.phase != Posted(true) then Refunded
    else if side.word != p.word then Refunded
    else Answered
  }

  function Resolve(s: State, id: nat): State
    requires id < |s.prayers| && s.prayers[id].side < |s.sides|
  {
    var p := s.prayers[id];
    var verdict := Verdict(s.sides[p.side], p);
    WithPhase(if verdict == Refunded then s.(sides := s.sides[p.side := Plus(s.sides[p.side], CostOf(p.kind))]) else s,
              id, Resolved(verdict))
  }

  function After(s: State, e: Event): State
    requires Enabled(s, e)
  {
    match e
    case Start(word) => s.(sides := s.sides + [Cleric(true, word, 0, 0)])
    case Change(i, word, energy) =>
      var side := s.sides[i];
      s.(sides := s.sides[i := Cleric(true, word, energy, side.granted + energy - side.energy)])
    case End(i) => s.(sides := s.sides[i := s.sides[i].(live := false)])
    case Pray(i, kind, oracle) =>
      // paid for first; with no oracle or no slot free it comes straight back
      var id, paid := |s.prayers|, s.sides[i := Plus(s.sides[i], 0 - CostOf(kind))];
      if oracle && |s.slots| < MAX_PRAYERS
      then s.(sides := paid, prayers := s.prayers + [Prayer(i, s.sides[i].word, kind, Asking)], slots := s.slots + {id})
      else s.(sides := paid[i := Plus(paid[i], CostOf(kind))],
              prayers := s.prayers + [Prayer(i, s.sides[i].word, kind, Resolved(Refunded))])
    case Reply(id, answered) => WithPhase(s, id, Posted(answered)).(commands := s.commands + [id])
    case Release(id) => s.(slots := s.slots - {id})
    case Deliver => Resolve(s.(commands := s.commands[1..]), s.commands[0])
  }

  // ----- The invariant

  /** Energy out on prayers of a side: paid, and not come back. */
  function Spent(prayers: seq<Prayer>, side: nat): nat {
    if prayers == [] then 0
    else
      var last := prayers[|prayers| - 1];
      Spent(prayers[..|prayers| - 1], side)
      + if last.side == side && last.phase != Resolved(Refunded) then CostOf(last.kind) else 0
  }

  /** At most as many goroutines as there are slots, and whoever is asking holds one. */
  ghost predicate SlotsOk(s: State) {
    && |s.slots| <= MAX_PRAYERS
    && (forall id | id in s.slots :: id < |s.prayers|)
    && (forall id: nat | Asks(s, id) :: id in s.slots)
  }

  /** A prayer waits among the commands, once, exactly when the oracle has had its say. */
  ghost predicate CommandsOk(s: State) {
    && (forall k | 0 <= k < |s.commands| :: s.commands[k] < |s.prayers| && s.prayers[s.commands[k]].phase.Posted?)
    && (forall k, m | 0 <= k < m < |s.commands| :: s.commands[k] != s.commands[m])
    && (forall id | 0 <= id < |s.prayers| && s.prayers[id].phase.Posted? :: id in s.commands)
  }

  /** No energy is made or lost: a side has what it was granted, less what it spent on
      prayers that were not refunded. */
  ghost predicate EnergyOk(s: State) {
    && (forall id | 0 <= id < |s.prayers| :: s.prayers[id].side < |s.sides|)
    && (forall i | 0 <= i < |s.sides| ::
          0 <= s.sides[i].energy == s.sides[i].granted - Spent(s.prayers, i))
  }

  ghost predicate Inv(s: State) {
    SlotsOk(s) && CommandsOk(s) && EnergyOk(s)
  }

  lemma {:induction false} SpentUpdate(prayers: seq<Prayer>, id: nat, phase: Phase, side: nat)
    requires id < |prayers|
    ensures var p := prayers[id];
            Spent(prayers[id := p.(phase := phase)], side)
            == Spent(prayers, side)
             - (if p.side == side && p.phase != Resolved(Refunded) then CostOf(p.kind) else 0)
             + (if p.side == side && phase != Resolved(Refunded) then CostOf(p.kind) else 0)
  {
    var after := prayers[id := prayers[id].(phase := phase)];
    var n := |prayers| - 1;
    if id < n {
      SpentUpdate(prayers[..n], id, phase, side);
      assert after[..n] == prayers[..n][id := prayers[id].(phase := phase)];
    } else {
      assert after[..n] == prayers[..n];
    }
  }

  /** A prayer by side number i changes nobody else's account. */
  lemma {:induction false} SpentByNobody(prayers: seq<Prayer>, side: nat)
    requires forall id | 0 <= id < |prayers| :: prayers[id].side < side
    ensures Spent(prayers, side) == 0
  {
    if prayers != [] {
      SpentByNobody(prayers[..|prayers| - 1], side);
    }
  }

  lemma StepEnergy(s: State, e: Event)
    requires Inv(s) && Enabled(s, e)
    ensures EnergyOk(After(s, e))
  {
    var s' := After(s, e);
    match e
    case Start(_) => SpentByNobody(s.prayers, |s.sides|);
    case Pray(i, kind, oracle) =>
      assert s'.prayers[..|s.prayers|] == s.prayers;
    case Reply(id, answered) =>
      forall i | 0 <= i < |s.sides| ensures Spent(s'.prayers, i) == Spent(s.prayers, i) {
        SpentUpdate(s.prayers, id, Posted(answered), i);
      }
    case Deliver =>
      var id := s.commands[0];
      var p := s.prayers[id];
      forall i | 0 <= i < |s.sides| ensures 0 <= s'.sides[i].energy == s'.sides[i].granted - Spent(s'.prayers, i) {
        SpentUpdate(s.prayers, id, Resolved(Verdict(s.sides[p.side], p)), i);
      }
    case Change(_, _, _) =>
    case End(_) =>
    case Release(_) =>
  }

  lemma StepSlots(s: State, e: Event)
    requires Inv(s) && Enabled(s, e)
    ensures SlotsOk(After(s, e))
  {
    hide Spent, EnergyOk;
    var s' := After(s, e);
    forall id: nat | Asks(s', id) ensures id in s'.slots {
      if e.Pray? && id == |s.prayers| {
      } else {
        assert Asks(s, id);
      }
    }
  }

  lemma StepCommands(s: State, e: Event)
    requires Inv(s) && Enabled(s, e)
    ensures CommandsOk(After(s, e))
  {
    hide Spent, EnergyOk, SlotsOk, CommandsOk, Verdict, CostOf;
    match e
    case Reply(id, answered) => ReplyCommands(s, id, answered);
    case Deliver => DeliverCommands(s);
    case Pray(i, kind, oracle) => PrayCommands(s, After(s, e));
    case Start(_) => SameCommands(s, After(s, e));
    case Change(_, _, _) => SameCommands(s, After(s, e));
    case End(_) => SameCommands(s, After(s, e));
    case Release(_) => SameCommands(s, After(s, e));
  }

  lemma SameCommands(s: State, s': State)
    requires CommandsOk(s) && s'.prayers == s.prayers && s'.commands == s.commands
    ensures CommandsOk(s')
  {
  }

  lemma PrayCommands(s: State, s': State)
    requires CommandsOk(s) && s'.commands == s.commands && |s'.prayers| == |s.prayers| + 1
    requires s'.prayers[..|s.prayers|] == s.prayers && !s'.prayers[|s.prayers|].phase.Posted?
    ensures CommandsOk(s')
  {
    forall id | 0 <= id < |s.prayers| ensures s'.prayers[id] == s.prayers[id] {
      assert s'.prayers[..|s.prayers|][id] == s'.prayers[id];
    }
  }

  lemma ReplyCommands(s: State, id: nat, answered: bool)
    requires CommandsOk(s) && Enabled(s, Reply(id, answered))
    ensures CommandsOk(After(s, Reply(id, answered)))
  {
    var s' := After(s, Reply(id, answered));
    assert id !in s.commands;
    assert s'.commands[|s.commands|] == id;
  }

  lemma DeliverCommands(s: State)
    requires CommandsOk(s) && Enabled(s, Deliver)
    ensures CommandsOk(After(s, Deliver))
  {
    var s', id := After(s, Deliver), s.commands[0];
    assert id !in s'.commands;
    forall k | 0 <= k < |s'.prayers| && s'.prayers[k].phase.Posted? ensures k in s'.commands {
      assert k in s.commands && k != id;
    }
  }

  lemma StepInv(s: State, e: Event)
    requires Inv(s) && Enabled(s, e)
    ensures Inv(After(s, e))
  {
    StepEnergy(s, e);
    StepSlots(s, e);
    StepCommands(s, e);
  }

  // ----- Runs

  ghost predicate Steps(s: State, e: Event, s': State) {
    Enabled(s, e) && s' == After(s, e)
  }

  ghost predicate IsRun(states: seq<State>, events: seq<Event>) {
    |states| == |events| + 1 && Init(states[0])
    && forall i | 0 <= i < |events| :: Steps(states[i], events[i], states[i + 1])
  }

  lemma {:induction false} RunInv(states: seq<State>, events: seq<Event>, i: nat)
    requires IsRun(states, events) && i < |states|
    ensures Inv(states[i])
    ensures states[i].commands != [] ==> Enabled(states[i], Deliver)
  {
    assert Inv(states[i]) ==> states[i].commands != [] ==> Enabled(states[i], Deliver);
    hide Inv, Init, Enabled, After;
    if i == 0 {
      InitInv(states[0]);
    } else {
      RunInv(states, events, i - 1);
      assert Steps(states[i - 1], events[i - 1], states[i]);
      StepInv(states[i - 1], events[i - 1]);
    }
  }

  lemma InitInv(s: State)
    requires Init(s)
    ensures Inv(s)
  {
  }

  /** However things interleave, the oracle has at most four prayers to answer. */
  lemma FewAsk(states: seq<State>, events: seq<Event>, i: nat)
    requires IsRun(states, events) && i < |states|
    ensures |set id: nat | id < |states[i].prayers| && Asks(states[i], id)| <= MAX_PRAYERS
  {
    RunInv(states, events, i);
    hide After, Enabled, EnergyOk, CommandsOk, IsRun;
    var asking := set id: nat | id < |states[i].prayers| && Asks(states[i], id);
    Boards.CardinalityLe(asking, states[i].slots);
  }

  predicate IsResolved(s: State, id: nat) {
    id < |s.prayers| && s.prayers[id].phase.Resolved?
  }

  /** What a step does to a prayer: once resolved, nothing. It is resolved only by being
      refused a slot, or by its command; and it keeps its side, word and kind. */
  lemma StepPrayer(s: State, e: Event, id: nat)
    requires Inv(s) && Enabled(s, e) && id < |s.prayers|
    ensures id < |After(s, e).prayers|
    ensures var p, p' := s.prayers[id], After(s, e).prayers[id];
            && p' == p.(phase := p'.phase)
            && (p.phase.Resolved? ==> p' == p)
            && (p'.phase.Resolved? && !p.phase.Resolved? ==> e == Deliver && s.commands[0] == id)
  {
    hide Spent, EnergyOk;
  }

  lemma {:induction false} RunKeepsPrayer(states: seq<State>, events: seq<Event>, i: nat, j: nat, id: nat)
    requires IsRun(states, events) && i <= j < |states| && id < |states[i].prayers|
    ensures id < |states[j].prayers|
    ensures var p, p' := states[i].prayers[id], states[j].prayers[id];
            p' == p.(phase := p'.phase) && (p.phase.Resolved? ==> p' == p)
    decreases j - i
  {
    hide After, Enabled, Inv, Init;
    if i < j {
      RunKeepsPrayer(states, events, i, j - 1, id);
      RunInv(states, events, j - 1);
      assert Steps(states[j - 1], events[j - 1], states[j]);
      StepPrayer(states[j - 1], events[j - 1], id);
    }
  }

  /** Step k settles what becomes of prayer id. */
  predicate Settles(states: seq<State>, k: nat, id: nat) {
    k + 1 < |states| && !IsResolved(states[k], id) && IsResolved(states[k + 1], id)
  }

  /** No prayer is answered, refunded or dropped twice. */
  lemma SettledOnce(states: seq<State>, events: seq<Event>, k: nat, m: nat, id: nat)
    requires IsRun(states, events) && Settles(states, k, id) && Settles(states, m, id)
    ensures k == m
  {
    if k < m {
      RunKeepsPrayer(states, events, k + 1, m, id);
    } else if m < k {
      RunKeepsPrayer(states, events, m + 1, k, id);
    }
  }

  /** The step that settled a resolved prayer. */
  lemma {:induction false} SettledSometime(states: seq<State>, events: seq<Event>, i: nat, id: nat) returns (k: nat)
    requires IsRun(states, events) && i < |states| && IsResolved(states[i], id)
    ensures k < i && Settles(states, k, id)
  {
    if i == 0 {
      assert false;
    } else if IsResolved(states[i - 1], id) {
      k := SettledSometime(states, events, i - 1, id);
    } else {
      k := i - 1;
    }
  }

  /** What it means to settle a prayer, exactly. Either there was no god free to listen,
      and the energy never left; or its command came up: then it is dropped exactly when
      the duel it was for is over, answered exactly when it was heard and its word still
      stands, and refunded otherwise: to its own side, still playing, what it paid. */
  lemma SettledRightly(states: seq<State>, events: seq<Event>, k: nat, id: nat)
    requires IsRun(states, events) && Settles(states, k, id)
    ensures var s, s' := states[k], states[k + 1];
            var p' := s'.prayers[id];
            p'.side < |s.sides| <= |s'.sides| && p'.phase.Resolved? &&
            var before, after := s.sides[p'.side], s'.sides[p'.side];
            (forall i | 0 <= i < |s.sides| && i != p'.side :: s'.sides[i] == s.sides[i]) &&
            if id < |s.prayers| then
              && s.prayers[id] == p'.(phase := s.prayers[id].phase) && s.prayers[id].phase.Posted?
              && (p'.phase.outcome == Dropped <==> !before.live)
              && (p'.phase.outcome == Answered <==>
                    before.live && s.prayers[id].phase == Posted(true) && before.word == p'.word)
              && after == Plus(before, if p'.phase.outcome == Refunded then CostOf(p'.kind) else 0)
            else
              p'.phase.outcome == Refunded && before.live && after == before
  {
    RunInv(states, events, k);
    assert Steps(states[k], events[k], states[k + 1]);
    var s, e := states[k], events[k];
    if id < |s.prayers| {
      StepPrayer(s, e, id);
    }
    hide Spent, IsRun;
  }

  /** What becomes of a prayer at once, in every run. It is refunded on the spot if and only if
      there is no oracle, or four slots are held; otherwise the oracle is asked, a slot is
      held for it, and its side is the poorer by exactly what it costs: two for a minor
      prayer, six for a major one. */
  lemma HeardExactly(states: seq<State>, events: seq<Event>, k: nat)
    requires IsRun(states, events) && k < |events| && events[k].Pray?
    ensures var s, s', e, id := states[k], states[k + 1], events[k], |states[k].prayers|;
            && |s'.prayers| == id + 1 && s'.prayers[..id] == s.prayers
            && e.side < |s.sides| == |s'.sides|
            && s'.prayers[id].side == e.side && s'.prayers[id].word == s.sides[e.side].word && s'.prayers[id].kind == e.kind
            && (Settles(states, k, id) <==> !e.oracle || |s.slots| >= 4)
            && (Settles(states, k, id) ==> s' == s.(prayers := s'.prayers))
            && (!Settles(states, k, id) ==>
                  && Asks(s', id) && s'.slots == s.slots + {id}
                  && s'.sides[e.side].energy == s.sides[e.side].energy - (if e.kind == Minor then 2 else 6))
            && (forall i | 0 <= i < |s.sides| && i != e.side :: s'.sides[i] == s.sides[i])
  {
    assert Steps(states[k], events[k], states[k + 1]);
    var s, e := states[k], events[k];
    assert states[k + 1].prayers[..|s.prayers|] == s.prayers;
    var paid := s.sides[e.side := Plus(s.sides[e.side], 0 - CostOf(e.kind))];
    assert paid[e.side := Plus(paid[e.side], CostOf(e.kind))] == s.sides;
  }

  /** A slot is held from asking until it is given back, which the goroutine can do once it
      has posted its answer. */
  lemma HeldUntilGivenBack(states: seq<State>, events: seq<Event>, k: nat, id: nat)
    requires IsRun(states, events) && k < |events| && id in states[k].slots
    ensures id in states[k + 1].slots <==> events[k] != Release(id)
    ensures events[k] == Release(id) ==> !Asks(states[k], id)
  {
    assert Steps(states[k], events[k], states[k + 1]);
  }

  /** Once the oracle has spoken and every command is carried out, every prayer is settled
      and every slot that is not being given back is free. */
  lemma QuietSettled(states: seq<State>, events: seq<Event>, i: nat)
    requires IsRun(states, events) && i < |states|
    requires states[i].commands == [] && forall id: nat :: !Asks(states[i], id)
    ensures forall id | 0 <= id < |states[i].prayers| :: states[i].prayers[id].phase.Resolved?
    ensures forall id | id in states[i].slots :: Enabled(states[i], Release(id))
  {
    RunInv(states, events, i);
    forall id | 0 <= id < |states[i].prayers| ensures states[i].prayers[id].phase.Resolved? {
      assert !Asks(states[i], id);
    }
  }
}
