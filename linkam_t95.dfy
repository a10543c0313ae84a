/**
 * The simulated Linkam T95 temperature controller of
 * devices/linkam_t95/device.py: its closed context with the defaults it is
 * reset to, its table of states, its ordered table of guarded transitions,
 * and the strict overrides of both tables accepted on construction.
 */
module LinkamT95 {
  import opened Results
  import opened Utils

  /**
   * The device context. Its field set is fixed by the type, so no assignment
   * can introduce a field that `_initialize_data` did not define.
   */
  datatype Context = Context(
    serialCommandMode: bool,
    pumpOverspeed: bool,
    startCommanded: bool,
    stopCommanded: bool,
    holdCommanded: bool,
    temperatureRate: real,   // degrees C per minute
    temperatureLimit: real,  // target temperature, degrees C
    pumpSpeed: int,          // arbitrary unit, 0 to 30
    temperature: real,       // current temperature, degrees C
    pumpManualMode: bool,
    manualTargetSpeed: int)

  /** The handler objects of the states; a replacement handler supplied by an override is opaque here. */
  datatype StateHandler =
    | DefaultInitState
    | DefaultStoppedState
    | DefaultStartedState
    | DefaultHeatState
    | DefaultHoldState
    | DefaultCoolState
    | Replacement(name: string)

  /** A transition is keyed by its (source, target) pair. */
  type TransitionKey = (string, string)

  /** A guard reads the device's context at the time it is evaluated. */
  type Guard = Context -> bool

  const InitialState: string := "init"

  /** The keys of the state table, in the order they are written. */
  const StateOrder: seq<string> := ["init", "stopped", "started", "heat", "hold", "cool"]

  /** The default state table. */
  function DefaultStates(): map<string, StateHandler>
  {
    map[
      "init" := DefaultInitState,
      "stopped" := DefaultStoppedState,
      "started" := DefaultStartedState,
      "heat" := DefaultHeatState,
      "hold" := DefaultHoldState,
      "cool" := DefaultCoolState]
  }

  /** The keys of the transition table, in the order the OrderedDict keeps them. */
  const TransitionOrder: seq<TransitionKey> := [
    ("init", "stopped"),
    ("stopped", "started"),
    ("started", "stopped"),
    ("started", "heat"),
    ("started", "hold"),
    ("started", "cool"),
    ("heat", "hold"),
    ("heat", "cool"),
    ("heat", "stopped"),
    ("hold", "heat"),
    ("hold", "cool"),
    ("hold", "stopped"),
    ("cool", "heat"),
    ("cool", "hold"),
    ("cool", "stopped")]

  /** The default guards of the transition table. */
  function DefaultGuards(): map<TransitionKey, Guard>
  {
    map[
      ("init", "stopped") := (c: Context) => c.serialCommandMode,
      ("stopped", "started") := (c: Context) => c.startCommanded,
      ("started", "stopped") := (c: Context) => c.stopCommanded,
      ("started", "heat") := (c: Context) => c.temperature < c.temperatureLimit,
      ("started", "hold") := (c: Context) => c.temperature == c.temperatureLimit,
      ("started", "cool") := (c: Context) => c.temperature > c.temperatureLimit,
      ("heat", "hold") := (c: Context) => c.temperature == c.temperatureLimit || c.holdCommanded,
      ("heat", "cool") := (c: Context) => c.temperature > c.temperatureLimit,
      ("heat", "stopped") := (c: Context) => c.stopCommanded,
      ("hold", "heat") := (c: Context) => c.temperature < c.temperatureLimit && !c.holdCommanded,
      ("hold", "cool") := (c: Context) => c.temperature > c.temperatureLimit && !c.holdCommanded,
      ("hold", "stopped") := (c: Context) => c.stopCommanded,
      ("cool", "heat") := (c: Context) => c.temperature < c.temperatureLimit,
      ("cool", "hold") := (c: Context) => c.temperature == c.temperatureLimit || c.holdCommanded,
      ("cool", "stopped") := (c: Context) => c.stopCommanded]
  }

  /** What the device hands to its state machine: the state table and the ordered transition table. */
  datatype Tables = Tables(states: map<string, StateHandler>, order: seq<TransitionKey>, guards: map<TransitionKey, Guard>)

  /**
   * A consistent machine description: the initial state is a state, the
   * transition keys are listed once each and all have a guard, every
   * transition joins two states, and none leads back to its own source.
   */
  ghost predicate WellFormed(t: Tables)
  {
    && InitialState in t.states
    && (forall i, j :: 0 <= i < j < |t.order| ==> t.order[i] != t.order[j])
    && t.guards.Keys == Listed(t.order)
    && (forall i :: 0 <= i < |t.order| ==> t.order[i].0 in t.states && t.order[i].1 in t.states && t.order[i].0 != t.order[i].1)
  }

  function DefaultTables(): Tables
  {
    Tables(DefaultStates(), TransitionOrder, DefaultGuards())
  }

  /** The six state names are different strings. */
  lemma StateNamesDistinct()
    ensures "init" != "stopped" && "init" != "started" && "init" != "heat" && "init" != "hold" && "init" != "cool"
    ensures "stopped" != "started" && "stopped" != "heat" && "stopped" != "hold" && "stopped" != "cool"
    ensures "started" != "heat" && "started" != "hold" && "started" != "cool"
    ensures "heat" != "hold" && "heat" != "cool" && "hold" != "cool"
  {
    assert "stopped"[2] != "started"[2];
    assert "heat"[1] != "hold"[1];
    assert "heat"[0] != "cool"[0];
    assert "hold"[0] != "cool"[0];
  }

  /** The default transition table lists each key once. */
  lemma TransitionOrderDistinct()
    ensures forall i, j :: 0 <= i < j < |TransitionOrder| ==> TransitionOrder[i] != TransitionOrder[j]
  {
    StateNamesDistinct();
  }

  /** Every default transition joins two different states of the default state table. */
  lemma TransitionsJoinStates()
    ensures forall i :: 0 <= i < |TransitionOrder| ==>
              TransitionOrder[i].0 in DefaultStates() && TransitionOrder[i].1 in DefaultStates() &&
              TransitionOrder[i].0 != TransitionOrder[i].1
  {
    StateNamesDistinct();
  }

  /** The default description is consistent. */
  lemma DefaultTablesWellFormed()
    ensures WellFormed(DefaultTables())
  {
    TransitionOrderDistinct();
    TransitionsJoinStates();
    assert DefaultGuards().Keys == Listed(TransitionOrder);
  }

  /** An override that names something the default tables do not have. */
  datatype ConfigError = UnknownStates(names: set<string>) | UnknownTransitions(keys: set<TransitionKey>)

  /** `dict_strict_update` applied when an override is given (not None). */
  function Override<K, V>(table: map<K, V>, overrides: Option<map<K, V>>): Result<map<K, V>, set<K>>
  {
    if overrides.Some? then StrictUpdate(table, overrides.value) else Success(table)
  }

  /**
   * The tables the constructor builds from `base` (the device's defaults).
   * State overrides are checked first and their failure is reported before
   * transitions are looked at; an override naming an unknown state or
   * transition fails the whole construction, and a successful one changes only
   * values: the key sets and the transition order stay those of `base`, so a
   * consistent description stays consistent.
   */
  function Configure(base: Tables, overrideStates: Option<map<string, StateHandler>>, overrideTransitions: Option<map<TransitionKey, Guard>>)
    : (r: Result<Tables, ConfigError>)
    ensures overrideStates.Some? && (exists s :: s in overrideStates.value && s !in base.states) ==>
              r.Failure? && r.error.UnknownStates?
    ensures overrideTransitions.Some? && (exists k :: k in overrideTransitions.value && k !in base.guards) ==>
              r.Failure?
    ensures r.Failure? ==>
              (overrideStates.Some? && exists s :: s in overrideStates.value && s !in base.states) ||
              (overrideTransitions.Some? && exists k :: k in overrideTransitions.value && k !in base.guards)
    ensures r.Success? && WellFormed(base) ==> WellFormed(r.value)
    ensures r.Success? ==> r.value.states.Keys == base.states.Keys && r.value.guards.Keys == base.guards.Keys
    ensures r.Success? ==> r.value.order == base.order
    ensures r.Success? ==> forall s :: s in base.states ==>
              r.value.states[s] == if overrideStates.Some? && s in overrideStates.value then overrideStates.value[s] else base.states[s]
    ensures r.Success? ==> forall k :: k in base.guards ==>
              r.value.guards[k] == if overrideTransitions.Some? && k in overrideTransitions.value then overrideTransitions.value[k] else base.guards[k]
  {
    match Override(base.states, overrideStates)
    case Failure(names) => Failure(UnknownStates(names))
    case Success(states) =>
      match Override(base.guards, overrideTransitions)
      case Failure(keys) => Failure(UnknownTransitions(keys))
      case Success(guards) => Success(Tables(states, base.order, guards))
  }

  /** No overrides give the defaults back; an override by nothing is the same as no override. */
  lemma ConfigureDefaults(base: Tables)
    ensures Configure(base, None, None) == Success(base)
    ensures Configure(base, Some(map[]), Some(map[])) == Success(base)
  {
    StrictUpdateEmpty(base.states);
    StrictUpdateEmpty(base.guards);
  }

  // ------------------------------------------------------------------------
  // Properties of the default guards and of their order

  function G(source: string, target: string): Guard
    requires (source, target) in DefaultGuards()
  {
    DefaultGuards()[(source, target)]
  }

  /** Out of 'started', exactly one of heat, hold and cool is enabled, whatever the temperatures. */
  lemma StartedPicksOneDirection(c: Context)
    ensures (if G("started", "heat")(c) then 1 else 0)
          + (if G("started", "hold")(c) then 1 else 0)
          + (if G("started", "cool")(c) then 1 else 0) == 1
  {
  }

  /** While a hold is commanded the device cannot leave 'hold' by temperature, and heat and cool both go to 'hold'. */
  lemma HoldCommandPinsHold(c: Context)
    requires c.holdCommanded
    ensures !G("hold", "heat")(c) && !G("hold", "cool")(c)
    ensures G("heat", "hold")(c) && G("cool", "hold")(c)
  {
  }

  /**
   * 'init' can leave only to 'stopped', when serial command mode is on;
   * 'stopped' can leave only to 'started', when a start is commanded.
   */
  lemma InitAndStoppedExits(c: Context)
    ensures forall i :: 0 <= i < |TransitionOrder| && TransitionOrder[i].0 == "init" ==> TransitionOrder[i].1 == "stopped"
    ensures forall i :: 0 <= i < |TransitionOrder| && TransitionOrder[i].0 == "stopped" ==> TransitionOrder[i].1 == "started"
    ensures G("init", "stopped")(c) == c.serialCommandMode
    ensures G("stopped", "started")(c) == c.startCommanded
  {
    StateNamesDistinct();
  }

  /**
   * No transition out of 'started' is listed before its way to 'stopped', and
   * none out of 'heat', 'hold' or 'cool' is listed after theirs.
   */
  lemma StopOrdering()
    ensures forall i, j :: 0 <= i < j < |TransitionOrder| && TransitionOrder[i].0 == "started" && TransitionOrder[j].0 == "started" ==>
              TransitionOrder[j].1 != "stopped"
    ensures forall i, j :: 0 <= i < j < |TransitionOrder| && TransitionOrder[i].0 == TransitionOrder[j].0 &&
                           TransitionOrder[i].0 in {"heat", "hold", "cool"} ==>
              TransitionOrder[i].1 != "stopped"
  {
    StateNamesDistinct();
  }

  // ------------------------------------------------------------------------
  // The first enabled transition

  /**
   * MODELLING ASSUMPTION: the state machine engine is not part of this model.
   * This selector takes, out of `state`, the first transition in table order
   * whose source is `state` and whose guard holds on the context, which is how
   * the ordered table handed to the engine is meant to be read.
   */
  function FirstEnabled(order: seq<TransitionKey>, guards: map<TransitionKey, Guard>, state: string, c: Context)
    : (r: Option<string>)
    requires forall i :: 0 <= i < |order| ==> order[i] in guards
    ensures r.Some? <==> exists i :: 0 <= i < |order| && order[i].0 == state && guards[order[i]](c)
    ensures r.Some? ==> exists i :: 0 <= i < |order| && order[i] == (state, r.value) && guards[order[i]](c) &&
                          forall j :: 0 <= j < i && order[j].0 == state ==> !guards[order[j]](c)
  {
    if order == [] then
      None
    else if order[0].0 == state && guards[order[0]](c) then
      Some(order[0].1)
    else
      var r := FirstEnabled(order[1..], guards, state, c);
      assert forall i :: 1 <= i < |order| ==> order[i] == order[1..][i - 1];
      r
  }

  /** The transition taken is the one at the first index whose source is `state` and whose guard holds. */
  lemma {:induction false} FirstEnabledAt(order: seq<TransitionKey>, guards: map<TransitionKey, Guard>, state: string, c: Context, i: nat)
    requires forall j :: 0 <= j < |order| ==> order[j] in guards
    requires i < |order| && order[i].0 == state && guards[order[i]](c)
    requires forall j :: 0 <= j < i && order[j].0 == state ==> !guards[order[j]](c)
    ensures FirstEnabled(order, guards, state, c) == Some(order[i].1)
  {
    if i > 0 {
      assert !(order[0].0 == state && guards[order[0]](c));
      FirstEnabledAt(order[1..], guards, state, c, i - 1);
    }
  }

  /**
   * Where each default state leaves to, written out from the guards: the
   * reference the ordered default table is checked against.
   */
  function Next(state: string, c: Context): Option<string>
  {
    var below, at, above := c.temperature < c.temperatureLimit, c.temperature == c.temperatureLimit, c.temperature > c.temperatureLimit;
    if state == "init" then
      if c.serialCommandMode then Some("stopped") else None
    else if state == "stopped" then
      if c.startCommanded then Some("started") else None
    else if state == "started" then
      if c.stopCommanded then Some("stopped") else if below then Some("heat") else if at then Some("hold") else Some("cool")
    else if state == "heat" then
      if at || c.holdCommanded then Some("hold") else if above then Some("cool") else if c.stopCommanded then Some("stopped") else None
    else if state == "hold" then
      if below && !c.holdCommanded then Some("heat") else if above && !c.holdCommanded then Some("cool")
      else if c.stopCommanded then Some("stopped") else None
    else if state == "cool" then
      if below then Some("heat") else if at || c.holdCommanded then Some("hold") else if c.stopCommanded then Some("stopped") else None
    else
      None
  }

  /** Every key of the default order has a default guard. */
  lemma DefaultGuardsCoverOrder()
    ensures forall i :: 0 <= i < |TransitionOrder| ==> TransitionOrder[i] in DefaultGuards()
  {
    DefaultTablesWellFormed();
  }

  /** Every default transition leaves from one of the six default states. */
  lemma SourcesAreDefaultStates()
    ensures forall i :: 0 <= i < |TransitionOrder| ==> TransitionOrder[i].0 in StateOrder
  {
  }

  /**
   * The first transition enabled among the listed indices of the table, in
   * the order they are listed.
   */
  function FirstAmong(order: seq<TransitionKey>, guards: map<TransitionKey, Guard>, c: Context, idx: seq<nat>): Option<string>
    requires forall n :: 0 <= n < |idx| ==> idx[n] < |order| && order[idx[n]] in guards
  {
    if idx == [] then None
    else if guards[order[idx[0]]](c) then Some(order[idx[0]].1)
    else FirstAmong(order, guards, c, idx[1..])
  }

  /**
   * When `idx` lists, in increasing order, indices of transitions out of
   * `state` and includes every enabled one, the first enabled transition of
   * the whole table is the first enabled among `idx`.
   */
  lemma {:induction false} FirstEnabledAmong(order: seq<TransitionKey>, guards: map<TransitionKey, Guard>, state: string, c: Context, idx: seq<nat>)
    requires forall j :: 0 <= j < |order| ==> order[j] in guards
    requires forall n :: 0 <= n < |idx| ==> idx[n] < |order| && order[idx[n]].0 == state
    requires forall n, m :: 0 <= n < m < |idx| ==> idx[n] < idx[m]
    requires forall j :: 0 <= j < |order| && order[j].0 == state && guards[order[j]](c) ==> j in idx
    ensures FirstEnabled(order, guards, state, c) == FirstAmong(order, guards, c, idx)
  {
    if idx == [] {
    } else if guards[order[idx[0]]](c) {
      FirstEnabledAt(order, guards, state, c, idx[0]);
    } else {
      var rest := idx[1..];
      assert forall j :: 0 <= j < |order| && order[j].0 == state && guards[order[j]](c) ==> j in rest by {
        forall j | 0 <= j < |order| && order[j].0 == state && guards[order[j]](c)
          ensures j in rest
        {
          assert j in idx && j != idx[0];
        }
      }
      FirstEnabledAmong(order, guards, state, c, rest);
    }
  }

  /** The indices of the default transitions out of each default state. */
  function OutOf(state: string): seq<nat>
  {
    if state == "init" then [0]
    else if state == "stopped" then [1]
    else if state == "started" then [2, 3, 4, 5]
    else if state == "heat" then [6, 7, 8]
    else if state == "hold" then [9, 10, 11]
    else if state == "cool" then [12, 13, 14]
    else []
  }

  /** `OutOf(state)` lists, in table order, exactly the default transitions out of `state`. */
  lemma OutOfListsSources(state: string)
    ensures forall n :: 0 <= n < |OutOf(state)| ==> OutOf(state)[n] < |TransitionOrder| && TransitionOrder[OutOf(state)[n]].0 == state
    ensures forall n, m :: 0 <= n < m < |OutOf(state)| ==> OutOf(state)[n] < OutOf(state)[m]
    ensures forall j :: 0 <= j < |TransitionOrder| && TransitionOrder[j].0 == state ==> j in OutOf(state)
  {
    OutOfAreSources(state);
    OutOfCoversSources(state);
  }

  lemma OutOfAreSources(state: string)
    ensures forall n :: 0 <= n < |OutOf(state)| ==> OutOf(state)[n] < |TransitionOrder| && TransitionOrder[OutOf(state)[n]].0 == state
  {
    StateNamesDistinct();
    if state == "init" {
    } else if state == "stopped" {
    } else if state == "started" {
    } else if state == "heat" {
    } else if state == "hold" {
    } else if state == "cool" {
    } else {
      SourcesAreDefaultStates();
    }
  }

  lemma OutOfCoversSources(state: string)
    ensures forall j :: 0 <= j < |TransitionOrder| && TransitionOrder[j].0 == state ==> j in OutOf(state)
  {
    StateNamesDistinct();
    if state == "init" {
    } else if state == "stopped" {
    } else if state == "started" {
    } else if state == "heat" {
    } else if state == "hold" {
    } else if state == "cool" {
    } else {
      SourcesAreDefaultStates();
    }
  }

  /** `FirstAmong` over a list of indices, unrolled one step. */
  lemma FirstAmongCons(order: seq<TransitionKey>, guards: map<TransitionKey, Guard>, c: Context, i: nat, rest: seq<nat>)
    requires i < |order| && order[i] in guards
    requires forall n :: 0 <= n < |rest| ==> rest[n] < |order| && order[rest[n]] in guards
    ensures FirstAmong(order, guards, c, [i] + rest) ==
            if guards[order[i]](c) then Some(order[i].1) else FirstAmong(order, guards, c, rest)
  {
    assert ([i] + rest)[1..] == rest;
  }

  lemma InitAmongIsNext(c: Context)
    ensures (DefaultGuardsCoverOrder(); FirstAmong(TransitionOrder, DefaultGuards(), c, [0]) == Next("init", c))
  {
    DefaultGuardsCoverOrder();
    StateNamesDistinct();
    FirstAmongCons(TransitionOrder, DefaultGuards(), c, 0, []);
  }

  lemma StoppedAmongIsNext(c: Context)
    ensures (DefaultGuardsCoverOrder(); FirstAmong(TransitionOrder, DefaultGuards(), c, [1]) == Next("stopped", c))
  {
    DefaultGuardsCoverOrder();
    StateNamesDistinct();
    FirstAmongCons(TransitionOrder, DefaultGuards(), c, 1, []);
  }

  /** The default guards of the transitions out of 'started', as conditions on the context. */
  lemma StartedGuards(c: Context)
    ensures (DefaultGuardsCoverOrder();
             && DefaultGuards()[TransitionOrder[2]](c) == c.stopCommanded
             && DefaultGuards()[TransitionOrder[3]](c) == (c.temperature < c.temperatureLimit)
             && DefaultGuards()[TransitionOrder[4]](c) == (c.temperature == c.temperatureLimit)
             && DefaultGuards()[TransitionOrder[5]](c) == (c.temperature > c.temperatureLimit))
  {
    DefaultGuardsCoverOrder();
    StateNamesDistinct();
  }

  lemma StartedAmongIsNext(c: Context)
    ensures (DefaultGuardsCoverOrder(); FirstAmong(TransitionOrder, DefaultGuards(), c, [2, 3, 4, 5]) == Next("started", c))
  {
    DefaultGuardsCoverOrder();
    StateNamesDistinct();
    StartedGuards(c);
    FirstAmongCons(TransitionOrder, DefaultGuards(), c, 5, []);
    FirstAmongCons(TransitionOrder, DefaultGuards(), c, 4, [5]);
    FirstAmongCons(TransitionOrder, DefaultGuards(), c, 3, [4, 5]);
    FirstAmongCons(TransitionOrder, DefaultGuards(), c, 2, [3, 4, 5]);
  }

  lemma HeatAmongIsNext(c: Context)
    ensures (DefaultGuardsCoverOrder(); FirstAmong(TransitionOrder, DefaultGuards(), c, [6, 7, 8]) == Next("heat", c))
  {
    DefaultGuardsCoverOrder();
    StateNamesDistinct();
    FirstAmongCons(TransitionOrder, DefaultGuards(), c, 8, []);
    FirstAmongCons(TransitionOrder, DefaultGuards(), c, 7, [8]);
    FirstAmongCons(TransitionOrder, DefaultGuards(), c, 6, [7, 8]);
  }

  lemma HoldAmongIsNext(c: Context)
    ensures (DefaultGuardsCoverOrder(); FirstAmong(TransitionOrder, DefaultGuards(), c, [9, 10, 11]) == Next("hold", c))
  {
    DefaultGuardsCoverOrder();
    StateNamesDistinct();
    FirstAmongCons(TransitionOrder, DefaultGuards(), c, 11, []);
    FirstAmongCons(TransitionOrder, DefaultGuards(), c, 10, [11]);
    FirstAmongCons(TransitionOrder, DefaultGuards(), c, 9, [10, 11]);
  }

  lemma CoolAmongIsNext(c: Context)
    ensures (DefaultGuardsCoverOrder(); FirstAmong(TransitionOrder, DefaultGuards(), c, [12, 13, 14]) == Next("cool", c))
  {
    DefaultGuardsCoverOrder();
    StateNamesDistinct();
    FirstAmongCons(TransitionOrder, DefaultGuards(), c, 14, []);
    FirstAmongCons(TransitionOrder, DefaultGuards(), c, 13, [14]);
    FirstAmongCons(TransitionOrder, DefaultGuards(), c, 12, [13, 14]);
  }

  /** The default guards, read through `OutOf`, give `Next`. */
  lemma FirstAmongIsNext(state: string, c: Context)
    requires state in StateOrder
    ensures (OutOfListsSources(state); DefaultGuardsCoverOrder();
             FirstAmong(TransitionOrder, DefaultGuards(), c, OutOf(state)) == Next(state, c))
  {
    OutOfListsSources(state);
    if state == "init" {
      InitAmongIsNext(c);
    } else if state == "stopped" {
      StoppedAmongIsNext(c);
    } else if state == "started" {
      StartedAmongIsNext(c);
    } else if state == "heat" {
      HeatAmongIsNext(c);
    } else if state == "hold" {
      HoldAmongIsNext(c);
    } else {
      CoolAmongIsNext(c);
    }
  }

  /**
   * Read in table order, the default transition table moves every state
   * exactly as `Next` says; a name that is not a state has no way out.
   */
  lemma DefaultTableFollowsNext(state: string, c: Context)
    ensures (DefaultGuardsCoverOrder(); FirstEnabled(TransitionOrder, DefaultGuards(), state, c) == Next(state, c))
  {
    DefaultGuardsCoverOrder();
    OutOfListsSources(state);
    if state in StateOrder {
      FirstEnabledAmong(TransitionOrder, DefaultGuards(), state, c, OutOf(state));
      FirstAmongIsNext(state, c);
    } else {
      SourcesAreDefaultStates();
    }
  }

  /** Out of 'started', a commanded stop wins over every temperature transition. */
  lemma StopWinsInStarted(c: Context)
    requires c.stopCommanded
    ensures (DefaultGuardsCoverOrder(); FirstEnabled(TransitionOrder, DefaultGuards(), "started", c) == Some("stopped"))
  {
    StateNamesDistinct();
    DefaultTableFollowsNext("started", c);
  }

  /**
   * Out of 'heat' and 'cool', a commanded stop waits while a temperature
   * transition is enabled: with the target reached both go to 'hold' first.
   */
  lemma StopWaitsForHold(state: string, c: Context)
    requires state == "heat" || state == "cool"
    requires c.stopCommanded && c.temperature == c.temperatureLimit
    ensures (DefaultGuardsCoverOrder(); FirstEnabled(TransitionOrder, DefaultGuards(), state, c) == Some("hold"))
  {
    DefaultGuardsCoverOrder();
    if state == "heat" {
      DefaultTableFollowsNext("heat", c);
      assert Next("heat", c) == Some("hold");
    } else {
      DefaultTableFollowsNext("cool", c);
      assert Next("cool", c) == Some("hold") by {
        StateNamesDistinct();
      }
    }
  }

  /** The state names are listed once each, and they are the keys of the default state table. */
  lemma StateOrderListsStates()
    ensures forall i, j :: 0 <= i < j < |StateOrder| ==> StateOrder[i] != StateOrder[j]
    ensures DefaultStates().Keys == Listed(StateOrder)
  {
    StateNamesDistinct();
  }

  // ------------------------------------------------------------------------
  // The device

  /** The context `_initialize_data` puts the device in. */
  const Defaults: Context := Context(
    serialCommandMode := false, pumpOverspeed := false,
    startCommanded := false, stopCommanded := false, holdCommanded := false,
    temperatureRate := 5.0, temperatureLimit := 0.0,
    pumpSpeed := 0, temperature := 24.0,
    pumpManualMode := false, manualTargetSpeed := 0)


  /**
   * The simulated device: its context, and the state and transition tables it
   * hands to its state machine, which starts in 'init'.
   */
  class SimulatedLinkamT95 {
    var data: Context
    const stateHandlers: Dict<string, StateHandler>
    const transitionHandlers: Dict<TransitionKey, Guard>
    const initial: string

    ghost function Machine(): Tables
      reads this, stateHandlers, transitionHandlers
    {
      Tables(stateHandlers.items, transitionHandlers.order, transitionHandlers.items)
    }

    ghost predicate Valid()
      reads this, stateHandlers, transitionHandlers
    {
      stateHandlers.Valid() && transitionHandlers.Valid() && initial == InitialState && WellFormed(Machine())
    }

    /**
     * `_initialize_data`: sets every field of the context to its default,
     * whatever it held before, so calling it again resets the device.
     */
    method InitializeData()
      modifies this
      ensures data == Defaults
    {
      data := data.(serialCommandMode := false, pumpOverspeed := false);
      data := data.(startCommanded := false, stopCommanded := false, holdCommanded := false);
      data := data.(temperatureRate := 5.0, temperatureLimit := 0.0);
      data := data.(pumpSpeed := 0, temperature := 24.0);
      data := data.(pumpManualMode := false, manualTargetSpeed := 0);
    }

    /** The device around tables that passed the override checks, with its context at the defaults. */
    constructor FromTables(states: Dict<string, StateHandler>, transitions: Dict<TransitionKey, Guard>)
      ensures stateHandlers == states && transitionHandlers == transitions && initial == InitialState
      ensures data == Defaults
    {
      stateHandlers := states;
      transitionHandlers := transitions;
      initial := InitialState;
      new;
      InitializeData();
    }

    /**
     * `SimulatedLinkamT95(override_states, override_transitions)`: builds the
     * default tables, strictly updates each with its override, and fails on
     * the first override that names something unknown, as `Configure` states.
     */
    static method Create(overrideStates: Option<map<string, StateHandler>>, overrideTransitions: Option<map<TransitionKey, Guard>>)
      returns (r: Result<SimulatedLinkamT95, ConfigError>)
      ensures r.Failure? <==> Configure(DefaultTables(), overrideStates, overrideTransitions).Failure?
      ensures r.Failure? ==> r.error == Configure(DefaultTables(), overrideStates, overrideTransitions).error
      ensures r.Success? ==> fresh(r.value) && fresh(r.value.stateHandlers) && fresh(r.value.transitionHandlers)
      ensures r.Success? ==> r.value.Valid() && r.value.data == Defaults &&
                             r.value.Machine() == Configure(DefaultTables(), overrideStates, overrideTransitions).value
    {
      DefaultTablesWellFormed();
      StateOrderListsStates();
      r := Build(StateOrder, DefaultTables(), overrideStates, overrideTransitions);
    }

    /** The construction over any consistent default tables whose state keys `stateOrder` lists once each. */
    static method Build(stateOrder: seq<string>, base: Tables,
                        overrideStates: Option<map<string, StateHandler>>, overrideTransitions: Option<map<TransitionKey, Guard>>)
      returns (r: Result<SimulatedLinkamT95, ConfigError>)
      requires WellFormed(base)
      requires (forall i, j :: 0 <= i < j < |stateOrder| ==> stateOrder[i] != stateOrder[j]) && base.states.Keys == Listed(stateOrder)
      ensures r.Failure? <==> Configure(base, overrideStates, overrideTransitions).Failure?
      ensures r.Failure? ==> r.error == Configure(base, overrideStates, overrideTransitions).error
      ensures r.Success? ==> fresh(r.value) && fresh(r.value.stateHandlers) && fresh(r.value.transitionHandlers)
      ensures r.Success? ==> r.value.Valid() && r.value.data == Defaults &&
                             r.value.Machine() == Configure(base, overrideStates, overrideTransitions).value
    {
      var states := new Dict(stateOrder, base.states);
      if overrideStates.Some? {
        var outcome := DictStrictUpdate(states, overrideStates.value);
        if outcome.Fail? {
          return Failure(UnknownStates(outcome.error));
        }
      }
      var transitions := new Dict(base.order, base.guards);
      if overrideTransitions.Some? {
        var outcome := DictStrictUpdate(transitions, overrideTransitions.value);
        if outcome.Fail? {
          return Failure(UnknownTransitions(outcome.error));
        }
      }
      var device := new SimulatedLinkamT95.FromTables(states, transitions);
      r := Success(device);
    }
  }
}
