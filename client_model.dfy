/**
 * The client side of an online game: the messages the server sends, the
 * objects the client keeps per game (player slots, the setup phase, the game,
 * its controller) and the pure rules the message listener applies to them.
 */
module ClientModel {
  import opened Wrappers

  /** `PlayerSlot.COUNT`: the number of seats a game offers. */
  const SlotCount: nat := 6

  /** Who holds a seat, as seen by this client. */
  datatype SlotState = Open | Own | Remote

  /** The server-side state a game message reports. */
  datatype GameState = GameOpen | GameRunning

  datatype Expansion = Expansion(name: string, implemented: bool)

  datatype CustomRule = CustomRule(name: string)

  /** A decoded saved game: what `asGame` restores from it. */
  datatype Snapshot = Snapshot(name: Option<string>, expansions: set<Expansion>, customRules: set<CustomRule>)

  /** The snapshot text carried by a game message: it decodes, or decoding raises an I/O error. */
  datatype SnapshotPayload = Decodable(snapshot: Snapshot) | Corrupt(raw: string)

  /** The exceptions the listener's handlers can raise. */
  datatype Exception = NullPointer | ClassCast | IndexOutOfBounds | NoSuchElement

  /** One seat as the server describes it; `number` is unchecked and may be out of range. */
  datatype SlotMessage = SlotMessage(
    gameId: Option<string>, number: int, nickname: Option<string>,
    owner: Option<string>, serial: Option<int>, aiClassName: Option<string>)

  datatype GameSetupMessage = GameSetupMessage(
    gameId: Option<string>, expansions: set<Expansion>, customRules: set<CustomRule>)

  datatype GameMessage = GameMessage(
    gameId: string, name: Option<string>, channel: Option<string>, state: GameState,
    snapshot: Option<SnapshotPayload>, gameSetup: GameSetupMessage, slots: seq<SlotMessage>)

  datatype RemoteClient = RemoteClient(sessionId: string, name: string)

  /** Remote-call arguments: they decode to values, or decoding throws. */
  datatype RmiArgs = Decodes(values: seq<string>) | Undecodable

  /**
   * Where a message is routed: the game id of an in-game message and the
   * channel of an in-channel message (`None` when the message is not of that
   * kind or the field is null).
   */
  datatype Route = Route(gameId: Option<string>, channel: Option<string>)

  datatype WsMessage =
    | GameMsg(game: GameMessage)
    | ChannelMsg(name: string)
    | GameSetupMsg(setup: GameSetupMessage)
    | SlotMsg(slot: SlotMessage)
    | SetExpansionMsg(gameId: Option<string>, expansion: Expansion, enabled: bool)
    | SetRuleMsg(gameId: Option<string>, rule: CustomRule, enabled: bool)
    | RmiMsg(gameId: Option<string>, methodName: string, args: RmiArgs)
    | UndoMsg(gameId: Option<string>)
    | ChatMsg(route: Route, sessionId: string, text: string)
    | ClientListMsg(route: Route, clients: seq<RemoteClient>)
    | ErrorMsg(code: int, message: string)

  /** The route of each message kind. */
  function RouteOf(msg: WsMessage): Route
  {
    match msg
    case GameMsg(g) => Route(Some(g.gameId), None)
    case ChannelMsg(_) => Route(None, None)
    case GameSetupMsg(s) => Route(s.gameId, None)
    case SlotMsg(s) => Route(s.gameId, None)
    case SetExpansionMsg(id, _, _) => Route(id, None)
    case SetRuleMsg(id, _, _) => Route(id, None)
    case RmiMsg(id, _, _) => Route(id, None)
    case UndoMsg(id) => Route(id, None)
    case ChatMsg(r, _, _) => r
    case ClientListMsg(r, _) => r
    case ErrorMsg(_, _) => Route(None, None)
  }

  /** Events posted on a game's event bus. */
  datatype GameEvent =
    | ExpansionChanged(expansion: Expansion, enabled: bool)
    | RuleChanged(rule: CustomRule, enabled: bool)
    | PlayerSlotChanged(number: int)

  /** A remote call delivered to the active phase. */
  datatype Invocation = Invocation(methodName: string, args: seq<string>)

  datatype PhaseKind = CreateGame | LoadGame

  /** A seat of a game being set up; `updateSlot` rewrites its fields in place. */
  class PlayerSlot {
    const number: int
    var nickname: Option<string>
    var sessionId: Option<string>
    var state: SlotState
    var serial: Option<int>
    var aiClassName: Option<string>

    constructor (number: int)
      ensures this.number == number && nickname == None && sessionId == None
      ensures state == Open && serial == None && aiClassName == None
    {
      this.number := number;
      nickname := None;
      sessionId := None;
      state := Open;
      serial := None;
      aiClassName := None;
    }
  }

  /**
   * The setup phase a game starts in: `CreateGamePhase`, or its subclass
   * `LoadGamePhase`, which also holds the snapshot being resumed.
   */
  class SetupPhase {
    const kind: PhaseKind
    const snapshot: Option<Snapshot>
    var slots: array?<PlayerSlot?>
    /** Remote calls invoked on this phase, in order. */
    var invocations: seq<Invocation>
    /** How many times `startGame` was called. */
    var startGameCalls: nat

    constructor (kind: PhaseKind, snapshot: Option<Snapshot>)
      ensures this.kind == kind && this.snapshot == snapshot
      ensures slots == null && invocations == [] && startGameCalls == 0
    {
      this.kind := kind;
      this.snapshot := snapshot;
      slots := null;
      invocations := [];
      startGameCalls := 0;
    }
  }

  /** The client's copy of a game. */
  class Game {
    const gameId: string
    var name: Option<string>
    var expansions: set<Expansion>
    var customRules: set<CustomRule>
    /** The active phase (`getPhase`). */
    var phase: SetupPhase?
    /** The phase registry (`getPhases`), keyed by phase class. */
    var phases: map<PhaseKind, SetupPhase>
    /** Events posted on the game, in order. */
    var events: seq<GameEvent>
    /** How many times `undo` was called. */
    var undoCount: nat

    /** `new Game(gameId)`: a new, empty game. */
    constructor (gameId: string)
      ensures this.gameId == gameId && name == None && expansions == {} && customRules == {}
      ensures phase == null && phases == map[] && events == [] && undoCount == 0
    {
      this.gameId := gameId;
      name := None;
      expansions := {};
      customRules := {};
      phase := null;
      phases := map[];
      events := [];
      undoCount := 0;
    }

    /** `snapshot.asGame(gameId)`: the game a saved snapshot describes. */
    constructor FromSnapshot(gameId: string, s: Snapshot)
      ensures this.gameId == gameId && name == s.name
      ensures expansions == s.expansions && customRules == s.customRules
      ensures phase == null && phases == map[] && events == [] && undoCount == 0
    {
      this.gameId := gameId;
      name := s.name;
      expansions := s.expansions;
      customRules := s.customRules;
      phase := null;
      phases := map[];
      events := [];
      undoCount := 0;
    }

    /** The active phase, as a set (empty when there is none). */
    function ActivePhase(): set<SetupPhase>
      reads this`phase
    {
      if phase != null then {phase} else {}
    }

    /** The slot array of the active phase, as a set. */
    function SlotArray(): set<array<PlayerSlot?>>
      reads this`phase, ActivePhase()`slots
    {
      if phase != null && phase.slots != null then {phase.slots} else {}
    }

    /** The slot object `updateSlot` rewrites for number `n`, if there is one. */
    function SlotCell(n: int): (c: set<PlayerSlot>)
      reads this`phase, ActivePhase()`slots, SlotArray()
      ensures c <= Cells()
    {
      if phase != null && phase.slots != null then SlotAt(phase.slots, n) else {}
    }

    /** Every slot object of the active phase. */
    function Cells(): set<PlayerSlot>
      reads this`phase, ActivePhase()`slots, SlotArray()
    {
      if phase != null && phase.slots != null then SlotObjects(phase.slots) else {}
    }

    /** The slot array is present and `n` names a slot object in it. */
    predicate HasSlot(n: int)
      reads this`phase, ActivePhase()`slots, SlotArray()
    {
      phase != null && phase.slots != null && 0 <= n < phase.slots.Length && phase.slots[n] != null
    }

    /** What every cell of the active slot array shows (empty without one). */
    function Views(): (v: seq<Option<SlotView>>)
      reads this`phase, ActivePhase()`slots, SlotArray(), Cells()
      ensures forall n :: HasSlot(n) <==> 0 <= n < |v| && v[n].Some?
    {
      if phase != null && phase.slots != null then CellViews(phase.slots) else []
    }

    /**
     * Every slot object sits at the index of its own number, as
     * `createGameController` stores it, so no two cells share an object.
     */
    ghost predicate Numbered()
      reads this`phase, ActivePhase()`slots, SlotArray()
    {
      phase != null && phase.slots != null ==> NumberedCells(phase.slots)
    }

    /** The exception `handleSlot` raises for number `n` when `n` names no slot object. */
    function SlotFault(n: int): Exception
      reads this`phase, ActivePhase()`slots
    {
      if phase != null && phase.slots != null then CellFault(phase.slots, n) else NullPointer
    }

    /** What the game shows of its setup, as a value. */
    function Setup(): SetupView
      reads this`expansions, this`customRules, this`events, this`phase, ActivePhase()`slots, SlotArray(), Cells()
    {
      SetupView(expansions, customRules, events, Views())
    }

    /**
     * `handleSetExpansion` on this game: the expansion is in the set exactly
     * when `enabled`, the rest of the set is unchanged, and the change is posted.
     */
    method SetExpansion(e: Expansion, enabled: bool)
      modifies this`expansions, this`events
      ensures expansions == Toggled(old(expansions), e, enabled)
      ensures events == old(events) + [ExpansionChanged(e, enabled)]
    {
      if enabled {
        expansions := expansions + {e};
      } else {
        expansions := expansions - {e};
      }
      events := events + [ExpansionChanged(e, enabled)];
    }

    /** `handleSetRule` on this game: the same for custom rules. */
    method SetRule(rule: CustomRule, enabled: bool)
      modifies this`customRules, this`events
      ensures customRules == Toggled(old(customRules), rule, enabled)
      ensures events == old(events) + [RuleChanged(rule, enabled)]
    {
      if enabled {
        customRules := customRules + {rule};
      } else {
        customRules := customRules - {rule};
      }
      events := events + [RuleChanged(rule, enabled)];
    }

    /**
     * `handleGameSetup` on this game: both sets are replaced, then one event
     * per implemented expansion of the catalogue and one per custom rule
     * reports its membership in the new set.
     */
    method ApplySetup(m: GameSetupMessage, expansionValues: seq<Expansion>, ruleValues: seq<CustomRule>)
      modifies this`expansions, this`customRules, this`events
      ensures expansions == m.expansions && customRules == m.customRules
      ensures events == old(events) + ExpansionEvents(expansionValues, m.expansions) + RuleEvents(ruleValues, m.customRules)
    {
      expansions := m.expansions;
      customRules := m.customRules;
      var i := 0;
      while i < |expansionValues|
        invariant 0 <= i <= |expansionValues|
        invariant expansions == m.expansions && customRules == m.customRules
        invariant events == old(events) + ExpansionEvents(expansionValues[..i], m.expansions)
      {
        assert expansionValues[..i + 1][..i] == expansionValues[..i];
        var e := expansionValues[i];
        if e.implemented {
          events := events + [ExpansionChanged(e, e in expansions)];
        }
        i := i + 1;
      }
      assert expansionValues[..i] == expansionValues;
      var base := events;
      var j := 0;
      while j < |ruleValues|
        invariant 0 <= j <= |ruleValues|
        invariant expansions == m.expansions && customRules == m.customRules
        invariant events == base + RuleEvents(ruleValues[..j], m.customRules)
      {
        assert ruleValues[..j + 1][..j] == ruleValues[..j];
        var r := ruleValues[j];
        events := events + [RuleChanged(r, r in customRules)];
        j := j + 1;
      }
      assert ruleValues[..j] == ruleValues;
    }

    /** `undo`: counted. */
    method Undo()
      modifies this`undoCount
      ensures undoCount == old(undoCount) + 1
    {
      undoCount := undoCount + 1;
    }

    /**
     * `handleSlot` on this game: the slot is updated from the message and its
     * change posted; a missing phase or slot array, a bad number and an empty
     * cell raise and post nothing.
     */
    method ApplySlot(m: SlotMessage, local: string) returns (o: Outcome<Exception>)
      modifies this`events, SlotCell(m.number)
      ensures (phase == null || phase.slots == null) ==> o == Fail(NullPointer)
      ensures phase != null && phase.slots != null ==>
                && (o == Fail(IndexOutOfBounds) <==> !(0 <= m.number < phase.slots.Length))
                && (o == Fail(NullPointer) <==> 0 <= m.number < phase.slots.Length && phase.slots[m.number] == null)
      ensures o == Pass <==> HasSlot(m.number)
      ensures o == Pass ==> SlotShows(phase.slots[m.number], m, local)
      ensures o.Fail? ==> o.error == SlotFault(m.number)
      ensures events == old(events) + (if o == Pass then [PlayerSlotChanged(m.number)] else [])
      ensures Numbered() ==> Views() == Step(old(Views()), m, local)
    {
      if phase == null || phase.slots == null {
        return Fail(NullPointer);
      }
      o := UpdateSlot(phase.slots, m, local);
      if o == Pass {
        events := events + [PlayerSlotChanged(m.number)];
      }
    }

    /**
     * `handleGame`'s loop over its slot messages, each handled as by
     * `handleSlot`: the messages apply in order up to the first one naming no
     * slot object, whose exception ends the loop. Each applied message posts
     * one change; each slot object shows the last applied message naming it,
     * and a slot object none of them names is left as it was.
     */
    method ApplySlots(ms: seq<SlotMessage>, local: string) returns (o: Outcome<Exception>)
      requires Numbered()
      modifies this`events, Cells()`nickname, Cells()`sessionId, Cells()`state, Cells()`serial, Cells()`aiClassName
      ensures var p := Applicable(old(Views()), ms);
              && (o == Pass <==> p == |ms|)
              && (o.Fail? ==> o.error == SlotFault(ms[p].number))
              && events == old(events) + SlotEvents(ms[..p])
              && Views() == Replay(old(Views()), ms[..p], local)
    {
      if phase == null || phase.slots == null {
        o := if ms == [] then Pass else Fail(NullPointer);
        return;
      }
      o, events := UpdateSlots(phase.slots, ms, local, events);
    }

    /**
     * `handleGame`'s lines after the registry step, on this game: the setup is
     * applied as by `handleGameSetup`, then the slot messages as by `ApplySlots`.
     */
    method ApplyGame(setup: GameSetupMessage, ms: seq<SlotMessage>, expansionValues: seq<Expansion>,
                     ruleValues: seq<CustomRule>, local: string) returns (o: Outcome<Exception>)
      requires Numbered()
      modifies this`expansions, this`customRules, this`events
      modifies Cells()`nickname, Cells()`sessionId, Cells()`state, Cells()`serial, Cells()`aiClassName
      ensures var p := Applicable(old(Views()), ms);
              && (o == Pass <==> p == |ms|)
              && (o.Fail? ==> o.error == SlotFault(ms[p].number))
      ensures Setup() == Reception(old(Setup()), setup, ms, expansionValues, ruleValues, local)
    {
      ghost var before := Setup();
      ApplySetup(setup, expansionValues, ruleValues);
      assert Views() == before.cells;
      o := ApplySlots(ms, local);
    }

    /** `handleGameStarted`: the active phase's `startGame` runs once; with no phase the cast's receiver is null. */
    method StartGame() returns (o: Outcome<Exception>)
      modifies ActivePhase()`startGameCalls
      ensures o == Fail(NullPointer) <==> phase == null
      ensures phase != null ==> o == Pass && phase.startGameCalls == old(phase.startGameCalls) + 1
    {
      if phase == null {
        return Fail(NullPointer);
      }
      phase.startGameCalls := phase.startGameCalls + 1;
      o := Pass;
    }
  }

  /** UI-level events posted on a controller's event proxy. */
  datatype UiEvent =
    | ClientListChanged(clients: seq<RemoteClient>)
    | Chat(client: RemoteClient, text: string)

  class GameController {
    const game: Game
    var channel: Option<string>
    var remoteClients: seq<RemoteClient>
    var uiEvents: seq<UiEvent>

    constructor (game: Game)
      ensures this.game == game && channel == None && remoteClients == [] && uiEvents == []
    {
      this.game := game;
      channel := None;
      remoteClients := [];
      uiEvents := [];
    }
  }

  class ChannelController {
    const name: string
    var remoteClients: seq<RemoteClient>
    var uiEvents: seq<UiEvent>

    constructor (name: string)
      ensures this.name == name && remoteClients == [] && uiEvents == []
    {
      this.name := name;
      remoteClients := [];
      uiEvents := [];
    }
  }

  /** What `getController` can return besides null. */
  datatype Controller = GameCtl(gc: GameController) | ChannelCtl(cc: ChannelController)

  /** The views the client mounts. */
  datatype View = GameSetupView(gc: GameController, isNew: bool) | ChannelView(cc: ChannelController)

  /** The remote clients a controller knows. */
  function ClientsOf(c: Controller): seq<RemoteClient>
    reads (if c.GameCtl? then {c.gc} else {})`remoteClients, (if c.ChannelCtl? then {c.cc} else {})`remoteClients
  {
    if c.GameCtl? then c.gc.remoteClients else c.cc.remoteClients
  }

  /** The snapshot a game message lets the client resume; a corrupt one counts as none. */
  function DecodedSnapshot(p: Option<SnapshotPayload>): (s: Option<Snapshot>)
    ensures s.Some? <==> p.Some? && p.value.Decodable?
    ensures s.Some? ==> p == Some(Decodable(s.value))
  {
    if p.Some? && p.value.Decodable? then Some(p.value.snapshot) else None
  }

  /**
   * The slot state `updateSlot` derives: open exactly when there is no owner,
   * own exactly when the owner is the local session, remote otherwise.
   */
  function DeriveSlotState(owner: Option<string>, local: string): (s: SlotState)
    ensures s == Open <==> owner.None?
    ensures s == Own <==> owner == Some(local)
    ensures s == Remote <==> owner.Some? && owner.value != local
  {
    if owner.None? then Open
    else if owner.value == local then Own
    else Remote
  }

  /** Slot `s` shows what slot message `m` says, as seen from session `local`. */
  ghost predicate SlotShows(s: PlayerSlot, m: SlotMessage, local: string)
    reads s
  {
    ViewOf(s) == Shown(m, local)
  }

  /** What a slot object shows: every field `updateSlot` writes. */
  datatype SlotView = SlotView(nickname: Option<string>, sessionId: Option<string>, state: SlotState,
                               serial: Option<int>, aiClassName: Option<string>)

  function ViewOf(s: PlayerSlot): SlotView
    reads s
  {
    SlotView(s.nickname, s.sessionId, s.state, s.serial, s.aiClassName)
  }

  /** What a slot shows once message `m` is copied into it in session `local`. */
  function Shown(m: SlotMessage, local: string): SlotView
  {
    SlotView(m.nickname, m.owner, DeriveSlotState(m.owner, local), m.serial, m.aiClassName)
  }

  /** The slot objects of `slots`. */
  function SlotObjects(slots: array<PlayerSlot?>): set<PlayerSlot>
    reads slots
  {
    set n | 0 <= n < slots.Length && slots[n] != null :: slots[n]
  }

  /** Every slot object sits at the index of its own number, so no two cells share one. */
  ghost predicate NumberedCells(slots: array<PlayerSlot?>)
    reads slots
  {
    forall n | 0 <= n < slots.Length && slots[n] != null :: slots[n].number == n
  }

  /** `n` numbers a cell that holds a slot object. */
  predicate Holds(cells: seq<Option<SlotView>>, n: int)
  {
    0 <= n < |cells| && cells[n].Some?
  }

  /**
   * How many of the messages `ms`, from the front, number a cell holding a
   * slot object: the slot loop applies exactly those before the first
   * exception ends it.
   */
  function Applicable(cells: seq<Option<SlotView>>, ms: seq<SlotMessage>): (p: nat)
    ensures p <= |ms|
    ensures forall k | 0 <= k < p :: Holds(cells, ms[k].number)
    ensures p < |ms| ==> !Holds(cells, ms[p].number)
    decreases |ms|
  {
    if ms == [] || !Holds(cells, ms[0].number) then 0
    else
      var q := Applicable(cells, ms[1..]);
      assert forall k | 1 <= k < q + 1 :: ms[k] == ms[1..][k - 1];
      1 + q
  }

  /** Filling in the game id of every slot message does not change how many of them apply. */
  lemma {:induction false} FillKeepsApplicable(cells: seq<Option<SlotView>>, ms: seq<SlotMessage>, fs: seq<SlotMessage>,
                                               id: Option<string>)
    requires |fs| == |ms| && forall k | 0 <= k < |ms| :: fs[k] == ms[k].(gameId := id)
    ensures Applicable(cells, fs) == Applicable(cells, ms)
    decreases |ms|
  {
    if ms != [] {
      FillKeepsApplicable(cells, ms[1..], fs[1..], id);
    }
  }

  /** The exception `updateSlot` raises for number `n` when `n` names no slot object of `slots`. */
  function CellFault(slots: array<PlayerSlot?>, n: int): Exception
  {
    if 0 <= n < slots.Length then NullPointer else IndexOutOfBounds
  }

  /**
   * The slot loop of `handleGame` on the slot array `slots`, each message
   * handled as by `handleSlot`, which posts its change on `events`: the
   * messages apply in order up to the first one naming no slot object, whose
   * exception ends the loop.
   */
  method UpdateSlots(slots: array<PlayerSlot?>, ms: seq<SlotMessage>, local: string, events: seq<GameEvent>)
    returns (o: Outcome<Exception>, posted: seq<GameEvent>)
    requires NumberedCells(slots)
    modifies SlotObjects(slots)`nickname, SlotObjects(slots)`sessionId, SlotObjects(slots)`state, SlotObjects(slots)`serial, SlotObjects(slots)`aiClassName
    ensures var p := Applicable(old(CellViews(slots)), ms);
            && (o == Pass <==> p == |ms|)
            && (o.Fail? ==> o.error == CellFault(slots, ms[p].number))
            && posted == events + SlotEvents(ms[..p])
            && CellViews(slots) == Replay(old(CellViews(slots)), ms[..p], local)
  {
    ghost var v0 := CellViews(slots);
    ghost var p := Applicable(v0, ms);
    posted := events;
    var i := 0;
    while i < |ms|
      invariant 0 <= i <= p
      invariant posted == events + SlotEvents(ms[..i])
      invariant CellViews(slots) == Replay(v0, ms[..i], local)
    {
      assert ms[..i + 1][..i] == ms[..i];
      o := UpdateSlot(slots, ms[i], local);
      if o.Fail? {
        assert i == p;
        return;
      }
      assert i < p;
      posted := posted + [PlayerSlotChanged(ms[i].number)];
      i := i + 1;
    }
    assert ms[..i] == ms;
    o := Pass;
  }

  /** The cells of `slots` as values: what each slot object shows, `None` for an empty cell. */
  function CellViews(slots: array<PlayerSlot?>): (v: seq<Option<SlotView>>)
    reads slots, SlotObjects(slots)
    ensures |v| == slots.Length
    ensures forall n | 0 <= n < slots.Length :: v[n] == if slots[n] == null then None else Some(ViewOf(slots[n]))
  {
    seq(slots.Length, n requires 0 <= n < slots.Length reads slots, SlotObjects(slots) =>
      if slots[n] == null then None else Some(ViewOf(slots[n])))
  }

  /** The cells after one slot message: the cell it numbers, when it holds a slot, shows the message. */
  function Step(v: seq<Option<SlotView>>, m: SlotMessage, local: string): seq<Option<SlotView>>
  {
    if 0 <= m.number < |v| && v[m.number].Some? then v[m.number := Some(Shown(m, local))] else v
  }

  /** The cells after the slot messages `ms`, applied in order. */
  function Replay(v: seq<Option<SlotView>>, ms: seq<SlotMessage>, local: string): seq<Option<SlotView>>
    decreases |ms|
  {
    if ms == [] then v else Step(Replay(v, ms[..|ms| - 1], local), ms[|ms| - 1], local)
  }

  /** What a game shows of its setup: its two sets, its event log and its cells. */
  datatype SetupView = SetupView(expansions: set<Expansion>, customRules: set<CustomRule>, events: seq<GameEvent>,
                                 cells: seq<Option<SlotView>>)

  /**
   * What `handleGame` does to a game's setup after the registry step: the sets
   * become the message's, the setup events are posted, then the slot messages
   * apply in order, each posting its change, up to the first one numbering no
   * slot object.
   */
  function Reception(s: SetupView, setup: GameSetupMessage, ms: seq<SlotMessage>, expansionValues: seq<Expansion>,
                     ruleValues: seq<CustomRule>, local: string): SetupView
  {
    var p := Applicable(s.cells, ms);
    SetupView(setup.expansions, setup.customRules,
              s.events + ExpansionEvents(expansionValues, setup.expansions) + RuleEvents(ruleValues, setup.customRules)
                + SlotEvents(ms[..p]),
              Replay(s.cells, ms[..p], local))
  }

  /** Filling in the game id of the setup and of every slot message changes nothing the reception does. */
  lemma FilledReception(s: SetupView, setup: GameSetupMessage, ms: seq<SlotMessage>, fs: seq<SlotMessage>, id: Option<string>,
                        expansionValues: seq<Expansion>, ruleValues: seq<CustomRule>, local: string)
    requires |fs| == |ms| && forall k | 0 <= k < |ms| :: fs[k] == ms[k].(gameId := id)
    ensures Reception(s, setup.(gameId := id), fs, expansionValues, ruleValues, local)
            == Reception(s, setup, ms, expansionValues, ruleValues, local)
  {
    FillKeepsApplicable(s.cells, ms, fs, id);
    var p := Applicable(s.cells, ms);
    FillKeepsSlots(ms[..p], fs[..p], id);
  }

  /** Every slot message names a number inside the slot array `createGameController` allocates. */
  predicate AllFit(ms: seq<SlotMessage>)
  {
    forall k | 0 <= k < |ms| :: 0 <= ms[k].number < SlotCount
  }

  /** Every slot message applies to the cells built from those messages. */
  lemma InitialApplicable(ms: seq<SlotMessage>, local: string)
    requires AllFit(ms)
    ensures Applicable(InitialViews(ms, local), ms) == |ms|
  {
  }

  /**
   * The reception on the cells a game was just built with: the setup is
   * applied and posted, every slot message applies and posts its change, and
   * the cells still show the last message for each number.
   */
  lemma InitialReception(es: set<Expansion>, rs: set<CustomRule>, setup: GameSetupMessage, ms: seq<SlotMessage>,
                         expansionValues: seq<Expansion>, ruleValues: seq<CustomRule>, local: string)
    requires AllFit(ms)
    ensures Reception(SetupView(es, rs, [], InitialViews(ms, local)), setup, ms, expansionValues, ruleValues, local)
            == SetupView(setup.expansions, setup.customRules,
                         ExpansionEvents(expansionValues, setup.expansions) + RuleEvents(ruleValues, setup.customRules)
                           + SlotEvents(ms),
                         InitialViews(ms, local))
  {
    var cells := InitialViews(ms, local);
    InitialApplicable(ms, local);
    assert ms[..Applicable(cells, ms)] == ms;
    ReplayInitial(ms, local);
    var expansionEvents := ExpansionEvents(expansionValues, setup.expansions);
    assert [] + expansionEvents == expansionEvents;
  }

  /** The cells `createGameController` builds from the slot messages `ms`: one slot per number named, showing the last message naming it. */
  function InitialViews(ms: seq<SlotMessage>, local: string): seq<Option<SlotView>>
  {
    seq(SlotCount, n => if LastSlotMsg(ms, n).Some? then Some(Shown(LastSlotMsg(ms, n).value, local)) else None)
  }

  /** Applying the slot messages again to the cells built from them changes nothing. */
  lemma ReplayInitial(ms: seq<SlotMessage>, local: string)
    ensures Replay(InitialViews(ms, local), ms, local) == InitialViews(ms, local)
  {
    ReplayShowsLast(InitialViews(ms, local), ms, local);
  }

  /** Filling in the game id of the slot messages builds the same cells. */
  lemma InitialFilled(ms: seq<SlotMessage>, fs: seq<SlotMessage>, id: Option<string>, local: string)
    requires |fs| == |ms| && forall k | 0 <= k < |ms| :: fs[k] == ms[k].(gameId := id)
    ensures InitialViews(fs, local) == InitialViews(ms, local)
  {
    FillKeepsSlots(ms, fs, id);
  }

  /**
   * After the slot messages `ms`, every cell holding a slot shows the last
   * message naming it, and every other cell is as it was: in particular no
   * slot appears or vanishes.
   */
  lemma {:induction false} ReplayShowsLast(v: seq<Option<SlotView>>, ms: seq<SlotMessage>, local: string)
    ensures |Replay(v, ms, local)| == |v|
    ensures forall n | 0 <= n < |v| ::
              Replay(v, ms, local)[n] == if v[n].Some? && LastSlotMsg(ms, n).Some?
                                         then Some(Shown(LastSlotMsg(ms, n).value, local)) else v[n]
    decreases |ms|
  {
    if ms != [] {
      ReplayShowsLast(v, ms[..|ms| - 1], local);
    }
  }

  /** The slot object `updateSlot` writes for number `n`, if the array has one there. */
  function SlotAt(slots: array<PlayerSlot?>, n: int): set<PlayerSlot>
    reads slots
  {
    if 0 <= n < slots.Length && slots[n] != null then {slots[n]} else {}
  }

  /**
   * `updateSlot`: copy the message into `slots[number]` and derive its state.
   * An index outside the array and an empty cell raise the exceptions Java
   * raises there, before anything changes; no other slot is touched.
   */
  method UpdateSlot(slots: array<PlayerSlot?>, m: SlotMessage, local: string) returns (o: Outcome<Exception>)
    modifies SlotAt(slots, m.number)`nickname, SlotAt(slots, m.number)`sessionId, SlotAt(slots, m.number)`state, SlotAt(slots, m.number)`serial, SlotAt(slots, m.number)`aiClassName
    ensures o == Fail(IndexOutOfBounds) <==> !(0 <= m.number < slots.Length)
    ensures o == Fail(NullPointer) <==> 0 <= m.number < slots.Length && slots[m.number] == null
    ensures o == Pass <==> 0 <= m.number < slots.Length && slots[m.number] != null
    ensures o == Pass ==> SlotShows(slots[m.number], m, local)
    ensures NumberedCells(slots) ==> CellViews(slots) == Step(old(CellViews(slots)), m, local)
  {
    if !(0 <= m.number < slots.Length) {
      return Fail(IndexOutOfBounds);
    }
    var slot := slots[m.number];
    if slot == null {
      return Fail(NullPointer);
    }
    slot.nickname := m.nickname;
    slot.sessionId := m.owner;
    if m.owner.None? {
      slot.state := Open;
    } else {
      slot.state := if m.owner.value == local then Own else Remote;
    }
    slot.serial := m.serial;
    slot.aiClassName := m.aiClassName;
    o := Pass;
    if NumberedCells(slots) {
      forall n | 0 <= n < slots.Length && slots[n] != null && n != m.number
        ensures unchanged(slots[n])
      {
        assert slots[n].number == n;
      }
    }
  }

  /**
   * The message a slot of number `n` ends up showing after the messages `ms`
   * are applied in order: the last one for that number.
   */
  function LastSlotMsg(ms: seq<SlotMessage>, n: int): Option<SlotMessage>
  {
    if ms == [] then None
    else if ms[|ms| - 1].number == n then Some(ms[|ms| - 1])
    else LastSlotMsg(ms[..|ms| - 1], n)
  }

  /** `LastSlotMsg` picks the message for `n` that no later message for `n` follows. */
  lemma {:induction false} LastSlotMsgIff(ms: seq<SlotMessage>, n: int, m: SlotMessage)
    ensures LastSlotMsg(ms, n) == Some(m) <==>
              exists k :: 0 <= k < |ms| && ms[k] == m && m.number == n && forall j | k < j < |ms| :: ms[j].number != n
    ensures LastSlotMsg(ms, n) == None <==> forall k | 0 <= k < |ms| :: ms[k].number != n
    decreases |ms|
  {
    if ms != [] {
      var init := ms[..|ms| - 1];
      LastSlotMsgIff(init, n, m);
      assert forall k | 0 <= k < |init| :: init[k] == ms[k];
      if ms[|ms| - 1].number == n {
        if LastSlotMsg(ms, n) == Some(m) {
          assert ms[|ms| - 1] == m;
        } else {
          forall k | 0 <= k < |ms| && ms[k] == m && m.number == n
            ensures !(forall j | k < j < |ms| :: ms[j].number != n)
          {
            assert k != |ms| - 1;
          }
        }
      }
    }
  }

  /** The events posted by a run of slot messages that all apply. */
  function SlotEvents(ms: seq<SlotMessage>): seq<GameEvent>
  {
    if ms == [] then [] else SlotEvents(ms[..|ms| - 1]) + [PlayerSlotChanged(ms[|ms| - 1].number)]
  }

  /** Filling in the game id of every slot message changes no number, so neither the events nor which message is last. */
  lemma {:induction false} FillKeepsSlots(ms: seq<SlotMessage>, fs: seq<SlotMessage>, id: Option<string>)
    requires |fs| == |ms| && forall k | 0 <= k < |ms| :: fs[k] == ms[k].(gameId := id)
    ensures SlotEvents(fs) == SlotEvents(ms)
    ensures forall n :: LastSlotMsg(fs, n).Some? <==> LastSlotMsg(ms, n).Some?
    ensures forall n | LastSlotMsg(ms, n).Some? :: LastSlotMsg(fs, n).value == LastSlotMsg(ms, n).value.(gameId := id)
    ensures forall v, local :: Replay(v, fs, local) == Replay(v, ms, local)
    decreases |ms|
  {
    if ms != [] {
      FillKeepsSlots(ms[..|ms| - 1], fs[..|fs| - 1], id);
    }
  }

  /**
   * `filled` is `msg` with its game id copied into the setup message and into
   * every slot message, as `handleGame` does first; nothing else differs.
   */
  predicate IdsFilled(msg: GameMessage, filled: GameMessage)
  {
    && filled == msg.(gameSetup := msg.gameSetup.(gameId := Some(msg.gameId)), slots := filled.slots)
    && |filled.slots| == |msg.slots|
    && forall k | 0 <= k < |msg.slots| :: filled.slots[k] == msg.slots[k].(gameId := Some(msg.gameId))
  }

  /**
   * `getClientBySessionId`: the first remote client with the session id; when
   * there is none it throws rather than returning null.
   */
  method GetClientBySessionId(clients: seq<RemoteClient>, sessionId: string) returns (r: Result<RemoteClient, Exception>)
    ensures r.Success? <==> exists k :: 0 <= k < |clients| && clients[k].sessionId == sessionId
    ensures r.Success? ==> exists k :: 0 <= k < |clients| && clients[k] == r.value && r.value.sessionId == sessionId
                                      && forall j | 0 <= j < k :: clients[j].sessionId != sessionId
    ensures r.Failure? ==> r.error == NoSuchElement
  {
    var i := 0;
    while i < |clients|
      invariant 0 <= i <= |clients|
      invariant forall j | 0 <= j < i :: clients[j].sessionId != sessionId
    {
      if clients[i].sessionId == sessionId {
        return Success(clients[i]);
      }
      i := i + 1;
    }
    return Failure(NoSuchElement);
  }

  /**
   * `handleRmi`'s search of the remote-call interface: the index of the first
   * method whose name equals `name` exactly, or none.
   */
  method FindRmiMethod(methods: seq<string>, name: string) returns (idx: Option<nat>)
    ensures idx.None? <==> name !in methods
    ensures idx.Some? ==> && idx.value < |methods| && methods[idx.value] == name
                          && forall j | 0 <= j < idx.value :: methods[j] != name
  {
    var i := 0;
    while i < |methods|
      invariant 0 <= i <= |methods|
      invariant forall j | 0 <= j < i :: methods[j] != name
    {
      if methods[i] == name {
        return Some(i);
      }
      i := i + 1;
    }
    return None;
  }

  /** A set after `add(x)` (when `on`) or `remove(x)`: `x` is in it exactly when `on`, the rest is unchanged. */
  function Toggled<T(!new)>(s: set<T>, x: T, on: bool): (r: set<T>)
    ensures x in r <==> on
    ensures forall y | y != x :: y in r <==> y in s
  {
    if on then s + {x} else s - {x}
  }

  /** Repeating an identical toggle message changes nothing more. */
  lemma ToggleIdempotent<T(!new)>(s: set<T>, x: T, on: bool)
    ensures Toggled(Toggled(s, x, on), x, on) == Toggled(s, x, on)
  {
  }

  /** Of two toggles of the same element, the later one decides. */
  lemma ToggleLastWins<T(!new)>(s: set<T>, x: T, a: bool, b: bool)
    ensures Toggled(Toggled(s, x, a), x, b) == Toggled(s, x, b)
  {
  }

  /** The events `handleGameSetup` posts for the expansions: one per implemented expansion, in catalogue order. */
  function ExpansionEvents(values: seq<Expansion>, enabled: set<Expansion>): seq<GameEvent>
  {
    if values == [] then []
    else
      var e := values[|values| - 1];
      ExpansionEvents(values[..|values| - 1], enabled) + (if e.implemented then [ExpansionChanged(e, e in enabled)] else [])
  }

  /** The events `handleGameSetup` posts for the custom rules: one per rule, in catalogue order. */
  function RuleEvents(values: seq<CustomRule>, enabled: set<CustomRule>): seq<GameEvent>
  {
    if values == [] then []
    else
      var r := values[|values| - 1];
      RuleEvents(values[..|values| - 1], enabled) + [RuleChanged(r, r in enabled)]
  }

  /**
   * The expansion events report exactly the implemented expansions of the
   * catalogue, each with its membership in the new set.
   */
  lemma {:induction false} ExpansionEventsExact(values: seq<Expansion>, enabled: set<Expansion>, ev: GameEvent)
    ensures ev in ExpansionEvents(values, enabled) <==>
              ev.ExpansionChanged? && ev.expansion in values && ev.expansion.implemented && ev.enabled == (ev.expansion in enabled)
    decreases |values|
  {
    if values != [] {
      var init := values[..|values| - 1];
      ExpansionEventsExact(init, enabled, ev);
      assert values == init + [values[|values| - 1]];
    }
  }

  /** The rule events report every rule of the catalogue, each with its membership in the new set. */
  lemma {:induction false} RuleEventsExact(values: seq<CustomRule>, enabled: set<CustomRule>, ev: GameEvent)
    ensures ev in RuleEvents(values, enabled) <==>
              ev.RuleChanged? && ev.rule in values && ev.enabled == (ev.rule in enabled)
    decreases |values|
  {
    if values != [] {
      var init := values[..|values| - 1];
      RuleEventsExact(init, enabled, ev);
      assert values == init + [values[|values| - 1]];
    }
  }

  /** The expansion events are as many as the implemented expansions; the rule events as many as the rules. */
  lemma {:induction false} SetupEventCounts(values: seq<Expansion>, rules: seq<CustomRule>, es: set<Expansion>, rs: set<CustomRule>)
    ensures |ExpansionEvents(values, es)| <= |values|
    ensures (forall k | 0 <= k < |values| :: values[k].implemented) ==> |ExpansionEvents(values, es)| == |values|
    ensures |RuleEvents(rules, rs)| == |rules|
    decreases |values| + |rules|
  {
    if values != [] {
      SetupEventCounts(values[..|values| - 1], rules, es, rs);
    } else if rules != [] {
      SetupEventCounts(values, rules[..|rules| - 1], es, rs);
    }
  }
}
