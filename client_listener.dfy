/**
 * The client's message listener: it routes each server message to the
 * controller of its game or channel, keeps the registry of those controllers,
 * and applies setup messages to the game they concern.
 */
module ClientListener {
  import opened Wrappers
  import opened ClientModel

  class ClientMessageListener {
    /** The local session id (`conn.getSessionId()`). */
    const sessionId: string
    /** The names of the remote-call interface's methods, in reflection order. */
    const rmiMethods: seq<string>
    /** `Expansion.values()` and `CustomRule.values()`. */
    const expansionValues: seq<Expansion>
    const ruleValues: seq<CustomRule>
    var gameControllers: map<string, GameController>
    var channelControllers: map<string, ChannelController>
    /** Views mounted on the client, in order. */
    var views: seq<View>

    constructor (sessionId: string, rmiMethods: seq<string>, expansionValues: seq<Expansion>, ruleValues: seq<CustomRule>)
      ensures this.sessionId == sessionId && this.rmiMethods == rmiMethods
      ensures this.expansionValues == expansionValues && this.ruleValues == ruleValues
      ensures gameControllers == map[] && channelControllers == map[] && views == []
      ensures Valid()
    {
      this.sessionId := sessionId;
      this.rmiMethods := rmiMethods;
      this.expansionValues := expansionValues;
      this.ruleValues := ruleValues;
      gameControllers := map[];
      channelControllers := map[];
      views := [];
    }

    /** The games of the registered game controllers. */
    ghost function Games(): set<Game>
      reads this`gameControllers
    {
      set id | id in gameControllers :: gameControllers[id].game
    }

    /** Their active phases. */
    ghost function Phases(): set<SetupPhase>
      reads this`gameControllers, Games()`phase
    {
      set g | g in Games() && g.phase != null :: g.phase
    }

    /** The slot arrays of those phases. */
    ghost function Arrays(): set<array<PlayerSlot?>>
      reads this`gameControllers, Games()`phase, Phases()`slots
    {
      set p | p in Phases() && p.slots != null :: p.slots
    }

    /** The registered channel controllers. */
    ghost function ChannelCtls(): set<ChannelController>
      reads this`channelControllers
    {
      set n | n in channelControllers :: channelControllers[n]
    }

    /**
     * Every controller is registered under its own game id or channel name,
     * and every registered game keeps each slot object at the index of its
     * number, as `createGameController` stores them.
     */
    ghost predicate Valid()
      reads this`gameControllers, this`channelControllers, Games()`phase, Phases()`slots, Arrays()
    {
      && (forall id | id in gameControllers :: gameControllers[id].game.gameId == id)
      && (forall n | n in channelControllers :: channelControllers[n].name == n)
      && (forall id | id in gameControllers :: gameControllers[id].game.Numbered())
    }

    /**
     * `getController`: the game controller of an in-game message's game when
     * there is one, otherwise the channel controller of an in-channel message's
     * channel when there is one, otherwise none.
     */
    function Resolve(r: Route): (c: Option<Controller>)
      reads this`gameControllers, this`channelControllers
      ensures c.Some? && c.value.GameCtl? <==> r.gameId.Some? && r.gameId.value in gameControllers
      ensures c.Some? && c.value.GameCtl? ==> c.value.gc == gameControllers[r.gameId.value]
      ensures c.Some? && c.value.ChannelCtl? <==>
                !(r.gameId.Some? && r.gameId.value in gameControllers) && r.channel.Some? && r.channel.value in channelControllers
      ensures c.Some? && c.value.ChannelCtl? ==> c.value.cc == channelControllers[r.channel.value]
    {
      if r.gameId.Some? && r.gameId.value in gameControllers then Some(GameCtl(gameControllers[r.gameId.value]))
      else if r.channel.Some? && r.channel.value in channelControllers then Some(ChannelCtl(channelControllers[r.channel.value]))
      else None
    }

    /**
     * `getGame` followed by the handler's first use of the game: the cast to a
     * game controller fails on a channel controller, and a missing controller
     * leaves a null game.
     */
    function GameOf(r: Route): (g: Result<Game, Exception>)
      reads this`gameControllers, this`channelControllers
      ensures g.Success? <==> r.gameId.Some? && r.gameId.value in gameControllers
      ensures g.Success? ==> g.value == gameControllers[r.gameId.value].game
      ensures g.Failure? ==> g.error == (if Resolve(r).Some? then ClassCast else NullPointer)
    {
      match Resolve(r)
      case Some(GameCtl(gc)) => Success(gc.game)
      case Some(ChannelCtl(_)) => Failure(ClassCast)
      case None => Failure(NullPointer)
    }

    /** The game a handler for route `r` may change. */
    function TargetGames(r: Route): set<Game>
      reads this`gameControllers, this`channelControllers
    {
      if r.gameId.Some? && r.gameId.value in gameControllers then {gameControllers[r.gameId.value].game} else {}
    }

    /** The active phase of that game, if it has one. */
    function TargetPhases(r: Route): set<SetupPhase>
      reads this`gameControllers, this`channelControllers, TargetGames(r)`phase
    {
      if r.gameId.Some? && r.gameId.value in gameControllers then gameControllers[r.gameId.value].game.ActivePhase() else {}
    }

    /** The slot array of that phase, if it has one. */
    function TargetArrays(r: Route): set<array<PlayerSlot?>>
      reads this`gameControllers, this`channelControllers, TargetGames(r)`phase, TargetPhases(r)`slots
    {
      if r.gameId.Some? && r.gameId.value in gameControllers then gameControllers[r.gameId.value].game.SlotArray() else {}
    }

    /** The slot objects in that array. */
    function TargetCells(r: Route): set<PlayerSlot>
      reads this`gameControllers, this`channelControllers, TargetGames(r)`phase, TargetPhases(r)`slots, TargetArrays(r)
    {
      if r.gameId.Some? && r.gameId.value in gameControllers then gameControllers[r.gameId.value].game.Cells() else {}
    }

    /** The slot object `handleSlot` may rewrite. */
    function TargetSlots(m: SlotMessage): set<PlayerSlot>
      reads this`gameControllers, this`channelControllers, TargetGames(Route(m.gameId, None))`phase
      reads TargetPhases(Route(m.gameId, None))`slots, TargetArrays(Route(m.gameId, None))
    {
      var r := Route(m.gameId, None);
      if r.gameId.Some? && r.gameId.value in gameControllers then gameControllers[r.gameId.value].game.SlotCell(m.number) else {}
    }

    /** The controllers a handler for route `r` may change. */
    function TargetGameCtls(r: Route): set<GameController>
      reads this`gameControllers, this`channelControllers
    {
      if r.gameId.Some? && r.gameId.value in gameControllers then {gameControllers[r.gameId.value]} else {}
    }

    function TargetChannelCtls(r: Route): set<ChannelController>
      reads this`gameControllers, this`channelControllers
    {
      if !(r.gameId.Some? && r.gameId.value in gameControllers) && r.channel.Some? && r.channel.value in channelControllers
      then {channelControllers[r.channel.value]} else {}
    }

    /**
     * What `handleSetExpansion` does: the expansion is in the game's set
     * exactly when the message enables it, nothing else in the set changes,
     * and the change is posted; without a game the first use of it raises.
     */
    twostate predicate ExpansionSet(gameId: Option<string>, e: Expansion, enabled: bool, new o: Outcome<Exception>)
      reads this`gameControllers, this`channelControllers
      reads TargetGames(Route(gameId, None))`expansions, TargetGames(Route(gameId, None))`events
    {
      var g := old(GameOf(Route(gameId, None)));
      && GameOf(Route(gameId, None)) == g
      && (g.Failure? ==> o == Fail(g.error))
      && (g.Success? ==>
            && o == Pass
            && g.value.expansions == Toggled(old(g.value.expansions), e, enabled)
            && g.value.events == old(g.value.events) + [ExpansionChanged(e, enabled)])
    }

    method HandleSetExpansion(gameId: Option<string>, e: Expansion, enabled: bool) returns (o: Outcome<Exception>)
      requires Valid()
      modifies TargetGames(Route(gameId, None))`expansions, TargetGames(Route(gameId, None))`events
      ensures Valid()
      ensures ExpansionSet(gameId, e, enabled, o)
    {
      var g := GameOf(Route(gameId, None));
      if g.Failure? {
        return Fail(g.error);
      }
      g.value.SetExpansion(e, enabled);
      o := Pass;
    }

    /** What `handleSetRule` does: the same for custom rules. */
    twostate predicate RuleSet(gameId: Option<string>, rule: CustomRule, enabled: bool, new o: Outcome<Exception>)
      reads this`gameControllers, this`channelControllers
      reads TargetGames(Route(gameId, None))`customRules, TargetGames(Route(gameId, None))`events
    {
      var g := old(GameOf(Route(gameId, None)));
      && GameOf(Route(gameId, None)) == g
      && (g.Failure? ==> o == Fail(g.error))
      && (g.Success? ==>
            && o == Pass
            && g.value.customRules == Toggled(old(g.value.customRules), rule, enabled)
            && g.value.events == old(g.value.events) + [RuleChanged(rule, enabled)])
    }

    method HandleSetRule(gameId: Option<string>, rule: CustomRule, enabled: bool) returns (o: Outcome<Exception>)
      requires Valid()
      modifies TargetGames(Route(gameId, None))`customRules, TargetGames(Route(gameId, None))`events
      ensures Valid()
      ensures RuleSet(gameId, rule, enabled, o)
    {
      var g := GameOf(Route(gameId, None));
      if g.Failure? {
        return Fail(g.error);
      }
      g.value.SetRule(rule, enabled);
      o := Pass;
    }

    /**
     * What `handleGameSetup` does: both sets are replaced by the message's,
     * then one event per implemented expansion and one per rule reports its
     * membership.
     */
    twostate predicate SetupApplied(m: GameSetupMessage, new o: Outcome<Exception>)
      reads this`gameControllers, this`channelControllers
      reads TargetGames(Route(m.gameId, None))`expansions, TargetGames(Route(m.gameId, None))`customRules
      reads TargetGames(Route(m.gameId, None))`events
    {
      var g := old(GameOf(Route(m.gameId, None)));
      && GameOf(Route(m.gameId, None)) == g
      && (g.Failure? ==> o == Fail(g.error))
      && (g.Success? ==>
            && o == Pass
            && g.value.expansions == m.expansions && g.value.customRules == m.customRules
            && g.value.events == old(g.value.events) + ExpansionEvents(expansionValues, m.expansions)
                                                     + RuleEvents(ruleValues, m.customRules))
    }

    method HandleGameSetup(m: GameSetupMessage) returns (o: Outcome<Exception>)
      requires Valid()
      modifies TargetGames(Route(m.gameId, None))`expansions, TargetGames(Route(m.gameId, None))`customRules
      modifies TargetGames(Route(m.gameId, None))`events
      ensures Valid()
      ensures SetupApplied(m, o)
    {
      var g := GameOf(Route(m.gameId, None));
      if g.Failure? {
        return Fail(g.error);
      }
      g.value.ApplySetup(m, expansionValues, ruleValues);
      o := Pass;
    }

    /**
     * What `handleRmi` does: the first remote-call method whose name equals
     * the requested one exactly is invoked on the game's active phase, once;
     * with no match, no phase or undecodable arguments nothing is invoked.
     * Only the cast in `getGame` escapes the handler: everything inside is
     * caught.
     */
    twostate predicate RmiInvoked(gameId: Option<string>, methodName: string, args: RmiArgs, new o: Outcome<Exception>)
      reads this`gameControllers, this`channelControllers, TargetGames(Route(gameId, None))`phase
      reads TargetPhases(Route(gameId, None))`invocations
    {
      var g := old(GameOf(Route(gameId, None)));
      && GameOf(Route(gameId, None)) == g
      && (o.Fail? <==> g == Failure(ClassCast))
      && (o.Fail? ==> o.error == ClassCast)
      && (g.Success? ==>
            var phase := old(g.value.phase);
            && g.value.phase == phase
            && (phase != null ==>
                  phase.invocations == old(phase.invocations)
                    + (if methodName in rmiMethods && args.Decodes? then [Invocation(methodName, args.values)] else [])))
    }

    method HandleRmi(gameId: Option<string>, methodName: string, args: RmiArgs) returns (o: Outcome<Exception>)
      requires Valid()
      modifies TargetPhases(Route(gameId, None))`invocations
      ensures Valid()
      ensures RmiInvoked(gameId, methodName, args, o)
    {
      var g := GameOf(Route(gameId, None));
      if g.Failure? {
        if g.error == ClassCast {
          return Fail(ClassCast);
        }
        return Pass;
      }
      var phase := g.value.phase;
      if phase == null {
        return Pass;
      }
      var idx := FindRmiMethod(rmiMethods, methodName);
      if idx.Some? && args.Decodes? {
        phase.invocations := phase.invocations + [Invocation(rmiMethods[idx.value], args.values)];
      }
      o := Pass;
    }

    /** What `handleUndo` does: the game's undo runs once. */
    twostate predicate UndoRun(gameId: Option<string>, new o: Outcome<Exception>)
      reads this`gameControllers, this`channelControllers, TargetGames(Route(gameId, None))`undoCount
    {
      var g := old(GameOf(Route(gameId, None)));
      && GameOf(Route(gameId, None)) == g
      && (g.Failure? ==> o == Fail(g.error))
      && (g.Success? ==> o == Pass && g.value.undoCount == old(g.value.undoCount) + 1)
    }

    method HandleUndo(gameId: Option<string>) returns (o: Outcome<Exception>)
      requires Valid()
      modifies TargetGames(Route(gameId, None))`undoCount
      ensures Valid()
      ensures UndoRun(gameId, o)
    {
      var g := GameOf(Route(gameId, None));
      if g.Failure? {
        return Fail(g.error);
      }
      g.value.Undo();
      o := Pass;
    }

    /**
     * What `handleSlot` does: the message's slot shows it and the change is
     * posted, the other cells stay as they were; a missing game, phase or
     * slot array, a bad slot number and an empty cell raise the corresponding
     * exception and change nothing.
     */
    twostate predicate SlotApplied(m: SlotMessage, new o: Outcome<Exception>)
      reads this`gameControllers, this`channelControllers
      reads TargetGames(Route(m.gameId, None))`phase, TargetGames(Route(m.gameId, None))`events
      reads TargetPhases(Route(m.gameId, None))`slots, TargetArrays(Route(m.gameId, None)), TargetCells(Route(m.gameId, None))
    {
      var g := old(GameOf(Route(m.gameId, None)));
      && GameOf(Route(m.gameId, None)) == g
      && (g.Failure? ==> o == Fail(g.error))
      && (g.Success? ==>
            var game := g.value;
            && (o == Pass <==> game.HasSlot(m.number))
            && (o.Fail? ==> o.error == game.SlotFault(m.number))
            && game.events == old(game.events) + (if o == Pass then [PlayerSlotChanged(m.number)] else [])
            && game.Views() == Step(old(game.Views()), m, sessionId))
    }

    method HandleSlot(m: SlotMessage) returns (o: Outcome<Exception>)
      requires Valid()
      modifies TargetGames(Route(m.gameId, None))`events, TargetSlots(m)
      ensures Valid()
      ensures SlotApplied(m, o)
    {
      var g := GameOf(Route(m.gameId, None));
      if g.Failure? {
        return Fail(g.error);
      }
      o := g.value.ApplySlot(m, sessionId);
    }

    /** The events a controller has posted. */
    function UiEventsOf(c: Controller): seq<UiEvent>
      reads (if c.GameCtl? then {c.gc} else {})`uiEvents, (if c.ChannelCtl? then {c.cc} else {})`uiEvents
    {
      if c.GameCtl? then c.gc.uiEvents else c.cc.uiEvents
    }

    /**
     * What `handleChat` does: the first remote client of the controller with
     * the sender's session id and the text are posted on the controller; with
     * no such client the lookup raises and nothing is posted.
     */
    twostate predicate ChatPosted(r: Route, sender: string, text: string, new o: Outcome<Exception>)
      reads this`gameControllers, this`channelControllers
      reads TargetGameCtls(r)`uiEvents, TargetChannelCtls(r)`uiEvents
    {
      var target := old(Resolve(r));
      && Resolve(r) == target
      && (target.None? ==> o == Pass)
      && (target.Some? ==>
            var c := target.value;
            var clients := old(ClientsOf(c));
            && (o.Fail? <==> forall k | 0 <= k < |clients| :: clients[k].sessionId != sender)
            && (o.Fail? ==> o.error == NoSuchElement && UiEventsOf(c) == old(UiEventsOf(c)))
            && (o.Pass? ==> exists k :: 0 <= k < |clients| && clients[k].sessionId == sender
                                        && (forall j | 0 <= j < k :: clients[j].sessionId != sender)
                                        && UiEventsOf(c) == old(UiEventsOf(c)) + [Chat(clients[k], text)]))
    }

    method HandleChat(r: Route, sender: string, text: string) returns (o: Outcome<Exception>)
      requires Valid()
      modifies TargetGameCtls(r)`uiEvents, TargetChannelCtls(r)`uiEvents
      ensures Valid()
      ensures ChatPosted(r, sender, text, o)
    {
      var c := Resolve(r);
      if c.None? {
        return Pass;
      }
      var clients := ClientsOf(c.value);
      var client := GetClientBySessionId(clients, sender);
      if client.Failure? {
        return Fail(client.error);
      }
      var k :| 0 <= k < |clients| && clients[k] == client.value && client.value.sessionId == sender
               && forall j | 0 <= j < k :: clients[j].sessionId != sender;
      match c.value {
        case GameCtl(gc) => gc.uiEvents := gc.uiEvents + [Chat(client.value, text)];
        case ChannelCtl(cc) => cc.uiEvents := cc.uiEvents + [Chat(client.value, text)];
      }
      o := Pass;
    }

    /** What `handleClientList` does: the controller's client list is replaced and the change posted. */
    twostate predicate ClientListSet(r: Route, clients: seq<RemoteClient>, new o: Outcome<Exception>)
      reads this`gameControllers, this`channelControllers
      reads TargetGameCtls(r)`remoteClients, TargetGameCtls(r)`uiEvents
      reads TargetChannelCtls(r)`remoteClients, TargetChannelCtls(r)`uiEvents
    {
      var target := old(Resolve(r));
      && Resolve(r) == target
      && o == Pass
      && (target.Some? ==>
            var c := target.value;
            ClientsOf(c) == clients && UiEventsOf(c) == old(UiEventsOf(c)) + [ClientListChanged(clients)])
    }

    method HandleClientList(r: Route, clients: seq<RemoteClient>) returns (o: Outcome<Exception>)
      requires Valid()
      modifies TargetGameCtls(r)`remoteClients, TargetGameCtls(r)`uiEvents
      modifies TargetChannelCtls(r)`remoteClients, TargetChannelCtls(r)`uiEvents
      ensures Valid()
      ensures ClientListSet(r, clients, o)
    {
      var c := Resolve(r);
      if c.Some? {
        match c.value {
          case GameCtl(gc) =>
            gc.remoteClients := clients;
            gc.uiEvents := gc.uiEvents + [ClientListChanged(clients)];
          case ChannelCtl(cc) =>
            cc.remoteClients := clients;
            cc.uiEvents := cc.uiEvents + [ClientListChanged(clients)];
        }
      }
      o := Pass;
    }

    /** What `handleChannel` does: the channel registry is replaced by the one new channel and its view is mounted. */
    twostate predicate ChannelOpened(name: string)
      reads this`channelControllers, this`views, ChannelCtls()`remoteClients, ChannelCtls()`uiEvents
    {
      && channelControllers.Keys == {name}
      && fresh(channelControllers[name]) && channelControllers[name].name == name
      && channelControllers[name].remoteClients == [] && channelControllers[name].uiEvents == []
      && views == old(views) + [ChannelView(channelControllers[name])]
    }

    method HandleChannel(name: string)
      requires Valid()
      modifies this`channelControllers, this`views
      ensures Valid()
      ensures ChannelOpened(name)
    {
      var cc := new ChannelController(name);
      channelControllers := map[];
      channelControllers := channelControllers[name := cc];
      views := views + [ChannelView(cc)];
    }

    /**
     * Slot `s` is what the slot messages leave at number `n`: empty exactly when
     * no message names `n`, and otherwise numbered `n` and showing the last
     * message that names it.
     */
    ghost predicate SlotFrom(s: PlayerSlot?, m: Option<SlotMessage>, n: int)
      reads if s != null then {s} else {}
    {
      && (s == null <==> m.None?)
      && (s != null ==> s.number == n && SlotShows(s, m.value, sessionId))
    }

    /**
     * The slot loop of `createGameController`: a slot is created for each
     * message's number and updated from it; a number outside the array raises
     * before the slot is stored.
     */
    method BuildSlots(ms: seq<SlotMessage>) returns (r: Result<array<PlayerSlot?>, Exception>)
      ensures r.Failure? <==> !AllFit(ms)
      ensures r.Failure? ==> r.error == IndexOutOfBounds
      ensures r.Success? ==> var slots := r.value;
              && fresh(slots) && slots.Length == SlotCount
              && (forall n | 0 <= n < SlotCount :: SlotFrom(slots[n], LastSlotMsg(ms, n), n))
              && (forall n | 0 <= n < SlotCount && slots[n] != null :: fresh(slots[n]))
    {
      var slots := new PlayerSlot?[SlotCount](_ => null);
      var i := 0;
      while i < |ms|
        invariant 0 <= i <= |ms|
        invariant forall k | 0 <= k < i :: 0 <= ms[k].number < SlotCount
        invariant forall n | 0 <= n < SlotCount :: SlotFrom(slots[n], LastSlotMsg(ms[..i], n), n)
        invariant forall n | 0 <= n < SlotCount && slots[n] != null :: fresh(slots[n])
      {
        assert ms[..i + 1][..i] == ms[..i];
        var m := ms[i];
        var slot := new PlayerSlot(m.number);
        if !(0 <= m.number < slots.Length) {
          return Failure(IndexOutOfBounds);
        }
        slots[m.number] := slot;
        var _ := UpdateSlot(slots, m, sessionId);
        i := i + 1;
      }
      assert ms[..i] == ms;
      r := Success(slots);
    }

    /** Every object of a controller created during the current call is new. */
    twostate predicate FreshController(new gc: GameController)
      reads gc.game`phase, gc.game.ActivePhase()`slots, gc.game.SlotArray()
    {
      && fresh(gc) && fresh(gc.game)
      && gc.game.phase != null && fresh(gc.game.phase)
      && gc.game.phase.slots != null && fresh(gc.game.phase.slots)
      && forall n | 0 <= n < gc.game.phase.slots.Length && gc.game.phase.slots[n] != null :: fresh(gc.game.phase.slots[n])
    }

    /**
     * What `createGameController` fixes about the controller it builds for
     * `msg` and no later step of `handleGame` changes: the game's id, the
     * controller's channel, empty client list and event log, no undo, the
     * name (the snapshot's when the message carries a decodable one), a setup
     * phase of the matching kind holding the snapshot, registered among the
     * game's phases and active, with no remote call yet and a slot array of
     * `PlayerSlot.COUNT` cells, each slot object at its own number.
     */
    ghost predicate CreatedFrom(gc: GameController, msg: GameMessage)
      reads gc`channel, gc`remoteClients, gc`uiEvents, gc.game`name, gc.game`undoCount, gc.game`phase, gc.game`phases
      reads gc.game.ActivePhase()`invocations, gc.game.ActivePhase()`slots, gc.game.SlotArray()
    {
      var game := gc.game;
      var s := DecodedSnapshot(msg.snapshot);
      && game.gameId == msg.gameId && gc.channel == msg.channel
      && gc.remoteClients == [] && gc.uiEvents == [] && game.undoCount == 0
      && game.name == (if s.None? then msg.name else s.value.name)
      && game.phase != null
      && game.phase.kind == (if s.None? then CreateGame else LoadGame)
      && game.phase.snapshot == s
      && game.phases == map[game.phase.kind := game.phase]
      && game.phase.invocations == []
      && game.phase.slots != null && game.phase.slots.Length == SlotCount
      && game.Numbered()
    }

    /**
     * What the game `createGameController` builds for `msg` shows: the
     * snapshot's sets (none without a decodable snapshot), no event, and a
     * cell per number the slot messages name, showing the last message naming it.
     */
    function Created(msg: GameMessage): SetupView
    {
      var s := DecodedSnapshot(msg.snapshot);
      SetupView(if s.None? then {} else s.value.expansions, if s.None? then {} else s.value.customRules, [],
                InitialViews(msg.slots, sessionId))
    }

    /**
     * `createGameController`: a fresh game when the message has no decodable
     * snapshot (a corrupt one is logged and ignored), the snapshot's game
     * otherwise; its setup phase, holding the slots built from the message,
     * is both registered among the game's phases and made the active phase.
     */
    method CreateGameController(msg: GameMessage) returns (r: Result<GameController, Exception>)
      ensures r.Failure? <==> !AllFit(msg.slots)
      ensures r.Failure? ==> r.error == IndexOutOfBounds
      ensures r.Success? ==>
                var gc := r.value;
                && FreshController(gc) && CreatedFrom(gc, msg)
                && gc.game.phase.startGameCalls == 0
                && gc.game.Setup() == Created(msg)
    {
      var snapshot := DecodedSnapshot(msg.snapshot);
      var game: Game;
      var phase: SetupPhase;
      if snapshot.None? {
        game := new Game(msg.gameId);
        game.name := msg.name;
        phase := new SetupPhase(CreateGame, None);
      } else {
        game := new Game.FromSnapshot(msg.gameId, snapshot.value);
        phase := new SetupPhase(LoadGame, snapshot);
      }
      var gc := new GameController(game);
      gc.channel := msg.channel;
      var slots := BuildSlots(msg.slots);
      if slots.Failure? {
        return Failure(slots.error);
      }
      phase.slots := slots.value;
      game.phases := game.phases[phase.kind := phase];
      game.phase := phase;
      CellsBuilt(slots.value, msg.slots);
      r := Success(gc);
    }

    /** The cells `BuildSlots` leaves are numbered and show the last message for each number. */
    lemma CellsBuilt(slots: array<PlayerSlot?>, ms: seq<SlotMessage>)
      requires slots.Length == SlotCount
      requires forall n | 0 <= n < SlotCount :: SlotFrom(slots[n], LastSlotMsg(ms, n), n)
      ensures NumberedCells(slots) && CellViews(slots) == InitialViews(ms, sessionId)
    {
    }

    /** The game a controller created for `msg` shows once `handleGame` has applied the message to it. */
    lemma CreatedReception(msg: GameMessage)
      requires AllFit(msg.slots)
      ensures var setup := msg.gameSetup;
              Reception(Created(msg), setup, msg.slots, expansionValues, ruleValues, sessionId)
              == SetupView(setup.expansions, setup.customRules,
                           ExpansionEvents(expansionValues, setup.expansions) + RuleEvents(ruleValues, setup.customRules)
                             + SlotEvents(msg.slots),
                           InitialViews(msg.slots, sessionId))
    {
      var c := Created(msg);
      InitialReception(c.expansions, c.customRules, msg.gameSetup, msg.slots, expansionValues, ruleValues, sessionId);
    }

    /**
     * The end of `handleGame` for controller `gc`, unless called for a game
     * list: the setup view of an open game is mounted, or a running game's
     * phase is started, once (a null phase raises).
     */
    twostate predicate Finished(msg: GameMessage, channelList: bool, new gc: GameController, new o: Outcome<Exception>)
      reads this`views, gc.game`phase
    {
      var starts := !channelList && msg.state == GameRunning;
      && views == old(views) + (if !channelList && msg.state == GameOpen then [GameSetupView(gc, msg.snapshot.None?)] else [])
      && (o.Fail? <==> starts && gc.game.phase == null)
      && (o.Fail? ==> o.error == NullPointer)
    }

    /**
     * What `handleGame(msg, channelList)` does. With the game's controller
     * registered, the controller is reused (see `KnownGameHandled`);
     * otherwise one is created and registered (see `NewGameHandled`).
     */
    twostate predicate GameHandled(msg: GameMessage, channelList: bool, new o: Outcome<Exception>)
      reads this`gameControllers, this`channelControllers, this`views
      reads TargetGames(Route(Some(msg.gameId), None)), TargetPhases(Route(Some(msg.gameId), None))
      reads TargetArrays(Route(Some(msg.gameId), None)), TargetCells(Route(Some(msg.gameId), None))
      reads TargetGameCtls(Route(Some(msg.gameId), None))`channel, TargetGameCtls(Route(Some(msg.gameId), None))`remoteClients
      reads TargetGameCtls(Route(Some(msg.gameId), None))`uiEvents
    {
      if msg.gameId in old(gameControllers) then KnownGameHandled(msg, channelList, o) else NewGameHandled(msg, channelList, o)
    }

    /**
     * `handleGame` on a registered game: the controller is kept and its game
     * receives the message (see `Received`).
     */
    twostate predicate KnownGameHandled(msg: GameMessage, channelList: bool, new o: Outcome<Exception>)
      requires msg.gameId in old(gameControllers)
      reads this`gameControllers, this`channelControllers, this`views
      reads TargetGames(Route(Some(msg.gameId), None)), TargetPhases(Route(Some(msg.gameId), None))
      reads TargetArrays(Route(Some(msg.gameId), None)), TargetCells(Route(Some(msg.gameId), None))
    {
      && gameControllers == old(gameControllers)
      && Received(msg, channelList, old(gameControllers[msg.gameId]), o)
    }

    /**
     * The game of controller `gc` receives the message (see `Reception`),
     * keeping its active phase; the first slot message naming no slot object
     * raises and skips the rest. Without such a message the call ends as
     * `Finished` says, and a running game's phase is started once.
     */
    twostate predicate Received(msg: GameMessage, channelList: bool, gc: GameController, new o: Outcome<Exception>)
      reads this`views, gc.game`expansions, gc.game`customRules, gc.game`events, gc.game`phase
      reads gc.game.ActivePhase(), gc.game.SlotArray(), gc.game.Cells()
    {
      var game := gc.game;
      var phase := old(game.phase);
      var p := Applicable(old(game.Views()), msg.slots);
      && game.Setup() == Reception(old(game.Setup()), msg.gameSetup, msg.slots, expansionValues, ruleValues, sessionId)
      && game.phase == phase
      && (if p < |msg.slots| then
            && o == Fail(game.SlotFault(msg.slots[p].number)) && views == old(views)
            && (phase != null ==> phase.startGameCalls == old(phase.startGameCalls))
          else
            && Finished(msg, channelList, gc, o)
            && (phase != null ==> phase.startGameCalls == old(phase.startGameCalls)
                                                       + (if !channelList && msg.state == GameRunning then 1 else 0)))
    }

    /**
     * `handleGame` on a game with no registered controller: a controller
     * created from the message, which raises on a slot number outside the
     * array, is registered and its game receives the message; a running
     * game's fresh phase is started once and an open game gets its view.
     */
    twostate predicate NewGameHandled(msg: GameMessage, channelList: bool, new o: Outcome<Exception>)
      reads this`gameControllers, this`channelControllers, this`views
      reads TargetGames(Route(Some(msg.gameId), None)), TargetPhases(Route(Some(msg.gameId), None))
      reads TargetArrays(Route(Some(msg.gameId), None)), TargetCells(Route(Some(msg.gameId), None))
      reads TargetGameCtls(Route(Some(msg.gameId), None))`channel, TargetGameCtls(Route(Some(msg.gameId), None))`remoteClients
      reads TargetGameCtls(Route(Some(msg.gameId), None))`uiEvents
    {
      var id := msg.gameId;
      if !AllFit(msg.slots) then
        gameControllers == old(gameControllers) && views == old(views) && o == Fail(IndexOutOfBounds)
      else
        && id in gameControllers && gameControllers == old(gameControllers)[id := gameControllers[id]]
        && Built(msg, channelList, gameControllers[id], o)
    }

    /**
     * The controller `gc` was created from `msg` during the call, and its game
     * has received the message (see `CreatedReception`): it shows the
     * message's expansions and rules, their events and one per slot message,
     * and a cell per number showing the last message naming it; a
     * running game's fresh phase is started once, and the call ends as
     * `Finished` says.
     */
    twostate predicate Built(msg: GameMessage, channelList: bool, new gc: GameController, new o: Outcome<Exception>)
      reads this`views, gc`channel, gc`remoteClients, gc`uiEvents
      reads gc.game`name, gc.game`undoCount, gc.game`phase, gc.game`phases, gc.game`expansions, gc.game`customRules, gc.game`events
      reads gc.game.ActivePhase(), gc.game.SlotArray(), gc.game.Cells()
    {
      && FreshController(gc) && CreatedFrom(gc, msg)
      && gc.game.expansions == msg.gameSetup.expansions && gc.game.customRules == msg.gameSetup.customRules
      && gc.game.events == ExpansionEvents(expansionValues, msg.gameSetup.expansions)
                           + RuleEvents(ruleValues, msg.gameSetup.customRules) + SlotEvents(msg.slots)
      && gc.game.Views() == InitialViews(msg.slots, sessionId)
      && Finished(msg, channelList, gc, o)
      && gc.game.phase.startGameCalls == (if !channelList && msg.state == GameRunning then 1 else 0)
    }

    /** `handleGame`: the omitted ids are filled in, then the game's controller is reused or created. */
    method HandleGame(msg: GameMessage, channelList: bool) returns (r: Result<GameController, Exception>)
      requires Valid()
      modifies this`gameControllers, this`views
      modifies TargetGames(Route(Some(msg.gameId), None))`expansions, TargetGames(Route(Some(msg.gameId), None))`customRules
      modifies TargetGames(Route(Some(msg.gameId), None))`events, TargetPhases(Route(Some(msg.gameId), None))`startGameCalls
      modifies TargetCells(Route(Some(msg.gameId), None))
      ensures Valid()
      ensures GameHandled(msg, channelList, if r.Success? then Pass else Fail(r.error))
      ensures r.Success? ==> msg.gameId in gameControllers && r.value == gameControllers[msg.gameId]
    {
      var slots: seq<SlotMessage> := [];
      var i := 0;
      while i < |msg.slots|
        invariant 0 <= i <= |msg.slots| && |slots| == i
        invariant forall k | 0 <= k < i :: slots[k] == msg.slots[k].(gameId := Some(msg.gameId))
      {
        slots := slots + [msg.slots[i].(gameId := Some(msg.gameId))];
        i := i + 1;
      }
      var filled := msg.(gameSetup := msg.gameSetup.(gameId := Some(msg.gameId)), slots := slots);
      if msg.gameId in gameControllers {
        r := HandleKnownGame(msg, filled, channelList);
      } else {
        r := HandleNewGame(msg, filled, channelList);
      }
    }

    /** `handleGame` on a game whose controller is registered, with the ids filled in. */
    method HandleKnownGame(msg: GameMessage, filled: GameMessage, channelList: bool) returns (r: Result<GameController, Exception>)
      requires Valid() && msg.gameId in gameControllers && IdsFilled(msg, filled)
      modifies this`views
      modifies TargetGames(Route(Some(msg.gameId), None))`expansions, TargetGames(Route(Some(msg.gameId), None))`customRules
      modifies TargetGames(Route(Some(msg.gameId), None))`events, TargetPhases(Route(Some(msg.gameId), None))`startGameCalls
      modifies TargetCells(Route(Some(msg.gameId), None))
      ensures Valid()
      ensures KnownGameHandled(msg, channelList, if r.Success? then Pass else Fail(r.error))
      ensures r.Success? ==> r.value == gameControllers[msg.gameId]
    {
      r := Receive(msg, filled, channelList, gameControllers[msg.gameId]);
      assert Valid() == old(Valid());
    }

    /** The part of `handleGame` after the controller `gc` is found or created: its game receives the message. */
    method Receive(msg: GameMessage, filled: GameMessage, channelList: bool, gc: GameController)
      returns (r: Result<GameController, Exception>)
      requires gc.game.Numbered() && IdsFilled(msg, filled)
      modifies this`views, gc.game`expansions, gc.game`customRules, gc.game`events, gc.game.ActivePhase()`startGameCalls
      modifies gc.game.Cells()`nickname, gc.game.Cells()`sessionId, gc.game.Cells()`state, gc.game.Cells()`serial, gc.game.Cells()`aiClassName
      ensures Received(msg, channelList, gc, if r.Success? then Pass else Fail(r.error))
      ensures r.Success? ==> r.value == gc
    {
      var game := gc.game;
      ghost var before := game.Setup();
      var o := game.ApplyGame(filled.gameSetup, filled.slots, expansionValues, ruleValues, sessionId);
      FilledReception(before, msg.gameSetup, msg.slots, filled.slots, Some(msg.gameId), expansionValues, ruleValues, sessionId);
      FillKeepsApplicable(before.cells, msg.slots, filled.slots, Some(msg.gameId));
      if o.Fail? {
        return Failure(o.error);
      }
      r := Finish(msg, channelList, gc);
    }

    /** `handleGame` on a game with no registered controller, with the ids filled in. */
    method HandleNewGame(msg: GameMessage, filled: GameMessage, channelList: bool) returns (r: Result<GameController, Exception>)
      requires Valid() && msg.gameId !in gameControllers && IdsFilled(msg, filled)
      modifies this`gameControllers, this`views
      ensures Valid()
      ensures NewGameHandled(msg, channelList, if r.Success? then Pass else Fail(r.error))
      ensures r.Success? ==> msg.gameId in gameControllers && r.value == gameControllers[msg.gameId]
    {
      r := Build(msg, filled, channelList);
      if r.Success? {
        gameControllers := gameControllers[msg.gameId := r.value];
      }
    }

    /**
     * `createGameController` on `msg` followed by the reception of the
     * message on the new controller's game; registering the controller comes
     * in between in the source, which changes nothing either step reads.
     */
    method Build(msg: GameMessage, filled: GameMessage, channelList: bool) returns (r: Result<GameController, Exception>)
      requires IdsFilled(msg, filled)
      modifies this`views
      ensures r.Failure? <==> !AllFit(msg.slots)
      ensures r.Failure? ==> r.error == IndexOutOfBounds && views == old(views)
      ensures r.Success? ==> r.value.game.gameId == msg.gameId && r.value.game.Numbered()
      ensures r.Success? ==> Built(msg, channelList, r.value, Pass)
    {
      assert AllFit(filled.slots) == AllFit(msg.slots);
      var created := CreateGameController(filled);
      if created.Failure? {
        return Failure(created.error);
      }
      var gc := created.value;
      InitialFilled(msg.slots, filled.slots, Some(msg.gameId), sessionId);
      assert Created(filled) == Created(msg);
      InitialApplicable(msg.slots, sessionId);
      CreatedReception(msg);
      r := ReceiveFresh(msg, filled, channelList, gc);
    }

    /** `Receive` on a controller just created, which keeps everything `CreatedFrom` and `FreshController` read. */
    method ReceiveFresh(msg: GameMessage, filled: GameMessage, channelList: bool, gc: GameController)
      returns (r: Result<GameController, Exception>)
      requires gc.game.Numbered() && IdsFilled(msg, filled)
      modifies this`views, gc.game`expansions, gc.game`customRules, gc.game`events, gc.game.ActivePhase()`startGameCalls
      modifies gc.game.Cells()`nickname, gc.game.Cells()`sessionId, gc.game.Cells()`state, gc.game.Cells()`serial
      modifies gc.game.Cells()`aiClassName
      ensures Received(msg, channelList, gc, if r.Success? then Pass else Fail(r.error))
      ensures r.Success? ==> r.value == gc
      ensures unchanged(gc, gc.game`name, gc.game`undoCount, gc.game`phases, gc.game`phase)
      ensures unchanged(gc.game.ActivePhase()`invocations, gc.game.ActivePhase()`slots, gc.game.SlotArray())
    {
      r := Receive(msg, filled, channelList, gc);
    }

    /** The end of `handleGame` on the controller `gc`, whose game has received the message. */
    method Finish(msg: GameMessage, channelList: bool, gc: GameController) returns (r: Result<GameController, Exception>)
      modifies this`views, gc.game.ActivePhase()`startGameCalls
      ensures Finished(msg, channelList, gc, if r.Success? then Pass else Fail(r.error))
      ensures r.Success? ==> r.value == gc
      ensures gc.game.Setup() == old(gc.game.Setup())
      ensures gc.game.phase != null ==>
                gc.game.phase.startGameCalls == old(gc.game.phase.startGameCalls)
                                                + (if !channelList && msg.state == GameRunning then 1 else 0)
    {
      if channelList {
        return Success(gc);
      }
      if msg.state == GameOpen {
        views := views + [GameSetupView(gc, msg.snapshot.None?)];
      } else {
        var o := gc.game.StartGame();
        if o.Fail? {
          return Failure(o.error);
        }
      }
      r := Success(gc);
    }

    /**
     * What the dispatcher's call of the handler subscribed to the message's
     * kind does, by kind; an error message has no effect on the client's
     * state.
     */
    twostate predicate Handled(msg: WsMessage, new o: Outcome<Exception>)
      reads this`gameControllers, this`channelControllers, this`views
      reads TargetGames(RouteOf(msg)), TargetPhases(RouteOf(msg)), TargetArrays(RouteOf(msg)), TargetCells(RouteOf(msg))
      reads TargetGameCtls(RouteOf(msg))`channel, TargetGameCtls(RouteOf(msg))`remoteClients
      reads TargetGameCtls(RouteOf(msg))`uiEvents
      reads TargetChannelCtls(RouteOf(msg))`remoteClients, TargetChannelCtls(RouteOf(msg))`uiEvents
      reads ChannelCtls()`remoteClients, ChannelCtls()`uiEvents
    {
      match msg
      case GameMsg(g) => GameHandled(g, false, o)
      case ChannelMsg(name) => ChannelOpened(name) && o == Pass
      case GameSetupMsg(m) => SetupApplied(m, o)
      case SlotMsg(m) => SlotApplied(m, o)
      case SetExpansionMsg(id, e, enabled) => ExpansionSet(id, e, enabled, o)
      case SetRuleMsg(id, rule, enabled) => RuleSet(id, rule, enabled, o)
      case RmiMsg(id, name, args) => RmiInvoked(id, name, args, o)
      case UndoMsg(id) => UndoRun(id, o)
      case ChatMsg(r, sender, text) => ChatPosted(r, sender, text, o)
      case ClientListMsg(r, clients) => ClientListSet(r, clients, o)
      case ErrorMsg(_, _) => o == Pass
    }

    /**
     * The dispatcher's call of the handler subscribed to the message's kind.
     * Only a game message can register a game controller and only a channel
     * message can change the channel registry.
     */
    method Dispatch(msg: WsMessage) returns (o: Outcome<Exception>)
      requires Valid()
      modifies this`gameControllers, this`channelControllers, this`views
      modifies TargetGames(RouteOf(msg))`expansions, TargetGames(RouteOf(msg))`customRules
      modifies TargetGames(RouteOf(msg))`events, TargetGames(RouteOf(msg))`undoCount
      modifies TargetPhases(RouteOf(msg))`invocations, TargetPhases(RouteOf(msg))`startGameCalls
      modifies TargetCells(RouteOf(msg))
      modifies TargetGameCtls(RouteOf(msg))`remoteClients, TargetGameCtls(RouteOf(msg))`uiEvents
      modifies TargetChannelCtls(RouteOf(msg))`remoteClients, TargetChannelCtls(RouteOf(msg))`uiEvents
      ensures Valid()
      ensures Handled(msg, o)
      ensures !msg.GameMsg? ==> gameControllers == old(gameControllers)
      ensures msg.GameMsg? ==>
                && old(gameControllers).Keys <= gameControllers.Keys
                && gameControllers.Keys <= old(gameControllers).Keys + {msg.game.gameId}
                && forall id | id in old(gameControllers) :: gameControllers[id] == old(gameControllers)[id]
      ensures !msg.ChannelMsg? ==> channelControllers == old(channelControllers)
    {
      if msg.GameMsg? {
        o := DispatchGame(msg.game);
      } else if msg.ChannelMsg? {
        HandleChannel(msg.name);
        o := Pass;
      } else if msg.ChatMsg? || msg.ClientListMsg? {
        o := DispatchToClients(msg);
      } else {
        o := DispatchToGame(msg);
      }
    }

    /** The dispatch of a game message: `handleGame(msg, false)`, its controller dropped. */
    method DispatchGame(g: GameMessage) returns (o: Outcome<Exception>)
      requires Valid()
      modifies this`gameControllers, this`views
      modifies TargetGames(Route(Some(g.gameId), None))`expansions, TargetGames(Route(Some(g.gameId), None))`customRules
      modifies TargetGames(Route(Some(g.gameId), None))`events, TargetPhases(Route(Some(g.gameId), None))`startGameCalls
      modifies TargetCells(Route(Some(g.gameId), None))
      ensures Valid()
      ensures GameHandled(g, false, o)
      ensures old(gameControllers).Keys <= gameControllers.Keys <= old(gameControllers).Keys + {g.gameId}
      ensures forall id | id in old(gameControllers) :: gameControllers[id] == old(gameControllers)[id]
    {
      var r := HandleGame(g, false);
      o := if r.Failure? then Fail(r.error) else Pass;
    }

    /**
     * The dispatch of the messages whose handler works on the game the message
     * names (an error message only reaches a dialog): the registries and every
     * controller are left alone.
     */
    method DispatchToGame(msg: WsMessage) returns (o: Outcome<Exception>)
      requires Valid()
      requires msg.GameSetupMsg? || msg.SlotMsg? || msg.SetExpansionMsg? || msg.SetRuleMsg? || msg.RmiMsg?
               || msg.UndoMsg? || msg.ErrorMsg?
      modifies TargetGames(RouteOf(msg))`expansions, TargetGames(RouteOf(msg))`customRules
      modifies TargetGames(RouteOf(msg))`events, TargetGames(RouteOf(msg))`undoCount
      modifies TargetPhases(RouteOf(msg))`invocations, TargetCells(RouteOf(msg))
      ensures Valid()
      ensures Handled(msg, o)
    {
      match msg {
        case GameSetupMsg(m) => {
          o := HandleGameSetup(m);
        }
        case SlotMsg(m) => {
          o := HandleSlot(m);
        }
        case SetExpansionMsg(id, e, enabled) => {
          o := HandleSetExpansion(id, e, enabled);
        }
        case SetRuleMsg(id, rule, enabled) => {
          o := HandleSetRule(id, rule, enabled);
        }
        case RmiMsg(id, name, args) => {
          o := HandleRmi(id, name, args);
        }
        case UndoMsg(id) => {
          o := HandleUndo(id);
        }
        case ErrorMsg(_, _) => {
          o := Pass;
        }
      }
    }

    /**
     * The dispatch of the messages whose handler works on the controller the
     * message names: the registries and every game are left alone.
     */
    method DispatchToClients(msg: WsMessage) returns (o: Outcome<Exception>)
      requires Valid() && (msg.ChatMsg? || msg.ClientListMsg?)
      modifies TargetGameCtls(RouteOf(msg))`remoteClients, TargetGameCtls(RouteOf(msg))`uiEvents
      modifies TargetChannelCtls(RouteOf(msg))`remoteClients, TargetChannelCtls(RouteOf(msg))`uiEvents
      ensures Valid()
      ensures Handled(msg, o)
    {
      match msg {
        case ChatMsg(r, sender, text) => {
          o := HandleChat(r, sender, text);
        }
        case ClientListMsg(r, clients) => {
          o := HandleClientList(r, clients);
        }
      }
    }

    /**
     * `onWebsocketMessage`: the message's controller is looked up first, then
     * the message is dispatched; `o` is what the handler raised, which the
     * dispatcher absorbs. `loop` is the controller whose phase loop runs next:
     * the one looked up, when it was a game controller, and no other, so a
     * game message that creates its controller does not run one.
     */
    method OnWebsocketMessage(msg: WsMessage) returns (o: Outcome<Exception>, loop: Option<GameController>)
      requires Valid()
      modifies this`gameControllers, this`channelControllers, this`views
      modifies TargetGames(RouteOf(msg))`expansions, TargetGames(RouteOf(msg))`customRules
      modifies TargetGames(RouteOf(msg))`events, TargetGames(RouteOf(msg))`undoCount
      modifies TargetPhases(RouteOf(msg))`invocations, TargetPhases(RouteOf(msg))`startGameCalls
      modifies TargetCells(RouteOf(msg))
      modifies TargetGameCtls(RouteOf(msg))`remoteClients, TargetGameCtls(RouteOf(msg))`uiEvents
      modifies TargetChannelCtls(RouteOf(msg))`remoteClients, TargetChannelCtls(RouteOf(msg))`uiEvents
      ensures Valid()
      ensures Handled(msg, o)
      ensures loop == (match old(Resolve(RouteOf(msg))) case Some(GameCtl(gc)) => Some(gc) case _ => None)
      ensures loop.Some? ==> var id := RouteOf(msg).gameId.value; id in old(gameControllers) && loop.value == gameControllers[id]
      ensures old(gameControllers).Keys <= gameControllers.Keys
      ensures forall id | id in old(gameControllers) :: gameControllers[id] == old(gameControllers)[id]
    {
      var c := Resolve(RouteOf(msg));
      o := Dispatch(msg);
      loop := if c.Some? && c.value.GameCtl? then Some(c.value.gc) else None;
    }
}
}
