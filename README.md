# JCloisterZone: castle phase and client message listener

This project models two parts of JCloisterZone, a Java implementation of
the Carcassonne board game, and proves properties about them.

**The castle-conversion phase** (`CastlePhase`, module `CastlePhase`, and
its visitor, module `CastleVisitor`). A tile has just been placed. For each
city on it, the visitor walks the city's region of segments:

- The region qualifies only when the walk meets exactly two segments and
  both are castle bases.
- Its owner is the single player whose followers stand there. A Mayor met
  before the first other follower does not establish ownership.

Each owner who still has castles left gets an entry in a per-player map of
qualifying city locations. The phase then picks players in seating order,
starting at the turn player and wrapping around the table. The chosen
player's entry is removed from the map and its locations are offered. After
a pass, or after a deploy (which spends one castle), the next player is
chosen. Once the map is empty, the castle player and the map are cleared
and the phase hands over to the next phase.

**The client's message listener** (`ClientMessageListener`, modules
`ClientModel` and `ClientListener`). It keeps two registries:

- game controllers, keyed by game id;
- channel controllers, keyed by channel name.

It routes each server message to a controller. An in-game message goes to
its game's controller if one exists, and otherwise to its channel's
controller. Each handler then applies its message:

- a game message creates a controller once per game id;
- setup messages replace or toggle the game's expansion and custom-rule
  sets and post change events;
- slot messages update player slots, deriving each slot's OPEN, OWN or
  REMOTE state from the owner and the local session;
- a remote call runs the first method of the remote-call interface whose
  name matches exactly.

After a message is dispatched, the phase loop of the controller the message
was routed to runs, but only when that controller is a game controller.
The model returns that controller, with the handler's outcome, from
`OnWebsocketMessage`.

Both parts are imperative in the source and in the model:

- The phase, the capability, the visitor, player slots, games and
  controllers are classes whose methods update fields in place.
- The slot array is an `array`.
- The registries are `map` fields that the methods reassign.
- Each loop is a `while` loop with its invariants.
- Each method is proved against specification functions (`ScanTile`,
  `CastleBaseOwner`, `SingleOwner`, `IsFirstEligible`, `LastSlotMsg`,
  `ExpansionEvents`, `Reception`, `Resolve`, `GameOf`, ...) or against a
  predicate relating the state before and after (`Prepared`, `Received`,
  `Built`, `Handled`, ...). Lemmas about those functions state what the
  source promises. `Handled` states, by message kind, what the handler
  subscribed to that kind does.

Java exceptions are modelled as `Outcome`/`Result` failures:

- NullPointer: a missing game, phase or slot.
- ClassCast: a channel controller where a game controller was expected
  (defined, but no modelled message reaches it; see "Left out").
- IndexOutOfBounds: a bad slot number.
- NoSuchElement: an unknown session.

`Feature.walk`, `next()`, `phaseLoop()`, `undo()`, `startGame()` and
`convertCityToCastle` are not part of this model. They appear as parameters,
counters, append-only logs or, for `phaseLoop()`, a returned controller.

## Model

| member | source | states |
|---|---|---|
| CastleVisitor.Followers | src/main/java/com/jcloisterzone/game/phase/CastlePhase.java:119-123 | the followers kept from a segment are Follower figures of that segment, and every Follower on it is kept |
| CastleVisitor.FindCastleBaseVisitor.constructor | src/main/java/com/jcloisterzone/game/phase/CastlePhase.java:107-109 | a new visitor has size 0, the castle-base flag set and no followers |
| CastleVisitor.FindCastleBaseVisitor.Visit | src/main/java/com/jcloisterzone/game/phase/CastlePhase.java:113-127 | a non-castle-base segment clears the flag and stops the walk with nothing else changed; otherwise its followers are appended, size grows by one, and the walk continues exactly while size is at most 2 |
| CastleVisitor.FindCastleBaseVisitor.GetResult | src/main/java/com/jcloisterzone/game/phase/CastlePhase.java:129-138 | no owner unless the flag is still set and size is exactly 2; otherwise the single owner of the collected followers |
| CastleVisitor.FindCastleBase | src/main/java/com/jcloisterzone/game/phase/CastlePhase.java:113-138 | walking a region with the visitor yields exactly `CastleBaseOwner(region)`; the walk hands over at most 3 segments, all but the last a castle base, and hands over fewer than all only after a non-base segment or the third segment |
| CastleVisitor.ResolveFromOwner | src/main/java/com/jcloisterzone/game/phase/CastlePhase.java:133-136 | once an owner is set, the loop keeps it exactly when every remaining follower belongs to that owner |
| CastleVisitor.SingleOwnerIff | src/main/java/com/jcloisterzone/game/phase/CastlePhase.java:132-137 | the result is `p` if and only if the first non-Mayor follower is `p`'s and every follower from it on is `p`'s |
| CastleVisitor.OwnerHasFollower | src/main/java/com/jcloisterzone/game/phase/CastlePhase.java:135 | the owner returned is the player of some non-Mayor follower in the region |
| CastleVisitor.OnlyMayorsNoOwner | src/main/java/com/jcloisterzone/game/phase/CastlePhase.java:135 | a region holding only Mayors has no owner |
| CastleVisitor.RivalFollowersNoOwner | src/main/java/com/jcloisterzone/game/phase/CastlePhase.java:134 | non-Mayor followers of two different players leave the region without an owner |
| CastleVisitor.UnanimousOwner | src/main/java/com/jcloisterzone/game/phase/CastlePhase.java:132-137 | followers all of one player, with at least one non-Mayor, make that player the owner |
| CastleVisitor.MayorOrderMatters | src/main/java/com/jcloisterzone/game/phase/CastlePhase.java:133-136 | a foreign Mayor met before the owner's follower is ignored, but met after it voids the ownership |
| CastleVisitor.CastleBaseShape | src/main/java/com/jcloisterzone/game/phase/CastlePhase.java:130 | a region with an owner has exactly two segments, both castle bases |
| CastleVisitor.CastleBaseOwnerSeated | src/main/java/com/jcloisterzone/game/phase/CastlePhase.java:133-135 | the owner of a castle base is one of the seated players when all figures on it are |
| CastlePhase.FirstEligibleUnique | src/main/java/com/jcloisterzone/game/phase/CastlePhase.java:78-83 | at most one seat is the first one, from the turn player and wrapping around, that has an entry in the map |
| CastlePhase.TurnPlayerFirst | src/main/java/com/jcloisterzone/game/phase/CastlePhase.java:78-83 | the turn player is chosen whenever it has an entry of its own |
| CastlePhase.ScanTileExact | src/main/java/com/jcloisterzone/game/phase/CastlePhase.java:50-61 | location `l` is in player `p`'s set of the scanned map if and only if some city of the tile at `l` is a castle base owned by `p` and `p` has castles left; no set in the map is empty |
| CastlePhase.ScanTileKeys | src/main/java/com/jcloisterzone/game/phase/CastlePhase.java:50-65 | every key of the scanned map has castle count > 0, and the map is empty exactly when no city qualifies |
| CastlePhase.ConsumeShrinks | src/main/java/com/jcloisterzone/game/phase/CastlePhase.java:86 | removing the chosen player's entry leaves one entry fewer, so the chain of castle actions ends |
| CastlePhase.ScanCastleBases | src/main/java/com/jcloisterzone/game/phase/CastlePhase.java:49-61 | the loop over the tile's features builds exactly the scanned map `ScanTile`, and leaves no map at all when no city qualifies |
| CastlePhase.FindCastlePlayer | src/main/java/com/jcloisterzone/game/phase/CastlePhase.java:78-83 | for a non-empty map of seated players, the wrap-around search ends at the first seat at or after the turn player, in seating order, that has an entry |
| CastlePhase.BuildCastleAction | src/main/java/com/jcloisterzone/game/phase/CastlePhase.java:85-88 | the action holds exactly the feature pointers at the tile's position for the given locations |
| CastlePhase.CastlePhase.GetActivePlayer | src/main/java/com/jcloisterzone/game/phase/CastlePhase.java:41-44 | the castle player while one is set, otherwise the turn player; always a seated player |
| CastlePhase.CastlePhase.constructor | src/main/java/com/jcloisterzone/game/phase/CastlePhase.java:30-33 | a new phase holds the game's castle capability (none when the game lacks it), players, turn player and tile, posts nothing and has called `next()` zero times; when the capability is present and clear, the players are seated with a castle count each and every figure on the tile is a seated player's, the phase invariant holds |
| CastlePhase.CastlePhase.PrepareCastleAction | src/main/java/com/jcloisterzone/game/phase/CastlePhase.java:70-90 | on an empty map, clears the castle player and the map and calls `next()` once, and the active player falls back to the turn player; otherwise, the first eligible player becomes the castle player, only its entry is removed (so the map shrinks by exactly one), and one event offers exactly its locations with pass allowed; the phase invariant holds afterwards |
| CastlePhase.CastlePhase.Enter | src/main/java/com/jcloisterzone/game/phase/CastlePhase.java:47-68 | when no city qualifies, calls `next()` once and leaves the map, the castle player and the events unchanged; otherwise installs the scanned map and prepares the first castle action |
| CastlePhase.CastlePhase.Pass | src/main/java/com/jcloisterzone/game/phase/CastlePhase.java:93-95 | re-runs selection on the remaining map and changes no castle count |
| CastlePhase.CastlePhase.DeployCastle | src/main/java/com/jcloisterzone/game/phase/CastlePhase.java:98-103 | decreases only the castle player's count, by exactly one, records the converted city, then re-runs selection |
| CastlePhase.ScenarioScan | src/main/java/com/jcloisterzone/game/phase/CastlePhase.java:50-61 | on a tile with one two-segment castle-base city held by player 0, the scan maps player 0 to that city, or yields nothing when player 0 has no castle left |
| ClientModel.DecodedSnapshot | src/main/java/com/jcloisterzone/ui/ClientMessageListener.java:164-171 | a snapshot is resumed exactly when the message carries one that decodes; a corrupt one counts as none |
| ClientModel.DeriveSlotState | src/main/java/com/jcloisterzone/ui/ClientMessageListener.java:152-156 | OPEN if and only if there is no owner; OWN if and only if the owner is the local session; REMOTE if and only if another session owns the slot |
| ClientModel.UpdateSlot | src/main/java/com/jcloisterzone/ui/ClientMessageListener.java:148-159 | an out-of-range number raises IndexOutOfBounds and an empty cell raises NullPointer, before anything changes; otherwise `slots[number]` shows the message's nickname, owner, derived state, serial and AI class, and only that slot changes |
| ClientModel.LastSlotMsgIff | src/main/java/com/jcloisterzone/ui/ClientMessageListener.java:189-195 | the message a slot number ends up showing is the last one for that number, and there is none exactly when no message names the number |
| ClientModel.GetClientBySessionId | src/main/java/com/jcloisterzone/ui/ClientMessageListener.java:122-129 | returns the first remote client with the session id, and raises NoSuchElement (never null) exactly when none has it |
| ClientModel.FindRmiMethod | src/main/java/com/jcloisterzone/ui/ClientMessageListener.java:356-362 | the index of the first method whose name equals the requested one exactly, and none exactly when no name matches |
| ClientModel.Toggled | src/main/java/com/jcloisterzone/ui/ClientMessageListener.java:331-335 | after add or remove, the element is in the set exactly when enabled, and every other element keeps its membership |
| ClientModel.ToggleIdempotent | src/main/java/com/jcloisterzone/ui/ClientMessageListener.java:331-335 | repeating an identical toggle message changes nothing more |
| ClientModel.ToggleLastWins | src/main/java/com/jcloisterzone/ui/ClientMessageListener.java:343-347 | of two toggles of the same element, the later one decides |
| ClientModel.ExpansionEventsExact | src/main/java/com/jcloisterzone/ui/ClientMessageListener.java:317-320 | the setup posts an expansion event exactly for each implemented expansion, reporting its membership in the new set |
| ClientModel.RuleEventsExact | src/main/java/com/jcloisterzone/ui/ClientMessageListener.java:321-323 | the setup posts a rule event for every custom rule, reporting its membership in the new set |
| ClientModel.SetupEventCounts | src/main/java/com/jcloisterzone/ui/ClientMessageListener.java:317-323 | at most one expansion event per catalogue entry (exactly one when all are implemented) and exactly one event per rule |
| ClientModel.Game.constructor | src/main/java/com/jcloisterzone/ui/ClientMessageListener.java:177 | a fresh game has the id, empty sets, no phase and no events |
| ClientModel.Game.FromSnapshot | src/main/java/com/jcloisterzone/ui/ClientMessageListener.java:182 | a restored game takes the snapshot's name and sets |
| ClientModel.Game.SetExpansion | src/main/java/com/jcloisterzone/ui/ClientMessageListener.java:330-336 | the expansion set becomes the toggled set and one change event is posted |
| ClientModel.Game.SetRule | src/main/java/com/jcloisterzone/ui/ClientMessageListener.java:342-348 | the rule set becomes the toggled set and one change event is posted |
| ClientModel.Game.ApplySetup | src/main/java/com/jcloisterzone/ui/ClientMessageListener.java:311-323 | both sets equal the message's, and the posted events are the expansion events followed by the rule events |
| ClientModel.Game.Undo | src/main/java/com/jcloisterzone/ui/ClientMessageListener.java:373 | the game's undo runs once |
| ClientModel.Game.ApplySlot | src/main/java/com/jcloisterzone/ui/ClientMessageListener.java:304-306 | a missing phase or slot array raises NullPointer; otherwise the slot update's outcome, and one change event is posted exactly when it succeeds |
| ClientModel.Game.ApplySlots | src/main/java/com/jcloisterzone/ui/ClientMessageListener.java:237-239 | the slot messages apply in order up to the first one naming no slot object, whose exception (NullPointer for an empty cell or a missing phase or array, IndexOutOfBounds for a number outside the array) ends the loop; the call succeeds exactly when all apply; one change event per applied message is posted, in order, and the cells show exactly the applied messages replayed |
| ClientModel.Game.ApplyGame | src/main/java/com/jcloisterzone/ui/ClientMessageListener.java:236-239 | the setup is applied, then the slot messages: the game shows the message's sets, their events followed by one event per applied slot message, and the cells replayed with the applied messages; it fails exactly when some slot message names no slot object, with that message's exception |
| ClientModel.UpdateSlots | src/main/java/com/jcloisterzone/ui/ClientMessageListener.java:237-239 | on the slot array: the messages apply in order up to the first one naming no slot object, whose exception ends the loop; the events posted are one per applied message, in order, and the cells show exactly the applied messages replayed |
| ClientModel.Applicable | src/main/java/com/jcloisterzone/ui/ClientMessageListener.java:237-239 | the number of messages, from the front, that name a cell holding a slot object: all of those apply and the next one, if any, does not |
| ClientModel.FillKeepsApplicable | src/main/java/com/jcloisterzone/ui/ClientMessageListener.java:224-227 | filling in the game id of every slot message does not change how many of them apply |
| ClientModel.FilledReception | src/main/java/com/jcloisterzone/ui/ClientMessageListener.java:224-227 | filling in the game id of the setup and of every slot message does not change what the game shows after receiving them |
| ClientModel.InitialReception | src/main/java/com/jcloisterzone/ui/ClientMessageListener.java:188-195 | on the cells built from the slot messages, every message applies, the events are the setup's followed by one per slot message, and the cells are left as built |
| ClientModel.Game.StartGame | src/main/java/com/jcloisterzone/ui/ClientMessageListener.java:202-206 | the active phase's `startGame` runs once; with no active phase it raises NullPointer |
| ClientListener.ClientMessageListener.constructor | src/main/java/com/jcloisterzone/ui/ClientMessageListener.java:74-75 | both registries start empty, no view is mounted, and the listener's invariant holds |
| ClientListener.ClientMessageListener.Resolve | src/main/java/com/jcloisterzone/ui/ClientMessageListener.java:131-141 | the game controller of the message's game when registered; otherwise the channel controller of its channel when registered; otherwise none |
| ClientListener.ClientMessageListener.GameOf | src/main/java/com/jcloisterzone/ui/ClientMessageListener.java:143-146 | the game of the registered game controller; the cast raises ClassCast on a channel controller, and a missing controller leaves a null game |
| ClientListener.ClientMessageListener.HandleSetExpansion | src/main/java/com/jcloisterzone/ui/ClientMessageListener.java:328-337 | the expansion is in the game's set exactly when enabled, the rest of the set is untouched and the change is posted; with no game, the lookup's exception |
| ClientListener.ClientMessageListener.HandleSetRule | src/main/java/com/jcloisterzone/ui/ClientMessageListener.java:340-349 | the same for custom rules |
| ClientListener.ClientMessageListener.HandleGameSetup | src/main/java/com/jcloisterzone/ui/ClientMessageListener.java:310-324 | both sets are replaced by the message's and the membership events are posted; with no game, the lookup's exception |
| ClientListener.ClientMessageListener.HandleRmi | src/main/java/com/jcloisterzone/ui/ClientMessageListener.java:352-368 | at most one invocation reaches the active phase: the exactly matching method with decodable arguments; nothing with no match; only the ClassCast from the lookup escapes |
| ClientListener.ClientMessageListener.HandleUndo | src/main/java/com/jcloisterzone/ui/ClientMessageListener.java:371-374 | the game's undo runs once; with no game, the lookup's exception |
| ClientListener.ClientMessageListener.HandleSlot | src/main/java/com/jcloisterzone/ui/ClientMessageListener.java:302-307 | the slot is updated as `updateSlot` states and one change event is posted exactly when the update succeeds; a missing game, phase or slot array, or a bad number, raises the matching exception and posts nothing |
| ClientListener.ClientMessageListener.HandleChat | src/main/java/com/jcloisterzone/ui/ClientMessageListener.java:291-299 | with a controller, a chat event from the first client with the sender's session is posted, and NoSuchElement with nothing posted when there is none; with no controller nothing happens |
| ClientListener.ClientMessageListener.HandleClientList | src/main/java/com/jcloisterzone/ui/ClientMessageListener.java:269-277 | the controller's client list is replaced and the change posted |
| ClientListener.ClientMessageListener.HandleChannel | src/main/java/com/jcloisterzone/ui/ClientMessageListener.java:255-266 | the channel registry holds exactly one entry, a new controller keyed by the channel's name, and its view is mounted |
| ClientListener.ClientMessageListener.BuildSlots | src/main/java/com/jcloisterzone/ui/ClientMessageListener.java:188-195 | raises IndexOutOfBounds exactly when a slot number is out of range; otherwise each of the 6 slots is empty exactly when no message names it, else a new slot of that number showing the last message for it |
| ClientListener.ClientMessageListener.CreateGameController | src/main/java/com/jcloisterzone/ui/ClientMessageListener.java:163-200 | raises IndexOutOfBounds exactly when a slot number is outside the array; otherwise every object is new; with no decodable snapshot a new game named by the message with a create-game phase, with one the snapshot's game and sets with a load-game phase; the phase holds the slot array, is registered in the phase map and is active, and has not started; the game has no events and a cell per number named, showing the last message naming it |
| ClientListener.ClientMessageListener.CreatedReception | src/main/java/com/jcloisterzone/ui/ClientMessageListener.java:188-195 | a newly created game, after receiving the message, shows the message's sets, their events followed by one event per slot message, and a cell per number named, showing the last message naming it |
| ClientListener.ClientMessageListener.HandleGame | src/main/java/com/jcloisterzone/ui/ClientMessageListener.java:223-252 | the omitted ids are filled in; a registered controller is kept with the registry unchanged, and its game receives the message; otherwise a controller is created from the message and registered under the game id, or, when a slot number is outside the array, IndexOutOfBounds is raised and nothing is registered or mounted; unless this is a game-list call, an open game's setup view is mounted and a running game's phase is started once; the result is the registered controller |
| ClientListener.ClientMessageListener.HandleKnownGame | src/main/java/com/jcloisterzone/ui/ClientMessageListener.java:229-251 | with the controller registered, the registry is unchanged and the controller's game receives the message as `Receive` states; the result is that controller |
| ClientListener.ClientMessageListener.HandleNewGame | src/main/java/com/jcloisterzone/ui/ClientMessageListener.java:229-251 | with no controller registered, IndexOutOfBounds when a slot number is outside the array, with the registry and views unchanged; otherwise exactly one new entry, the controller built from the message, under the game id |
| ClientListener.ClientMessageListener.Build | src/main/java/com/jcloisterzone/ui/ClientMessageListener.java:231-251 | fails exactly when a slot number is outside the array; otherwise a new controller whose game has the message's id and sets, the setup's events followed by one event per slot message, a cell per number named showing the last message naming it, and, unless this is a game-list call, its view mounted when open or its phase started once when running |
| ClientListener.ClientMessageListener.Receive | src/main/java/com/jcloisterzone/ui/ClientMessageListener.java:236-251 | the game shows the reception of the setup and the slot messages and keeps its phase; the first slot message naming no slot object raises its exception and skips the rest, mounting and starting nothing; otherwise the call ends as `Finished` states |
| ClientListener.ClientMessageListener.ReceiveFresh | src/main/java/com/jcloisterzone/ui/ClientMessageListener.java:236-251 | `Receive`, which also keeps the controller, the game's name, undo count, phases, phase, invocations and slot array |
| ClientListener.ClientMessageListener.Finish | src/main/java/com/jcloisterzone/ui/ClientMessageListener.java:241-251 | on a game-list call nothing happens; otherwise an open game mounts one setup view, and a running game's phase is started once, raising NullPointer when there is no phase; the game's setup view is unchanged |
| ClientListener.ClientMessageListener.DispatchGame | src/main/java/com/jcloisterzone/ui/ClientMessageListener.java:218-221 | `handleGame(msg, false)` runs as `HandleGame` states and its exception is the outcome; the registry grows by at most the game id, and registered controllers are kept |
| ClientListener.ClientMessageListener.Dispatch | src/main/java/com/jcloisterzone/ui/ClientMessageListener.java:115-118 | the handler subscribed to the message's kind runs, with the effect and outcome its own row states (an error message changes nothing); only a game message can add a game controller, never replacing one, and only a channel message can change the channel registry |
| ClientListener.ClientMessageListener.DispatchToGame | src/main/java/com/jcloisterzone/ui/ClientMessageListener.java:115-118 | a setup, slot, expansion, rule, remote-call or undo message runs its handler, with the effect and outcome that handler's row states; an error message changes nothing |
| ClientListener.ClientMessageListener.DispatchToClients | src/main/java/com/jcloisterzone/ui/ClientMessageListener.java:115-118 | a chat or client-list message runs its handler, with the effect and outcome that handler's row states |
| ClientListener.ClientMessageListener.OnWebsocketMessage | src/main/java/com/jcloisterzone/ui/ClientMessageListener.java:110-120 | the message's handler runs as `Dispatch` states, and its exception is returned as the outcome; the controller whose phase loop runs next is the one looked up before the dispatch when that is a game controller, still registered under its id, and no other, so a game message that creates its controller runs none; registered controllers are never removed or replaced |

`CastlePhase.CastlePhase.IsActive` (CastlePhase.java:36-38) is the
predicate `castleCap != null`. It has no contract of its own.

## Left out

- Swing and the UI are not modelled: `SwingUtilities.invokeAndWait`,
  `JOptionPane`, and the mounting of views beyond recording them in
  `views`. `handleError` has no effect on the modelled state beyond
  logging and a dialog, so its dispatch is a plain `Pass`.
- The WebSocket transport is not modelled: `connect`, `Connection`,
  `send`, `onWebsocketError` and `onWebsocketClose`. The local session id
  is a constant of the listener.
- Reflection is replaced by data:
  - the remote-call interface's methods are a sequence of names;
  - `Method.invoke` is an entry in the phase's `invocations` log;
  - argument decoding is a `Decodes`/`Undecodable` payload.
- Snapshot decoding is reduced to whether decoding succeeds
  (`Decodable`/`Corrupt`). Only the snapshot's name and sets are restored.
- Not modelled: `performAutostart`, the reporting tool, player colours,
  and logging.
- The castle phase:
  - `Feature.walk` is given as the sequence of segments it visits, in walk
    order.
  - `next()` and `convertCityToCastle` are a counter and a log.
  - Players are seats `0 .. N-1`.
  - `CastleCapability` is a class with the castle counts, the bases map
    and the castle player.
- `undo()` and `startGame()` are counters. `phaseLoop()` is not run:
  `OnWebsocketMessage` returns the controller whose phase loop would run.
- The dispatcher (`MessageDispatcher`) is not part of this model:
  - It is taken to call the one handler subscribed to the message's kind.
  - A handler's exception is taken to be absorbed, so the phase loop still
    runs afterwards. `OnWebsocketMessage` returns it as its outcome; the
    dispatcher's logging of it is not modelled.
  - The dispatch to the active phase's own subscriptions (line 115) is not
    modelled.
- `handleGameList` is not modelled, and game-list messages are not among
  the modelled kinds. It repeats `handleGame(msg, true)` for each listed
  game, which `HandleGame` covers with `channelList` set. It then posts
  the controllers on the channel controller.
- A phase other than a setup phase is not modelled, so the cast to
  `CreateGamePhase` in `handleSlot` and `handleGameStarted` cannot fail
  here. Which messages are in-game or in-channel is not visible in the
  listener. Each modelled message carries an optional game id or channel
  where the handlers use one. A game message is taken as in-game only.
- `PlayerSlot.java` is not part of this model:
  - `PlayerSlot.COUNT` is taken as 6 (`SlotCount`).
  - A new slot is taken to start OPEN with empty fields.
- The owner rule of `getResult` depends on the order in which followers
  are met, as `MayorOrderMatters` shows. It is modelled as written, not as
  an order-independent rule.
- GameOf: its ClassCast failure is unreachable in this model. Every handler
  that looks up a game routes on the game id alone, because which message
  classes are also in-channel messages is not visible in the listener. A
  channel controller therefore never answers such a lookup.
- The handlers require the listener's invariant `Valid()`: each registered
  controller is keyed by its game's id (channels by name) and its slot
  objects carry their own numbers. The constructor establishes it and every
  handler keeps it.
