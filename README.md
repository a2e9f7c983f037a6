# Card-battle core: notification hub, combat resolver, deck and tagged logger

A Dafny model of four pieces of game logic of a turn-based card-battle game:

- **`GameMediator`**, the notification hub (`game_mediator.dfy`). A class with an
  initialisation flag, the set of registered players, six listener lists (one per
  event kind: game state changed, player damaged, creature damaged, creature died,
  game over, game initialised) and the damage wiring that `RegisterPlayer` adds to a
  player's own damage signal. Listeners are opaque handles; every listener call is
  recorded in a ghost `trace`, so the contracts state exactly which listeners are
  called, with which event, how many times and in which order. The hub's exceptions
  (`InvalidOperationException` when not initialised, `ArgumentNullException` for a
  null argument) are the `Fail` results of an `Outcome`. The cascades are proved:
  creature damaged, then (health not positive) creature died, then game state
  changed; player damaged, then (health not positive) game over for the opponent.
- **`BattlefieldCombatHandler`**, the combat resolver (`combat.dfy`). The cards under
  the pointer (front to back) and both battlefields are inputs of each call; the
  actions queue (`actions_queue.dfy`) only grows at its tail. `CombatAction` is the
  specification of one `HandleCreatureCombat` call: at most one
  `DamageCreature(target, attacker.attack, attacker)`; every abort leaves queue and
  attack-history set as they were.
- **`Deck`**, the draw pile (`deck.dfy`): a FIFO queue of possibly-null cards.
  `AddCardToTop` rebuilds the queue from a copy with the card appended, so the card
  lands at the back, exactly like `AddCardToBottom`; the model keeps that behaviour
  (`AddToTopThenDraw` shows the old front card is still drawn next).
- **`LoggerSettings` and `DebugLogger`** (`log_tag.dfy`, `debug_logger.dfy`,
  `strings.dfy`): the `[Flags]` enum `LogTag` as `bv32` constants, enabling and
  disabling tags with bit masks, the `ShouldLog` test, and the string building of a
  log line (`GetTagList`, `ColorizeTags`, `FormatMessage`) on top of .NET's
  `string.Join` and `string.Split`, with their round trip proved.

Null references are `Option` values. Players are referred to by identity
(`PlayerId`), as the hub's `HashSet<IPlayer>` compares references.

The combat resolver keeps a per-round set of attackers (`attackingCreatureIds`,
`BattlefieldCombatHandler.cs:9`), answers `HasCreatureAttacked` from it (lines 88-90),
and adds the attacker "only after the action is queued" (lines 36-37), which all point
to one attack per creature per round. Yet `HandleCreatureCombat` never reads the set,
so nothing stops a second attack: `AttackTwiceInOneRound` proves a second identical
attack queues a second action while the set holds the id once.

The logger prints through its private static settings only (`DebugLogger.cs:65`,
68-85), which no code replaces or changes: the game prints exactly the calls that carry
`UI`, with the default colours (`StaticLogLine`), and `EnableTags`, `DisableTags` and
`SetTagColor` act on other settings objects, never on a printed line.

## Model

| member | source | states |
|---|---|---|
| GameMediator.RemoveHandle | Assets/Scripts/GameMediator.cs:54-56 | removing a listener takes every registration of it out of the list and keeps every other listener's registrations and their count |
| GameMediator.RemoveHandleAppend | Assets/Scripts/GameMediator.cs:54-56 | removal from a concatenation of registrations is the concatenation of the removals |
| GameMediator.RemoveHandleKeepsOrder | Assets/Scripts/GameMediator.cs:54-56 | removal keeps registration order: a single registration stays exactly when it is another handle, and lists are handled registration by registration |
| GameMediator.Round | Assets/Scripts/GameMediator.cs:128 | one invocation calls each listener of the list once per position, in registration order, with the event, and makes no other call |
| GameMediator.RoundCount | Assets/Scripts/GameMediator.cs:126-129 | in one invocation a listener is called with the event exactly as many times as it is registered, and never with any other event |
| GameMediator.CreatureDiedCascade | Assets/Scripts/GameMediator.cs:155-163 | the whole `CreatureDied` round, position by position, and after it the whole `GameStateChanged` round |
| GameMediator.CreatureDamagedCascade | Assets/Scripts/GameMediator.cs:143-153 | the `CreatureDamaged` round comes first, followed by the death cascade when health is not positive and by nothing otherwise |
| GameMediator.PlayerDamagedCascade | Assets/Scripts/GameMediator.cs:131-141 | the `PlayerDamaged` round comes first, followed by the `GameOver` round for the opponent when health is not positive and there is an opponent, and by nothing otherwise |
| GameMediator.DiedBeforeStateChanged | Assets/Scripts/GameMediator.cs:155-163 | in a creature's death cascade no `CreatureDied` call follows a `GameStateChanged` call |
| GameMediator.CreatureDamagedCounts | Assets/Scripts/GameMediator.cs:143-163 | a damaged creature's cascade calls each `CreatureDamaged` listener once per registration, and the `CreatureDied` and `GameStateChanged` listeners likewise if and only if health is not positive; with positive health it is only the `CreatureDamaged` round |
| GameMediator.PlayerDamagedCounts | Assets/Scripts/GameMediator.cs:131-141 | a damaged player's cascade calls each `PlayerDamaged` listener once per registration, and calls a `GameOver` listener for a winner if and only if health is not positive and the winner is the player's opponent |
| GameMediator.Mediator.constructor | Assets/Scripts/GameMediator.cs:18-25 | a new hub is uninitialised, with six empty listener lists, no registered player and no wiring |
| GameMediator.Mediator.Initialize | Assets/Scripts/GameMediator.cs:37-47 | a no-op when already initialised or when the game references are not initialised; otherwise empties all lists and the player set and becomes initialised |
| GameMediator.Mediator.ValidateInitialization | Assets/Scripts/GameMediator.cs:173-177 | fails with `NotInitialized` exactly when the hub is not initialised |
| GameMediator.Mediator.ClearAllListeners | Assets/Scripts/GameMediator.cs:179-187 | all six lists and the registered-player set become empty |
| GameMediator.Mediator.AddListener | Assets/Scripts/GameMediator.cs:49-52 | when uninitialised fails and changes no list; otherwise the listener is appended to the end of its kind's list only |
| GameMediator.Mediator.RemoveListener | Assets/Scripts/GameMediator.cs:54-56 | unguarded; afterwards the listener is not in its kind's list and the other lists are untouched |
| GameMediator.Mediator.AddGameStateChangedListener | Assets/Scripts/GameMediator.cs:49-52 | guarded append to the game-state-changed list |
| GameMediator.Mediator.RemoveGameStateChangedListener | Assets/Scripts/GameMediator.cs:54-56 | unguarded removal from the game-state-changed list |
| GameMediator.Mediator.AddPlayerDamagedListener | Assets/Scripts/GameMediator.cs:58-61 | guarded append to the player-damaged list |
| GameMediator.Mediator.RemovePlayerDamagedListener | Assets/Scripts/GameMediator.cs:63-65 | unguarded removal from the player-damaged list |
| GameMediator.Mediator.AddCreatureDamagedListener | Assets/Scripts/GameMediator.cs:67-70 | guarded append to the creature-damaged list |
| GameMediator.Mediator.RemoveCreatureDamagedListener | Assets/Scripts/GameMediator.cs:72-74 | unguarded removal from the creature-damaged list |
| GameMediator.Mediator.AddCreatureDiedListener | Assets/Scripts/GameMediator.cs:76-79 | guarded append to the creature-died list |
| GameMediator.Mediator.RemoveCreatureDiedListener | Assets/Scripts/GameMediator.cs:81-83 | unguarded removal from the creature-died list |
| GameMediator.Mediator.AddGameOverListener | Assets/Scripts/GameMediator.cs:85-88 | guarded append to the game-over list |
| GameMediator.Mediator.RemoveGameOverListener | Assets/Scripts/GameMediator.cs:90-92 | unguarded removal from the game-over list |
| GameMediator.Mediator.AddGameInitializedListener | Assets/Scripts/GameMediator.cs:94-97 | guarded append to the game-initialised list |
| GameMediator.Mediator.RemoveGameInitializedListener | Assets/Scripts/GameMediator.cs:99-101 | unguarded removal from the game-initialised list |
| GameMediator.Mediator.RegisterPlayer | Assets/Scripts/GameMediator.cs:103-111 | fails when uninitialised, then on null, changing nothing; a new player joins the set and gets exactly one damage wiring; registering a registered player again changes neither the set nor the wiring count |
| GameMediator.Mediator.UnregisterPlayer | Assets/Scripts/GameMediator.cs:113-118 | unguarded; null or an unregistered player changes nothing; otherwise removes the player from the set only and keeps its damage wiring |
| GameMediator.ReRegisterAddsSecondWiring | Assets/Scripts/GameMediator.cs:103-118 | register, unregister, register leaves the player registered with two damage wirings |
| GameMediator.Mediator.Invoke | Assets/Scripts/GameMediator.cs:128 | the loop over the event's list appends exactly `Round` of that list to the trace |
| GameMediator.Mediator.NotifyGameInitialized | Assets/Scripts/GameMediator.cs:120-124 | fails and calls nobody when uninitialised; otherwise one game-initialised round |
| GameMediator.Mediator.NotifyGameStateChanged | Assets/Scripts/GameMediator.cs:126-129 | fails and calls nobody when uninitialised; otherwise one game-state-changed round |
| GameMediator.Mediator.NotifyPlayerDamaged | Assets/Scripts/GameMediator.cs:131-141 | fails and calls nobody when uninitialised or on null; otherwise the player-damaged round, then the game-over round for the opponent when health is not positive, failing with `NullArgument` after the first round when there is no opponent |
| GameMediator.Mediator.NotifyCreatureDamaged | Assets/Scripts/GameMediator.cs:143-153 | fails and calls nobody when uninitialised or on null; otherwise the creature-damaged round, then the death cascade when health is not positive |
| GameMediator.Mediator.NotifyCreatureDied | Assets/Scripts/GameMediator.cs:155-163 | fails and calls nobody when uninitialised or on null; otherwise the creature-died round followed by the game-state-changed round |
| GameMediator.Mediator.NotifyGameOver | Assets/Scripts/GameMediator.cs:165-171 | fails and calls nobody when uninitialised or on null; otherwise exactly one game-over round for the winner |
| BattlefieldCombat.IsValidTarget | Assets/Scripts/BattlefieldCombatHandler.cs:59-63 | a valid target is exactly a non-null card on the other side; the self-check never decides anything |
| BattlefieldCombat.FirstValidIndex | Assets/Scripts/BattlefieldCombatHandler.cs:49-54 | the position of the first valid hit: every earlier hit is invalid, and it is valid unless it is the end |
| BattlefieldCombat.FindTargetCard | Assets/Scripts/BattlefieldCombatHandler.cs:41-57 | null exactly when no hit is a valid target; otherwise the first valid hit in front-to-back order |
| BattlefieldCombat.FirstIndexWithId | Assets/Scripts/BattlefieldCombatHandler.cs:71-72 | the position of the first creature with the id: every earlier creature has another id, and it has the id unless it is the end |
| BattlefieldCombat.FirstWithId | Assets/Scripts/BattlefieldCombatHandler.cs:71 | null exactly when no creature of the battlefield has the id; otherwise the first creature with it |
| BattlefieldCombat.FindCreatureByTargetId | Assets/Scripts/BattlefieldCombatHandler.cs:65-73 | null exactly for a null card, an empty id, or an id on neither battlefield; otherwise a creature with the card's id, the first on Player 1's battlefield if there is one there, else the first on Player 2's |
| BattlefieldCombat.CombatAction | Assets/Scripts/BattlefieldCombatHandler.cs:15-39 | no action when the attacker does not resolve, when no hit is valid, or when the first valid hit's creature does not resolve; otherwise a damage action with the resolved attacker as source, its attack as amount, and the creature of the first valid hit as target |
| BattlefieldCombat.CombatHandler.constructor | Assets/Scripts/BattlefieldCombatHandler.cs:9-13 | the handler starts with an empty attack-history set and the game's queue |
| BattlefieldCombat.CombatHandler.HandleCreatureCombat | Assets/Scripts/BattlefieldCombatHandler.cs:15-39 | appends the combat action, if any, to the queue and then adds the attacker's id to the set; every abort leaves queue and set unchanged |
| BattlefieldCombat.CombatHandler.CreateAndQueueDamageAction | Assets/Scripts/BattlefieldCombatHandler.cs:75-81 | exactly one `DamageCreature(target, attacker.attack, attacker)` is appended to the queue |
| Actions.ActionsQueue.AddAction | Assets/Scripts/BattlefieldCombatHandler.cs:80 | the action is appended at the tail of the pending actions; nothing is reordered or dropped |
| BattlefieldCombat.CombatHandler.ResetAttackingCreatures | Assets/Scripts/BattlefieldCombatHandler.cs:83-86 | afterwards no creature counts as having attacked |
| BattlefieldCombat.CombatHandler.HasCreatureAttacked | Assets/Scripts/BattlefieldCombatHandler.cs:88-90 | true exactly for ids in the attack-history set |
| BattlefieldCombat.AttackTwiceInOneRound | Assets/Scripts/BattlefieldCombatHandler.cs:15-39 | two identical successful attacks queue the action twice and leave the attacker's id in the set once |
| Decks.CreateAll | Assets/Scripts/Deck.cs:26-33 | one factory result per card description, in input order, nulls included |
| Decks.Deck.constructor | Assets/Scripts/Deck.cs:15-17 | a new deck is empty |
| Decks.Deck.CardsRemaining | Assets/Scripts/Deck.cs:13 | the number of queued cards, null slots included; zero exactly for an empty deck |
| Decks.Deck.Initialize | Assets/Scripts/Deck.cs:19-35 | a null or empty list leaves the deck untouched; otherwise the deck becomes the factory's results, in list order |
| Decks.Deck.DrawCard | Assets/Scripts/Deck.cs:37-44 | null on an empty deck, which stays empty; otherwise the front card, and the deck becomes the rest |
| Decks.Deck.AddCardToTop | Assets/Scripts/Deck.cs:46-55 | null leaves the deck unchanged; otherwise the card goes to the back of the queue |
| Decks.Deck.AddCardToBottom | Assets/Scripts/Deck.cs:57-64 | null leaves the deck unchanged; otherwise the card goes to the back of the queue |
| Decks.DrawAllAfterInitialize | Assets/Scripts/Deck.cs:19-44 | drawing until empty after `Initialize` on a new deck returns the factory's cards in list order |
| Decks.AddToTopThenDraw | Assets/Scripts/Deck.cs:46-55 | after adding a card "to the top" of a non-empty deck the next draw is still the old front card, and the added card is last |
| Strings.Join | Assets/Scripts/DebugLogger.cs:142 | `""` for no parts, the part itself for one, and otherwise the first part followed by the separator |
| Strings.Split | Assets/Scripts/DebugLogger.cs:151 | at least one piece, none containing the separator |
| Strings.SplitJoin | Assets/Scripts/DebugLogger.cs:151-153 | splitting a join of separator-free parts gives the parts back |
| Strings.JoinSplit | Assets/Scripts/DebugLogger.cs:151-153 | joining the pieces of a split gives the string back |
| LogTag.ParseIn | Assets/Scripts/DebugLogger.cs:154 | no result exactly when no member has the name; a result is the value of a member with that name |
| LogTag.Parse | Assets/Scripts/DebugLogger.cs:154 | a member's name parses to that member's value, and a name no member carries does not parse |
| LogTag.ParseInMember | Assets/Scripts/DebugLogger.cs:154 | in a table with distinct names each member's name parses to its own value |
| LogTag.EveryMemberParses | Assets/Scripts/DebugLogger.cs:154 | in a table with distinct names every member's name parses to its own value |
| LogTag.MembersHaveDistinctNames | Assets/Scripts/DebugLogger.cs:7-21 | the twelve enum members have distinct names |
| LogTag.SingleFlag | Assets/Scripts/DebugLogger.cs:7-21 | every member between `None` and `All` is neither of them |
| LogTag.NamesSeparatorFree | Assets/Scripts/DebugLogger.cs:7-21 | no member name contains the tag-list separator `\|` |
| DebugLogger.LoggerSettings.constructor | Assets/Scripts/DebugLogger.cs:43-49 | new settings enable every tag and hold the default colours |
| DebugLogger.LoggerSettings.Default | Assets/Scripts/DebugLogger.cs:38-41 | fresh settings with every tag enabled and the default colours, so any non-empty tag set logs |
| DebugLogger.LoggerSettings.EnableTags | Assets/Scripts/DebugLogger.cs:51-53 | the enabled set becomes the old one with every bit of the tags added |
| DebugLogger.LoggerSettings.DisableTags | Assets/Scripts/DebugLogger.cs:55-57 | the enabled set becomes the old one with every bit of the tags removed |
| DebugLogger.LoggerSettings.SetTagColor | Assets/Scripts/DebugLogger.cs:59-61 | the tag maps to the colour, every other entry is kept and the key set only gains the tag |
| DebugLogger.StaticSettings | Assets/Scripts/DebugLogger.cs:68-85 | the static logger's settings enable only `UI` and hold the default colours |
| DebugLogger.ShouldLog | Assets/Scripts/DebugLogger.cs:120-122 | a call tagged `None` never logs, and with every tag enabled any other call does |
| DebugLogger.EnableSetsTags | Assets/Scripts/DebugLogger.cs:51-53 | after enabling, every bit of the tags is set |
| DebugLogger.EnableKeepsOtherTags | Assets/Scripts/DebugLogger.cs:51-53 | enabling leaves every bit outside the tags as it was |
| DebugLogger.EnableIdempotent | Assets/Scripts/DebugLogger.cs:51-53 | enabling twice equals enabling once, and afterwards a call carrying those tags logs |
| DebugLogger.DisableClearsTags | Assets/Scripts/DebugLogger.cs:55-57 | after disabling no bit of the tags is set and every other bit is as it was |
| DebugLogger.NeverLogged | Assets/Scripts/DebugLogger.cs:120-122 | a call tagged `None` never logs, nor one carrying only tags just disabled |
| DebugLogger.StaticSettingsLogOnlyUI | Assets/Scripts/DebugLogger.cs:68-70 | under the static settings a call logs exactly when it carries `UI`, so the combat warnings tagged `Creatures` and `Actions` do not |
| DebugLogger.GetTagList | Assets/Scripts/DebugLogger.cs:141-148 | empty for `None`; a non-empty list splits back into the listed names |
| DebugLogger.TagNamesMembership | Assets/Scripts/DebugLogger.cs:141-148 | a name is in the tag list exactly when a member with that name is a single flag wholly contained in the tags |
| DebugLogger.TagNamesInOrder | Assets/Scripts/DebugLogger.cs:141-148 | names are listed in enum order: the list of a concatenated table is the concatenation of the lists |
| DebugLogger.TagNamesSeparatorFree | Assets/Scripts/DebugLogger.cs:141-148 | no listed name contains the `|` separator |
| DebugLogger.GetTagListNamesFlag | Assets/Scripts/DebugLogger.cs:141-148 | each of the ten single flags is named in the tag list if and only if all its bits are in the tags |
| DebugLogger.TagNamesOfNone | Assets/Scripts/DebugLogger.cs:141-148 | `None` lists no name |
| DebugLogger.GetTagListNone | Assets/Scripts/DebugLogger.cs:141-148 | `None` and `All` are never named in a tag list |
| DebugLogger.Colorize | Assets/Scripts/DebugLogger.cs:153-157 | a part that does not parse is left as is, and a separator-free part stays separator-free when no colour holds `\|` |
| DebugLogger.ColorizeEach | Assets/Scripts/DebugLogger.cs:153-157 | one coloured part per part, in the same order |
| DebugLogger.ColorizeTags | Assets/Scripts/DebugLogger.cs:150-158 | when no colour contains `\|`, the result splits into the coloured parts of the input, in the same number and order |
| DebugLogger.ColorizeMember | Assets/Scripts/DebugLogger.cs:153-157 | a member's name is wrapped as `<color=X>name</color>` when its tag has colour `X`, and left as is otherwise |
| DebugLogger.ColorizeTagList | Assets/Scripts/DebugLogger.cs:141-158 | the coloured tag list splits into the listed names, each coloured on its own, in order |
| DebugLogger.GetClassName | Assets/Scripts/DebugLogger.cs:136-139 | `"Unknown"` for a missing path, else the file name without extension |
| DebugLogger.FormatMessage | Assets/Scripts/DebugLogger.cs:124-134 | the line starts with the class name and `": ["` and ends with `"] "` and the message |
| DebugLogger.FormatMessageUntagged | Assets/Scripts/DebugLogger.cs:124-134 | a line tagged `None` has empty brackets |
| DebugLogger.LogLine | Assets/Scripts/DebugLogger.cs:87-122 | a log call produces a line exactly when some of its tags are enabled, and that line is the formatted message |
| DebugLogger.StaticLogLine | Assets/Scripts/DebugLogger.cs:65-122 | under the static settings a call prints exactly when it carries `UI`, and it prints the line formatted with the default colours |

## Left out

- Unity presentation (arrow drawing, card containers, battlefield, hand and player views, drag and drop, the debug drop zone): float layout, animation and GameObject lifecycle, and only listeners of the hub.
- The `GameMediator` singleton, `Awake` and `DontDestroyOnLoad`: object lifecycle; the hub is an ordinary object.
- `InitializationManager`: whether `GameReferences` is initialised is the boolean parameter of `Initialize`. `base.Initialize()` is taken to set the initialisation flag; `InitializableComponent` is not part of this model.
- UnityEvent internals: a listener list is a sequence of handles; `AddListener` appends and `RemoveListener` removes every registration of the handle. What a listener does, and listeners that call back into the hub, are not modelled; each call is one trace entry.
- The player's own `OnDamaged` event: the wiring added by `RegisterPlayer` is recorded, but a player taking damage and firing it is outside the hub (the player classes are not part of this model).
- `Debug.Log`, `Debug.LogWarning` and `Debug.LogError` output, including the hub's messages and the warning in `Initialize`: console I/O. `LogLine` gives the line the logger would print.
- `EventSystem.RaycastAll` and `Input.mousePosition`: the cards under the pointer are an input list, front to back, with null for hits without a card.
- `GameManager`, `ActionsQueue`, `DamageCreatureAction`, `CardFactory`, `ICreature`, `IPlayer` and `ICard`: not part of this model. The battlefields are input lists, the queue is a sequence that grows at its tail, the card factory is a function parameter, and creatures and players are records of the fields the core reads.
- `GetClassName`: `Path.GetFileNameWithoutExtension` is a function parameter, and a null path is the empty string.
- `LogTag.Parse`: only the twelve member names are modelled; `Enum.TryParse` also accepts numbers, comma-separated names and surrounding white space, which never occur in a tag list.
- The caller-info `memberName` argument of the log calls: unused by the formatting.
- `Deck.Initialize`: the log messages read each card's name and effects; a null description or effects list would throw there, which is not modelled.
- Null creatures inside a battlefield list: battlefields hold creatures only.
- `ResetAttackingCreatures`'s and `CreateAndQueueDamageAction`'s log calls: console I/O.
- `Log`'s default argument `tags = LogTag.All`: `LogLine` always takes the tags explicitly.
- The message is an `object` formatted through its `ToString`, with a null message printing as the empty string; here it is a string already.
- `NotifyPlayerDamaged` and `NotifyCreatureDamaged` read `Health` and `Opponent` after the first round's listeners have run; the model uses the player or creature snapshot passed in, so a listener changing them is not modelled.
