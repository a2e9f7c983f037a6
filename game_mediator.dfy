/**
 * The game's notification hub (`GameMediator`). It keeps an initialisation flag,
 * the set of registered players and six ordered listener lists, one per event
 * kind. Listeners are opaque handles; what a listener does is abstracted into a
 * ghost trace that records one `Invocation` per listener call, in call order.
 */
module GameMediator {
  import opened Wrappers
  import opened Entities

  /** A registered callback, compared by identity. */
  type ListenerHandle = nat

  datatype EventKind =
    | GameStateChangedKind
    | PlayerDamagedKind
    | CreatureDamagedKind
    | CreatureDiedKind
    | GameOverKind
    | GameInitializedKind

  /** An event as its listeners receive it: the kind and the arguments passed to `Invoke`. */
  datatype Event =
    | GameStateChanged
    | PlayerDamaged(player: PlayerId, damage: int)
    | CreatureDamaged(damaged: Creature, damage: int)
    | CreatureDied(died: Creature)
    | GameOver(winner: PlayerId)
    | GameInitialized
  {
    function Kind(): EventKind {
      match this
      case GameStateChanged => GameStateChangedKind
      case PlayerDamaged(_, _) => PlayerDamagedKind
      case CreatureDamaged(_, _) => CreatureDamagedKind
      case CreatureDied(_) => CreatureDiedKind
      case GameOver(_) => GameOverKind
      case GameInitialized => GameInitializedKind
    }
  }

  /** One call of one listener with one event. */
  datatype Invocation = Invocation(listener: ListenerHandle, event: Event)

  /** The exceptions the hub throws: `InvalidOperationException` and `ArgumentNullException`. */
  datatype HubError = NotInitialized | NullArgument

  /** The six `UnityEvent` listener lists, each in registration order. */
  datatype ListenerTable = ListenerTable(
    gameStateChanged: seq<ListenerHandle>,
    playerDamaged: seq<ListenerHandle>,
    creatureDamaged: seq<ListenerHandle>,
    creatureDied: seq<ListenerHandle>,
    gameOver: seq<ListenerHandle>,
    gameInitialized: seq<ListenerHandle>)
  {
    function Get(kind: EventKind): seq<ListenerHandle> {
      match kind
      case GameStateChangedKind => gameStateChanged
      case PlayerDamagedKind => playerDamaged
      case CreatureDamagedKind => creatureDamaged
      case CreatureDiedKind => creatureDied
      case GameOverKind => gameOver
      case GameInitializedKind => gameInitialized
    }

    /** The table with the list of `kind` replaced by `list`. */
    function With(kind: EventKind, list: seq<ListenerHandle>): (t: ListenerTable)
      ensures t.Get(kind) == list
      ensures forall other :: other != kind ==> t.Get(other) == Get(other)
    {
      match kind
      case GameStateChangedKind => this.(gameStateChanged := list)
      case PlayerDamagedKind => this.(playerDamaged := list)
      case CreatureDamagedKind => this.(creatureDamaged := list)
      case CreatureDiedKind => this.(creatureDied := list)
      case GameOverKind => this.(gameOver := list)
      case GameInitializedKind => this.(gameInitialized := list)
    }

    /** `AddListener`: the listener goes to the end of its list. */
    function Append(kind: EventKind, listener: ListenerHandle): ListenerTable {
      With(kind, Get(kind) + [listener])
    }

    /** `RemoveListener`: every registration of the listener leaves its list. */
    function Remove(kind: EventKind, listener: ListenerHandle): ListenerTable {
      With(kind, RemoveHandle(Get(kind), listener))
    }
  }

  const NoListeners := ListenerTable([], [], [], [], [], [])

  /** The list without any occurrence of `h`, the other handles kept in their order. */
  function RemoveHandle(list: seq<ListenerHandle>, h: ListenerHandle): (r: seq<ListenerHandle>)
    ensures h !in r
    ensures forall x :: x != h ==> multiset(r)[x] == multiset(list)[x]
    ensures |r| == |list| - multiset(list)[h]
  {
    if list == [] then []
    else
      assert list == [list[0]] + list[1..];
      if list[0] == h then RemoveHandle(list[1..], h)
      else [list[0]] + RemoveHandle(list[1..], h)
  }

  /** A list is split handle by handle: removal from a concatenation is the concatenation of removals. */
  lemma {:induction false} RemoveHandleAppend(a: seq<ListenerHandle>, b: seq<ListenerHandle>, h: ListenerHandle)
    ensures RemoveHandle(a + b, h) == RemoveHandle(a, h) + RemoveHandle(b, h)
  {
    if a == [] {
      assert a + b == b;
    } else {
      assert (a + b)[0] == a[0] && (a + b)[1..] == a[1..] + b;
      RemoveHandleAppend(a[1..], b, h);
    }
  }

  /**
   * Removal keeps registration order: a single registration stays exactly when it is
   * another handle, and a list is treated registration by registration.
   */
  lemma RemoveHandleKeepsOrder(x: ListenerHandle, a: seq<ListenerHandle>, b: seq<ListenerHandle>, h: ListenerHandle)
    ensures RemoveHandle([x], h) == if x == h then [] else [x]
    ensures RemoveHandle(a + b, h) == RemoveHandle(a, h) + RemoveHandle(b, h)
  {
    assert [x][1..] == [];
    RemoveHandleAppend(a, b, h);
  }

  /** Regrouping a trace: `(a + b) + c` is `a + (b + c)`. */
  lemma ConcatAssociative(a: seq<Invocation>, b: seq<Invocation>, c: seq<Invocation>)
    ensures a + b + c == a + (b + c)
  {
  }

  /** The calls made by `Invoke(e)` on a listener list: each listener once, in list order, with `e`. */
  function Round(list: seq<ListenerHandle>, e: Event): (calls: seq<Invocation>)
    ensures |calls| == |list|
    ensures forall i :: 0 <= i < |list| ==> calls[i] == Invocation(list[i], e)
  {
    if list == [] then [] else [Invocation(list[0], e)] + Round(list[1..], e)
  }

  lemma {:induction false} RoundAppend(a: seq<ListenerHandle>, b: seq<ListenerHandle>, e: Event)
    ensures Round(a + b, e) == Round(a, e) + Round(b, e)
  {
    if a != [] {
      assert (a + b)[0] == a[0] && (a + b)[1..] == a[1..] + b;
      RoundAppend(a[1..], b, e);
    } else {
      assert a + b == b;
    }
  }

  /**
   * "Exactly once per registration": in one round a listener is called with the
   * event as many times as it is registered, and never with any other event.
   */
  lemma {:induction false} RoundCount(list: seq<ListenerHandle>, e: Event, x: Invocation)
    ensures multiset(Round(list, e))[x] == if x.event == e then multiset(list)[x.listener] else 0
  {
    if list != [] {
      RoundCount(list[1..], e, x);
      assert list == [list[0]] + list[1..];
    }
  }

  /** `NotifyCreatureDied`'s calls: the whole `CreatureDied` round, then the whole `GameStateChanged` round. */
  function CreatureDiedCascade(t: ListenerTable, c: Creature): (calls: seq<Invocation>)
    ensures |calls| == |t.creatureDied| + |t.gameStateChanged|
    ensures forall i :: 0 <= i < |t.creatureDied| ==> calls[i] == Invocation(t.creatureDied[i], CreatureDied(c))
    ensures forall i :: |t.creatureDied| <= i < |calls| ==>
      calls[i] == Invocation(t.gameStateChanged[i - |t.creatureDied|], GameStateChanged)
  {
    Round(t.creatureDied, CreatureDied(c)) + Round(t.gameStateChanged, GameStateChanged)
  }

  /**
   * `NotifyCreatureDamaged`'s calls: its own round first, followed by the death cascade
   * when health is not positive and by nothing otherwise.
   */
  function CreatureDamagedCascade(t: ListenerTable, c: Creature, damage: int): (calls: seq<Invocation>)
    ensures |calls| >= |t.creatureDamaged|
    ensures calls[..|t.creatureDamaged|] == Round(t.creatureDamaged, CreatureDamaged(c, damage))
    ensures calls[|t.creatureDamaged|..] == if c.health <= 0 then CreatureDiedCascade(t, c) else []
  {
    var own := Round(t.creatureDamaged, CreatureDamaged(c, damage));
    var rest := if c.health <= 0 then CreatureDiedCascade(t, c) else [];
    assert (own + rest)[..|own|] == own && (own + rest)[|own|..] == rest;
    own + rest
  }

  /**
   * `NotifyPlayerDamaged`'s calls: its own round first, followed by the `GameOver` round
   * for the opponent when health is not positive (with no opponent the nested call
   * throws before any `GameOver` listener runs), and by nothing otherwise.
   */
  function PlayerDamagedCascade(t: ListenerTable, p: Player, damage: int): (calls: seq<Invocation>)
    ensures |calls| >= |t.playerDamaged|
    ensures calls[..|t.playerDamaged|] == Round(t.playerDamaged, PlayerDamaged(p.id, damage))
    ensures calls[|t.playerDamaged|..] ==
      if p.health <= 0 && p.opponent.Some? then Round(t.gameOver, GameOver(p.opponent.value)) else []
  {
    var own := Round(t.playerDamaged, PlayerDamaged(p.id, damage));
    var rest := if p.health <= 0 && p.opponent.Some? then Round(t.gameOver, GameOver(p.opponent.value)) else [];
    assert (own + rest)[..|own|] == own && (own + rest)[|own|..] == rest;
    own + rest
  }

  /** In a death cascade no `CreatureDied` call comes after a `GameStateChanged` call. */
  lemma DiedBeforeStateChanged(t: ListenerTable, c: Creature)
    ensures var tr := CreatureDiedCascade(t, c);
      forall i, j :: 0 <= i < j < |tr| && tr[i].event == GameStateChanged ==> tr[j].event == GameStateChanged
  {
  }

  /**
   * A damaged creature's cascade: every `CreatureDamaged` listener is called once per
   * registration; the `CreatureDied` and `GameStateChanged` listeners likewise if and
   * only if its health is not positive; nothing else is called.
   */
  lemma CreatureDamagedCounts(t: ListenerTable, c: Creature, damage: int, h: ListenerHandle)
    ensures var m := multiset(CreatureDamagedCascade(t, c, damage));
      && m[Invocation(h, CreatureDamaged(c, damage))] == multiset(t.creatureDamaged)[h]
      && m[Invocation(h, CreatureDied(c))] == (if c.health <= 0 then multiset(t.creatureDied)[h] else 0)
      && m[Invocation(h, GameStateChanged)] == (if c.health <= 0 then multiset(t.gameStateChanged)[h] else 0)
    ensures c.health > 0 ==> CreatureDamagedCascade(t, c, damage) == Round(t.creatureDamaged, CreatureDamaged(c, damage))
  {
    var e1, e2, e3 := CreatureDamaged(c, damage), CreatureDied(c), GameStateChanged;
    RoundCount(t.creatureDamaged, e1, Invocation(h, e1));
    RoundCount(t.creatureDamaged, e1, Invocation(h, e2));
    RoundCount(t.creatureDamaged, e1, Invocation(h, e3));
    RoundCount(t.creatureDied, e2, Invocation(h, e1));
    RoundCount(t.creatureDied, e2, Invocation(h, e2));
    RoundCount(t.creatureDied, e2, Invocation(h, e3));
    RoundCount(t.gameStateChanged, e3, Invocation(h, e1));
    RoundCount(t.gameStateChanged, e3, Invocation(h, e2));
    RoundCount(t.gameStateChanged, e3, Invocation(h, e3));
  }

  /**
   * A damaged player's cascade: every `PlayerDamaged` listener is called once per
   * registration, and a `GameOver` listener is called for a winner `w` if and only if
   * the player's health is not positive and `w` is its opponent.
   */
  lemma PlayerDamagedCounts(t: ListenerTable, p: Player, damage: int, h: ListenerHandle, w: PlayerId)
    ensures var m := multiset(PlayerDamagedCascade(t, p, damage));
      && m[Invocation(h, PlayerDamaged(p.id, damage))] == multiset(t.playerDamaged)[h]
      && m[Invocation(h, GameOver(w))] == (if p.health <= 0 && p.opponent == Some(w) then multiset(t.gameOver)[h] else 0)
  {
    var e1, e2 := PlayerDamaged(p.id, damage), GameOver(w);
    RoundCount(t.playerDamaged, e1, Invocation(h, e1));
    RoundCount(t.playerDamaged, e1, Invocation(h, e2));
    if p.health <= 0 && p.opponent.Some? {
      RoundCount(t.gameOver, GameOver(p.opponent.value), Invocation(h, e1));
      RoundCount(t.gameOver, GameOver(p.opponent.value), Invocation(h, e2));
    }
  }

  /** The hub. `trace` records every listener call made through it. */
  class Mediator {
    var isInitialized: bool
    var listeners: ListenerTable
    var registeredPlayers: set<PlayerId>
    /**
     * One entry per `OnDamaged` wiring `RegisterPlayer` has added to a player's own
     * damage event (each entry forwards that player's damage to `NotifyPlayerDamaged`).
     * The wiring lives on the player objects, so clearing the hub does not remove it.
     */
    var damageWiring: seq<PlayerId>
    ghost var trace: seq<Invocation>

    /**
     * Every registered player has its damage signal wired to the hub: a registered
     * player's damage always reaches `NotifyPlayerDamaged`, and since `UnregisterPlayer`
     * keeps the wiring, a player may have wirings without being registered.
     */
    ghost predicate Valid()
      reads this
    {
      forall p :: p in registeredPlayers ==> p in damageWiring
    }

    constructor ()
      ensures Valid()
      ensures !isInitialized && listeners == NoListeners && registeredPlayers == {}
      ensures damageWiring == [] && trace == []
    {
      isInitialized := false;
      listeners := NoListeners;
      registeredPlayers := {};
      damageWiring := [];
      trace := [];
    }

    /** What a guarded operation throws first: `NotInitialized`, then `NullArgument` for a null argument. */
    function Checked(nullArgument: bool): Outcome<HubError>
      reads this`isInitialized
    {
      if !isInitialized then Fail(NotInitialized)
      else if nullArgument then Fail(NullArgument)
      else Pass
    }

    /**
     * `Initialize`: a no-op when already initialised or when the `GameReferences`
     * component is not yet initialised; otherwise clears every list and the player
     * set, then marks the hub initialised.
     */
    method Initialize(gameReferencesInitialized: bool)
      requires Valid()
      modifies this
      ensures Valid()
      ensures old(isInitialized) || !gameReferencesInitialized ==> unchanged(this)
      ensures !old(isInitialized) && gameReferencesInitialized ==>
        && isInitialized && listeners == NoListeners && registeredPlayers == {}
        && damageWiring == old(damageWiring) && trace == old(trace)
    {
      if isInitialized {
        return;
      }
      if !gameReferencesInitialized {
        return;
      }
      ClearAllListeners();
      isInitialized := true;
    }

    /** `ValidateInitialization`: throws exactly when the hub is not initialised. */
    method ValidateInitialization() returns (r: Outcome<HubError>)
      ensures r.Pass? <==> isInitialized
      ensures r.Fail? ==> r.error == NotInitialized
    {
      if !isInitialized {
        return Fail(NotInitialized);
      }
      return Pass;
    }

    /** `ClearAllListeners`: empties the six lists and the registered-player set. */
    method ClearAllListeners()
      modifies this`listeners, this`registeredPlayers
      ensures Valid()
      ensures listeners == NoListeners && registeredPlayers == {}
    {
      listeners := NoListeners;
      registeredPlayers := {};
    }

    /** The guarded `Add*Listener` shared by the six event kinds. */
    method AddListener(kind: EventKind, listener: ListenerHandle) returns (r: Outcome<HubError>)
      modifies this`listeners
      ensures r == Checked(false)
      ensures listeners == if r.Pass? then old(listeners).Append(kind, listener) else old(listeners)
    {
      r := ValidateInitialization();
      if r.Fail? {
        return;
      }
      listeners := listeners.Append(kind, listener);
    }

    /** The unguarded `Remove*Listener` shared by the six event kinds. */
    method RemoveListener(kind: EventKind, listener: ListenerHandle)
      modifies this`listeners
      ensures listeners == old(listeners).Remove(kind, listener)
      ensures listener !in listeners.Get(kind)
    {
      listeners := listeners.Remove(kind, listener);
    }

    method AddGameStateChangedListener(listener: ListenerHandle) returns (r: Outcome<HubError>)
      modifies this`listeners
      ensures r == Checked(false)
      ensures listeners == if r.Pass? then old(listeners).Append(GameStateChangedKind, listener) else old(listeners)
    {
      r := AddListener(GameStateChangedKind, listener);
    }

    method RemoveGameStateChangedListener(listener: ListenerHandle)
      modifies this`listeners
      ensures listeners == old(listeners).Remove(GameStateChangedKind, listener)
    {
      RemoveListener(GameStateChangedKind, listener);
    }

    method AddPlayerDamagedListener(listener: ListenerHandle) returns (r: Outcome<HubError>)
      modifies this`listeners
      ensures r == Checked(false)
      ensures listeners == if r.Pass? then old(listeners).Append(PlayerDamagedKind, listener) else old(listeners)
    {
      r := AddListener(PlayerDamagedKind, listener);
    }

    method RemovePlayerDamagedListener(listener: ListenerHandle)
      modifies this`listeners
      ensures listeners == old(listeners).Remove(PlayerDamagedKind, listener)
    {
      RemoveListener(PlayerDamagedKind, listener);
    }

    method AddCreatureDamagedListener(listener: ListenerHandle) returns (r: Outcome<HubError>)
      modifies this`listeners
      ensures r == Checked(false)
      ensures listeners == if r.Pass? then old(listeners).Append(CreatureDamagedKind, listener) else old(listeners)
    {
      r := AddListener(CreatureDamagedKind, listener);
    }

    method RemoveCreatureDamagedListener(listener: ListenerHandle)
      modifies this`listeners
      ensures listeners == old(listeners).Remove(CreatureDamagedKind, listener)
    {
      RemoveListener(CreatureDamagedKind, listener);
    }

    method AddCreatureDiedListener(listener: ListenerHandle) returns (r: Outcome<HubError>)
      modifies this`listeners
      ensures r == Checked(false)
      ensures listeners == if r.Pass? then old(listeners).Append(CreatureDiedKind, listener) else old(listeners)
    {
      r := AddListener(CreatureDiedKind, listener);
    }

    method RemoveCreatureDiedListener(listener: ListenerHandle)
      modifies this`listeners
      ensures listeners == old(listeners).Remove(CreatureDiedKind, listener)
    {
      RemoveListener(CreatureDiedKind, listener);
    }

    method AddGameOverListener(listener: ListenerHandle) returns (r: Outcome<HubError>)
      modifies this`listeners
      ensures r == Checked(false)
      ensures listeners == if r.Pass? then old(listeners).Append(GameOverKind, listener) else old(listeners)
    {
      r := AddListener(GameOverKind, listener);
    }

    method RemoveGameOverListener(listener: ListenerHandle)
      modifies this`listeners
      ensures listeners == old(listeners).Remove(GameOverKind, listener)
    {
      RemoveListener(GameOverKind, listener);
    }

    method AddGameInitializedListener(listener: ListenerHandle) returns (r: Outcome<HubError>)
      modifies this`listeners
      ensures r == Checked(false)
      ensures listeners == if r.Pass? then old(listeners).Append(GameInitializedKind, listener) else old(listeners)
    {
      r := AddListener(GameInitializedKind, listener);
    }

    method RemoveGameInitializedListener(listener: ListenerHandle)
      modifies this`listeners
      ensures listeners == old(listeners).Remove(GameInitializedKind, listener)
    {
      RemoveListener(GameInitializedKind, listener);
    }

    /**
     * `RegisterPlayer`: guarded, throws on null; a player not yet registered joins the
     * set and gets one damage wiring; registering it again changes nothing.
     */
    method RegisterPlayer(player: Option<Player>) returns (r: Outcome<HubError>)
      requires Valid()
      modifies this`registeredPlayers, this`damageWiring
      ensures Valid()
      ensures r == Checked(player.None?)
      ensures r.Fail? ==> registeredPlayers == old(registeredPlayers) && damageWiring == old(damageWiring)
      ensures r.Pass? ==> registeredPlayers == old(registeredPlayers) + {player.value.id}
      ensures r.Pass? ==>
        damageWiring == (if player.value.id in old(registeredPlayers) then old(damageWiring) else old(damageWiring) + [player.value.id])
      ensures r.Pass? ==>
        multiset(damageWiring)[player.value.id] == (multiset(old(damageWiring))[player.value.id] + if player.value.id in old(registeredPlayers) then 0 else 1)
    {
      r := ValidateInitialization();
      if r.Fail? {
        return;
      }
      if player.None? {
        return Fail(NullArgument);
      }
      var id := player.value.id;
      if id !in registeredPlayers {
        registeredPlayers := registeredPlayers + {id};
        damageWiring := damageWiring + [id];
      }
    }

    /** `UnregisterPlayer`: unguarded; removes the player from the set only, its damage wiring stays. */
    method UnregisterPlayer(player: Option<Player>)
      requires Valid()
      modifies this`registeredPlayers
      ensures Valid()
      ensures registeredPlayers == if player.None? then old(registeredPlayers) else old(registeredPlayers) - {player.value.id}
      ensures damageWiring == old(damageWiring)
    {
      if player.None? {
        return;
      }
      registeredPlayers := registeredPlayers - {player.value.id};
    }

    /** `UnityEvent.Invoke`: calls every listener of the event's kind, in registration order. */
    method Invoke(e: Event)
      modifies this`trace
      ensures trace == old(trace) + Round(listeners.Get(e.Kind()), e)
    {
      var list := listeners.Get(e.Kind());
      for i := 0 to |list|
        invariant trace == old(trace) + Round(list[..i], e)
      {
        assert list[..i + 1] == list[..i] + [list[i]];
        RoundAppend(list[..i], [list[i]], e);
        trace := trace + [Invocation(list[i], e)];
      }
      assert list[..|list|] == list;
    }

    method NotifyGameInitialized() returns (r: Outcome<HubError>)
      modifies this`trace
      ensures r == Checked(false)
      ensures trace == old(trace) + if r.Pass? then Round(listeners.gameInitialized, GameInitialized) else []
    {
      r := ValidateInitialization();
      if r.Fail? {
        return;
      }
      Invoke(GameInitialized);
    }

    method NotifyGameStateChanged() returns (r: Outcome<HubError>)
      modifies this`trace
      ensures r == Checked(false)
      ensures trace == old(trace) + if r.Pass? then Round(listeners.gameStateChanged, GameStateChanged) else []
    {
      r := ValidateInitialization();
      if r.Fail? {
        return;
      }
      Invoke(GameStateChanged);
    }

    /**
     * `NotifyPlayerDamaged`: guarded, throws on null; otherwise one `PlayerDamaged`
     * round, then, when the player's health is not positive, `NotifyGameOver` for its
     * opponent, which throws `NullArgument` when there is none.
     */
    method NotifyPlayerDamaged(player: Option<Player>, damage: int) returns (r: Outcome<HubError>)
      modifies this`trace
      ensures player.None? || !isInitialized ==> r == Checked(player.None?) && trace == old(trace)
      ensures player.Some? && isInitialized ==>
        && trace == old(trace) + PlayerDamagedCascade(listeners, player.value, damage)
        && r == (if player.value.health <= 0 && player.value.opponent.None? then Fail(NullArgument) else Pass)
    {
      r := ValidateInitialization();
      if r.Fail? {
        return;
      }
      if player.None? {
        return Fail(NullArgument);
      }
      var p := player.value;
      ghost var before := trace;
      Invoke(PlayerDamaged(p.id, damage));
      ghost var own := Round(listeners.playerDamaged, PlayerDamaged(p.id, damage));
      ghost var rest: seq<Invocation> := [];
      assert trace == before + own + rest;
      if p.health <= 0 {
        r := NotifyGameOver(p.opponent);
        if p.opponent.Some? {
          rest := Round(listeners.gameOver, GameOver(p.opponent.value));
        }
      }
      assert trace == before + own + rest;
      assert PlayerDamagedCascade(listeners, p, damage) == own + rest;
      ConcatAssociative(before, own, rest);
    }

    /**
     * `NotifyCreatureDamaged`: guarded, throws on null; otherwise one `CreatureDamaged`
     * round, then the death cascade when the creature's health is not positive.
     */
    method NotifyCreatureDamaged(creature: Option<Creature>, damage: int) returns (r: Outcome<HubError>)
      modifies this`trace
      ensures r == Checked(creature.None?)
      ensures trace == old(trace) + if r.Pass? then CreatureDamagedCascade(listeners, creature.value, damage) else []
    {
      r := ValidateInitialization();
      if r.Fail? {
        return;
      }
      if creature.None? {
        return Fail(NullArgument);
      }
      var c := creature.value;
      ghost var before := trace;
      Invoke(CreatureDamaged(c, damage));
      ghost var own := Round(listeners.creatureDamaged, CreatureDamaged(c, damage));
      ghost var rest: seq<Invocation> := [];
      assert trace == before + own + rest;
      if c.health <= 0 {
        r := NotifyCreatureDied(creature);
        rest := CreatureDiedCascade(listeners, c);
      }
      assert trace == before + own + rest;
      assert CreatureDamagedCascade(listeners, c, damage) == own + rest;
      ConcatAssociative(before, own, rest);
    }

    /** `NotifyCreatureDied`: guarded, throws on null; otherwise `CreatureDied`, then `GameStateChanged`. */
    method NotifyCreatureDied(creature: Option<Creature>) returns (r: Outcome<HubError>)
      modifies this`trace
      ensures r == Checked(creature.None?)
      ensures trace == old(trace) + if r.Pass? then CreatureDiedCascade(listeners, creature.value) else []
    {
      r := ValidateInitialization();
      if r.Fail? {
        return;
      }
      if creature.None? {
        return Fail(NullArgument);
      }
      var c := creature.value;
      ghost var before := trace;
      Invoke(CreatureDied(c));
      ghost var own := Round(listeners.creatureDied, CreatureDied(c));
      assert trace == before + own;
      r := NotifyGameStateChanged();
      ghost var after := Round(listeners.gameStateChanged, GameStateChanged);
      assert trace == before + own + after;
      ConcatAssociative(before, own, after);
    }

    /** `NotifyGameOver`: guarded, throws on null before any listener runs; otherwise one `GameOver` round. */
    method NotifyGameOver(winner: Option<PlayerId>) returns (r: Outcome<HubError>)
      modifies this`trace
      ensures r == Checked(winner.None?)
      ensures trace == old(trace) + if r.Pass? then Round(listeners.gameOver, GameOver(winner.value)) else []
    {
      r := ValidateInitialization();
      if r.Fail? {
        return;
      }
      if winner.None? {
        return Fail(NullArgument);
      }
      Invoke(GameOver(winner.value));
    }
  }

  /**
   * Registering, unregistering and registering a player again leaves it with two
   * damage wirings: `UnregisterPlayer` never removes the wiring `RegisterPlayer` added.
   */
  method ReRegisterAddsSecondWiring(hub: Mediator, p: Player)
    requires hub.Valid() && hub.isInitialized && p.id !in hub.registeredPlayers
    modifies hub`registeredPlayers, hub`damageWiring
    ensures hub.Valid() && hub.registeredPlayers == old(hub.registeredPlayers) + {p.id}
    ensures multiset(hub.damageWiring)[p.id] == multiset(old(hub.damageWiring))[p.id] + 2
  {
    var r := hub.RegisterPlayer(Some(p));
    hub.UnregisterPlayer(Some(p));
    r := hub.RegisterPlayer(Some(p));
  }
}
