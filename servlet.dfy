/**
 * `EntityServlet`: the process that runs one location's entities.  It routes the events published
 * on the location's channels, keeps a `SimulatedPlayer` per player present (to predict movement
 * between updates) and decides where newly spawned entities go.
 */
module Servlet {
  import opened Wrappers
  import opened Cells
  import Text
  import Decimal
  import Trader
  import Entities

  // ---------------------------------------------------------------------------------------
  // SimulatedPlayer

  class SimulatedPlayer {
    const id: string
    var position: (int, int)
    var velocity: (int, int)
    /** Set by a posted update and cleared by the next tick that reports. */
    var updated: bool

    constructor (guid: string)
      ensures id == guid && position == (0, 0) && velocity == (0, 0) && !updated
    {
      id := guid;
      position, velocity := (0, 0), (0, 0);
      updated := false;
    }

    /**
     * `post_velocity`: the four fields go through `int()`.  A bad position leaves everything alone;
     * a bad velocity is found after the position was already taken.  Either raises ValueError.
     */
    method PostVelocity(x: string, y: string, xVel: string, yVel: string) returns (r: Result<(), PyError>)
      modifies this
      ensures Took(x, y, xVel, yVel, r)
    {
      var px, py := Decimal.ParseInt(x), Decimal.ParseInt(y);
      if px.None? || py.None? {
        return Failure(ValueError);
      }
      position := (px.value, py.value);
      var vx, vy := Decimal.ParseInt(xVel), Decimal.ParseInt(yVel);
      if vx.None? || vy.None? {
        return Failure(ValueError);
      }
      velocity := (vx.value, vy.value);
      updated := true;
      r := Success(());
    }

    /** The state `post_velocity(x, y, xVel, yVel)` leaves behind, with its outcome `r`. */
    twostate predicate Took(x: string, y: string, xVel: string, yVel: string, new r: Result<(), PyError>)
      reads this
    {
      var pos := (Decimal.ParseInt(x), Decimal.ParseInt(y));
      var vel := (Decimal.ParseInt(xVel), Decimal.ParseInt(yVel));
      if pos.0.None? || pos.1.None? then
        r == Failure(ValueError) && position == old(position) && velocity == old(velocity) && updated == old(updated)
      else if vel.0.None? || vel.1.None? then
        r == Failure(ValueError) && position == (pos.0.value, pos.1.value) &&
        velocity == old(velocity) && updated == old(updated)
      else
        r == Success(()) && position == (pos.0.value, pos.1.value) &&
        velocity == (vel.0.value, vel.1.value) && updated
    }

    /**
     * `on_tick`: each non-zero velocity component moves the player by `step` pixels per unit of
     * velocity.  The result is the point distances are measured from, returned when the player
     * moved or an update was posted since the last report; the flag is then cleared.
     */
    method OnTick(step: int) returns (r: Option<(int, int)>)
      modifies this
      ensures velocity == old(velocity)
      ensures position == (old(position).0 + velocity.0 * step, old(position).1 + velocity.1 * step)
      ensures r.None? <==> velocity == (0, 0) && !old(updated)
      ensures r.Some? ==> r.value == position && !updated
      ensures r.None? ==> updated == old(updated)
    {
      var (xv, yv) := velocity;
      var moved := false;
      if xv != 0 {
        position := (position.0 + xv * step, position.1);
        moved := true;
      }
      if yv != 0 {
        position := (position.0, position.1 + yv * step);
        moved := true;
      }
      if moved || updated {
        updated := false;
        return Some(position);
      }
      r := None;
    }
  }

  /** A player that posted an update is reported by the next tick even when standing still. */
  method PostedThenTicked(p: SimulatedPlayer, step: int) returns (r: Option<(int, int)>, again: Option<(int, int)>)
    requires p.velocity == (0, 0)
    modifies p
    ensures p.updated == false
    ensures r == Some(p.position) && again.None?
  {
    var ok := p.PostVelocity(Decimal.NatToDecimal(3), Decimal.NatToDecimal(4), "0", "0");
    assert Decimal.ParseInt("0") == Some(0);
    Decimal.IntRoundTrip(3);
    Decimal.IntRoundTrip(4);
    r := p.OnTick(step);
    again := p.OnTick(step);
  }

  // ---------------------------------------------------------------------------------------
  // Event routing

  const IGNORED: set<string> := {"spa", "epu"}
  const INSPECTED: set<string> := {"del", "cha"}

  /** What `_handle_event` does with one published message. */
  datatype Action =
    | Enter(data: string)
    | Drop(data: string)
    | Ignore
    | Leave(user: string, full: string)
    | Move(full: string, guid: string, x: string, y: string, xVel: string, yVel: string)
    | Forward(full: string)

  predicate Numeric(s: string) { Decimal.ParseInt(s).Some? }

  /** `message[:3]` and `message[3:]`. */
  function Kind(s: string): string { if |s| >= 3 then s[..3] else s }
  function Rest(s: string): string { if |s| >= 3 then s[3..] else [] }

  /**
   * The routing of `_handle_event` for a message on `channel` in the servlet of `location`:
   * the message is `location>data`; a missing `>`, or a `loc` without five fields, is ValueError.
   */
  function Classify(channel: string, message: string, location: string): (r: Result<Action, PyError>)
    ensures r == Failure(ValueError) <==>
      '>' !in message ||
      (var (at, full) := Text.SplitOnce(message, '>').value;
       !(channel == "global::enter" && at == location) && !(channel == "global::drop" && at == location) &&
       Kind(full) == "loc" && |Text.Split(Rest(full), ':')| != 5)
    ensures r.Success? ==> r.value != Ignore ==> Text.SplitOnce(message, '>').Some?
  {
    match Text.SplitOnce(message, '>')
    case None => Failure(ValueError)
    case Some((at, full)) =>
      if channel == "global::enter" && at == location then Success(Enter(full))
      else if channel == "global::drop" && at == location then Success(Drop(full))
      else
        var kind, data := Kind(full), Rest(full);
        if kind in IGNORED || (kind in INSPECTED && Text.StartsWith(data, "@")) then Success(Ignore)
        else if kind == "del" then Success(Leave(data, full))
        else if kind == "loc" then
          var f := Text.Split(data, ':');
          if |f| != 5 then Failure(ValueError) else Success(Move(full, f[0], f[1], f[2], f[3], f[4]))
        else Success(Forward(full))
  }

  /** An enter or drop addressed to this location is handled by the servlet alone. */
  lemma EnterAndDropNotForwarded(data: string, location: string)
    requires '>' !in location
    ensures Classify("global::enter", location + ">" + data, location) == Success(Enter(data))
    ensures Classify("global::drop", location + ">" + data, location) == Success(Drop(data))
  {
    Text.SplitOnceAt(location, data, '>');
  }

  /** Spawn and entity-update messages, and `@`-addressed leaves and chats, are dropped. */
  lemma IgnoredMessages(channel: string, at: string, full: string, location: string)
    requires '>' !in at
    requires !(channel == "global::enter" && at == location) && !(channel == "global::drop" && at == location)
    requires Kind(full) in IGNORED || (Kind(full) in INSPECTED && Text.StartsWith(Rest(full), "@"))
    ensures Classify(channel, at + ">" + full, location) == Success(Ignore)
  {
    Text.SplitOnceAt(at, full, '>');
  }

  /** A leave names the player and is forwarded whole; other unfiltered types are just forwarded. */
  lemma LeaveAndForward(channel: string, at: string, full: string, location: string)
    requires '>' !in at
    requires !(channel == "global::enter" && at == location) && !(channel == "global::drop" && at == location)
    requires !(Kind(full) in INSPECTED && Text.StartsWith(Rest(full), "@"))
    ensures Kind(full) == "del" ==> Classify(channel, at + ">" + full, location) == Success(Leave(Rest(full), full))
    ensures Kind(full) !in IGNORED + INSPECTED + {"loc"} ==>
      Classify(channel, at + ">" + full, location) == Success(Forward(full))
  {
    Text.SplitOnceAt(at, full, '>');
  }

  /** An entity as the servlet sees it: its id and the description its spawn message carries. */
  datatype EntityInfo = EntityInfo(id: string, description: string)

  /** `spawn_entity`: the `spa` notice. */
  function SpawnNotice(e: EntityInfo): string {
    "spa" + e.id + "\n" + e.description
  }

  /** One call per entity, in entity order, each with `arg`: the calls a loop over the entities makes. */
  function Addressed(entities: seq<EntityInfo>, arg: string): (d: seq<(string, string)>)
    ensures |d| == |entities|
    ensures forall i :: 0 <= i < |d| ==> d[i] == (entities[i].id, arg)
  {
    if entities == [] then []
    else Addressed(entities[..|entities| - 1], arg) + [(entities[|entities| - 1].id, arg)]
  }

  function SpawnNotices(entities: seq<EntityInfo>): (d: seq<string>)
    ensures |d| == |entities|
    ensures forall i :: 0 <= i < |d| ==> d[i] == SpawnNotice(entities[i])
  {
    if entities == [] then [] else SpawnNotices(entities[..|entities| - 1]) + [SpawnNotice(entities[|entities| - 1])]
  }

  // ---------------------------------------------------------------------------------------
  // The servlet

  class EntityServlet {
    const location: string
    var entities: seq<EntityInfo>
    var players: map<string, SimulatedPlayer>
    /** Whether a cleanup timer was ever created (`self.ttl` is set). */
    var ttl: bool
    /** Whether a created cleanup timer is still running. */
    var cleanupPending: bool
    /** `handle_message` calls: (entity id, message). */
    var delivered: seq<(string, string)>
    /** `forget` calls: (entity id, player). */
    var forgotten: seq<(string, string)>
    /** Location broadcasts. */
    var notices: seq<string>
    /** How many times the location's initial entities were spawned. */
    var initialSpawns: nat

    /** Each player has an object of its own, named by its guid. */
    ghost predicate Valid()
      reads this, players.Values
    {
      (forall g :: g in players ==> players[g].id == g) &&
      (forall g, h :: g in players && h in players && g != h ==> players[g] != players[h])
    }

    constructor (location: string)
      ensures this.location == location && entities == [] && players == map[]
      ensures !ttl && !cleanupPending && delivered == [] && forgotten == [] && notices == []
      ensures initialSpawns == 0 && Valid()
    {
      this.location := location;
      entities, players := [], map[];
      ttl, cleanupPending := false, false;
      delivered, forgotten, notices := [], [], [];
      initialSpawns := 0;
    }

    /** `for entity in self.entities: entity.handle_message(message)`. */
    method ForwardToEntities(message: string)
      modifies this
      ensures delivered == old(delivered) + Addressed(entities, message)
      ensures entities == old(entities) && players == old(players) && ttl == old(ttl)
      ensures cleanupPending == old(cleanupPending) && forgotten == old(forgotten) && notices == old(notices)
      ensures initialSpawns == old(initialSpawns)
    {
      for i := 0 to |entities|
        invariant entities == old(entities) && players == old(players) && ttl == old(ttl)
        invariant delivered == old(delivered) + Addressed(entities[..i], message)
        invariant cleanupPending == old(cleanupPending) && forgotten == old(forgotten) && notices == old(notices)
        invariant initialSpawns == old(initialSpawns)
      {
        assert entities[..i + 1][..i] == entities[..i];
        delivered := delivered + [(entities[i].id, message)];
      }
      assert entities[..|entities|] == entities;
    }

    /**
     * `on_leave(user)`: every entity forgets the player, then the player is removed (KeyError when
     * absent, after the forgetting); the cleanup timer is armed exactly when no player is left.
     */
    method OnLeave(user: string) returns (r: Result<(), PyError>)
      requires Valid()
      modifies this
      ensures Valid()
      ensures Left(user, r)
      ensures delivered == old(delivered)
    {
      for i := 0 to |entities|
        invariant entities == old(entities) && players == old(players) && ttl == old(ttl)
        invariant forgotten == old(forgotten) + Addressed(entities[..i], user)
        invariant cleanupPending == old(cleanupPending) && delivered == old(delivered) && notices == old(notices)
        invariant initialSpawns == old(initialSpawns)
      {
        assert entities[..i + 1][..i] == entities[..i];
        forgotten := forgotten + [(entities[i].id, user)];
      }
      assert entities[..|entities|] == entities;
      if user !in players {
        return Failure(KeyError);
      }
      players := players - {user};
      if players == map[] {
        ttl := true;
        cleanupPending := true;
      }
      r := Success(());
    }

    /** The state `on_leave(user)` leaves behind, with its outcome `r`; it does not touch `delivered`. */
    twostate predicate Left(user: string, new r: Result<(), PyError>)
      reads this
    {
      forgotten == old(forgotten) + Addressed(entities, user) &&
      entities == old(entities) && notices == old(notices) && initialSpawns == old(initialSpawns) &&
      (r.Failure? <==> user !in old(players)) &&
      (r.Failure? ==>
         r.error == KeyError && players == old(players) && ttl == old(ttl) && cleanupPending == old(cleanupPending)) &&
      (r.Success? ==>
         players == old(players) - {user} &&
         (players == map[] ==> ttl && cleanupPending) &&
         (players != map[] ==> ttl == old(ttl) && cleanupPending == old(cleanupPending)))
    }

    /**
     * `on_enter(data, initial)`: a pending cleanup is cancelled and the spawn is then never initial;
     * an initial entry into a location with entities spawns them, any other entry re-announces the
     * current entities.  The player named by the first `:` field gets a fresh simulated player.
     */
    method OnEnter(data: string, initial: bool, hasEntities: bool)
      requires Valid()
      modifies this
      ensures Valid()
      ensures Entered(data, initial, hasEntities)
    {
      var initial := initial;
      if ttl {
        cleanupPending := false;
        initial := false;
      }
      if initial && hasEntities {
        initialSpawns := initialSpawns + 1;
      } else {
        for i := 0 to |entities|
          invariant entities == old(entities) && players == old(players) && ttl == old(ttl)
          invariant notices == old(notices) + SpawnNotices(entities[..i])
          invariant cleanupPending == (old(cleanupPending) && !old(ttl)) && initialSpawns == old(initialSpawns)
          invariant delivered == old(delivered) && forgotten == old(forgotten)
        {
          assert entities[..i + 1][..i] == entities[..i];
          notices := notices + [SpawnNotice(entities[i])];
        }
        assert entities[..|entities|] == entities;
      }
      var guid := Text.Split(data, ':')[0];
      var p := new SimulatedPlayer(guid);
      players := players[guid := p];
    }

    /** The state `on_enter(data, initial)` leaves behind. */
    twostate predicate Entered(data: string, initial: bool, hasEntities: bool)
      reads this, players.Values
    {
      (var guid := Text.Split(data, ':')[0];
       guid in players && fresh(players[guid]) && players[guid].position == (0, 0) &&
       players[guid].velocity == (0, 0) && !players[guid].updated &&
       forall g :: g in players && g != guid ==> g in old(players) && players[g] == old(players)[g]) &&
      (forall g :: g in old(players) ==> g in players) &&
      ttl == old(ttl) && cleanupPending == (old(cleanupPending) && !old(ttl)) &&
      (initial && !old(ttl) && hasEntities ==>
         initialSpawns == old(initialSpawns) + 1 && notices == old(notices)) &&
      (!(initial && !old(ttl) && hasEntities) ==>
         initialSpawns == old(initialSpawns) && notices == old(notices) + SpawnNotices(entities)) &&
      entities == old(entities) && delivered == old(delivered) && forgotten == old(forgotten)
    }

    /**
     * `spawn_drop(command)`: the command is `guid:item:x:y` with integer coordinates, else ValueError.
     * The item entity built from the item and the coordinates is `item(kind, x, y)`; it joins the
     * entities and its spawn notice is broadcast.
     */
    method SpawnDrop(command: string, item: (string, int, int) -> EntityInfo) returns (r: Result<(), PyError>)
      modifies this
      ensures Dropped(command, item, r)
    {
      var f := Text.Split(command, ':');
      if |f| != 4 {
        return Failure(ValueError);
      }
      var x, y := Decimal.ParseInt(f[2]), Decimal.ParseInt(f[3]);
      if x.None? || y.None? {
        return Failure(ValueError);
      }
      var e := item(f[1], x.value, y.value);
      entities := entities + [e];
      notices := notices + [SpawnNotice(e)];
      r := Success(());
    }

    /** The state `spawn_drop(command)` leaves behind, with its outcome `r`. */
    twostate predicate Dropped(command: string, item: (string, int, int) -> EntityInfo, new r: Result<(), PyError>)
      reads this
    {
      var f := Text.Split(command, ':');
      players == old(players) && ttl == old(ttl) && cleanupPending == old(cleanupPending) &&
      delivered == old(delivered) && forgotten == old(forgotten) && initialSpawns == old(initialSpawns) &&
      (r.Failure? <==> |f| != 4 || !Numeric(f[2]) || !Numeric(f[3])) &&
      (r.Failure? ==> r.error == ValueError && entities == old(entities) && notices == old(notices)) &&
      (r.Success? ==>
         var e := item(f[1], Decimal.ParseInt(f[2]).value, Decimal.ParseInt(f[3]).value);
         entities == old(entities) + [e] && notices == old(notices) + [SpawnNotice(e)])
    }

    /**
     * `_handle_event` for a message published on `channel`: routed as `Classify` says.  A leave
     * or a movement is applied first and the message is then forwarded to every entity, unless
     * applying it raised.  `item` builds the entity for a dropped item.
     */
    method HandleEvent(channel: string, message: string, hasEntities: bool, item: (string, int, int) -> EntityInfo)
      returns (r: Result<(), PyError>)
      requires Valid()
      modifies this, players.Values
      ensures Valid()
      ensures Classify(channel, message, location).Failure? ==> r == Failure(ValueError) && Untouched()
      ensures Classify(channel, message, location) == Success(Ignore) ==> r.Success? && Untouched()
      ensures Classify(channel, message, location).Success? ==>
        match Classify(channel, message, location).value
        case Enter(data) => r.Success? && Entered(data, false, hasEntities)
        case Drop(data) => Dropped(data, item, r)
        case Ignore => true
        case Forward(full) =>
          r.Success? && delivered == old(delivered) + Addressed(entities, full) &&
          players == old(players) && ttl == old(ttl) && cleanupPending == old(cleanupPending) &&
          forgotten == old(forgotten) && entities == old(entities) && notices == old(notices) &&
          initialSpawns == old(initialSpawns)
        case Leave(user, full) => LeftAndForwarded(user, full, r)
        case Move(full, guid, x, y, xVel, yVel) => MoveApplied(full, guid, x, y, xVel, yVel, r)
      ensures Classify(channel, message, location).Success? && !Classify(channel, message, location).value.Move? ==>
        forall g :: g in old(players) ==> unchanged(old(players)[g])
    {
      var c := Classify(channel, message, location);
      if c.Failure? {
        return Failure(ValueError);
      }
      match c.value {
        case Enter(data) =>
          OnEnter(data, false, hasEntities);
          r := Success(());
        case Drop(data) =>
          r := SpawnDrop(data, item);
        case Ignore =>
          r := Success(());
        case Forward(full) =>
          ForwardToEntities(full);
          r := Success(());
        case Leave(user, full) =>
          r := ApplyLeave(user, full);
        case Move(full, guid, x, y, xVel, yVel) =>
          r := ApplyMove(full, guid, x, y, xVel, yVel);
      }
    }

    /** A `del` message: the leave, then the forwarding when the player was present. */
    method ApplyLeave(user: string, full: string) returns (r: Result<(), PyError>)
      requires Valid()
      modifies this
      ensures Valid()
      ensures LeftAndForwarded(user, full, r)
    {
      r := OnLeave(user);
      if r.Success? {
        ForwardToEntities(full);
      }
    }

    /** The leave's state, and `full` delivered to every entity exactly when the leave succeeded. */
    twostate predicate LeftAndForwarded(user: string, full: string, new r: Result<(), PyError>)
      reads this
    {
      Left(user, r) &&
      (r.Success? ==> delivered == old(delivered) + Addressed(entities, full)) &&
      (r.Failure? ==> delivered == old(delivered))
    }

    /** A `loc` message: the player's simulation takes the update, then the message is forwarded. */
    method ApplyMove(full: string, guid: string, x: string, y: string, xVel: string, yVel: string)
      returns (r: Result<(), PyError>)
      requires Valid()
      modifies this, players.Values
      ensures Valid()
      ensures r.Success? <==> guid in old(players) && Numeric(x) && Numeric(y) && Numeric(xVel) && Numeric(yVel)
      ensures MoveApplied(full, guid, x, y, xVel, yVel, r)
    {
      if guid !in players {
        return Failure(KeyError);
      }
      r := players[guid].PostVelocity(x, y, xVel, yVel);
      if r.Success? {
        ForwardToEntities(full);
      }
    }

    /**
     * The state the `loc` branch leaves behind: KeyError and nothing changed for an unknown guid;
     * otherwise that player took the update as `post_velocity` says, no other player changed, and
     * `full` was delivered to every entity exactly when the update succeeded.
     */
    twostate predicate MoveApplied(full: string, guid: string, x: string, y: string, xVel: string, yVel: string,
                                   new r: Result<(), PyError>)
      reads this, players.Values
    {
      players == old(players) && entities == old(entities) && ttl == old(ttl) &&
      cleanupPending == old(cleanupPending) && forgotten == old(forgotten) && notices == old(notices) &&
      initialSpawns == old(initialSpawns) &&
      (forall g :: g in players && g != guid ==> unchanged(players[g])) &&
      (guid !in players ==> r == Failure(KeyError) && delivered == old(delivered)) &&
      (guid in players ==> players[guid].Took(x, y, xVel, yVel, r)) &&
      (r.Success? ==> delivered == old(delivered) + Addressed(entities, full)) &&
      (r.Failure? ==> delivered == old(delivered))
    }

    twostate predicate Untouched()
      reads this
    {
      entities == old(entities) && players == old(players) && ttl == old(ttl) &&
      cleanupPending == old(cleanupPending) && delivered == old(delivered) && forgotten == old(forgotten) &&
      notices == old(notices) && initialSpawns == old(initialSpawns)
    }
  }

  /**
   * The command of the `drop` notice an inventory sends, `holder:item:x:y`, is one `spawn_drop`
   * accepts: four fields, the item second, and the coordinates read back as written.
   */
  lemma DropCommandAccepted(holder: string, kind: string, x: int, y: int)
    requires ':' !in holder && ':' !in kind
    ensures var f := Text.Split(Text.Join([holder, kind, Decimal.IntToDecimal(x), Decimal.IntToDecimal(y)], ":"), ':');
      |f| == 4 && f[1] == kind && Decimal.ParseInt(f[2]) == Some(x) && Decimal.ParseInt(f[3]) == Some(y)
  {
    Entities.NoColon(x);
    Entities.NoColon(y);
    Text.SplitJoin([holder, kind, Decimal.IntToDecimal(x), Decimal.IntToDecimal(y)], ':');
    Decimal.IntRoundTrip(x);
    Decimal.IntRoundTrip(y);
  }

  // ---------------------------------------------------------------------------------------
  // Placement of a spawned entity

  /** Where `spawn_initial_entities` may put an entity, before the random draw. */
  datatype Placement =
    | Destroy
    | Anywhere(xLow: int, xHigh: int, yLow: int, yHigh: int)
    | OneOf(cells: seq<Cell>)

  /**
   * The decision on an entity's placeable locations: `None` destroys it, `[]` allows any cell
   * of the 10 % to 90 % band of the level (`int(0.1 * n)` to `int(0.9 * n)`, both ends included),
   * anything else is chosen from.
   */
  function Decide(locations: Option<seq<Cell>>, width: int, height: int): (p: Placement)
    ensures p == Destroy <==> locations.None?
    ensures p.Anywhere? <==> locations == Some([])
    ensures p.OneOf? ==> locations == Some(p.cells) && p.cells != []
  {
    match locations
    case None => Destroy
    case Some(cells) =>
      if cells == [] then Anywhere(width / 10, 9 * width / 10, height / 10, 9 * height / 10) else OneOf(cells)
  }

  /** Whether the tile `(x, y)` is a possible outcome of the random draw. */
  predicate Possible(p: Placement, x: int, y: int) {
    match p
    case Destroy => false
    case Anywhere(x0, x1, y0, y1) => x0 <= x <= x1 && y0 <= y <= y1
    case OneOf(cells) => (x, y) in cells
  }

  /** Entity pixel position for a tile: `place(x * tilesize, y * tilesize)`. */
  function PixelOf(x: int, y: int): (int, int) { (x * 50, y * 50) }

  /** The band of a level of any non-negative size holds a cell, so the draw cannot fail. */
  lemma AnywhereHasCell(width: nat, height: nat)
    ensures var p := Decide(Some([]), width, height);
      Possible(p, width / 10, height / 10) && p.xLow <= p.xHigh < width + 1 && p.yLow <= p.yHigh < height + 1
  {
  }

  /** A trader is placed on a road of its town, or anywhere when the town has no road at all. */
  lemma TraderPlacement(grid: seq<seq<int>>, width: int, height: int, x: int, y: int)
    ensures Decide(Some(Trader.StreetLocations(grid)), width, height).Anywhere? <==>
      forall j, i :: 0 <= j < |grid| && 0 <= i < |grid[j]| ==> !Trader.CanPlaceAt(grid, i, j)
    ensures Decide(Some(Trader.StreetLocations(grid)), width, height).OneOf? ==>
      (Possible(Decide(Some(Trader.StreetLocations(grid)), width, height), x, y) <==>
       0 <= y < |grid| && 0 <= x < |grid[y]| && Trader.CanPlaceAt(grid, x, y))
  {
    Trader.NoRoadNoLocations(grid);
    Trader.StreetLocationsExactly(grid, x, y);
  }

  /** A wandering animal is destroyed when no walkable cell lies in the band, and otherwise lands on one. */
  lemma AnimatPlacement(hitmap: seq<seq<bool>>, width: int, height: int, x: int, y: int)
    ensures Decide(Entities.WalkableLocations(hitmap), width, height) == Destroy <==>
      !Entities.AllWalkable(hitmap) &&
      forall j, i :: 0 <= j < |hitmap| && 0 <= i < |hitmap[j]| && Entities.InBand(hitmap, i, j) ==>
        !Entities.CanPlaceAt(hitmap, i, j)
    ensures Decide(Entities.WalkableLocations(hitmap), width, height).OneOf? ==>
      (Possible(Decide(Entities.WalkableLocations(hitmap), width, height), x, y) <==>
       0 <= y < |hitmap| && 0 <= x < |hitmap[y]| && Entities.InBand(hitmap, x, y) && Entities.CanPlaceAt(hitmap, x, y))
  {
    Entities.WalkableLocationsCases(hitmap);
  }
}
