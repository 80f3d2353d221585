/**
 * `SentientAnimat`: an animat with a set of guids it flees from, an optional guid it chases, an
 * attack cooldown, and the reaction to attack notices.  The peaceful variant (`_saw_attack` overridden
 * to flee) is the `peaceful` flag.  Direction choice and distances are geometry and come in as arguments.
 */
module Sentient {
  import opened Wrappers
  import opened Entities
  import Text
  import Decimal
  import Peaceful

  const FLEE := 1
  const CHASE := 2

  /** `REEVALUATE_TIME + randint(5, 7) / 11` seconds: the integer division leaves 0.675 s. */
  const REEVALUATE_DELAY := 675
  /** No two attacks within 1.5 s. */
  const ATTACK_COOLDOWN := 1500

  const CONVERTED_DIRECTIONS: map<int, (int, int)> :=
    map[0 := (1, 0), 45 := (1, -1), 90 := (0, -1), 135 := (-1, -1),
        180 := (-1, 0), 225 := (-1, 1), 270 := (0, 1), 315 := (1, 1)]

  /** The directions an angle (a multiple of 45 degrees) rounds to are exactly the eight moves. */
  lemma ConvertedDirectionsAreDirections()
    ensures CONVERTED_DIRECTIONS.Values == set k | 0 <= k < |DIRECTIONS| :: DIRECTIONS[k]
    ensures |CONVERTED_DIRECTIONS.Values| == |DIRECTIONS|
  {
    DirectionsListed();
    ConvertedListed();
    EightMoves();
  }

  /** The eight unit moves as a set. */
  const MOVES: set<(int, int)> := {(1, 0), (1, 1), (0, 1), (-1, 1), (-1, 0), (-1, -1), (0, -1), (1, -1)}

  lemma DirectionsListed()
    ensures (set k | 0 <= k < |DIRECTIONS| :: DIRECTIONS[k]) == MOVES
  {
    var values := set k | 0 <= k < |DIRECTIONS| :: DIRECTIONS[k];
    assert DIRECTIONS[0] in values && DIRECTIONS[1] in values && DIRECTIONS[2] in values && DIRECTIONS[3] in values;
    assert DIRECTIONS[4] in values && DIRECTIONS[5] in values && DIRECTIONS[6] in values && DIRECTIONS[7] in values;
  }

  lemma ConvertedListed()
    ensures CONVERTED_DIRECTIONS.Values == MOVES
  {
    var values := CONVERTED_DIRECTIONS.Values;
    assert CONVERTED_DIRECTIONS[0] in values && CONVERTED_DIRECTIONS[45] in values;
    assert CONVERTED_DIRECTIONS[90] in values && CONVERTED_DIRECTIONS[135] in values;
    assert CONVERTED_DIRECTIONS[180] in values && CONVERTED_DIRECTIONS[225] in values;
    assert CONVERTED_DIRECTIONS[270] in values && CONVERTED_DIRECTIONS[315] in values;
  }

  lemma EightMoves()
    ensures |MOVES| == 8
  {
    var a := {(1, 0), (1, 1), (0, 1), (-1, 1)};
    var b := {(-1, 0), (-1, -1), (0, -1), (1, -1)};
    assert |a| == 4 && |b| == 4;
    assert a * b == {};
    assert MOVES == a + b;
  }

  /** `alternate_angles`: the fallbacks `angle ± 45, ± 90, ± 135, ± 180`, in that order, modulo 360. */
  function AlternateAngles(angle: int): seq<int> {
    [(angle + 45) % 360, (angle - 45) % 360, (angle + 90) % 360, (angle - 90) % 360,
     (angle + 135) % 360, (angle - 135) % 360, (angle + 180) % 360, (angle - 180) % 360]
  }

  /** Eight fallbacks, each a rounded angle other than `angle`, which together with `angle` give all eight directions. */
  predicate CoversAllDirections(angle: int, s: seq<int>) {
    |s| == 8 && (forall k :: 0 <= k < 8 ==> s[k] in CONVERTED_DIRECTIONS && s[k] != angle) &&
    {angle} + (set k | 0 <= k < 8 :: s[k]) == CONVERTED_DIRECTIONS.Keys
  }

  lemma CoversFromMembers(angle: int, s: seq<int>)
    requires angle in CONVERTED_DIRECTIONS && |s| == 8
    requires forall k :: 0 <= k < 8 ==> s[k] in CONVERTED_DIRECTIONS && s[k] != angle
    requires forall j :: j in CONVERTED_DIRECTIONS && j != angle ==> j in s
    ensures CoversAllDirections(angle, s)
  {
    var covered := set k | 0 <= k < 8 :: s[k];
    forall j | j in CONVERTED_DIRECTIONS && j != angle ensures j in covered {
      var k :| 0 <= k < |s| && s[k] == j;
    }
  }

  /** From a rounded angle the fallbacks never miss a direction, so the search over them ends on a key. */
  lemma AlternateAnglesCover(angle: int)
    requires 0 <= angle < 360 && angle % 45 == 0
    ensures CoversAllDirections(angle, AlternateAngles(angle))
  {
    if angle < 180 {
      CoverLow(angle);
    } else {
      CoverHigh(angle);
    }
  }

  lemma CoverLow(angle: int)
    requires angle in {0, 45, 90, 135}
    ensures CoversAllDirections(angle, AlternateAngles(angle))
  {
    var a := AlternateAngles(angle);
    if angle == 0 {
      assert a == [45, 315, 90, 270, 135, 225, 180, 180];
      CoversFromMembers(angle, a);
    } else if angle == 45 {
      assert a == [90, 0, 135, 315, 180, 270, 225, 225];
      CoversFromMembers(angle, a);
    } else if angle == 90 {
      assert a == [135, 45, 180, 0, 225, 315, 270, 270];
      CoversFromMembers(angle, a);
    } else {
      assert a == [180, 90, 225, 45, 270, 0, 315, 315];
      CoversFromMembers(angle, a);
    }
  }

  lemma CoverHigh(angle: int)
    requires angle in {180, 225, 270, 315}
    ensures CoversAllDirections(angle, AlternateAngles(angle))
  {
    var a := AlternateAngles(angle);
    if angle == 180 {
      assert a == [225, 135, 270, 90, 315, 45, 0, 0];
      CoversFromMembers(angle, a);
    } else if angle == 225 {
      assert a == [270, 180, 315, 135, 0, 90, 45, 45];
      CoversFromMembers(angle, a);
    } else if angle == 270 {
      assert a == [315, 225, 0, 180, 45, 135, 90, 90];
      CoversFromMembers(angle, a);
    } else {
      assert a == [0, 270, 45, 225, 90, 180, 135, 135];
      CoversFromMembers(angle, a);
    }
  }

  /** A guid that is set (not None) and not empty: Python's truth value of `chasing`. */
  predicate Truthy(g: Option<string>) {
    g.Some? && g.value != ""
  }

  /** `_flee_or_chase`: `prefer` breaks the tie when there is both something to flee and something to chase. */
  function FleeOrChase(fleeing: set<string>, chasing: Option<string>, prefer: int): (r: Option<int>)
    ensures r.None? <==> fleeing == {} && !Truthy(chasing)
    ensures r == Some(FLEE) <==> fleeing != {} && (!Truthy(chasing) || prefer == FLEE)
    ensures r == Some(CHASE) <==> Truthy(chasing) && (fleeing == {} || prefer != FLEE)
  {
    if fleeing != {} && Truthy(chasing) then (if prefer == FLEE then Some(FLEE) else Some(CHASE))
    else if fleeing != {} then Some(FLEE)
    else if Truthy(chasing) then Some(CHASE)
    else None
  }

  /**
   * How an `atk` or `hit` notice, split into its `:`-fields, ends: `Success(true)` when `_attacked`
   * runs, `Success(false)` when it is ignored, ValueError when the fields do not unpack or, for a
   * `hit` from someone else, when a coordinate is not a number (`float(a_x), float(a_y)`).
   * `hitInRange` is whether the hit's point lies within `HURT_DISTANCE`.
   */
  function AttackVerdict(kind: string, data: seq<string>, id: string, hitInRange: bool): (v: Result<bool, PyError>)
    requires kind == "atk" || kind == "hit"
    ensures v.Failure? <==>
      (kind == "atk" && |data| != 3) ||
      (kind == "hit" && (|data| != 4 || (data[0] != id && !(Numeric(data[2]) && Numeric(data[3])))))
    ensures v.Failure? ==> v.error == ValueError
    ensures v == Success(true) ==> |data| >= 3 && data[0] != id
    ensures kind == "atk" && |data| == 3 ==> (v == Success(true) <==> data[0] != id && data[2] == id)
    ensures kind == "hit" && |data| == 4 ==>
      (v == Success(true) <==> data[0] != id && Numeric(data[2]) && Numeric(data[3]) && hitInRange)
    ensures kind == "hit" && |data| == 4 && data[0] == id ==> v == Success(false)
  {
    if kind == "atk" then
      if |data| != 3 then Failure(ValueError) else Success(data[0] != id && data[2] == id)
    else if |data| != 4 then Failure(ValueError)
    else if data[0] == id then Success(false)
    else if !Numeric(data[2]) || !Numeric(data[3]) then Failure(ValueError)
    else Success(hitInRange)
  }

  /** `float(s)` succeeds: a decimal number, as `Decimal.ParseTruncated` reads it. */
  predicate Numeric(s: string) { Decimal.ParseTruncated(s).Some? }

  /** `holding_item or ""`. */
  function ItemText(item: Option<string>): string {
    if item.Some? then item.value else ""
  }

  class SentientAnimat {
    const body: Animat
    const peaceful: bool
    var fleeing: set<string>
    var chasing: Option<string>
    var holdingItem: Option<string>
    var prefer: int
    var lastAttack: int
    /** The `_attacked(guid, item)` calls; `harmed_by` belongs to `Harmable`, which is not modelled. */
    var attackedBy: seq<(string, string)>

    constructor (id: string, peaceful: bool)
      ensures this.peaceful == peaceful && body.id == id && fresh(body) && fresh(body.events)
      ensures fleeing == {} && chasing == None && holdingItem == None && prefer == FLEE && lastAttack == 0 && attackedBy == []
      ensures body.Motion() == MotionState((0, 0), (0, 0), 0) && body.remembered == map[] && body.events.queue == []
      ensures !body.dead && body.outbox == []
    {
      body := new Animat(id);
      this.peaceful := peaceful;
      fleeing, chasing, holdingItem := {}, None, None;
      prefer, lastAttack := FLEE, 0;
      attackedBy := [];
    }

    predicate Busy()
      reads this
    {
      fleeing != {} || Truthy(chasing)
    }

    /**
     * The effect of `_behavior_changed`: a standing animat takes the best direction if there is one;
     * a moving one or one that took a direction re-evaluates after `REEVALUATE_DELAY`; one with no
     * direction stays put and wanders unless it is busy.
     */
    twostate predicate ReactedToChange(now: int, best: Option<(int, int)>)
      reads this, body, body.events
    {
      var m, q := old(body.Motion()), old(body.events.queue);
      body.remembered == old(body.remembered) && body.dead == old(body.dead) &&
      if m.velocity != (0, 0) then
        body.Motion() == m && body.outbox == old(body.outbox) &&
        body.events.queue == Insert(q, Event(now + REEVALUATE_DELAY, Reevaluate))
      else if best.Some? then
        body.Motion() == Moved(m, best.value.0, best.value.1) &&
        body.outbox == old(body.outbox) + MoveOutput(body.id, m, best.value.0, best.value.1, true, body.dead) &&
        body.events.queue == Insert(q, Event(now + REEVALUATE_DELAY, Reevaluate))
      else
        body.Motion() == m && body.outbox == old(body.outbox) &&
        body.events.queue == if Busy() then q else Insert(q, Event(now + WANDER_DELAY, WanderStep))
    }

    method BehaviorChanged(now: int, best: Option<(int, int)>)
      modifies body, body.events
      ensures ReactedToChange(now, best)
    {
      if body.velocity == (0, 0) {
        if best.None? {
          body.Move(0, 0, true);
          Wander(now);
          return;
        }
        body.Move(best.value.0, best.value.1, true);
      }
      body.events.Schedule(now, REEVALUATE_DELAY, Reevaluate);
    }

    /** `wander`: nothing while fleeing or chasing. */
    method Wander(now: int)
      modifies body.events
      ensures body.events.queue == if Busy() then old(body.events.queue)
                                   else Insert(old(body.events.queue), Event(now + WANDER_DELAY, WanderStep))
    {
      if Busy() {
        return;
      }
      body.Wander(now);
    }

    /** `flee`: a guid already fled from changes nothing and triggers no re-evaluation. */
    method Flee(now: int, guid: string, best: Option<(int, int)>)
      modifies this, body, body.events
      ensures fleeing == old(fleeing) + {guid}
      ensures chasing == old(chasing) && holdingItem == old(holdingItem) && prefer == old(prefer)
      ensures lastAttack == old(lastAttack) && attackedBy == old(attackedBy)
      ensures guid in old(fleeing) ==> unchanged(body, body.events)
      ensures guid !in old(fleeing) ==> ReactedToChange(now, best)
    {
      if guid in fleeing {
        return;
      }
      fleeing := fleeing + {guid};
      BehaviorChanged(now, best);
    }

    /** `stop_fleeing`: a no-op for a guid not fled from. */
    method StopFleeing(guid: string)
      modifies this
      ensures fleeing == old(fleeing) - {guid}
      ensures chasing == old(chasing) && holdingItem == old(holdingItem) && prefer == old(prefer)
      ensures lastAttack == old(lastAttack) && attackedBy == old(attackedBy)
    {
      if guid !in fleeing {
        return;
      }
      fleeing := fleeing - {guid};
    }

    /** `chase`: chasing the current target again changes nothing. */
    method Chase(now: int, guid: string, best: Option<(int, int)>)
      modifies this, body, body.events
      ensures chasing == Some(guid)
      ensures fleeing == old(fleeing) && holdingItem == old(holdingItem) && prefer == old(prefer)
      ensures lastAttack == old(lastAttack) && attackedBy == old(attackedBy)
      ensures old(chasing) == Some(guid) ==> unchanged(body, body.events)
      ensures old(chasing) != Some(guid) ==> ReactedToChange(now, best)
    {
      if chasing == Some(guid) {
        return;
      }
      chasing := Some(guid);
      BehaviorChanged(now, best);
    }

    /** `forget`: out of memory, out of the flee set, and no longer the target if it was. */
    method Forget(guid: string)
      modifies this, body
      ensures body.remembered == old(body.remembered) - {guid}
      ensures fleeing == old(fleeing) - {guid}
      ensures chasing == if old(chasing) == Some(guid) then None else old(chasing)
      ensures body.Motion() == old(body.Motion()) && body.outbox == old(body.outbox) && body.dead == old(body.dead)
      ensures holdingItem == old(holdingItem) && prefer == old(prefer) && lastAttack == old(lastAttack) && attackedBy == old(attackedBy)
    {
      body.Forget(guid);
      StopFleeing(guid);
      if chasing == Some(guid) {
        chasing := None;
      }
    }

    /** `attack`: at most one attack notice per `ATTACK_COOLDOWN`. */
    method Attack(now: int, guid: string)
      modifies this, body
      ensures now - old(lastAttack) < ATTACK_COOLDOWN ==> lastAttack == old(lastAttack) && body.outbox == old(body.outbox)
      ensures now - old(lastAttack) >= ATTACK_COOLDOWN ==>
        lastAttack == now &&
        body.outbox == old(body.outbox) + [Notice("atk", body.id + ":" + ItemText(holdingItem) + ":" + guid)]
      ensures fleeing == old(fleeing) && chasing == old(chasing) && holdingItem == old(holdingItem)
      ensures prefer == old(prefer) && attackedBy == old(attackedBy)
      ensures body.Motion() == old(body.Motion()) && body.remembered == old(body.remembered) && body.dead == old(body.dead)
    {
      if now - lastAttack < ATTACK_COOLDOWN {
        return;
      }
      lastAttack := now;
      body.outbox := body.outbox + [Notice("atk", body.id + ":" + ItemText(holdingItem) + ":" + guid)];
    }

    /** `_saw_attack`: only the peaceful variant reacts, by fleeing a close remembered attacker. */
    method SawAttack(now: int, attacker: string, best: Option<(int, int)>)
      modifies this, body, body.events
      ensures chasing == old(chasing) && holdingItem == old(holdingItem) && prefer == old(prefer)
      ensures lastAttack == old(lastAttack) && attackedBy == old(attackedBy)
      ensures
        if peaceful && Peaceful.ShouldFlee(old(body.remembered), attacker) then
          fleeing == old(fleeing) + {attacker} &&
          (attacker in old(fleeing) ==> unchanged(body, body.events)) &&
          (attacker !in old(fleeing) ==> ReactedToChange(now, best))
        else
          fleeing == old(fleeing) && unchanged(body, body.events)
    {
      if peaceful && Peaceful.ShouldFlee(body.remembered, attacker) {
        Flee(now, attacker, best);
      }
    }

    /**
     * `handle_message` as a sentient animat sees it.  `distance` is the tile distance to the position
     * a `loc` message reports; `best` is the direction `_get_best_direction` would pick if reacting to
     * an attack makes the animat flee; `hitInRange` is the geometry test of a `hit` notice.
     */
    method HandleMessage(now: int, message: string, distance: int, best: Option<(int, int)>, hitInRange: bool)
      returns (r: Result<Routed, PyError>)
      modifies this, body, body.events
      ensures chasing == old(chasing) && holdingItem == old(holdingItem) && prefer == old(prefer) && lastAttack == old(lastAttack)
      ensures var route := Route(message, old(body.remembered));
        (route.Failure? || route.value.Chat? || (route.value.Other? && route.value.kind != "atk" && route.value.kind != "hit")) ==>
          r == route && unchanged(this, body, body.events)
      ensures var route := Route(message, old(body.remembered));
        route.Success? && route.value.Movement? ==>
          r == route && body.remembered == old(body.remembered)[route.value.guid := distance] &&
          fleeing == old(fleeing) && attackedBy == old(attackedBy) &&
          body.Motion() == old(body.Motion()) && body.outbox == old(body.outbox) && unchanged(body.events)
      ensures var route := Route(message, old(body.remembered));
        route.Success? && route.value.Other? && (route.value.kind == "atk" || route.value.kind == "hit") ==>
          var data := Text.Split(route.value.rest, ':');
          var verdict := AttackVerdict(route.value.kind, data, body.id, hitInRange);
          var flees := peaceful && Peaceful.ShouldFlee(old(body.remembered), data[0]);
          (r == if verdict.Failure? then Failure(verdict.error) else route) &&
          attackedBy == old(attackedBy) + (if verdict == Success(true) then [(data[0], data[1])] else []) &&
          fleeing == (if flees then old(fleeing) + {data[0]} else old(fleeing)) &&
          (flees && data[0] !in old(fleeing) ==> ReactedToChange(now, best)) &&
          (!flees || data[0] in old(fleeing) ==> unchanged(body, body.events))
    {
      r := Route(message, body.remembered);
      if r.Failure? {
        return;
      }
      match r.value
      case Movement(guid, _, _) =>
        var _ := body.PlayerMovement(guid, distance);
      case Chat(_, _, _) =>
        // `on_chat` is a hook with nothing to do at this level
      case Other(kind, rest) =>
        if kind != "atk" && kind != "hit" {
          return;
        }
        var data := Text.Split(rest, ':');
        SawAttack(now, data[0], best);
        var verdict := AttackVerdict(kind, data, body.id, hitInRange);
        if verdict.Failure? {
          r := Failure(verdict.error);
        } else if verdict.value {
          attackedBy := attackedBy + [(data[0], data[1])];
        }
    }
  }
}
