/**
 * The entity engine's base layer: the time-ordered event queue (`ScheduleHelper`), the routing of
 * inbound messages (`Entity.handle_message`), and the animat's motion state, memory of player
 * distances and placement scan.  Clock readings are integer milliseconds passed in by the caller.
 */
module Entities {
  import opened Wrappers
  import opened Cells
  import Text
  import Decimal

  /** The eight unit moves, in the order the engine lists them. */
  const DIRECTIONS: seq<(int, int)> := [(1, 0), (1, 1), (0, 1), (-1, 1), (-1, 0), (-1, -1), (0, -1), (1, -1)]

  /** Delay of `Animat.wander`'s first step: 0.25 s. */
  const WANDER_DELAY := 250

  // ---------------------------------------------------------------- event queue

  /** Callbacks are opaque: the model only records which one fires. */
  datatype Callback = OnEvent | WanderStep | Reevaluate | Custom(tag: nat)

  datatype Event = Event(time: int, callback: Callback)

  predicate Sorted(q: seq<Event>) {
    forall i, j :: 0 <= i < j < |q| ==> q[i].time <= q[j].time
  }

  /** Index of the first event due at `t` or later, or `|q|` when there is none. */
  function FirstAtLeast(q: seq<Event>, t: int): (i: nat)
    ensures i <= |q|
    ensures forall j :: 0 <= j < i ==> q[j].time < t
    ensures i < |q| ==> q[i].time >= t
  {
    if |q| == 0 || q[0].time >= t then 0 else 1 + FirstAtLeast(q[1..], t)
  }

  /** The queue after `schedule`: the event goes in front of the first entry that is not earlier. */
  function Insert(q: seq<Event>, e: Event): seq<Event> {
    var i := FirstAtLeast(q, e.time);
    q[..i] + [e] + q[i..]
  }

  /** The queue after `deschedule(cb)`: the `filter` that drops every entry of `cb`. */
  function Without(q: seq<Event>, cb: Callback): seq<Event> {
    if |q| == 0 then []
    else Without(q[..|q| - 1], cb) + (if q[|q| - 1].callback != cb then [q[|q| - 1]] else [])
  }

  /** Length of the longest prefix of `q` due at time `t`. */
  function DueCount(q: seq<Event>, t: int): (n: nat)
    ensures n <= |q|
    ensures forall j :: 0 <= j < n ==> q[j].time <= t
    ensures n < |q| ==> q[n].time > t
  {
    if |q| == 0 || q[0].time > t then 0 else 1 + DueCount(q[1..], t)
  }

  /** `fire_events` reads the clock when `now` is missing or zero (falsy). */
  function FireTime(now: Option<int>, clock: int): int {
    if now.None? || now.value == 0 then clock else now.value
  }

  function Callbacks(s: seq<Event>): (cbs: seq<Callback>)
    ensures |cbs| == |s| && forall k :: 0 <= k < |s| ==> cbs[k] == s[k].callback
  {
    seq(|s|, k requires 0 <= k < |s| => s[k].callback)
  }

  class ScheduleHelper {
    var queue: seq<Event>

    constructor ()
      ensures queue == []
    {
      queue := [];
    }

    /** `schedule`: the event is due at `now + delay`. */
    method Schedule(now: int, delay: int, callback: Callback)
      modifies this
      ensures queue == Insert(old(queue), Event(now + delay, callback))
    {
      var due := now + delay;
      for i := 0 to |queue|
        invariant forall j :: 0 <= j < i ==> queue[j].time < due
        invariant queue == old(queue)
      {
        if queue[i].time >= due {
          assert FirstAtLeast(queue, due) == i;
          queue := queue[..i] + [Event(due, callback)] + queue[i..];
          return;
        }
      }
      assert FirstAtLeast(queue, due) == |queue|;
      assert queue[|queue|..] == [];
      queue := queue + [Event(due, callback)];
    }

    method Deschedule(callback: Callback)
      modifies this
      ensures queue == Without(old(queue), callback)
    {
      queue := Without(queue, callback);
    }

    /**
     * `fire_events`: fires the due prefix in queue order and keeps the rest.  Callbacks do not run here,
     * so one that reschedules during the firing loop is not modelled.
     */
    method FireEvents(now: Option<int>, clock: int) returns (fired: seq<Callback>)
      modifies this
      ensures var n := DueCount(old(queue), FireTime(now, clock));
        fired == Callbacks(old(queue)[..n]) && queue == old(queue)[n..]
    {
      var t := if now.None? || now.value == 0 then clock else now.value;
      fired := [];
      for i := 0 to |queue|
        invariant queue == old(queue)
        invariant forall j :: 0 <= j < i ==> queue[j].time <= t
        invariant fired == Callbacks(queue[..i])
      {
        var e := queue[i];
        if e.time <= t {
          fired := fired + [e.callback];
        } else {
          assert DueCount(queue, t) == i;
          if i > 0 {
            queue := queue[i..];
          }
          return;
        }
      }
      assert DueCount(queue, t) == |queue| && queue[..|queue|] == queue;
      queue := [];
    }
  }

  /** `schedule` adds exactly the new event, in front of every entry that is not earlier, in particular of entries with the same time. */
  lemma InsertShape(q: seq<Event>, e: Event)
    ensures |Insert(q, e)| == |q| + 1
    ensures multiset(Insert(q, e)) == multiset(q) + multiset{e}
    ensures var i := FirstAtLeast(q, e.time);
      Insert(q, e)[i] == e &&
      (forall j :: 0 <= j < i ==> Insert(q, e)[j] == q[j] && q[j].time < e.time) &&
      (forall j :: i <= j < |q| ==> Insert(q, e)[j + 1] == q[j])
    ensures forall j :: 0 <= j < |q| && q[j].time >= e.time ==> j >= FirstAtLeast(q, e.time)
  {
    var i := FirstAtLeast(q, e.time);
    InsertCount(q, e);
    InsertIndices(q, e, i);
  }

  lemma InsertCount(q: seq<Event>, e: Event)
    ensures multiset(Insert(q, e)) == multiset(q) + multiset{e}
  {
    var i := FirstAtLeast(q, e.time);
    assert q == q[..i] + q[i..];
  }

  lemma InsertIndices(q: seq<Event>, e: Event, i: nat)
    requires i == FirstAtLeast(q, e.time)
    ensures |Insert(q, e)| == |q| + 1
    ensures Insert(q, e)[i] == e
    ensures forall j :: 0 <= j < i ==> Insert(q, e)[j] == q[j] && q[j].time < e.time
    ensures forall j :: i <= j < |q| ==> Insert(q, e)[j + 1] == q[j]
    ensures forall j :: 0 <= j < |q| && q[j].time >= e.time ==> j >= i
  {
    var r := Insert(q, e);
    assert r == q[..i] + [e] + q[i..];
    forall j | i <= j < |q| ensures r[j + 1] == q[j] {
      assert r[j + 1] == q[i..][j - i];
    }
  }

  /** `schedule` keeps a time-sorted queue sorted. */
  lemma InsertSorted(q: seq<Event>, e: Event)
    requires Sorted(q)
    ensures Sorted(Insert(q, e))
  {
    InsertShape(q, e);
    var i := FirstAtLeast(q, e.time);
    var r := Insert(q, e);
    forall a, b | 0 <= a < b < |r| ensures r[a].time <= r[b].time {
      if b < i {
        assert r[a] == q[a] && r[b] == q[b];
      } else if b == i {
        assert r[a] == q[a];
      } else if a < i {
        assert r[a] == q[a] && r[b] == q[b - 1];
      } else if a == i {
        assert r[b] == q[b - 1];
      } else {
        assert r[a] == q[a - 1] && r[b] == q[b - 1];
      }
    }
  }

  lemma {:induction false} WithoutHas(q: seq<Event>, cb: Callback, e: Event)
    ensures e in Without(q, cb) <==> e in q && e.callback != cb
    decreases |q|
  {
    if |q| > 0 {
      var p, last := q[..|q| - 1], q[|q| - 1];
      assert q == p + [last];
      WithoutHas(p, cb, e);
    }
  }

  lemma {:induction false} WithoutSorted(q: seq<Event>, cb: Callback)
    requires Sorted(q)
    ensures Sorted(Without(q, cb))
    decreases |q|
  {
    if |q| > 0 {
      var p, last := q[..|q| - 1], q[|q| - 1];
      assert Sorted(p);
      WithoutSorted(p, cb);
      var w := Without(q, cb);
      if last.callback != cb {
        assert w == Without(p, cb) + [last];
        forall a, b | 0 <= a < b < |w| ensures w[a].time <= w[b].time {
          if b == |w| - 1 {
            assert w[a] in Without(p, cb);
            WithoutHas(p, cb, w[a]);
            assert w[a] in p;
          }
        }
      }
    }
  }

  lemma {:induction false} WithoutKeeps(q: seq<Event>, cb: Callback)
    ensures |Without(q, cb)| <= |q|
    ensures (forall k :: 0 <= k < |q| ==> q[k].callback != cb) ==> Without(q, cb) == q
    decreases |q|
  {
    if |q| > 0 {
      var p, last := q[..|q| - 1], q[|q| - 1];
      WithoutKeeps(p, cb);
      assert q == p + [last];
    }
  }

  lemma WithoutFacts(q: seq<Event>, cb: Callback)
    ensures forall e :: e in Without(q, cb) <==> e in q && e.callback != cb
    ensures Sorted(q) ==> Sorted(Without(q, cb))
    ensures |Without(q, cb)| <= |q|
    ensures (forall k :: 0 <= k < |q| ==> q[k].callback != cb) ==> Without(q, cb) == q
  {
    forall e ensures e in Without(q, cb) <==> e in q && e.callback != cb {
      WithoutHas(q, cb, e);
    }
    if Sorted(q) {
      WithoutSorted(q, cb);
    }
    WithoutKeeps(q, cb);
  }

  /**
   * The filter works entry by entry: descheduling a concatenation deschedules each part, so the kept
   * entries stay in their order, each as often as before.
   */
  lemma {:induction false} WithoutAppend(a: seq<Event>, b: seq<Event>, cb: Callback)
    ensures Without(a + b, cb) == Without(a, cb) + Without(b, cb)
    decreases |b|
  {
    if b == [] {
      assert a + b == a;
    } else {
      var p, last := b[..|b| - 1], b[|b| - 1];
      assert (a + b)[..|a + b| - 1] == a + p;
      assert (a + b)[|a + b| - 1] == last;
      WithoutAppend(a, p, cb);
    }
  }

  /** Each entry is kept exactly when its callback is not the one descheduled. */
  lemma WithoutOne(e: Event, cb: Callback)
    ensures Without([e], cb) == if e.callback != cb then [e] else []
  {
    assert [e][..0] == [];
  }

  /** Descheduling twice is descheduling once. */
  lemma WithoutIdempotent(q: seq<Event>, cb: Callback)
    ensures Without(Without(q, cb), cb) == Without(q, cb)
  {
    WithoutFacts(q, cb);
    var w := Without(q, cb);
    forall k | 0 <= k < |w| ensures w[k].callback != cb {
      assert w[k] in w;
    }
    WithoutFacts(w, cb);
  }

  /** In a sorted queue the fired prefix is exactly the set of due events: nothing left behind is due. */
  lemma DueExactly(q: seq<Event>, t: int)
    requires Sorted(q)
    ensures forall j :: 0 <= j < |q| ==> (q[j].time <= t <==> j < DueCount(q, t))
  {
  }

  // ---------------------------------------------------------------- inbound messages

  /** What `handle_message` hands on: a player's position, a chat line, or a type for `_handle_message`. */
  datatype Routed =
    | Movement(guid: string, x: int, y: int)
    | Chat(guid: string, text: string, distance: Option<int>)
    | Other(kind: string, rest: string)

  function Min(a: int, b: int): int { if a < b then a else b }

  /** `message[:3]` and `message[3:]`. */
  function Kind(message: string): string { message[..Min(3, |message|)] }
  function Payload(message: string): string { message[Min(3, |message|)..] }

  /**
   * `Entity.handle_message`: a `loc` payload must have exactly five `:`-fields whose second and third
   * are integers; a `cha` payload is `guid:header\ntext` with a guid that is not an entity's (`@...`).
   */
  function Route(message: string, remembered: map<string, int>): (r: Result<Routed, PyError>)
    ensures r.Success? && r.value.Movement? ==> Kind(message) == "loc"
    ensures r.Success? && r.value.Chat? ==>
      Kind(message) == "cha" && !Text.StartsWith(r.value.guid, "@") &&
      (r.value.distance.Some? <==> r.value.guid in remembered)
    ensures r.Success? && r.value.Other? ==> r.value.kind !in {"loc", "cha"} && message == r.value.kind + r.value.rest
    ensures r == Failure(AssertionError) ==> Kind(message) == "cha"
    ensures Kind(message) == "loc" ==>
      var f := Text.Split(Payload(message), ':');
      (r.Success? <==> |f| == 5 && Decimal.ParseInt(f[1]).Some? && Decimal.ParseInt(f[2]).Some?) &&
      (r.Failure? ==> r.error == ValueError) &&
      (r.Success? && |f| == 5 ==> r.value == Movement(f[0], Decimal.ParseInt(f[1]).value, Decimal.ParseInt(f[2]).value))
    ensures Kind(message) == "cha" && ':' !in Payload(message) ==> r == Failure(ValueError)
    ensures Kind(message) == "cha" && ':' in Payload(message) ==>
      var (guid, data) := Text.SplitOnce(Payload(message), ':').value;
      (Text.StartsWith(guid, "@") ==> r == Failure(AssertionError)) &&
      (!Text.StartsWith(guid, "@") && '\n' !in data ==> r == Failure(IndexError)) &&
      (!Text.StartsWith(guid, "@") && '\n' in data ==>
         r.Success? && r.value.Chat? && r.value.guid == guid && r.value.text == Text.SplitOnce(data, '\n').value.1)
    ensures Kind(message) !in {"loc", "cha"} ==> r == Success(Other(Kind(message), Payload(message)))
  {
    var kind, rest := Kind(message), Payload(message);
    if kind == "loc" then
      var fields := Text.Split(rest, ':');
      if |fields| != 5 then Failure(ValueError)
      else
        match (Decimal.ParseInt(fields[1]), Decimal.ParseInt(fields[2]))
        case (Some(x), Some(y)) => Success(Movement(fields[0], x, y))
        case _ => Failure(ValueError)
    else if kind == "cha" then
      match Text.SplitOnce(rest, ':')
      case None => Failure(ValueError)
      case Some((guid, data)) =>
        if Text.StartsWith(guid, "@") then Failure(AssertionError)
        else
          match Text.SplitOnce(data, '\n')
          case None => Failure(IndexError)
          case Some((_, text)) => Success(Chat(guid, text, if guid in remembered then Some(remembered[guid]) else None))
    else
      assert message == kind + rest;
      Success(Other(kind, rest))
  }

  /** A well-formed position report routes to the reported guid and position. */
  lemma RouteLocation(guid: string, x: int, y: int, xVel: string, yVel: string, remembered: map<string, int>)
    requires ':' !in guid && ':' !in xVel && ':' !in yVel
    ensures Route("loc" + Text.Join([guid, Decimal.IntToDecimal(x), Decimal.IntToDecimal(y), xVel, yVel], ":"), remembered)
      == Success(Movement(guid, x, y))
  {
    var fields := [guid, Decimal.IntToDecimal(x), Decimal.IntToDecimal(y), xVel, yVel];
    var message := "loc" + Text.Join(fields, ":");
    assert Kind(message) == "loc" && Payload(message) == Text.Join(fields, ":");
    NoColon(x);
    NoColon(y);
    Text.SplitJoin(fields, ':');
    Decimal.IntRoundTrip(x);
    Decimal.IntRoundTrip(y);
  }

  lemma NoColon(i: int)
    ensures ':' !in Decimal.IntToDecimal(i)
  {
    var s := Decimal.IntToDecimal(i);
    var d := Decimal.NatToDecimal(if i < 0 then -i else i);
    assert forall k :: 0 <= k < |d| ==> Decimal.IsDigit(d[k]);
    assert i < 0 ==> s == "-" + d;
  }

  /** A chat from a player routes to its text after the first newline, with the remembered distance if there is one. */
  lemma RouteChat(guid: string, header: string, text: string, remembered: map<string, int>)
    requires ':' !in guid && '\n' !in header && !Text.StartsWith(guid, "@")
    ensures Route("cha" + guid + ":" + header + "\n" + text, remembered)
      == Success(Chat(guid, text, if guid in remembered then Some(remembered[guid]) else None))
  {
    var message := "cha" + guid + ":" + header + "\n" + text;
    assert Kind(message) == "cha" && Payload(message) == guid + [':'] + (header + "\n" + text);
    Text.SplitOnceAt(guid, header + "\n" + text, ':');
    Text.SplitOnceAt(header, text, '\n');
    assert header + "\n" + text == header + ['\n'] + text;
  }

  /** A chat from an entity (guid starting with `@`) fails the assertion. */
  lemma RouteEntityChat(guid: string, data: string, remembered: map<string, int>)
    requires ':' !in guid && Text.StartsWith(guid, "@")
    ensures Route("cha" + guid + ":" + data, remembered) == Failure(AssertionError)
  {
    var message := "cha" + guid + ":" + data;
    assert Kind(message) == "cha" && Payload(message) == guid + [':'] + data;
    Text.SplitOnceAt(guid, data, ':');
  }

  // ---------------------------------------------------------------- animats

  /** The part of an animat that `move` changes. */
  datatype MotionState = MotionState(velocity: (int, int), oldVelocity: (int, int), layer: int)

  /** `Animat.move`'s effect on the motion state. */
  function Moved(m: MotionState, xVel: int, yVel: int): (r: MotionState)
    ensures r.velocity == (xVel, yVel)
    ensures (xVel, yVel) == m.velocity ==> r == m
    ensures (xVel, yVel) != m.velocity ==>
      r.oldVelocity == m.velocity && (r.layer == 1 <==> xVel != 0 || yVel != 0) && (r.layer == 0 || r.layer == 1)
  {
    if (xVel, yVel) == m.velocity then m
    else MotionState((xVel, yVel), m.velocity, if xVel != 0 || yVel != 0 then 1 else 0)
  }

  /** Moving twice the same way is moving once; a stop after any move leaves the layer at 0. */
  lemma MovedTwice(m: MotionState, xVel: int, yVel: int)
    ensures Moved(Moved(m, xVel, yVel), xVel, yVel) == Moved(m, xVel, yVel)
    ensures m.velocity != (0, 0) ==> Moved(m, 0, 0).layer == 0 && Moved(m, 0, 0).oldVelocity == m.velocity
  {}

  /** The properties `move` broadcasts. */
  const MOVEMENT_PROPERTIES: seq<string> := ["x_vel", "y_vel", "layer", "x", "y", "view"]

  /** Messages an entity sends to its location. */
  datatype Outbound =
    | Notice(kind: string, payload: string)
    | PropertyUpdate(id: string, properties: seq<string>)

  /** The broadcast a `move` from `m` to `(xVel, yVel)` sends. */
  function MoveOutput(id: string, m: MotionState, xVel: int, yVel: int, broadcast: bool, dead: bool): seq<Outbound> {
    if (xVel, yVel) != m.velocity && broadcast && !dead then [PropertyUpdate(id, MOVEMENT_PROPERTIES)] else []
  }

  class Animat {
    const id: string
    /** `remembered_distances`, in tiles. */
    var remembered: map<string, int>
    var velocity: (int, int)
    var oldVelocity: (int, int)
    var layer: int
    var dead: bool
    var outbox: seq<Outbound>
    const events: ScheduleHelper

    constructor (id: string)
      ensures this.id == id && remembered == map[] && !dead && outbox == []
      ensures Motion() == MotionState((0, 0), (0, 0), 0) && fresh(events) && events.queue == []
    {
      this.id := id;
      remembered := map[];
      velocity, oldVelocity, layer := (0, 0), (0, 0), 0;
      dead := false;
      outbox := [];
      events := new ScheduleHelper();
    }

    function Motion(): MotionState
      reads this
    {
      MotionState(velocity, oldVelocity, layer)
    }

    /** `move`: nothing happens when the velocity is unchanged. */
    method Move(xVel: int, yVel: int, broadcast: bool)
      modifies this
      ensures Motion() == Moved(old(Motion()), xVel, yVel)
      ensures outbox == old(outbox) + MoveOutput(id, old(Motion()), xVel, yVel, broadcast, dead)
      ensures remembered == old(remembered) && dead == old(dead)
    {
      if xVel == velocity.0 && yVel == velocity.1 {
        return;
      }
      oldVelocity, velocity := velocity, (xVel, yVel);
      layer := if xVel != 0 || yVel != 0 then 1 else 0;
      if broadcast && !dead {
        outbox := outbox + [PropertyUpdate(id, MOVEMENT_PROPERTIES)];
      }
    }

    /**
     * `_player_movement` once the reported position is converted to a whole tile distance: the memory
     * is updated, and `on_player_range` is due (`changed`) unless the distance is the remembered one.
     */
    method PlayerMovement(guid: string, distance: int) returns (changed: bool)
      modifies this
      ensures remembered == old(remembered)[guid := distance]
      ensures changed <==> guid !in old(remembered) || old(remembered)[guid] != distance
      ensures Motion() == old(Motion()) && outbox == old(outbox) && dead == old(dead)
    {
      if guid in remembered && remembered[guid] == distance {
        return false;
      }
      remembered := remembered[guid := distance];
      changed := true;
    }

    /** `Entity.forget`. */
    method Forget(guid: string)
      modifies this
      ensures remembered == old(remembered) - {guid}
      ensures Motion() == old(Motion()) && outbox == old(outbox) && dead == old(dead)
    {
      if guid in remembered {
        remembered := remembered - {guid};
      }
    }

    /** `Animat.schedule`: a missing callback means `_on_event`. */
    method Schedule(now: int, delay: int, callback: Option<Callback>)
      modifies events
      ensures events.queue == Insert(old(events.queue), Event(now + delay, if callback.None? then OnEvent else callback.value))
    {
      events.Schedule(now, delay, if callback.None? then OnEvent else callback.value);
    }

    method DescheduleAll()
      modifies events
      ensures events.queue == []
    {
      events.queue := [];
    }

    /** `Animat.wander`: its first step is a callback 0.25 s ahead. */
    method Wander(now: int)
      modifies events
      ensures events.queue == Insert(old(events.queue), Event(now + WANDER_DELAY, WanderStep))
    {
      events.Schedule(now, WANDER_DELAY, WanderStep);
    }
  }

  /** `Animat.can_place_at`: the hitmap cell is walkable. */
  predicate CanPlaceAt(hitmap: seq<seq<bool>>, x: int, y: int)
    requires 0 <= y < |hitmap| && 0 <= x < |hitmap[y]|
  {
    !hitmap[y][x]
  }

  predicate AllWalkable(hitmap: seq<seq<bool>>) {
    forall y, x :: 0 <= y < |hitmap| && 0 <= x < |hitmap[y]| ==> !hitmap[y][x]
  }

  /** `int(0.1 * n)` and `int(0.9 * n)`: the band of a row or of the grid that placement keeps to. */
  function BandLow(n: nat): nat { n / 10 }
  function BandHigh(n: nat): nat { 9 * n / 10 }

  predicate InBand(hitmap: seq<seq<bool>>, x: int, y: int) {
    BandLow(|hitmap|) <= y < BandHigh(|hitmap|) && BandLow(|hitmap[y]|) <= x < BandHigh(|hitmap[y]|)
  }

  /** Walkable cells of row `y` with index in `[BandLow(|row|), n)`. */
  function BandCells(row: seq<bool>, y: int, n: nat): seq<Cell>
    requires n <= |row|
  {
    if n <= BandLow(|row|) then []
    else BandCells(row, y, n - 1) + (if !row[n - 1] then [(n - 1, y)] else [])
  }

  /** Walkable band cells of rows `[BandLow(|hitmap|), m)`. */
  function BandRows(hitmap: seq<seq<bool>>, m: nat): seq<Cell>
    requires m <= |hitmap|
  {
    if m <= BandLow(|hitmap|) then []
    else BandRows(hitmap, m - 1) + BandCells(hitmap[m - 1], m - 1, BandHigh(|hitmap[m - 1]|))
  }

  /**
   * `Animat.get_placeable_locations`: `Some([])` ("anywhere") when nothing is blocked, the walkable
   * band cells otherwise, and `None` when there are none.
   */
  function WalkableLocations(hitmap: seq<seq<bool>>): Option<seq<Cell>> {
    if AllWalkable(hitmap) then Some([])
    else
      var cells := BandRows(hitmap, BandHigh(|hitmap|));
      if cells == [] then None else Some(cells)
  }

  method PlaceableLocations(hitmap: seq<seq<bool>>) returns (r: Option<seq<Cell>>)
    ensures r == WalkableLocations(hitmap)
  {
    if AllWalkable(hitmap) {
      return Some([]);
    }
    var locations: seq<Cell> := [];
    for rownum := BandLow(|hitmap|) to BandHigh(|hitmap|)
      invariant locations == BandRows(hitmap, rownum)
    {
      var row := hitmap[rownum];
      for cellnum := BandLow(|row|) to BandHigh(|row|)
        invariant locations == BandRows(hitmap, rownum) + BandCells(row, rownum, cellnum)
      {
        if !row[cellnum] {
          locations := locations + [(cellnum, rownum)];
        }
      }
    }
    r := if locations == [] then None else Some(locations);
  }

  lemma {:induction false} BandCellsHas(row: seq<bool>, y: int, n: nat, p: Cell)
    requires n <= |row|
    ensures p in BandCells(row, y, n) <==> p.1 == y && BandLow(|row|) <= p.0 < n && !row[p.0]
  {
    if n > BandLow(|row|) {
      BandCellsHas(row, y, n - 1, p);
    }
  }

  lemma {:induction false} BandCellsOrdered(row: seq<bool>, y: int, n: nat)
    requires n <= |row|
    ensures forall p :: p in BandCells(row, y, n) ==> p.1 == y && p.0 < n
    ensures StrictlyRowMajor(BandCells(row, y, n))
  {
    if n > BandLow(|row|) {
      BandCellsOrdered(row, y, n - 1);
    }
  }

  lemma BandCellsMembers(row: seq<bool>, y: int, n: nat)
    requires n <= |row|
    ensures forall p :: p in BandCells(row, y, n) <==> p.1 == y && BandLow(|row|) <= p.0 < n && !row[p.0]
    ensures StrictlyRowMajor(BandCells(row, y, n))
  {
    forall p: Cell
      ensures p in BandCells(row, y, n) <==> p.1 == y && BandLow(|row|) <= p.0 < n && !row[p.0]
    {
      BandCellsHas(row, y, n, p);
    }
    BandCellsOrdered(row, y, n);
  }

  /** One cell at a time: `p` is listed for rows `[BandLow(|hitmap|), m)` exactly when it is a walkable band cell of them. */
  lemma {:induction false} BandRowsHas(hitmap: seq<seq<bool>>, m: nat, p: Cell)
    requires m <= |hitmap|
    ensures p in BandRows(hitmap, m) <==>
      BandLow(|hitmap|) <= p.1 < m && BandLow(|hitmap[p.1]|) <= p.0 < BandHigh(|hitmap[p.1]|) && !hitmap[p.1][p.0]
  {
    if m > BandLow(|hitmap|) {
      var row := hitmap[m - 1];
      var cells := BandCells(row, m - 1, BandHigh(|row|));
      assert BandRows(hitmap, m) == BandRows(hitmap, m - 1) + cells;
      BandRowsHas(hitmap, m - 1, p);
      BandCellsHas(row, m - 1, BandHigh(|row|), p);
      if p.1 == m - 1 {
        assert p in cells <==> BandLow(|row|) <= p.0 < BandHigh(|row|) && !row[p.0];
      } else {
        assert p !in cells;
      }
    }
  }

  lemma {:induction false} BandRowsOrdered(hitmap: seq<seq<bool>>, m: nat)
    requires m <= |hitmap|
    ensures forall p :: p in BandRows(hitmap, m) ==> BandLow(|hitmap|) <= p.1 < m
    ensures StrictlyRowMajor(BandRows(hitmap, m))
  {
    if m > BandLow(|hitmap|) {
      var prev, row := BandRows(hitmap, m - 1), hitmap[m - 1];
      var cells := BandCells(row, m - 1, BandHigh(|row|));
      assert BandRows(hitmap, m) == prev + cells;
      BandRowsOrdered(hitmap, m - 1);
      BandCellsMembers(row, m - 1, BandHigh(|row|));
      forall p: Cell, q: Cell | p in prev && q in cells
        ensures RowMajorBefore(p, q)
      {
        assert p.1 < m - 1 && q.1 == m - 1;
      }
      ConcatRowMajor(prev, cells);
      forall p: Cell | p in prev + cells
        ensures BandLow(|hitmap|) <= p.1 < m
      {
        if p !in prev {
          assert p in cells;
        }
      }
    }
  }

  lemma BandRowsMembers(hitmap: seq<seq<bool>>, m: nat)
    requires m <= |hitmap|
    ensures forall p :: p in BandRows(hitmap, m) <==>
      BandLow(|hitmap|) <= p.1 < m && BandLow(|hitmap[p.1]|) <= p.0 < BandHigh(|hitmap[p.1]|) && !hitmap[p.1][p.0]
    ensures StrictlyRowMajor(BandRows(hitmap, m))
  {
    forall p: Cell
      ensures p in BandRows(hitmap, m) <==>
        BandLow(|hitmap|) <= p.1 < m && BandLow(|hitmap[p.1]|) <= p.0 < BandHigh(|hitmap[p.1]|) && !hitmap[p.1][p.0]
    {
      BandRowsHas(hitmap, m, p);
    }
    BandRowsOrdered(hitmap, m);
  }

  /**
   * The three answers of the placement scan: anywhere when nothing is blocked; otherwise exactly the
   * walkable band cells, in row-major order; `None` when the band has no walkable cell.
   */
  lemma WalkableLocationsCases(hitmap: seq<seq<bool>>)
    ensures AllWalkable(hitmap) ==> WalkableLocations(hitmap) == Some([])
    ensures !AllWalkable(hitmap) && WalkableLocations(hitmap).Some? ==>
      var cells := WalkableLocations(hitmap).value;
      cells != [] && StrictlyRowMajor(cells) &&
      forall x, y :: (x, y) in cells <==> 0 <= y < |hitmap| && 0 <= x < |hitmap[y]| && InBand(hitmap, x, y) && CanPlaceAt(hitmap, x, y)
    ensures WalkableLocations(hitmap).None? <==>
      !AllWalkable(hitmap) &&
      forall y, x :: 0 <= y < |hitmap| && 0 <= x < |hitmap[y]| && InBand(hitmap, x, y) ==> !CanPlaceAt(hitmap, x, y)
  {
    BandRowsMembers(hitmap, BandHigh(|hitmap|));
    var cells := BandRows(hitmap, BandHigh(|hitmap|));
    if cells != [] {
      var p := cells[0];
      assert p in cells;
    } else {
      forall y, x | 0 <= y < |hitmap| && 0 <= x < |hitmap[y]| && InBand(hitmap, x, y)
        ensures !CanPlaceAt(hitmap, x, y)
      {
        assert (x, y) !in cells;
      }
    }
  }
}
