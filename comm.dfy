/**
 * `CommHandler`: one player's websocket connection.  It filters the client's commands
 * (registration, level loads, chat, position updates, item use), validates their payloads
 * and answers through `write_message` (the inherited inventory's `sent` log here).
 */
module Comm {
  import opened Wrappers
  import Text
  import Decimal
  import Inventory

  // ---------------------------------------------------------------------------------------
  // strip_tags

  /** Index of the first `<` or `>` in `s`, or `|s|` when there is none. */
  function AngleIndex(s: string): (i: nat)
    ensures i <= |s| && (i < |s| ==> s[i] == '<' || s[i] == '>')
    ensures forall j :: 0 <= j < i ==> s[j] != '<' && s[j] != '>'
  {
    if s == [] then 0 else if s[0] == '<' || s[0] == '>' then 0 else 1 + AngleIndex(s[1..])
  }

  /** Whether a tag opens at the start of `s`: a `<` whose next `<` or `>` is a `>`. */
  predicate TagAtStart(s: string) {
    |s| > 0 && s[0] == '<' && 1 + AngleIndex(s[1..]) < |s| && s[1 + AngleIndex(s[1..])] == '>'
  }

  /**
   * `re.sub(r'<[^<]*?>', '', s)`: scanning left to right, each `<` that reaches a `>` before any
   * further `<` starts a match ending at that first `>`; the match is deleted and scanning resumes
   * after it.  Any other character is kept.
   */
  function RemoveTags(s: string): string
    decreases |s|
  {
    if s == [] then []
    else if TagAtStart(s) then RemoveTags(s[2 + AngleIndex(s[1..])..])
    else [s[0]] + RemoveTags(s[1..])
  }

  /** `s.replace(c, r)` for a one-character pattern. */
  function Replace(s: string, c: char, r: string): string
    decreases |s|
  {
    if s == [] then [] else (if s[0] == c then r else [s[0]]) + Replace(s[1..], c, r)
  }

  /** `strip_tags`: tags removed, then the remaining angle brackets escaped. */
  function StripTags(s: string): string {
    Replace(Replace(RemoveTags(s), '<', "&lt;"), '>', "&gt;")
  }

  predicate NoAngles(s: string) { '<' !in s && '>' !in s }

  lemma {:induction false} ReplaceFacts(s: string, c: char, r: string, d: char)
    ensures c !in r ==> c !in Replace(s, c, r)
    ensures d !in s && d !in r ==> d !in Replace(s, c, r)
    ensures c !in s ==> Replace(s, c, r) == s
    decreases |s|
  {
    if s != [] {
      ReplaceFacts(s[1..], c, r, d);
    }
  }

  /** Text without a `<` has no tag to remove. */
  lemma {:induction false} RemoveTagsPlain(s: string)
    requires '<' !in s
    ensures RemoveTags(s) == s
    decreases |s|
  {
    if s != [] {
      RemoveTagsPlain(s[1..]);
    }
  }

  /** A tag, `<` then no angle bracket then `>`, is deleted whole. */
  lemma RemoveTagsTag(t: string, rest: string)
    requires NoAngles(t)
    ensures RemoveTags("<" + t + ">" + rest) == RemoveTags(rest)
  {
    var s := "<" + t + ">" + rest;
    assert s[1..] == t + (">" + rest);
    AngleIndexAt(t, ">" + rest);
    assert s[1 + |t|] == '>';
    assert s[2 + |t|..] == rest;
  }

  /** A `<` that meets another `<` before any `>` (or never meets a `>`) is kept. */
  lemma RemoveTagsUnclosed(t: string, rest: string)
    requires NoAngles(t)
    requires rest == [] || rest[0] == '<'
    ensures RemoveTags("<" + t + rest) == "<" + RemoveTags(t + rest)
  {
    var s := "<" + t + rest;
    assert s[0] == '<' && s[1..] == t + rest;
    AngleIndexAt(t, rest);
    if rest != [] {
      assert AngleIndex(rest) == 0;
      assert s[1 + |t|] == rest[0] == '<';
    } else {
      assert 1 + AngleIndex(s[1..]) == |s|;
    }
    assert !TagAtStart(s);
  }

  lemma {:induction false} AngleIndexAt(t: string, rest: string)
    requires NoAngles(t)
    ensures AngleIndex(t + rest) == |t| + AngleIndex(rest)
    decreases |t|
  {
    if t != [] {
      assert (t + rest)[0] == t[0] && (t + rest)[1..] == t[1..] + rest;
      assert t[0] in t;
      assert t[0] != '<' && t[0] != '>';
      assert AngleIndex(t + rest) == 1 + AngleIndex(t[1..] + rest);
      assert NoAngles(t[1..]) by {
        assert forall ch :: ch in t[1..] ==> ch in t;
      }
      AngleIndexAt(t[1..], rest);
    } else {
      assert t + rest == rest;
    }
  }

  /** The output of `strip_tags` contains neither `<` nor `>`. */
  lemma StripTagsNoAngles(s: string)
    ensures NoAngles(StripTags(s))
  {
    var once := Replace(RemoveTags(s), '<', "&lt;");
    ReplaceFacts(RemoveTags(s), '<', "&lt;", '<');
    ReplaceFacts(once, '>', "&gt;", '<');
    ReplaceFacts(once, '>', "&gt;", '>');
  }

  /** Text with no angle brackets passes through `strip_tags` unchanged. */
  lemma StripTagsPlain(s: string)
    requires NoAngles(s)
    ensures StripTags(s) == s
  {
    RemoveTagsPlain(s);
    ReplaceFacts(s, '<', "&lt;", '<');
    ReplaceFacts(s, '>', "&gt;", '>');
  }

  /** `strip_tags` is idempotent. */
  lemma StripTagsIdempotent(s: string)
    ensures StripTags(StripTags(s)) == StripTags(s)
  {
    StripTagsNoAngles(s);
    StripTagsPlain(StripTags(s));
  }

  // ---------------------------------------------------------------------------------------
  // on_message gating

  const REQUIRE_GUID: set<string> := {"pos", "dir", "ups", "cha"}
  const REQUIRE_SCENE: set<string> := {"dir", "ups", "cha"}
  const CALLBACKS: set<string> := {"reg", "lev", "cha", "loc", "use"}

  /** `message[:3]`. */
  function MessageType(message: string): string {
    if |message| >= 3 then message[..3] else message
  }

  /** `message[3:]`. */
  function Payload(message: string): string {
    if |message| >= 3 then message[3..] else []
  }

  datatype Gate = NotRegistered | NoScene | Dispatch(handler: string, data: string) | Unknown

  /** The reply sent for a message that reaches no handler. */
  function Reply(g: Gate): string {
    match g
    case NotRegistered => "errNot Registered"
    case NoScene => "errNo registered scene"
    case Unknown => "errUnknown Command"
    case Dispatch(_, _) => ""
  }

  /** The filters of `on_message`, given whether a guid is registered and a scene is loaded. */
  function Admit(message: string, registered: bool, hasScene: bool): (g: Gate)
    ensures g == NotRegistered <==> MessageType(message) in REQUIRE_GUID && !registered
    ensures g == NoScene <==>
      !(MessageType(message) in REQUIRE_GUID && !registered) && MessageType(message) in REQUIRE_SCENE && !hasScene
    ensures g.Dispatch? ==> g == Dispatch(MessageType(message), Payload(message)) && MessageType(message) in CALLBACKS
    ensures g == Unknown <==>
      !(MessageType(message) in REQUIRE_GUID && !registered) &&
      !(MessageType(message) in REQUIRE_SCENE && !hasScene) && MessageType(message) !in CALLBACKS
  {
    var t := MessageType(message);
    if t in REQUIRE_GUID && !registered then NotRegistered
    else if t in REQUIRE_SCENE && !hasScene then NoScene
    else if t in CALLBACKS then Dispatch(t, Payload(message))
    else Unknown
  }

  /** A registered client with a scene reaches the handler of every known type, and only of those. */
  lemma AdmitRegistered(message: string)
    ensures Admit(message, true, true).Dispatch? <==> MessageType(message) in CALLBACKS
    ensures MessageType(message) !in CALLBACKS ==> Admit(message, true, true) == Unknown
  {
  }

  /** `reg`, `lev`, `loc` and `use` pass both gates: they reach their handler before registration and without a scene. */
  lemma UngatedTypesDispatch(message: string, registered: bool, hasScene: bool)
    requires MessageType(message) in {"reg", "lev", "loc", "use"}
    ensures Admit(message, registered, hasScene) == Dispatch(MessageType(message), Payload(message))
  {
  }

  /** `pos`, `dir` and `ups` are filtered but have no handler: they never run anything. */
  lemma FilteredWithoutHandler(message: string, registered: bool, hasScene: bool)
    requires MessageType(message) in {"pos", "dir", "ups"}
    ensures !Admit(message, registered, hasScene).Dispatch?
    ensures registered && (hasScene || MessageType(message) == "pos") ==> Admit(message, registered, hasScene) == Unknown
  {
  }

  /** A chat message from an unregistered client is refused before the scene is looked at. */
  lemma ChatNeedsGuidFirst(text: string, hasScene: bool)
    ensures Admit("cha" + text, false, hasScene) == NotRegistered
  {
    assert MessageType("cha" + text) == "cha";
  }

  /** `not self.guid`: no guid, or the empty one. */
  predicate HasGuid(guid: Option<string>) { guid.Some? && guid.value != "" }

  /** `"%s" % self.guid`. */
  function GuidText(guid: Option<string>): string {
    if guid.Some? then guid.value else "None"
  }

  // ---------------------------------------------------------------------------------------
  // _on_position_update

  /** `x, y, x_dir, y_dir = map(int, map(float, data.split(":")))`; `None` where ValueError is raised. */
  function ParsePosition(data: string): (r: Option<(int, int, int, int)>)
    ensures r.Some? ==> |Text.Split(data, ':')| == 4
    ensures r.Some? <==>
      var f := Text.Split(data, ':');
      |f| == 4 && Decimal.ParseTruncated(f[0]).Some? && Decimal.ParseTruncated(f[1]).Some? &&
      Decimal.ParseTruncated(f[2]).Some? && Decimal.ParseTruncated(f[3]).Some?
  {
    var f := Text.Split(data, ':');
    if |f| != 4 then None
    else match (Decimal.ParseTruncated(f[0]), Decimal.ParseTruncated(f[1]),
                Decimal.ParseTruncated(f[2]), Decimal.ParseTruncated(f[3]))
      case (Some(x), Some(y), Some(xd), Some(yd)) => Some((x, y, xd, yd))
      case _ => None
  }

  /** The stored position of player `g`: key `l:p:<g>`, value `<g>:<x>:<y>`. */
  function PositionRecord(g: string, x: int, y: int): (string, string) {
    ("l:p:" + g, g + ":" + Decimal.IntToDecimal(x) + ":" + Decimal.IntToDecimal(y))
  }

  /** Four integers written in decimal and joined by `:` parse back to themselves. */
  lemma ParsePositionOfDecimals(x: int, y: int, xd: int, yd: int)
    ensures ParsePosition(Text.Join([Decimal.IntToDecimal(x), Decimal.IntToDecimal(y),
                                     Decimal.IntToDecimal(xd), Decimal.IntToDecimal(yd)], ":"))
            == Some((x, y, xd, yd))
  {
    var parts := [Decimal.IntToDecimal(x), Decimal.IntToDecimal(y), Decimal.IntToDecimal(xd), Decimal.IntToDecimal(yd)];
    forall k | 0 <= k < 4 ensures ':' !in parts[k] {
      var i := [x, y, xd, yd][k];
      assert parts[k] == Decimal.IntToDecimal(i);
      NoColon(i);
    }
    Text.SplitJoin(parts, ':');
    Decimal.TruncatedOfDecimal(x);
    Decimal.TruncatedOfDecimal(y);
    Decimal.TruncatedOfDecimal(xd);
    Decimal.TruncatedOfDecimal(yd);
  }

  lemma NoColon(i: int)
    ensures ':' !in Decimal.IntToDecimal(i)
  {
    var d := Decimal.NatToDecimal(if i < 0 then -i else i);
    assert forall k :: 0 <= k < |d| ==> Decimal.IsDigit(d[k]);
    if i < 0 {
      assert Decimal.IntToDecimal(i) == "-" + d;
    }
  }

  const MAX_COORDINATE := 75 * 50   // level_width * tilesize (and level_height * tilesize)

  /** The direction filter: rejected only when BOTH components are outside [-1, 1]. */
  predicate DirectionOk(xd: int, yd: int) { -1 <= xd <= 1 || -1 <= yd <= 1 }

  predicate PositionOk(x: int, y: int) { 0 <= x <= MAX_COORDINATE && 0 <= y <= MAX_COORDINATE }

  /** Because the filter uses `or`, a wild horizontal direction goes through when the vertical one is in range. */
  lemma OneDirectionSuffices(xd: int)
    ensures DirectionOk(xd, 0) && DirectionOk(0, xd)
    ensures !DirectionOk(xd, xd) <==> xd < -1 || xd > 1
  {
  }

  // ---------------------------------------------------------------------------------------
  // _level_slide

  const LEVEL_SIZE := 75
  const TILESIZE := 50

  /** Arrival coordinate (in tiles) along one axis: `-1` is the centre, near edges wrap to the far side. */
  function SlideCoordinate(av: int): (r: int)
    ensures 0 <= r < LEVEL_SIZE
    ensures av == -1 ==> r == LEVEL_SIZE / 2
    ensures av != -1 ==>
      (av / TILESIZE < 2 ==> r == LEVEL_SIZE - 1) &&
      (av / TILESIZE > LEVEL_SIZE - 2 ==> r == 0) &&
      (2 <= av / TILESIZE <= LEVEL_SIZE - 2 ==> r == av / TILESIZE)
  {
    if av == -1 then LEVEL_SIZE / 2
    else
      var t := av / TILESIZE;
      if t < 2 then LEVEL_SIZE - 1 else if t > LEVEL_SIZE - 2 then 0 else t
  }

  /** Pixel coordinates inside the level, away from its edges, keep their tile. */
  lemma SlideInterior(av: int)
    requires 2 * TILESIZE <= av < (LEVEL_SIZE - 1) * TILESIZE
    ensures SlideCoordinate(av) == av / TILESIZE
  {
  }

  /** `x, y, avx, avy = map(int, data.split(":"))`; `None` where ValueError is raised. */
  function ParseLevelId(data: string): (r: Option<(int, int, int, int)>)
    ensures r.Some? ==> |Text.Split(data, ':')| == 4
    ensures r.Some? <==>
      var f := Text.Split(data, ':');
      |f| == 4 && Decimal.ParseInt(f[0]).Some? && Decimal.ParseInt(f[1]).Some? &&
      Decimal.ParseInt(f[2]).Some? && Decimal.ParseInt(f[3]).Some?
  {
    var f := Text.Split(data, ':');
    if |f| != 4 then None
    else match (Decimal.ParseInt(f[0]), Decimal.ParseInt(f[1]), Decimal.ParseInt(f[2]), Decimal.ParseInt(f[3]))
      case (Some(x), Some(y), Some(ax), Some(ay)) => Some((x, y, ax, ay))
      case _ => None
  }

  /** Four integers written in decimal and joined by `:` make a level id naming them. */
  lemma ParseLevelIdOfDecimals(x: int, y: int, ax: int, ay: int)
    ensures ParseLevelId(Text.Join([Decimal.IntToDecimal(x), Decimal.IntToDecimal(y),
                                    Decimal.IntToDecimal(ax), Decimal.IntToDecimal(ay)], ":"))
            == Some((x, y, ax, ay))
  {
    var parts := [Decimal.IntToDecimal(x), Decimal.IntToDecimal(y), Decimal.IntToDecimal(ax), Decimal.IntToDecimal(ay)];
    forall k | 0 <= k < 4 ensures ':' !in parts[k] {
      var i := [x, y, ax, ay][k];
      assert parts[k] == Decimal.IntToDecimal(i);
      NoColon(i);
    }
    Text.SplitJoin(parts, ':');
    Decimal.IntRoundTrip(x);
    Decimal.IntRoundTrip(y);
    Decimal.IntRoundTrip(ax);
    Decimal.IntRoundTrip(ay);
  }

  /** A level load: `_load_level(code, avx, avy)`, or a slide through the current location's edge. */
  datatype LevelRequest =
    | LoadLevel(code: string, avx: Option<int>, avy: Option<int>)
    | SlideLevel(x: int, y: int, arriveX: int, arriveY: int)

  /** What `_level_slide(data)` asks for, or `None` for an invalid level id. */
  function SlideRequest(data: string, hasScene: bool): Option<LevelRequest> {
    match ParseLevelId(data)
    case None => None
    case Some((x, y, ax, ay)) =>
      var avx, avy := SlideCoordinate(ax), SlideCoordinate(ay);
      Some(if hasScene then SlideLevel(x, y, avx, avy) else LoadLevel("o:0:0", Some(avx), Some(avy)))
  }

  /** The slide requested at registration, `"0:0:-1:-1"`, arrives at the centre tile. */
  lemma RegistrationSlide()
    ensures ParseLevelId("0:0:-1:-1") == Some((0, 0, -1, -1))
    ensures SlideCoordinate(-1) == 37
  {
    RegistrationFields();
    assert Decimal.ParseInt("0") == Some(0) by {
      assert Decimal.DigitsValue("0") == 0;
    }
    assert Decimal.ParseInt("-1") == Some(-1) by {
      assert "-1"[1..] == "1";
      assert Decimal.DigitsValue("1") == 1;
    }
  }

  /** Four fields without a colon, joined by colons, split back into the four. */
  lemma FourFields(a: string, b: string, c: string, d: string)
    requires ':' !in a && ':' !in b && ':' !in c && ':' !in d
    ensures Text.Split(a + [':'] + (b + [':'] + (c + [':'] + d)), ':') == [a, b, c, d]
  {
    var cd := c + [':'] + d;
    TwoFields(c, d);
    var bcd := b + [':'] + cd;
    Text.SplitAt(b, cd, ':');
    Text.SplitNone(b, ':');
    assert Text.Split(bcd, ':') == [b, c, d];
    Text.SplitAt(a, bcd, ':');
    Text.SplitNone(a, ':');
  }

  lemma TwoFields(c: string, d: string)
    requires ':' !in c && ':' !in d
    ensures Text.Split(c + [':'] + d, ':') == [c, d]
  {
    Text.SplitAt(c, d, ':');
    Text.SplitNone(c, ':');
    Text.SplitNone(d, ':');
  }

  lemma RegistrationFields()
    ensures Text.Split("0:0:-1:-1", ':') == ["0", "0", "-1", "-1"]
  {
    FourFields("0", "0", "-1", "-1");
    assert "0:0:-1:-1" == "0" + [':'] + ("0" + [':'] + ("-1" + [':'] + "-1"));
  }

  // ---------------------------------------------------------------------------------------
  // use_item as written

  /**
   * `use_item` as it runs on a `CommHandler`: the `hit` notice names `self.id`, which a connection
   * does not have, so using a weapon raises AttributeError before anything is sent.
   */
  function UseOutcomeAsWritten(inventory: map<int, string>, slot: string): (r: Result<(), PyError>)
    ensures r == Failure(AttributeError) <==>
      Decimal.ParseInt(slot).Some? && Decimal.ParseInt(slot).value in inventory &&
      Text.StartsWith(inventory[Decimal.ParseInt(slot).value], "w")
  {
    match Decimal.ParseInt(slot)
    case None => Failure(ValueError)
    case Some(k) =>
      if k in inventory && Text.StartsWith(inventory[k], "w") then Failure(AttributeError) else Success(())
  }

  /** The weapon every player is given at registration cannot be used. */
  lemma StartingWeaponUnusable()
    ensures UseOutcomeAsWritten(Inventory.FromSeq(["wsw.sharp.12", "f5"]), "0") == Failure(AttributeError)
  {
    assert Decimal.ParseInt("0") == Some(0);
  }

  // ---------------------------------------------------------------------------------------
  // The connection

  class CommHandler {
    /** The inventory side of the connection; its `sent` log is everything written to the client. */
    const inv: Inventory.InventoryManager
    var guid: Option<string>
    /** The loaded location's name; `None` until a level is loaded. */
    var location: Option<string>
    var position: (int, int)
    var velocity: (int, int)
    var chatName: string
    var lastUpdate: int
    /** Level loads asked of `_load_level`, in order. */
    var levelRequests: seq<LevelRequest>
    /** Keys and values written to the shared store, in order. */
    var stored: seq<(string, string)>
    /** How many times the movement scheduler was told an event happened. */
    var scheduleEvents: nat

    ghost predicate Valid()
      reads this, inv
    {
      inv.Valid()
    }

    constructor ()
      ensures Valid() && fresh(inv)
      ensures guid == None && location == None && position == (0, 0) && velocity == (0, 0)
      ensures chatName == "" && lastUpdate == 0 && levelRequests == [] && stored == [] && scheduleEvents == 0
      ensures inv.inventory == map[] && inv.sent == [] && inv.locationNotices == [] && inv.globalNotices == []
    {
      inv := new Inventory.InventoryManager();
      guid, location := None, None;
      position, velocity := (0, 0), (0, 0);
      chatName, lastUpdate := "", 0;
      levelRequests, stored, scheduleEvents := [], [], 0;
    }

    method Send(message: string)
      modifies inv
      ensures inv.sent == old(inv.sent) + [message]
      ensures inv.inventory == old(inv.inventory) && inv.locationNotices == old(inv.locationNotices)
      ensures inv.globalNotices == old(inv.globalNotices)
    {
      inv.sent := inv.sent + [message];
    }

    /**
     * `on_message`: filter by type, then run the handler for a known type with `message[3:]`.
     * `g` is how the message was routed; a message that reaches no handler gets its reply and
     * changes nothing else.
     */
    method OnMessage(now: int, message: string) returns (g: Gate, r: Result<(), PyError>)
      requires Valid()
      modifies this, inv
      ensures Valid()
      ensures g == Admit(message, HasGuid(old(guid)), old(location).Some?)
      ensures !g.Dispatch? ==>
        r.Success? && inv.sent == old(inv.sent) + [Reply(g)] &&
        inv.inventory == old(inv.inventory) && inv.locationNotices == old(inv.locationNotices) &&
        inv.globalNotices == old(inv.globalNotices) &&
        guid == old(guid) && location == old(location) && position == old(position) &&
        velocity == old(velocity) && chatName == old(chatName) && lastUpdate == old(lastUpdate) &&
        levelRequests == old(levelRequests) && stored == old(stored) && scheduleEvents == old(scheduleEvents)
      ensures r.Failure? ==> g == Dispatch("use", Payload(message)) && r.error == ValueError
      ensures g == Dispatch("reg", Payload(message)) ==> Registration(Payload(message))
      ensures g == Dispatch("lev", Payload(message)) ==>
        levelRequests == old(levelRequests) + [LoadLevel(Payload(message), None, None)] &&
        inv.sent == old(inv.sent) && inv.inventory == old(inv.inventory) &&
        inv.locationNotices == old(inv.locationNotices) && inv.globalNotices == old(inv.globalNotices) &&
        guid == old(guid) && location == old(location) && position == old(position) &&
        velocity == old(velocity) && chatName == old(chatName) && lastUpdate == old(lastUpdate) &&
        stored == old(stored) && scheduleEvents == old(scheduleEvents)
      ensures g == Dispatch("cha", Payload(message)) ==> Chatted(Payload(message))
      ensures g == Dispatch("loc", Payload(message)) ==> PositionTaken(now, Payload(message))
      ensures g == Dispatch("use", Payload(message)) ==>
        ItemUsed(Payload(message), r) &&
        guid == old(guid) && location == old(location) && position == old(position) &&
        velocity == old(velocity) && chatName == old(chatName) && lastUpdate == old(lastUpdate) &&
        levelRequests == old(levelRequests) && stored == old(stored) && scheduleEvents == old(scheduleEvents)
    {
      g := Admit(message, HasGuid(guid), location.Some?);
      r := Success(());
      match g {
        case Dispatch(handler, data) =>
          if handler == "reg" {
            Register(data);
          } else if handler == "lev" {
            levelRequests := levelRequests + [LoadLevel(data, None, None)];
          } else if handler == "cha" {
            OnChat(data);
          } else if handler == "loc" {
            OnPositionUpdate(now, data);
          } else {
            r := UseItem(data);
          }
        case _ =>
          Send(Reply(g));
      }
    }

    /**
     * `_on_position_update(data)` at time `now` (milliseconds): malformed numbers, a direction with
     * both components outside [-1, 1], or a position outside the level are refused with their error;
     * otherwise position and velocity are taken, the scheduler is told and the position stored.
     * `last_update` advances only when at least 5 ms have passed.
     */
    method OnPositionUpdate(now: int, data: string)
      modifies this, inv
      ensures PositionTaken(now, data)
    {
      var parsed := ParsePosition(data);
      if parsed.None? {
        Send("errInvalid Position");
        return;
      }
      var (x, y, xd, yd) := parsed.value;
      Move(now, x, y, xd, yd);
    }

    /** The effect of `_on_position_update(data)` at time `now`: unparsable data is refused, anything else is `Moved`. */
    twostate predicate PositionTaken(now: int, data: string)
      reads this, inv
    {
      guid == old(guid) && location == old(location) && chatName == old(chatName) &&
      levelRequests == old(levelRequests) &&
      inv.inventory == old(inv.inventory) && inv.locationNotices == old(inv.locationNotices) &&
      inv.globalNotices == old(inv.globalNotices) &&
      (ParsePosition(data).None? ==> inv.sent == old(inv.sent) + ["errInvalid Position"] && Unmoved()) &&
      (ParsePosition(data).Some? ==>
         var (x, y, xd, yd) := ParsePosition(data).value;
         Moved(now, x, y, xd, yd))
    }

    /** The effect of a parsed position update: refused with its error, or taken. */
    twostate predicate Moved(now: int, x: int, y: int, xd: int, yd: int)
      reads this, inv
    {
      if !DirectionOk(xd, yd) then inv.sent == old(inv.sent) + ["errBad Direction"] && Unmoved()
      else if !PositionOk(x, y) then inv.sent == old(inv.sent) + ["errBad Position"] && Unmoved()
      else
        inv.sent == old(inv.sent) && position == (x, y) && velocity == (xd, yd) &&
        scheduleEvents == old(scheduleEvents) + 1 &&
        stored == old(stored) + [PositionRecord(GuidText(guid), x, y)] &&
        lastUpdate == (if now - old(lastUpdate) < 5 then old(lastUpdate) else now)
    }

    /** The checks and updates of `_on_position_update` once the four numbers are parsed. */
    method Move(now: int, x: int, y: int, xd: int, yd: int)
      modifies this, inv
      ensures guid == old(guid) && location == old(location) && chatName == old(chatName)
      ensures levelRequests == old(levelRequests)
      ensures inv.inventory == old(inv.inventory) && inv.locationNotices == old(inv.locationNotices)
      ensures inv.globalNotices == old(inv.globalNotices)
      ensures Moved(now, x, y, xd, yd)
    {
      if !DirectionOk(xd, yd) {
        Send("errBad Direction");
        return;
      }
      if !PositionOk(x, y) {
        Send("errBad Position");
        return;
      }
      position := (x, y);
      velocity := (xd, yd);
      scheduleEvents := scheduleEvents + 1;
      stored := stored + [PositionRecord(GuidText(guid), x, y)];
      if now - lastUpdate < 5 {
        return;
      }
      lastUpdate := now;
    }

    /** A refused update leaves the movement state alone. */
    twostate predicate Unmoved()
      reads this
    {
      position == old(position) && velocity == old(velocity) && lastUpdate == old(lastUpdate) &&
      stored == old(stored) && scheduleEvents == old(scheduleEvents)
    }

    /** The chat line broadcast for `text` (no leading `/`): tags stripped, the chat name in a span. */
    function ChatLine(text: string): string
      reads this
    {
      var body := StripTags(text);
      "cha" + GuidText(guid) + ":\n" + (if chatName != "" then "<span>" + chatName + "</span>" + body else body)
    }

    /** The effect of `_on_chat(data)`: a `/` line is a command; anything else is broadcast to the location. */
    twostate predicate Chatted(data: string)
      reads this, inv
    {
      guid == old(guid) && location == old(location) && position == old(position) &&
      velocity == old(velocity) && lastUpdate == old(lastUpdate) && levelRequests == old(levelRequests) &&
      stored == old(stored) && scheduleEvents == old(scheduleEvents) &&
      inv.inventory == old(inv.inventory) && inv.globalNotices == old(inv.globalNotices) &&
      (!Text.StartsWith(data, "/") ==>
         chatName == old(chatName) && inv.sent == old(inv.sent) &&
         inv.locationNotices == old(inv.locationNotices) + [old(ChatLine(data))]) &&
      (Text.StartsWith(data, "/") ==> inv.locationNotices == old(inv.locationNotices) && Commanded(data[1..]))
    }

    /** `_on_chat`: a `/` line is a command; anything else is broadcast to the location. */
    method OnChat(data: string)
      modifies this, inv
      ensures Chatted(data)
    {
      if Text.StartsWith(data, "/") {
        HandleCommand(data[1..]);
        return;
      }
      inv.locationNotices := inv.locationNotices + [ChatLine(data)];
    }

    /** The effect of `_handle_command(message)` on the chat name and the replies. */
    twostate predicate Commanded(message: string)
      reads this, inv
    {
      if location.None? || !Text.StartsWith(message, "identify ") then
        chatName == old(chatName) && inv.sent == old(inv.sent)
      else
        assert !Text.IsSpace(message[0]);
        var name := StripTags(Text.LastWord(message).value);
        chatName == (if name != "" then name else old(chatName)) &&
        inv.sent == old(inv.sent) + ["chagod\n/Got it, thanks"]
    }

    /** `_handle_command`: `identify <name>` sets the chat name to the stripped last word, when non-empty. */
    method HandleCommand(message: string)
      modifies this, inv
      ensures guid == old(guid) && location == old(location) && position == old(position)
      ensures velocity == old(velocity) && lastUpdate == old(lastUpdate) && levelRequests == old(levelRequests)
      ensures stored == old(stored) && scheduleEvents == old(scheduleEvents)
      ensures inv.inventory == old(inv.inventory) && inv.locationNotices == old(inv.locationNotices)
      ensures inv.globalNotices == old(inv.globalNotices)
      ensures Commanded(message)
      ensures NoAngles(chatName) || chatName == old(chatName)
    {
      if location.None? {
        return;
      }
      if Text.StartsWith(message, "identify ") {
        assert !Text.IsSpace(message[0]);
        var word := Text.LastWord(message).value;
        var name := StripTags(word);
        StripTagsNoAngles(word);
        if name != "" {
          chatName := name;
        }
        Send("chagod\n/Got it, thanks");
      }
    }

    /** The effect of `_register(data)`. */
    twostate predicate Registration(data: string)
      reads this, inv
    {
      location == old(location) && position == old(position) && velocity == old(velocity) &&
      chatName == old(chatName) && lastUpdate == old(lastUpdate) &&
      stored == old(stored) && scheduleEvents == old(scheduleEvents) &&
      inv.locationNotices == old(inv.locationNotices) && inv.globalNotices == old(inv.globalNotices) &&
      (data == "local" ==>
         guid == old(guid) && inv.inventory == old(inv.inventory) &&
         inv.sent == old(inv.sent) + ["errBad GUID"] && levelRequests == old(levelRequests)) &&
      (data != "local" ==>
         guid == Some(data) && inv.inventory == old(inv.inventory)[0 := "wsw.sharp.12"][1 := "f5"] &&
         inv.sent == old(inv.sent) + [Inventory.Listing(inv.inventory)] &&
         levelRequests == old(levelRequests) +
           [if location.Some? then SlideLevel(0, 0, 37, 37) else LoadLevel("o:0:0", Some(37), Some(37))])
    }

    /**
     * `_register(data)`: `local` is refused; any other guid is taken, the starting inventory is
     * given and the player slides into the centre of the starting level.
     */
    method Register(data: string)
      requires Valid()
      modifies this, inv
      ensures Valid()
      ensures Registration(data)
    {
      if data == "local" {
        Send("errBad GUID");
        return;
      }
      guid := Some(data);
      inv.Registered();
      SlideToStart();
    }

    /** `_level_slide("0:0:-1:-1")`, registration's move into the centre of level (0, 0). */
    method SlideToStart()
      modifies this, inv
      ensures guid == old(guid) && location == old(location) && position == old(position)
      ensures velocity == old(velocity) && chatName == old(chatName) && lastUpdate == old(lastUpdate)
      ensures stored == old(stored) && scheduleEvents == old(scheduleEvents)
      ensures inv.inventory == old(inv.inventory) && inv.locationNotices == old(inv.locationNotices)
      ensures inv.globalNotices == old(inv.globalNotices) && inv.sent == old(inv.sent)
      ensures levelRequests == old(levelRequests) +
        [if location.Some? then SlideLevel(0, 0, 37, 37) else LoadLevel("o:0:0", Some(37), Some(37))]
    {
      RegistrationSlide();
      LevelSlide("0:0:-1:-1");
    }

    /** `_level_slide(data)`: an invalid level id is refused, otherwise the level load is requested. */
    method LevelSlide(data: string)
      modifies this, inv
      ensures guid == old(guid) && location == old(location) && position == old(position)
      ensures velocity == old(velocity) && chatName == old(chatName) && lastUpdate == old(lastUpdate)
      ensures stored == old(stored) && scheduleEvents == old(scheduleEvents)
      ensures inv.inventory == old(inv.inventory) && inv.locationNotices == old(inv.locationNotices)
      ensures inv.globalNotices == old(inv.globalNotices)
      ensures SlideRequest(data, location.Some?).None? ==>
        inv.sent == old(inv.sent) + ["errInvalid level id"] && levelRequests == old(levelRequests)
      ensures SlideRequest(data, location.Some?).Some? ==>
        inv.sent == old(inv.sent) && levelRequests == old(levelRequests) + [SlideRequest(data, location.Some?).value]
    {
      var request := SlideRequest(data, location.Some?);
      if request.None? {
        Send("errInvalid level id");
        return;
      }
      levelRequests := levelRequests + [request.value];
    }

    /** The effect of `use_item(slot)` with outcome `r`, seen from the inventory side. */
    twostate predicate ItemUsed(slot: string, new r: Result<(), PyError>)
      reads this, inv
    {
      (r.Failure? <==> Decimal.ParseInt(slot).None?) &&
      (r.Failure? ==>
         r.error == ValueError && inv.sent == old(inv.sent) && inv.locationNotices == old(inv.locationNotices)) &&
      inv.inventory == old(inv.inventory) && inv.globalNotices == old(inv.globalNotices) &&
      (r.Success? ==>
         var k := Decimal.ParseInt(slot).value;
         (k !in inv.inventory ==> inv.sent == old(inv.sent) && inv.locationNotices == old(inv.locationNotices)) &&
         (k in inv.inventory ==>
            inv.sent == old(inv.sent) + ["chaitem daemon\nUsed " + inv.inventory[k]] &&
            inv.locationNotices == old(inv.locationNotices) +
              (if Text.StartsWith(inv.inventory[k], "w")
               then ["hit" + Text.Join([GuidText(guid), inv.inventory[k], Decimal.IntToDecimal(position.0),
                                        Decimal.IntToDecimal(position.1)], ":")]
               else [])))
    }

    /**
     * `use_item(slot)` with the connection's guid naming the holder: an unparsable slot raises
     * ValueError; a weapon sends a `hit` notice from the player's position; any item present is
     * reported as used.
     */
    method UseItem(slot: string) returns (r: Result<(), PyError>)
      requires Valid()
      modifies inv
      ensures Valid()
      ensures ItemUsed(slot, r)
    {
      var k := Decimal.ParseInt(slot);
      if k.None? {
        return Failure(ValueError);
      }
      inv.UseItem(k.value, GuidText(guid), position.0, position.1);
      r := Success(());
    }
  }
}
