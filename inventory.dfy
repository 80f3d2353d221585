/**
 * `InventoryManager`: a player's five item slots, kept as a dictionary from slot number to item code,
 * and the messages it sends — to the client (`write_message`), to the player's location
 * (`_notify_location`) and to every node (`_notify_global`), each an append-only log here.
 */
module Inventory {
  import opened Wrappers
  import Text
  import Decimal

  const SLOTS := 5

  /** One line of the inventory listing: `k:` for an empty slot, `k:item` otherwise. */
  function Line(inventory: map<int, string>, slot: int): string {
    Decimal.IntToDecimal(slot) + ":" + (if slot in inventory then inventory[slot] else "")
  }

  /** The full listing: `inv` and the lines of slots 0 to 4, joined by newlines. */
  function Listing(inventory: map<int, string>): string {
    "inv" + Text.Join(seq(SLOTS, k => Line(inventory, k)), "\n")
  }

  /** The `update_inventory(slot)` message: one line for a slot that is set and not 0, the listing otherwise. */
  function UpdateMessage(inventory: map<int, string>, slot: Option<int>): string {
    if slot.Some? && slot.value != 0 then "inv" + Line(inventory, slot.value) else Listing(inventory)
  }

  /** `cycle_items`: `new[i] = old[(i + delta) mod n]`. */
  function Rotated(s: seq<string>, delta: int): (r: seq<string>)
    ensures |r| == |s|
  {
    seq(|s|, i requires 0 <= i < |s| => s[(i + delta) % |s|])
  }

  lemma StepBack(i: int, n: int)
    requires 0 <= i < n
    ensures ((i - 1) % n + 1) % n == i
    ensures ((i + 1) % n - 1) % n == i
  {
    if i == 0 {
      MinusOneMod(n);
      SelfMod(n);
    } else {
      SmallMod(i - 1, n);
    }
    SmallMod(i, n);
    if i == n - 1 {
      SelfMod(n);
      MinusOneMod(n);
    } else {
      SmallMod(i + 1, n);
    }
  }

  lemma SmallMod(a: int, n: int)
    requires 0 <= a < n
    ensures a % n == a
  {
  }

  lemma MinusOneMod(n: int)
    requires n > 0
    ensures (-1) % n == n - 1
  {
  }

  lemma SelfMod(n: int)
    requires n > 0
    ensures n % n == 0
  {
  }

  /** Cycling forward and then back (or back and then forward) restores the slots. */
  lemma RotatedInverse(s: seq<string>)
    ensures Rotated(Rotated(s, 1), -1) == s
    ensures Rotated(Rotated(s, -1), 1) == s
  {
    var f, b := Rotated(s, 1), Rotated(s, -1);
    forall i | 0 <= i < |s| ensures Rotated(f, -1)[i] == s[i] {
      StepBack(i, |s|);
    }
    forall i | 0 <= i < |s| ensures Rotated(b, 1)[i] == s[i] {
      StepBack(i, |s|);
    }
  }

  /** Each line of a listing takes the slot number up to its first `:` and the item code after it. */
  lemma ListingParses(inventory: map<int, string>)
    requires forall k :: k in inventory ==> '\n' !in inventory[k]
    ensures StartsWith3(Listing(inventory))
    ensures var lines := Text.Split(Listing(inventory)[3..], '\n');
      |lines| == SLOTS &&
      forall k :: 0 <= k < SLOTS ==>
        Text.SplitOnce(lines[k], ':') == Some((Decimal.IntToDecimal(k), if k in inventory then inventory[k] else ""))
  {
    var lines := seq(SLOTS, k => Line(inventory, k));
    forall k | 0 <= k < SLOTS ensures '\n' !in lines[k] && Text.SplitOnce(lines[k], ':') == Some((Decimal.IntToDecimal(k), if k in inventory then inventory[k] else "")) {
      var d := Decimal.NatToDecimal(k);
      assert Decimal.IntToDecimal(k) == d;
      assert forall j :: 0 <= j < |d| ==> Decimal.IsDigit(d[j]);
      Text.SplitOnceAt(d, if k in inventory then inventory[k] else "", ':');
    }
    Text.SplitJoin(lines, '\n');
    assert Listing(inventory)[3..] == Text.Join(lines, "\n");
  }

  predicate StartsWith3(s: string) { |s| >= 3 && s[..3] == "inv" }

  /**
   * `if slot:` treats slot 0 like no slot: both send the five-line listing, while any other slot
   * sends a single line.
   */
  lemma {:induction false} UpdateMessageLines(inventory: map<int, string>, slot: int)
    requires forall k :: k in inventory ==> '\n' !in inventory[k]
    ensures UpdateMessage(inventory, Some(0)) == UpdateMessage(inventory, None)
    ensures slot == 0 ==> |Text.Split(UpdateMessage(inventory, Some(slot))[3..], '\n')| == SLOTS
    ensures slot != 0 ==>
      StartsWith3(UpdateMessage(inventory, Some(slot))) &&
      Text.Split(UpdateMessage(inventory, Some(slot))[3..], '\n') == [Line(inventory, slot)]
  {
    if slot == 0 {
      ListingParses(inventory);
    } else {
      SlotLineParses(inventory, slot);
    }
  }

  lemma SlotLineParses(inventory: map<int, string>, slot: int)
    requires forall k :: k in inventory ==> '\n' !in inventory[k]
    requires slot != 0
    ensures StartsWith3(UpdateMessage(inventory, Some(slot)))
    ensures Text.Split(UpdateMessage(inventory, Some(slot))[3..], '\n') == [Line(inventory, slot)]
  {
    var line := Line(inventory, slot);
    var d := Decimal.NatToDecimal(if slot < 0 then -slot else slot);
    assert forall j :: 0 <= j < |d| ==> Decimal.IsDigit(d[j]);
    assert '\n' !in line;
    assert UpdateMessage(inventory, Some(slot))[3..] == line;
    Text.SplitNone(line, '\n');
  }

  /** A dictionary whose slots are 0 to `|s| - 1`, holding `s` in order. */
  function FromSeq(s: seq<string>): (m: map<int, string>)
    ensures forall k :: k in m <==> 0 <= k < |s|
    ensures forall k :: 0 <= k < |s| ==> m[k] == s[k]
  {
    map k | 0 <= k < |s| :: s[k]
  }

  /** The items of `s` before index `i`, leaving out index `slot`. */
  function Kept(s: seq<string>, slot: int, i: int): seq<string>
    requires 0 <= slot < |s| && 0 <= i <= |s|
  {
    if i <= slot then s[..i] else s[..slot] + s[slot + 1..i]
  }

  lemma KeptStep(s: seq<string>, slot: int, i: int)
    requires 0 <= slot < |s| && 0 <= i < |s|
    ensures Kept(s, slot, i + 1) == if i == slot then Kept(s, slot, i) else Kept(s, slot, i) + [s[i]]
  {
    if i < slot {
      assert s[..i] + [s[i]] == s[..i + 1];
    } else if i == slot {
      assert s[slot + 1..slot + 1] == [];
    } else {
      assert s[slot + 1..i] + [s[i]] == s[slot + 1..i + 1];
    }
  }

  /** Appending an item fills the next slot. */
  lemma FromSeqSnoc(s: seq<string>, x: string)
    ensures FromSeq(s + [x]) == FromSeq(s)[|s| := x]
  {
  }

  /** Slots 0 and 1 set over a compact inventory give the compact inventory of the two items and the rest. */
  lemma StartingItems(m: map<int, string>, s: seq<string>)
    requires m == FromSeq(s) && |s| <= SLOTS
    ensures var after := ["wsw.sharp.12", "f5"] + if |s| > 2 then s[2..] else [];
      |after| <= SLOTS && m[0 := "wsw.sharp.12"][1 := "f5"] == FromSeq(after)
  {
    var after := ["wsw.sharp.12", "f5"] + if |s| > 2 then s[2..] else [];
    var n := m[0 := "wsw.sharp.12"][1 := "f5"];
    assert forall k :: k in n <==> 0 <= k < |after|;
    forall k | k in n ensures n[k] == after[k] {
      if k >= 2 { assert after[k] == s[k]; }
    }
  }

  lemma {:induction false} FromSeqSize(s: seq<string>)
    ensures |FromSeq(s)| == |s|
  {
    if s != [] {
      var p := s[..|s| - 1];
      FromSeqSize(p);
      assert FromSeq(s) == FromSeq(p)[|p| := s[|s| - 1]];
    }
  }

  class InventoryManager {
    var inventory: map<int, string>
    var sent: seq<string>
    var locationNotices: seq<string>
    var globalNotices: seq<(string, string)>

    constructor ()
      ensures inventory == map[] && sent == [] && locationNotices == [] && globalNotices == []
      ensures Valid()
    {
      inventory := map[];
      sent, locationNotices, globalNotices := [], [], [];
    }

    /** The slots in use are exactly 0 to n - 1, with n at most 5. */
    ghost predicate Valid()
      reads this
    {
      |inventory| <= SLOTS && forall k :: k in inventory <==> 0 <= k < |inventory|
    }

    /** The items in slot order. */
    function Items(): (s: seq<string>)
      reads this
      requires Valid()
      ensures |s| == |inventory| && inventory == FromSeq(s)
    {
      var s := seq(|inventory|, k reads this requires 0 <= k < |inventory| && Valid() => inventory[k]);
      assert inventory == FromSeq(s);
      s
    }

    /** Storing the dictionary of a list of at most five items keeps the slots contiguous. */
    lemma Holds(s: seq<string>)
      requires inventory == FromSeq(s) && |s| <= SLOTS
      ensures Valid() && Items() == s
    {
      FromSeqSize(s);
    }

    predicate InventoryFull()
      reads this
    {
      |inventory| == SLOTS
    }

    method UpdateInventory(slot: Option<int>)
      modifies this
      ensures sent == old(sent) + [UpdateMessage(inventory, slot)]
      ensures inventory == old(inventory) && locationNotices == old(locationNotices) && globalNotices == old(globalNotices)
    {
      sent := sent + [UpdateMessage(inventory, slot)];
    }

    /** `registered`: the starting weapon and item go into slots 0 and 1. */
    method Registered()
      requires Valid()
      modifies this
      ensures Valid()
      ensures inventory == old(inventory)[0 := "wsw.sharp.12"][1 := "f5"]
      ensures Items() == ["wsw.sharp.12", "f5"] + if |old(Items())| > 2 then old(Items())[2..] else []
      ensures sent == old(sent) + [Listing(inventory)]
      ensures locationNotices == old(locationNotices) && globalNotices == old(globalNotices)
    {
      ghost var before := Items();
      StartingItems(inventory, before);
      inventory := inventory[0 := "wsw.sharp.12"][1 := "f5"];
      Holds(["wsw.sharp.12", "f5"] + if |before| > 2 then before[2..] else []);
      UpdateInventory(None);
    }

    /** `give_item`: the lowest free slot takes the item; when all five are used nothing changes. */
    method GiveItem(item: string) returns (given: bool)
      requires Valid()
      modifies this
      ensures Valid()
      ensures given <==> !old(InventoryFull())
      ensures !given ==> inventory == old(inventory) && sent == old(sent)
      ensures given ==>
        var i := |old(inventory)|;
        i !in old(inventory) && (forall j :: 0 <= j < i ==> j in old(inventory)) &&
        inventory == old(inventory)[i := item] && Items() == old(Items()) + [item] &&
        sent == old(sent) + [UpdateMessage(inventory, Some(i))]
      ensures locationNotices == old(locationNotices) && globalNotices == old(globalNotices)
    {
      if InventoryFull() {
        return false;
      }
      ghost var before := Items();
      for i := 0 to SLOTS
        invariant forall j :: 0 <= j < i ==> j in inventory
        invariant inventory == old(inventory) && sent == old(sent)
      {
        if i in inventory {
          continue;
        }
        assert |inventory| < i ==> |inventory| in inventory;
        assert i == |inventory|;
        inventory := inventory[i := item];
        assert inventory == FromSeq(before + [item]);
        Holds(before + [item]);
        UpdateInventory(Some(i));
        return true;
      }
      assert false;
    }

    /**
     * `use_item`: a weapon (code starting with `w`) sends a `hit` notice from the holder's position;
     * any item present is reported as used.  `holder` is the id the notice names.
     */
    method UseItem(slot: int, holder: string, x: int, y: int)
      modifies this
      ensures inventory == old(inventory) && globalNotices == old(globalNotices)
      ensures slot !in inventory ==> sent == old(sent) && locationNotices == old(locationNotices)
      ensures slot in inventory ==>
        var item := inventory[slot];
        sent == old(sent) + ["chaitem daemon\nUsed " + item] &&
        locationNotices == old(locationNotices) +
          (if Text.StartsWith(item, "w")
           then ["hit" + Text.Join([holder, item, Decimal.IntToDecimal(x), Decimal.IntToDecimal(y)], ":")]
           else [])
    {
      if slot !in inventory {
        return;
      }
      var item := inventory[slot];
      if Text.StartsWith(item, "w") {
        locationNotices := locationNotices + ["hit" + Text.Join([holder, item, Decimal.IntToDecimal(x), Decimal.IntToDecimal(y)], ":")];
      }
      sent := sent + ["chaitem daemon\nUsed " + item];
    }

    /** The compacting loop of `drop_item`: the dictionary of the items other than `slot`, renumbered from 0. */
    method WithoutSlot(slot: int) returns (newInventory: map<int, string>)
      requires Valid() && slot in inventory
      ensures newInventory == FromSeq(Items()[..slot] + Items()[slot + 1..])
    {
      ghost var before := Items();
      newInventory := map[];
      ghost var kept: seq<string> := [];
      for i := 0 to |inventory|
        invariant kept == Kept(before, slot, i)
        invariant newInventory == FromSeq(kept) && |newInventory| == |kept|
      {
        KeptStep(before, slot, i);
        if i == slot {
          continue;
        }
        FromSeqSnoc(kept, before[i]);
        newInventory := newInventory[|newInventory| := inventory[i]];
        kept := kept + [before[i]];
        FromSeqSize(kept);
      }
      assert before[slot + 1..|before|] == before[slot + 1..];
    }

    /**
     * `drop_item`: with `update` the slot leaves the inventory and the later items move down one slot;
     * a `drop` notice goes to every node.  `target` is where the throw lands.
     */
    method DropItem(slot: int, update: bool, location: string, holder: string, target: (int, int))
      requires Valid()
      modifies this
      ensures Valid()
      ensures slot !in old(inventory) ==>
        inventory == old(inventory) && sent == old(sent) && globalNotices == old(globalNotices)
      ensures slot in old(inventory) && update ==>
        Items() == old(Items())[..slot] + old(Items())[slot + 1..] && sent == old(sent) + [Listing(inventory)]
      ensures slot in old(inventory) && !update ==> inventory == old(inventory) && sent == old(sent)
      ensures slot in old(inventory) ==>
        globalNotices == old(globalNotices) +
          [("drop", location + ">" + Text.Join([holder, old(inventory)[slot], Decimal.IntToDecimal(target.0), Decimal.IntToDecimal(target.1)], ":"))]
      ensures locationNotices == old(locationNotices)
    {
      if slot !in inventory {
        return;
      }
      var item := inventory[slot];
      if update {
        ghost var before := Items();
        var newInventory := WithoutSlot(slot);
        inventory := newInventory;
        Holds(before[..slot] + before[slot + 1..]);
        UpdateInventory(None);
      }
      globalNotices := globalNotices + [("drop", location + ">" + Text.Join([holder, item, Decimal.IntToDecimal(target.0), Decimal.IntToDecimal(target.1)], ":"))];
    }

    /** `cycle_items`: `b` cycles back, anything else forward. */
    method CycleItems(direction: string)
      requires Valid()
      modifies this
      ensures Valid()
      ensures Items() == Rotated(old(Items()), if direction == "b" then -1 else 1)
      ensures sent == old(sent) + [Listing(inventory)]
      ensures locationNotices == old(locationNotices) && globalNotices == old(globalNotices)
    {
      var delta := if direction == "b" then -1 else 1;
      var count := |inventory|;
      ghost var before := Items();
      ghost var after := Rotated(before, delta);
      var newInventory: map<int, string> := map[];
      for i := 0 to count
        invariant inventory == old(inventory)
        invariant newInventory == FromSeq(after[..i])
      {
        newInventory := newInventory[i := inventory[(i + delta) % count]];
        assert newInventory == FromSeq(after[..i + 1]);
      }
      assert after[..count] == after;
      inventory := newInventory;
      Holds(after);
      UpdateInventory(None);
    }

    method EmptyInventory()
      modifies this
      ensures Valid() && inventory == map[]
      ensures sent == old(sent) + [Listing(map[])]
      ensures locationNotices == old(locationNotices) && globalNotices == old(globalNotices)
    {
      inventory := map[];
      UpdateInventory(None);
    }
  }
}
