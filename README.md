# Legend of Adventure: game-server core in Dafny

Legend of Adventure is a small browser game. Its server is written in Python 2, with a Go terrain
record. This project models the parts of the server that are exact, sequential logic:

- **Terrain** (`Terrain`): a column-major grid of tile numbers and a hit map, and the hand-built
  JSON fragment the Go `String` method writes.
- **Towns** (`Towns`): two grid passes of the town builder.
  - `smooth_roads` rewrites road tiles into curbed pieces from 4- and 8-neighbour signatures read
    from a frozen copy.
  - `fill_road` paints a rectangle of road.
- **Placement** (`Trader`, `Entities`, `Servlet`):
  - a trader stands on road cells only;
  - an animat stands on walkable cells in the 10 % to 90 % band of the level;
  - the servlet turns the result (`None`, `[]` or a list) into "destroy", "anywhere" or "one of these".
- **Event queue** (`Entities.ScheduleHelper`): kept sorted by firing time, with insertion ahead of
  equal times, removal of every entry of a callback, and firing of the due prefix.
- **Entity state** (`Entities.Animat`, `Sentient.SentientAnimat`, `Peaceful`):
  - velocity, old velocity and layer on `move`;
  - the memory of player distances;
  - the flee set and the chase target, and `_flee_or_chase`;
  - the attack cooldown and attack notices;
  - the peaceful animat's decision to flee.
- **Inventory** (`Inventory.InventoryManager`): five slots with first-free insertion, a compacting
  drop, rotation, and the `inv` text encoding.
- **Client connection** (`Comm.CommHandler`):
  - tag stripping of chat;
  - the gating of inbound commands;
  - validation of position updates;
  - registration, chat commands and the level-slide coordinate mapping.
- **Entity servlet** (`Servlet`):
  - routing of events arriving from the message bus;
  - player bookkeeping on enter and leave;
  - items dropped into the location;
  - the simulated player's dirty flag.
- **Profiler** (`Profiler.Profiler`): each interval of wall-clock time is charged to exactly one
  bucket, and the idle log is capped.

Clock readings are integer milliseconds, passed to each operation as parameters. Callbacks are
opaque identifiers. Everything a component sends is appended to a log: messages to the client,
notices to the location, global notices, the calls made on each entity, and the keys written to the
store. Python 2's integer `/` and `%` with a positive divisor agree with Dafny's, and the model
relies on that. Python's `int(s)` on text is `Decimal.ParseInt`, with `None` where Python raises
ValueError. `int(float(s))` is `Decimal.ParseTruncated`, which truncates the decimal text exactly;
Python first rounds it to a double, so the two agree only on the inputs listed under "Left out".
Inheritance is modelled by composition:

- a `SentientAnimat` holds its `Animat` as `body`;
- a `CommHandler` holds its `InventoryManager` as `inv`;
- `PeacefulAnimat` is the `peaceful` flag on `SentientAnimat`.

In two places the model follows the code where a reader might expect otherwise:

- `NewTerrain` with a negative size panics in Go, so the model requires non-negative sizes.
- The direction check in `_on_position_update` joins its two tests with `or`. A wild `x_dir` is
  therefore accepted whenever `y_dir` is in range, and the model keeps that.

## Model

| member | source | states |
|---|---|---|
| Decimal.ParseInt | internals/comm.py:166 | `int(s)`: an optional sign and one or more ASCII digits give their value; anything else is `None` (Python's ValueError) |
| Decimal.ParseTruncated | internals/comm.py:91 | `int(float(s))` on `[sign] digits [. digits]` with a digit somewhere: the value of the whole part, with the sign; anything else is `None`; the rounding to a double is not modelled |
| Terrain.NewGrids | server/terrain/terrain.go:26-31 | both grids have exactly `width` columns of `height` cells, all `0` / `false` |
| Terrain.Terrain.constructor | server/terrain/terrain.go:25-41 | `Height`, `Width`, `X`, `Y` are the arguments (the world name is not kept), and the grids are `width` zeroed columns of `height` cells |
| Terrain.Serialized | server/terrain/terrain.go:43-89 | the reference text: `"level": [` and the tile columns, `],"hitmap": [` and the hit-map columns, then `], "h": `, `"w"`, `"x"`, `"y"` with the four stored numbers in decimal; each column is `[` its comma-joined cells `]`, columns are written back to back |
| Terrain.Terrain.String | server/terrain/terrain.go:43-89 | the buffer-building loops produce exactly `Serialized(Tiles, Hitmap, Height, Width, X, Y)`, which iterates the slices themselves and prints the size fields only in the trailer; the terrain is not modified |
| Terrain.WriteTileColumns | server/terrain/terrain.go:46-59 | the column loop appends each column as `[` cells `]` with nothing between columns |
| Terrain.WriteTileCells | server/terrain/terrain.go:49-57 | the `first`-flag loop appends the cells' unsigned decimals separated by commas |
| Terrain.WriteHitColumns | server/terrain/terrain.go:62-79 | the hit-map column loop appends each column as `[` cells `]`, again without separators |
| Terrain.WriteHitCells | server/terrain/terrain.go:65-77 | the `first`-flag loop appends `1` / `0` per cell separated by commas |
| Terrain.TileCellsJoined | server/terrain/terrain.go:50-57 | a tile column's text is its cells' decimal texts joined by `,` |
| Terrain.HitCellsJoined | server/terrain/terrain.go:66-77 | a hit-map column's text is its `1`/`0` texts joined by `,` |
| Terrain.HitColumnLength | server/terrain/terrain.go:66-77 | a hit-map column of n > 0 cells renders to 2n - 1 characters, an empty one to nothing |
| Terrain.TwoTileColumns | server/terrain/terrain.go:46-59 | two tile columns render back to back as `[..][..]` |
| Terrain.TwoHitColumns | server/terrain/terrain.go:62-79 | two hit-map columns render back to back as `[..][..]` |
| Terrain.EmptyTerrainText | server/terrain/terrain.go:43-89 | an empty terrain renders as `"level": [],"hitmap": [], "h": 0, "w": 0, "x": 0, "y": 0` |
| Terrain.FreshTwoByTwoText | server/terrain/terrain.go:25-89 | a fresh 2x2 terrain at (5, 7) renders with two all-zero columns in each grid |
| Terrain.EditedTwoByTwoText | server/terrain/terrain.go:43-89 | after setting one tile to 3 and one hit cell, the text shows exactly those two cells changed |
| Towns.SmoothCell | internals/levelbuilder/towns.py:44-66 | the value one cell gets, read from the frozen copy only: a border or non-road cell keeps its value; a road cell whose 4-neighbour signature is missing from the major table stays 81, and one whose major tile is not 81 takes it; otherwise all-road diagonals keep 81 and any other diagonal signature takes its minor tile, with `None` for the minor lookup's KeyError |
| Towns.SmoothRoads | internals/levelbuilder/towns.py:33-68 | the pass succeeds iff no visited cell hits a missing minor key; on success the same grid is returned and every cell becomes `SmoothCell` of the frozen copy; on the KeyError it reports the cell and key, with earlier cells rewritten and later ones untouched |
| Towns.FillRoad | internals/levelbuilder/towns.py:118-121 | exactly the cells of the `w` x `h` rectangle at (x, y) become 81; every other cell keeps its value |
| Towns.NonRoadUnchanged | internals/levelbuilder/towns.py:45-46 | a cell that is not road material keeps its value |
| Towns.BorderUnchanged | internals/levelbuilder/towns.py:42-43 | the first and last row and column keep their values |
| Towns.MajorLookup | internals/levelbuilder/towns.py:48-58 | a 4-neighbour signature outside the major table leaves 81; a table value other than 81 is written as is |
| Towns.MinorLookup | internals/levelbuilder/towns.py:60-66 | with all four orthogonal neighbours road: no diagonal gap keeps 81, one gap gives that minor tile, two or more gaps fail the lookup |
| Towns.LookupFailsExactly | internals/levelbuilder/towns.py:53-66 | the KeyError happens exactly at interior road cells with a full orthogonal signature and at least two diagonal gaps |
| Towns.SmoothedValues | internals/levelbuilder/towns.py:16-30 | a changed cell was road and now holds a value of one of the two tables |
| Trader.StreetLocations | internals/entities/trader.py:22-27 | the reference list: every `(x, y)` whose cell is 81, rows in order and cells left to right within a row |
| Trader.PlaceableLocations | internals/entities/trader.py:16-27 | the nested scan returns `StreetLocations(grid)` |
| Trader.RowRoadsMembers | internals/entities/trader.py:24-26 | the inner scan yields exactly the road cells of the row prefix, left to right |
| Trader.GridRoadsMembers | internals/entities/trader.py:23-26 | the outer scan yields exactly the road cells of the rows scanned, in row-major order |
| Trader.StreetLocationsExactly | internals/entities/trader.py:13-27 | (x, y) is returned iff it is on the grid and `can_place_at` holds there (the cell is 81) |
| Trader.StreetLocationsOrdered | internals/entities/trader.py:23-26 | the result is strictly row-major (y outer, x inner), hence free of duplicates |
| Trader.NoRoadNoLocations | internals/entities/trader.py:22-27 | the result is `[]` iff no cell of the grid is road |
| Entities.Insert | internals/entities/entities.py:34-40 | the reference queue after `schedule`: the entry placed just before the first entry due at or after it, or at the end |
| Entities.FirstAtLeast | internals/entities/entities.py:35-38 | the index where `schedule` inserts: every earlier entry is due strictly before, the entry there (if any) is due at or after |
| Entities.ScheduleHelper.Schedule | internals/entities/entities.py:29-40 | the queue becomes the old queue with `(now + delay, cb)` inserted before the first entry due at or after it, or appended |
| Entities.InsertShape | internals/entities/entities.py:34-40 | insertion adds exactly one entry (same multiset plus it), ahead of every entry due at the same time or later, and keeps the others in order |
| Entities.InsertSorted | internals/entities/entities.py:34-40 | insertion keeps a time-sorted queue sorted |
| Entities.Without | internals/entities/entities.py:44-45 | the reference queue after `deschedule`: the entries whose callback differs, in their order |
| Entities.ScheduleHelper.Deschedule | internals/entities/entities.py:42-45 | the queue becomes the old queue filtered of every entry of that callback |
| Entities.WithoutFacts | internals/entities/entities.py:44-45 | the filter keeps exactly the entries of other callbacks, preserves sortedness, never grows, and is the identity when the callback is absent |
| Entities.WithoutAppend | internals/entities/entities.py:44-45 | filtering a concatenation filters each part and concatenates, so kept entries keep their order and multiplicity |
| Entities.WithoutOne | internals/entities/entities.py:44-45 | a single entry is kept iff its callback is not the one removed |
| Entities.WithoutIdempotent | internals/entities/entities.py:44-45 | descheduling twice is descheduling once |
| Entities.DueCount | internals/entities/entities.py:51-62 | the fired prefix: every entry in it is due, the next one (if any) is not |
| Entities.ScheduleHelper.FireEvents | internals/entities/entities.py:47-65 | fires, in queue order, the callbacks of the longest due prefix (a missing or zero `now` means the clock) and keeps the rest of the queue |
| Entities.DueExactly | internals/entities/entities.py:51-62 | on a sorted queue an entry fires iff it is due |
| Entities.Route | internals/entities/entities.py:131-152 | `loc` succeeds iff its payload has five `:`-fields with integer second and third, and is then the movement of that guid to those coordinates, else ValueError; `cha` without `:` is ValueError, with an `@` guid an AssertionError, with no newline after the guid an IndexError, and otherwise the text after the first newline from that guid; every other type is passed on unchanged with its payload |
| Entities.RouteLocation | internals/entities/entities.py:136-138 | a well-formed `loc` message routes to the player movement of its guid and coordinates |
| Entities.RouteChat | internals/entities/entities.py:139-150 | a player's chat routes with the text after the first newline and the distance if remembered |
| Entities.RouteEntityChat | internals/entities/entities.py:140-143 | chat from an entity guid fails the assertion |
| Entities.Moved | internals/entities/entities.py:459-465 | an unchanged velocity changes nothing; otherwise the old velocity is saved and the layer is 1 iff a component is non-zero |
| Entities.MovedTwice | internals/entities/entities.py:459-465 | moving twice with the same velocity is moving once; stopping a moving animat sets layer 0 and saves its velocity |
| Entities.Animat.constructor | internals/entities/entities.py:264-280 | a new animat stands still in layer 0, remembers nobody and has an empty queue |
| Entities.Animat.Move | internals/entities/entities.py:456-475 | the motion state becomes `Moved` of the old one, and a change broadcasts the movement properties |
| Entities.Animat.PlayerMovement | internals/entities/entities.py:169-180 | the guid's distance is recorded, and the range callback fires iff the distance is new or different |
| Entities.Animat.Forget | internals/entities/entities.py:96-97 | only that guid leaves the memory |
| Entities.Animat.Schedule | internals/entities/entities.py:295-299 | a missing callback defaults to the animat's own event handler |
| Entities.Animat.DescheduleAll | internals/entities/entities.py:301-303 | the queue is emptied |
| Entities.Animat.Wander | internals/entities/entities.py:477-488 | the wander step is scheduled a quarter second ahead |
| Entities.WalkableLocations | internals/entities/entities.py:498-516 | the reference result: `Some([])` when no cell is blocked, otherwise the walkable cells of the 10 % to 90 % band in row-major order, and `None` when there are none |
| Entities.PlaceableLocations | internals/entities/entities.py:498-516 | the scan returns `WalkableLocations(hitmap)` |
| Entities.BandCellsMembers | internals/entities/entities.py:513-515 | the inner scan yields exactly the walkable cells of the row's band, left to right |
| Entities.BandRowsMembers | internals/entities/entities.py:510-515 | the outer scan yields exactly the walkable in-band cells of the band rows, row-major |
| Entities.WalkableLocationsCases | internals/entities/entities.py:505-516 | `[]` when nothing is blocked; otherwise the in-band walkable cells in row-major order, and `None` iff there are none |
| Sentient.ConvertedDirectionsAreDirections | internals/entities/sentient.py:17-18 | the values of `CONVERTED_DIRECTIONS` are exactly the eight `DIRECTIONS` |
| Sentient.AlternateAngles | internals/entities/sentient.py:212-216 | the eight yields of `alternate_angles`: `angle + 45k` then `angle - 45k` for k = 1 to 4, each modulo 360 |
| Sentient.AlternateAnglesCover | internals/entities/sentient.py:212-216 | for a multiple of 45 in [0, 360) the eight alternates are keys of `CONVERTED_DIRECTIONS`, differ from the angle, and with it cover all eight keys |
| Sentient.FleeOrChase | internals/entities/sentient.py:269-281 | nothing to do iff neither fleeing nor chasing; flee iff fleeing and (not chasing or flee preferred); chase iff chasing and (not fleeing or chase preferred) |
| Sentient.AttackVerdict | internals/entities/sentient.py:295-310 | an `atk` counts iff it has three fields, its target is this entity and its attacker is not; a `hit` with four fields from this entity never counts, and from another counts iff both coordinates are numbers and the hit is in range; a wrong field count, or a non-numeric coordinate on another entity's hit, is ValueError |
| Sentient.SentientAnimat.BehaviorChanged | internals/entities/sentient.py:72-83 | a standing animat takes the best direction or, lacking one, stays and wanders; otherwise it re-evaluates 0.675 s later |
| Sentient.SentientAnimat.Wander | internals/entities/sentient.py:95-99 | nothing is scheduled while fleeing or chasing |
| Sentient.SentientAnimat.Flee | internals/entities/sentient.py:49-55 | the guid joins the flee set; if it was there, nothing else changes, otherwise behaviour is re-evaluated |
| Sentient.SentientAnimat.StopFleeing | internals/entities/sentient.py:57-62 | the guid leaves the flee set; nothing else changes |
| Sentient.SentientAnimat.Chase | internals/entities/sentient.py:64-70 | the guid becomes the target; re-chasing the same target changes nothing else |
| Sentient.SentientAnimat.Forget | internals/entities/sentient.py:41-47 | the guid leaves the memory and the flee set, and the target is cleared iff it was that guid |
| Sentient.SentientAnimat.Attack | internals/entities/sentient.py:85-93 | within 1.5 s of the last attack nothing happens; otherwise the time is recorded and an `atk` notice `id:item:target` is sent |
| Sentient.SentientAnimat.SawAttack | internals/entities/peaceful.py:11-20 | a peaceful animat flees from a remembered attacker strictly nearer than 15 tiles; a repeated sighting does not grow the set; otherwise nothing changes |
| Sentient.SentientAnimat.HandleMessage | internals/entities/sentient.py:283-312 | after the base routing, an `atk`/`hit` notice is witnessed (a peaceful animat may take flight from the attacker) and judged by `AttackVerdict`: when it counts, the attacker and item are recorded; a malformed notice (wrong field count, non-numeric hit coordinates) raises ValueError; other messages leave the animat's flee state alone |
| Peaceful.ShouldFlee | internals/entities/peaceful.py:18-20 | the test of `_saw_attack`: the attacker is remembered at a distance below 15 |
| Peaceful.ShouldFleeCases | internals/entities/peaceful.py:18-20 | an unremembered attacker never startles; the remembered distance alone decides, strictly below 15, whatever else is remembered |
| Inventory.Line | internals/inventory.py:103-107 | `get_line`: the slot number, `:`, and the item when the slot holds one |
| Inventory.Listing | internals/inventory.py:111-112 | `inv` followed by the lines of slots 0 to 4 joined by newlines |
| Inventory.UpdateMessage | internals/inventory.py:102-112 | `update_inventory(slot)`: `inv` and one line for a truthy slot, the full listing for `None` or slot 0 |
| Inventory.Rotated | internals/inventory.py:85-91 | cycling keeps the number of slots |
| Inventory.RotatedInverse | internals/inventory.py:83-92 | a forward cycle followed by a backward one (or the reverse) restores the slots |
| Inventory.ListingParses | internals/inventory.py:102-112 | the listing is `inv` and five lines, line k reading back as slot k and its item (empty for a free slot) |
| Inventory.UpdateMessageLines | internals/inventory.py:108-112 | slot 0 sends the same five-line listing as no slot, while any other slot sends one line |
| Inventory.FromSeq | internals/inventory.py:65-70 | a compact inventory holds its items at slots 0 .. n-1 in order |
| Inventory.FromSeqSize | internals/inventory.py:65-70 | a compact inventory of n items has n slots |
| Inventory.InventoryManager.Items | internals/inventory.py:98-100 | a valid inventory is exactly a compact sequence of at most five items |
| Inventory.InventoryManager.constructor | internals/inventory.py:6-9 | a new manager holds nothing and has sent nothing |
| Inventory.InventoryManager.UpdateInventory | internals/inventory.py:102-112 | exactly the `UpdateMessage` text is sent and the inventory is unchanged |
| Inventory.InventoryManager.Registered | internals/inventory.py:11-14 | slot 0 becomes `wsw.sharp.12`, slot 1 `f5`, and the full listing is sent |
| Inventory.InventoryManager.GiveItem | internals/inventory.py:16-27 | when full, returns false and changes nothing; otherwise stores the item in the lowest free slot, changes no other, sends that slot's line and returns true |
| Inventory.InventoryManager.UseItem | internals/inventory.py:29-44 | an absent slot does nothing; a present one replies `chaitem daemon\nUsed <item>` and, for an item starting with `w`, sends a `hit` notice with holder and position |
| Inventory.InventoryManager.WithoutSlot | internals/inventory.py:65-69 | the rebuilt dictionary holds the old items minus the slot, reindexed from 0 in the same order |
| Inventory.InventoryManager.DropItem | internals/inventory.py:46-81 | an absent slot changes nothing; with `update` the slot is removed and the rest compacted and the listing sent; a present slot always sends a global `drop` notice |
| Inventory.InventoryManager.CycleItems | internals/inventory.py:83-92 | the items become their rotation by -1 for `b` and +1 otherwise, and the listing is sent |
| Inventory.InventoryManager.EmptyInventory | internals/inventory.py:94-96 | every slot is cleared and the empty listing sent |
| Comm.RemoveTags | internals/comm.py:29 | the reference of `re.sub(r'<[^<]*?>', '', s)`: scanning left to right, a `<` that reaches a `>` before another `<` starts a match up to that first `>`, which is deleted; every other character is kept |
| Comm.StripTags | internals/comm.py:28-30 | `strip_tags`: tags removed, then each remaining `<` written as `&lt;` and each `>` as `&gt;` |
| Comm.AngleIndex | internals/comm.py:29 | the position of the first `<` or `>`, with none before it |
| Comm.RemoveTagsPlain | internals/comm.py:29 | text without `<` has nothing to remove |
| Comm.RemoveTagsTag | internals/comm.py:29 | a leading `<t>` with no bracket inside is removed whole |
| Comm.RemoveTagsUnclosed | internals/comm.py:29 | a `<` that meets another `<` or the end before any `>` is kept |
| Comm.AngleIndexAt | internals/comm.py:29 | the non-greedy match ends at the first `>` after bracket-free text |
| Comm.ReplaceFacts | internals/comm.py:30 | replacing a character by text without it removes it, adds no other character and changes nothing when absent |
| Comm.StripTagsNoAngles | internals/comm.py:28-30 | the output of `strip_tags` contains no `<` and no `>` |
| Comm.StripTagsPlain | internals/comm.py:28-30 | text without brackets is unchanged |
| Comm.StripTagsIdempotent | internals/comm.py:28-30 | stripping twice is stripping once |
| Comm.Admit | internals/comm.py:61-86 | `errNot Registered` iff a guid-requiring type arrives unregistered; `errNo registered scene` iff it passed that and a scene-requiring type has no location; `errUnknown Command` iff it passed both and its type has no handler; a dispatch goes to the handler of its type with `message[3:]` |
| Comm.UngatedTypesDispatch | internals/comm.py:61-86 | `reg`, `lev`, `loc` and `use` reach their handlers whether or not a guid is registered or a scene loaded |
| Comm.AdmitRegistered | internals/comm.py:62-86 | once registered with a scene, a message dispatches iff its type is one of the five handlers, and is answered `errUnknown Command` otherwise |
| Comm.FilteredWithoutHandler | internals/comm.py:16-17 | `pos`, `dir` and `ups` never reach a handler: they are filtered or unknown |
| Comm.ChatNeedsGuidFirst | internals/comm.py:74-76 | chat before registration is answered `errNot Registered` whether or not a scene is loaded |
| Comm.ParsePosition | internals/comm.py:89-94 | parses iff the payload has exactly four `:` fields that each read as a number |
| Comm.ParsePositionOfDecimals | internals/comm.py:91 | integer coordinates and directions written in decimal parse back unchanged (in the source only up to magnitude 2^53, see Left out) |
| Comm.OneDirectionSuffices | internals/comm.py:96-98 | because of `or`, one in-range direction component lets any other through; only two out-of-range components are `errBad Direction` |
| Comm.SlideCoordinate | internals/comm.py:171-187 | -1 maps to 37; otherwise the tile `av // 50` maps below 2 to 74, above 73 to 0 and is kept in between; the result is always a tile of the level |
| Comm.SlideInterior | internals/comm.py:174-178 | a pixel coordinate well inside the level maps to its own tile |
| Comm.ParseLevelId | internals/comm.py:164-169 | parses iff the level id has exactly four `:` fields that each read as an integer |
| Comm.ParseLevelIdOfDecimals | internals/comm.py:164-169 | four integers written in decimal and joined by `:` parse back to themselves |
| Comm.RegistrationSlide | internals/comm.py:161 | the registration slide `0:0:-1:-1` parses and lands in the middle tile 37 |
| Comm.SlideRequest | internals/comm.py:163-192 | the reference request of `_level_slide`: `None` for a bad level id; otherwise the mapped arrival tiles, as a slide to (x, y) when a scene is loaded and as a load of `o:0:0` when not |
| Comm.UseOutcomeAsWritten | internals/inventory.py:29-44 | as written, using an item through a connection fails with AttributeError exactly when the slot parses, is present and holds a weapon |
| Comm.StartingWeaponUnusable | internals/inventory.py:39 | the weapon every player is registered with cannot be used as written |
| Comm.CommHandler.constructor | internals/comm.py:34-50 | a new connection has no guid, no location, zero position and velocity, no chat name and an empty inventory |
| Comm.CommHandler.Send | internals/comm.py:75 | `write_message` appends one message and changes nothing else |
| Comm.CommHandler.OnMessage | internals/comm.py:61-86 | the gate is `Admit` of the guid and location; a filtered or unknown message sends its error reply and changes nothing else; a dispatched `reg`, `cha`, `loc` or `use` has exactly the effect its handler promises (`Register`, `OnChat`, `OnPositionUpdate`, `UseItem`), and `lev` requests the level named by the payload and changes nothing else |
| Comm.CommHandler.OnPositionUpdate | internals/comm.py:88-120 | unparsable input, two wild directions and positions outside 0..3750 send their errors and move nothing; otherwise position and velocity are set, the scheduler is notified, `l:p:<guid>` is stored and the update time is refreshed unless within 5 ms |
| Comm.CommHandler.Move | internals/comm.py:96-120 | with the numbers parsed: two wild directions send `errBad Direction`, a position outside 0..3750 sends `errBad Position`, and neither moves anything; otherwise position and velocity are set, the scheduler is notified, `l:p:<guid>` is stored with `<guid>:<x>:<y>`, and the update time is refreshed unless within 5 ms |
| Comm.CommHandler.ChatLine | internals/comm.py:132-139 | the broadcast for a plain chat: `cha`, the guid, `:` and a newline, then the tag-stripped text, prefixed by `<span>` name `</span>` when a chat name is set |
| Comm.CommHandler.OnChat | internals/comm.py:126-139 | text starting with `/` is a command; other text is tag-stripped, prefixed by the chat name if any and sent to the location as `cha<guid>:\n...` |
| Comm.CommHandler.HandleCommand | internals/comm.py:141-151 | without a location nothing happens; `identify <name>` sets the chat name to the stripped last word only if it is non-empty, and acknowledges; the chat name stays bracket-free |
| Comm.CommHandler.Register | internals/comm.py:153-161 | `local` is answered `errBad GUID` and leaves the guid unset; otherwise the guid is set, the starting items are given and the registration slide is requested |
| Comm.CommHandler.SlideToStart | internals/comm.py:161 | the registration slide requests level (0, 0) arriving at tile (37, 37), as a slide when a scene is loaded and as a load of `o:0:0` otherwise, and sends nothing |
| Comm.CommHandler.LevelSlide | internals/comm.py:163-192 | an unparsable level id is answered `errInvalid level id`; otherwise the slide (with a scene) or the origin level (without) is requested at the mapped arrival tile |
| Comm.CommHandler.UseItem | internals/inventory.py:29-44 | corrected: a non-numeric slot raises ValueError; an absent slot does nothing; a present one replies `Used <item>` and a weapon sends a `hit` notice naming the player's guid and position |
| Servlet.SimulatedPlayer.constructor | internals/entity_servlet.py:72-76 | a new player is at the origin, still, and not updated |
| Servlet.SimulatedPlayer.PostVelocity | internals/entity_servlet.py:78-83 | on numeric input position and velocity are set and `updated` is raised; a bad position changes nothing, a bad velocity keeps the new position |
| Servlet.SimulatedPlayer.OnTick | internals/entity_servlet.py:85-103 | the position advances by velocity times step; the result is none iff the player is still and not updated, and otherwise gives the position and clears `updated` |
| Servlet.PostedThenTicked | internals/entity_servlet.py:83-103 | a standing player that posted reports once on the next tick and not on the one after |
| Servlet.Classify | internals/entity_servlet.py:199-234 | ValueError iff the message has no `>` or is a routed `loc` without five fields; otherwise enter, drop, ignore, leave, move or forward |
| Servlet.EnterAndDropNotForwarded | internals/entity_servlet.py:207-214 | an enter or drop event for this location is only that, never forwarded |
| Servlet.IgnoredMessages | internals/entity_servlet.py:219-222 | `spa`/`epu`, and `del`/`cha` about an `@` entity, are dropped |
| Servlet.LeaveAndForward | internals/entity_servlet.py:223-234 | `del` leaves and forwards; any type other than the ignored, inspected and `loc` is simply forwarded |
| Servlet.Addressed | internals/entity_servlet.py:233-234 | the loop calls each entity once, in order, with the same argument |
| Servlet.SpawnNotice | internals/entity_servlet.py:326-328 | `spawn_entity`'s notice: `spa`, the entity id, a newline and its description |
| Servlet.SpawnNotices | internals/entity_servlet.py:251-252 | one spawn notice per entity, in order |
| Servlet.EntityServlet.constructor | internals/entity_servlet.py:111-120 | a new servlet has no entities, no players and no timer |
| Servlet.EntityServlet.ForwardToEntities | internals/entity_servlet.py:233-234 | every entity receives the message once, in order; nothing else changes |
| Servlet.EntityServlet.OnLeave | internals/entity_servlet.py:261-285 | every entity forgets the user, in order, even when the user then turns out unknown and KeyError is raised with nothing else changed; otherwise the player is removed and the cleanup timer armed iff no players remain; nothing is delivered |
| Servlet.EntityServlet.OnEnter | internals/entity_servlet.py:236-256 | a pending cleanup is cancelled and suppresses the initial spawn; an initial spawn with entities counts once, otherwise every entity is announced; the guid before the first `:` gets a fresh player |
| Servlet.EntityServlet.HandleEvent | internals/entity_servlet.py:199-234 | per `Classify`: a malformed message is ValueError and an ignored one changes nothing; enter has exactly `OnEnter`'s effect with `initial` false; drop has exactly `SpawnDrop`'s; leave and `loc` have exactly `ApplyLeave`'s and `ApplyMove`'s; the rest is delivered to every entity with nothing else changed; outside `loc` no player object changes |
| Servlet.EntityServlet.ApplyLeave | internals/entity_servlet.py:223-226 | the `del` branch: every entity forgets the user; an unknown user is KeyError with nothing forwarded and nothing else changed; otherwise the leave's state and the message delivered to every entity |
| Servlet.EntityServlet.ApplyMove | internals/entity_servlet.py:227-234 | the `loc` branch: an unknown guid is KeyError with nothing changed; otherwise that player takes the update as `PostVelocity` says and no other player changes; the message is delivered to every entity iff the update succeeded, and the servlet is otherwise unchanged; success iff the guid is known and all four fields are integers |
| Servlet.EntityServlet.SpawnDrop | internals/entity_servlet.py:330-335 | ValueError, with nothing changed, iff the command is not four `:`-fields with integer third and fourth; otherwise the item entity built from the item and coordinates joins the entities and its `spa` notice is broadcast |
| Servlet.DropCommandAccepted | internals/entity_servlet.py:330-332 | the `holder:item:x:y` command of an inventory's `drop` notice splits into four fields whose coordinates read back as written |
| Servlet.Decide | internals/entity_servlet.py:308-318 | `None` destroys the entity, `[]` means anywhere in the 10 % to 90 % band, a list means one of its cells |
| Servlet.AnywhereHasCell | internals/entity_servlet.py:314-316 | the "anywhere" band is never empty, so the draw is always possible |
| Servlet.TraderPlacement | internals/entity_servlet.py:305-318 | a trader is placed anywhere iff the level has no road, and otherwise exactly on a road cell |
| Servlet.AnimatPlacement | internals/entity_servlet.py:305-318 | an animat is destroyed iff something is blocked and no in-band cell is walkable, and otherwise placed on an in-band walkable cell or anywhere |
| Profiler.Charge | internals/profiler.py:65-70 | charging a delta to one bucket (created at 0) raises the total by exactly that delta |
| Profiler.Capped | internals/profiler.py:44-46 | the log grows by the new entry, last, and keeps only the most recent 30 |
| Profiler.CappedSlides | internals/profiler.py:44-46 | a full log drops its oldest entry for the new one |
| Profiler.Profiler.constructor | internals/profiler.py:12-23 | a new profiler starts `startup` with no buckets, no idle time, and is balanced |
| Profiler.Profiler.Clear | internals/profiler.py:25-27 | buckets are emptied, idle counters kept; the balance survives iff the buckets summed to 0 |
| Profiler.Profiler.ResetTime | internals/profiler.py:29-33 | returns the time since the last reading, which becomes now |
| Profiler.Profiler.Log | internals/profiler.py:56-75 | the running name changes nothing; otherwise the elapsed time goes to idle time after `idling` or to that action's bucket, and the new action (or `profiling`) starts; the balance is preserved |
| Profiler.Profiler.PrintIdleReport | internals/profiler.py:43-54 | the idle time is appended to the capped log, moved into the idle total and reset, and the print time recorded; the balance is preserved |
| Profiler.Profiler.Idle | internals/profiler.py:35-41 | logs `idling`: after another action its elapsed time is charged to that action's bucket; then, iff more than 10 s passed since the last report, the idle time is moved to the capped log and the total and reset, and otherwise idle time and log are kept; the balance is preserved |

## Left out

- Redis publish/subscribe, the Tornado websocket, `ThreadedRedisReader`, `multiprocessing`, the
  `EntityServlet.run` loop and its tick timing: these are I/O and concurrency. The store write is the
  `stored` log. The `threading.Timer` cleanup is the `ttl`/`cleanupPending` flags.
- Floating-point geometry:
  - `hypot` distances: `PlayerMovement` takes the distance, and `HandleMessage` takes whether a hit
    is in range;
  - `_updated_position`, `_test_position`, `do_work` and `get_angle`;
  - `_get_best_direction`: its result is the `best` parameter;
  - `touching_portal` and `_on_schedule_event`.
- Randomness:
  - the wander and re-evaluation timings: the fixed 0.25 s first wander step is kept, the random
    later ones are not;
  - `random.choice`/`randint` in spawning: `Servlet.Decide` gives the set of allowed cells;
  - `build_town` as a whole, which also needs an unseen tile module.
- `Servlet.SimulatedPlayer.OnTick`: `period * speed` is a float; the model takes the integer `step`
  a tick advances a unit of velocity, and returns the position instead of the distance closure.
- `Decimal.ParseTruncated` and `Decimal.ParseInt`: Python's `float()`/`int()` also accept
  surrounding whitespace, exponents, `inf`/`nan` and underscores in newer versions; the model
  accepts only `[sign] digits [. digits]` and `[sign] digits`. In `_on_position_update`,
  `int(float("nan"))` raises ValueError and gets `errInvalid Position` as in the model, but
  `int(float("inf"))` raises OverflowError, which the `except ValueError` at comm.py:92 does not
  catch: the source ends the handler with an uncaught exception where the model sends
  `errInvalid Position`. In `Sentient.AttackVerdict`, `inf` and `nan` coordinates pass `float()` in
  the source but are not numbers to the model.
  - `float()` rounds the decimal text to the nearest double before `int()` truncates, and
    `Decimal.ParseTruncated` does not model that rounding. Inputs with more than about 15
    significant digits, or with a magnitude above 2^53, therefore read differently: the source reads
    `3750.99999999999999999` as 3751 and `9007199254740993` as 9007199254740992, where the model
    reads 3750 and 9007199254740993. `Decimal.ParseInt` is exact, as Python's `int()` is.
  - Client text arrives through the websocket as `unicode`. There `split()`, `strip()`, `int()` and
    `float()` also treat Unicode whitespace and Unicode decimal digits as such, while `Text.IsSpace`
    and the digit tests of `Decimal` know only ASCII. For example, `identify a\u00a0b` names the
    player `b` in the source and `a\u00a0b` in the model. This depends on the unseen Tornado
    library and was not checked against it.
- `ParsePositionOfDecimals`: the round trip holds of the model for every integer, but of the source
  (comm.py:91, `int(float(...))`) only for integers of magnitude at most 2^53, because of the double
  rounding described above.
- `Comm.CommHandler.OnMessage`: `lev` is recorded as a level request. `_load_level` needs the unseen
  `Location` class (`generate`, `render`, `get_slide_code`, the `:`/`..` sub-location paths), so the
  connection's `location` and position are not updated by loads, and the `lev` reply is not modelled.
- `Comm.CommHandler.OnPositionUpdate`: the `Scheduler` is a counter of `event_happened` calls. Its
  parse is `Comm.ParsePosition`, built on `Decimal.ParseTruncated`, so for inputs that double rounding
  changes the model takes other numbers than the source. For example, the model accepts
  `3750.99999999999999999:0:0:0` at x = 3750, where the source reads 3751 and sends
  `errBad Position`. The same holds for the `loc` clause of `Comm.CommHandler.OnMessage`.
- `_on_schedule_event`, `add_client`, `del_client`, `open` and `on_close`: connection bookkeeping
  over shared module-level lists and the unseen `Location`.
- `Inventory.InventoryManager.DropItem`: the throw offset uses `self.direction` and float arithmetic;
  the landing point is the `target` parameter. As with `use_item` (see Findings), the notice reads
  `self.id` (inventory.py:80), and without a `direction` argument `self.direction`
  (inventory.py:75); a `CommHandler` has neither attribute, so as written a drop from a connection
  raises AttributeError. The model names the holder by the `holder` parameter, the evidently
  intended guid. `None` items and non-contiguous slot numbers (which
  would make `drop_item`/`cycle_items` raise) are outside the model: a valid inventory is compact.
- `Servlet.EntityServlet.SpawnDrop`: `ItemEntity` belongs to the unseen `items` module; the entity
  it builds from the item code and coordinates is the `item` parameter's value (its id and
  description). Entity objects are not modelled: the servlet records the `handle_message` and
  `forget` calls it makes on each.
- `Servlet.EntityServlet.OnEnter`: `spawn_initial_entities`' loop over the location's entity types
  is counted as one spawn; each entity's placement decision is `Servlet.Decide`.
- `Sentient.SentientAnimat.HandleMessage`: `harmed_by` belongs to the unseen `Harmable`; the model
  records the `_attacked` calls.
- `Entities.ScheduleHelper.FireEvents`: the fired callbacks are returned in order rather than run,
  so a callback that schedules or deschedules while the queue fires is not modelled.
- `Profiler.print_report` and the printing in `print_idle_report`: float rounding, padding and
  stdout. Idle time is kept in milliseconds, so the logged `int(idle_time * 1000)` is the idle time
  itself. `idle` reads the clock twice; both readings are parameters.
- `Towns.SmoothRoads` and `Towns.FillRoad`: the grid is rectangular (`array2`); ragged rows are not
  represented. `FillRoad` requires the rectangle to lie inside the grid. Outside it the source does
  something else: a negative index wraps around to the far side of the row or column, and an index
  past the last row or column raises IndexError (towns.py:118-121), possibly after earlier cells of
  the rectangle were already painted.
- `Portal` in terrain.go has no behaviour and its `float` fields are not a valid Go type; it is a
  plain record.
- `Entity.__str__` and `broadcast_changes` use `json.dumps`; a broadcast is a property-update entry
  in the outbox.

## Findings

| source | as written | input that shows it | evidently intended | confidence | as-written member | corrected member |
|---|---|---|---|---|---|---|
| internals/inventory.py:39 | the `hit` notice of `use_item` is formatted with `self.id`, but on a player's connection (`CommHandler`) no `id` attribute exists, so using a weapon raises AttributeError and sends nothing | `regalice` followed by `use0`: slot 0 holds `wsw.sharp.12`, which starts with `w` | the notice names the player's guid | not executed; high, since `CommHandler` never sets `id` | Comm.UseOutcomeAsWritten | Comm.CommHandler.UseItem |
