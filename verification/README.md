# Patchboard Atlas core, modelled in Dafny

Patchboard Atlas is a desktop tool that lays out components on a canvas.
Each component is described by a component ID card: a JSON dict with an
inbox, an outbox, a title and input/output channel lists. This project models
the stateful core of the tool and proves what it does:

- **The coordinate machine** (`coord_machine.dfy`). It is a register machine
  with:
  - a point and a rectangle that share one space tag (`"w"` world or `"c"`
    canvas);
  - a camera with an integer zoom ratio, and a viewport;
  - three single-slot sources: the attachment box, the label point and the
    event point;
  - a stack of point and rectangle snapshots.

  The class `Machine` holds the machine's globals as fields. Each operation
  is a method whose contract gives the complete new state and every error
  case. World-to-canvas projection and back are functions built on
  `FloorDiv`, which is Python's `//`. The lemmas bound the projection round
  trip, show that projection at zoom 1/1 is a translation, and show that a
  push, then any operations other than reset, push and pop, then a pop
  restores the saved registers exactly.
- **The entity tables** (`ecs_world.dfy`): an id counter, the set of live
  entities, card references and placements. Allocation, removal and reset are
  methods. Removal is specified by the function `Removed`.
- **The card registry** (`component_registry.dfy`):
  - `ValidateCard` is the validator's chain of early returns. Two lemmas tie it
    to the fourteen checks taken one at a time: it passes exactly when every
    check passes, and otherwise it reports the reason of the first check that
    fails.
  - The keyed ingest of a card evicts the entity of an earlier card that has
    the same canonical inbox.
  - The lookup of an entity by inbox is a loop with invariants.
  - The persistence file name is a pure function with a characterising
    contract.
- **The render intent** (`rendering.dfy`). `Intent` is the keyed map of shape
  descriptors that the rules declare for the entity tables. The rebuild loop is
  proved to produce exactly that map. Tags are proved injective.
- **The operand stack** (`mem.dfy`) and **the log buffer** (`log.dfy`) are
  small in-place list structures. Every operation has a contract, including
  the error on an empty list and the error on an unknown level flag.

Shared pieces: `values.dfy` holds JSON-like values, `text.dfy` holds decimal
rendering of ints, joining and character replacement, `collections.dfy` holds
facts about finite id sets, and `wrappers.dfy` holds the result types.

The host's path functions are parameters of the operations that use them:
`canon` stands for `canonical_inbox_key` and `isAbs` for `os.path.isabs`. The
log timestamp is a parameter too. Exceptions are values:
- `Outcome.Fail` or `Result.Err`, each with an error datatype that names the
  Python exception it stands for;
- `IngestResult.Raised` for `ingest_card`.

When an operation raises, the model states which globals it has changed by
then. For example, `pop_pt` removes a rectangle snapshot before unpacking it
fails, so the stack shrinks and the registers are unchanged.

A zero zoom term is modelled as the `ZeroDivision` error of `project_to`, which
Python raises before any register changes. It is not a precondition.

## Model

| member | source | states |
|---|---|---|
| CoordMachine.FloorDiv | src/patchboard_atlas/coord_machine.py:266-267 | `a // d` is the integer q with q <= a/d < q+1, for either sign of d |
| CoordMachine.WToC | src/patchboard_atlas/coord_machine.py:269-273 | the canvas coordinates lie a whole number of units from the viewport centre |
| CoordMachine.CToW | src/patchboard_atlas/coord_machine.py:275-279 | the world coordinates lie a whole number of units from the camera |
| CoordMachine.ProjectionOf | src/patchboard_atlas/coord_machine.py:261-267 | the projection carries the camera's position and zoom ratio, and its viewport centre is the floor of half the viewport size |
| CoordMachine.RoundTrip | src/patchboard_atlas/coord_machine.py:269-279 | for 0 < zoom-den <= zoom-num and whole offsets from the camera, world -> canvas -> world returns each coordinate v to within [v-1, v] |
| CoordMachine.RoundTripFailsBelowUnitZoom | src/patchboard_atlas/coord_machine.py:269-279 | at zoom 1/3 the round trip takes x = 2 to 0, so the one-unit bound needs zoom >= 1 |
| CoordMachine.RoundTripFailsForFractionalOffset | src/patchboard_atlas/coord_machine.py:269-279 | at zoom 7/6, x = -31/3 comes back as -12, more than one unit below, so the bound needs whole offsets |
| CoordMachine.UnitZoomIsTranslation | src/patchboard_atlas/coord_machine.py:266-279 | at zoom 1/1 projection shifts by viewport centre minus camera, and the inverse shifts back exactly |
| CoordMachine.CoordToCanvas | src/patchboard_atlas/coord_machine.py:281-284 | w->c retags the registers "c" and puts every coordinate a whole number of units from the viewport centre; CoordRoundTrip bounds its composition with CoordToWorld |
| CoordMachine.CoordToWorld | src/patchboard_atlas/coord_machine.py:285-288 | c->w retags the registers "w" and puts every coordinate a whole number of units from the camera |
| CoordMachine.CoordRoundTrip | src/patchboard_atlas/coord_machine.py:281-288 | projecting point and both corners to canvas and back keeps each within one unit below its start, tagged world |
| CoordMachine.Machine.constructor | src/patchboard_atlas/coord_machine.py:11-46 | the globals start at their defaults: zeros, tag "w", zoom 1/1, empty stack |
| CoordMachine.Machine.Reset | src/patchboard_atlas/coord_machine.py:53-78 | every global returns to its default, whatever it held |
| CoordMachine.Machine.SetZoom | src/patchboard_atlas/coord_machine.py:81-86 | only the zoom ratio changes, and it takes the given values unreduced |
| CoordMachine.Machine.SetViewport | src/patchboard_atlas/coord_machine.py:89-94 | only the viewport changes |
| CoordMachine.Machine.SetXY | src/patchboard_atlas/coord_machine.py:97-102 | only the point changes; the tag is kept |
| CoordMachine.Machine.LoadRect | src/patchboard_atlas/coord_machine.py:109-128 | "attachment" copies the bbox into the rectangle and sets tag "w"; any other source fails with nothing changed |
| CoordMachine.Machine.StoreRect | src/patchboard_atlas/coord_machine.py:131-152 | "attachment" in world space makes the bbox the rectangle; in canvas space it fails with nothing changed; an unknown destination fails |
| CoordMachine.Machine.LoadPt | src/patchboard_atlas/coord_machine.py:155-198 | succeeds exactly for the eight sources; for each source, the point it loads (corner, floored centre, centre-south, event with "c", label with "w"); geometric sources change only the point; an unknown source fails with nothing changed |
| CoordMachine.Machine.StorePt | src/patchboard_atlas/coord_machine.py:201-242 | succeeds exactly for the six destinations; a corner overwrites only that corner; "center" keeps the size and puts the exact midpoint on the point; "cam" moves only the camera position |
| CoordMachine.Machine.ProjectTo | src/patchboard_atlas/coord_machine.py:249-292 | same space: no-op; w->c and c->w: transform point and both corners and retag; a zero divisor fails before any change; any other transition fails |
| CoordMachine.Machine.SlidePt | src/patchboard_atlas/coord_machine.py:299-304 | adds (dx, dy) to the point only |
| CoordMachine.Machine.SlideRect | src/patchboard_atlas/coord_machine.py:307-314 | adds (dx, dy) to both corners only |
| CoordMachine.Machine.ExplodePt | src/patchboard_atlas/coord_machine.py:317-326 | the rectangle becomes the square of side 2*size centred on the point; point and tag are kept |
| CoordMachine.Machine.PushPt | src/patchboard_atlas/coord_machine.py:333-334 | appends (x, y, tag) and changes nothing else |
| CoordMachine.Machine.PopPt | src/patchboard_atlas/coord_machine.py:337-344 | empty stack fails with nothing changed; a point snapshot restores x, y and tag; a rectangle snapshot is removed and fails |
| CoordMachine.Machine.PushRect | src/patchboard_atlas/coord_machine.py:347-354 | appends (x0, y0, x1, y1, tag) and changes nothing else |
| CoordMachine.Machine.PopRect | src/patchboard_atlas/coord_machine.py:357-366 | empty stack fails with nothing changed; a rectangle snapshot restores corners and tag; a point snapshot is removed and fails |
| CoordMachine.Machine.GetXY | src/patchboard_atlas/coord_machine.py:373-374 | the point registers |
| CoordMachine.Machine.GetXYXY | src/patchboard_atlas/coord_machine.py:377-378 | the rectangle registers |
| CoordMachine.Machine.Exec | src/patchboard_atlas/coord_machine.py:81-326 | every operation other than reset, push and pop leaves the snapshot stack alone |
| CoordMachine.Machine.PushPtRunPopPt | src/patchboard_atlas/coord_machine.py:333-344 | push_pt, then any operations other than reset, push and pop, then pop_pt succeeds and restores x, y and tag exactly |
| CoordMachine.Machine.PushRectRunPopRect | src/patchboard_atlas/coord_machine.py:347-366 | push_rect, then any operations other than reset, push and pop, then pop_rect succeeds and restores the corners and tag exactly |
| CoordMachine.Machine.ProjectRoundTrip | src/patchboard_atlas/coord_machine.py:249-292 | project_to("c") then project_to("w") leaves every coordinate within one unit below where it was and changes nothing else |
| CoordMachine.ProjectExample | test/test_coord_machine.py:165-178 | viewport 100x80, zoom 1/1: point (10, 20) and rectangle (0, 0, 10, 20) project to (60, 60) and (50, 40, 60, 60) |
| CoordMachine.CenterStoreLoad | src/patchboard_atlas/coord_machine.py:176-224 | store_pt("center") then load_pt("center") of a whole point gives the point back and keeps the rectangle's size |
| EcsWorld.Removed | src/patchboard_atlas/ecs_world.py:33-41 | eid is in no table; every other id keeps its membership and values; the counter is kept |
| EcsWorld.RemoveAbsent | src/patchboard_atlas/ecs_world.py:39-41 | removing an id that no table holds changes nothing |
| EcsWorld.RemoveIdempotent | src/patchboard_atlas/ecs_world.py:33-41 | removing twice equals removing once |
| EcsWorld.Ecs.constructor | src/patchboard_atlas/ecs_world.py:9-17 | counter 1 and empty tables |
| EcsWorld.Ecs.AllocateEntity | src/patchboard_atlas/ecs_world.py:20-30 | returns the counter, which was not live; the counter rises by one; the id becomes live; the maps are kept |
| EcsWorld.Ecs.RemoveEntity | src/patchboard_atlas/ecs_world.py:33-41 | the new tables are `Removed(old, eid)`; every live id stays below the counter |
| EcsWorld.Ecs.ResetEcs | src/patchboard_atlas/ecs_world.py:44-49 | counter 1 and empty tables |
| EcsWorld.AllocateAfterReset | src/patchboard_atlas/ecs_world.py:20-49 | after reset, three allocations return 1, 2, 3 |
| EcsWorld.RunOps | src/patchboard_atlas/ecs_world.py:20-41 | over any mix of allocations and removals, the ids handed out rise strictly, come from the counter's range and were never live |
| Mem.OperandStack.constructor | src/patchboard_atlas/mem.py:8 | the stack starts empty |
| Mem.OperandStack.Push | src/patchboard_atlas/mem.py:13-15 | appends x |
| Mem.OperandStack.Pop | src/patchboard_atlas/mem.py:18-20 | returns and removes the last element; on an empty stack raises and changes nothing |
| Mem.OperandStack.Top | src/patchboard_atlas/mem.py:23-25 | succeeds exactly on a non-empty stack, and the stack is its prefix plus the returned value |
| Mem.OperandStack.Drop | src/patchboard_atlas/mem.py:28-30 | removes exactly the last element, keeping the rest in order; raises on empty |
| Mem.OperandStack.Clear | src/patchboard_atlas/mem.py:33-35 | the stack is empty |
| Mem.PushThenPop | src/patchboard_atlas/mem.py:13-20 | push(x) then pop() returns x and restores the stack |
| Mem.PushThenTop | src/patchboard_atlas/mem.py:13-25 | push(x) then top() returns x and leaves x on the stack |
| Log.LogBuffer.constructor | src/patchboard_atlas/log.py:10 | the log starts empty |
| Log.LogBuffer.Log | src/patchboard_atlas/log.py:19-32 | a known flag appends one record with the mapped level; an unknown flag raises KeyError with nothing appended |
| Log.LogBuffer.AttachContext | src/patchboard_atlas/log.py:35-39 | sets the context of the last record only; on an empty log raises IndexError |
| Log.LogBuffer.ClearLog | src/patchboard_atlas/log.py:42-44 | the log is empty |
| Log.LogDefaultsToInfo | src/patchboard_atlas/log.py:12-25 | a call without a flag appends exactly one record at level "info" |
| ComponentRegistry.DistinctCountIsLength | src/patchboard_atlas/component_registry.py:59-60 | `len(set(l)) <= len(l)`, with equality exactly when the entries are pairwise distinct |
| ComponentRegistry.ValidateChannelList | src/patchboard_atlas/component_registry.py:53-69 | a channel list fails as "not a list", then "entries must be strings", then "duplicate names" (pairwise, not by set size), and passes otherwise |
| ComponentRegistry.ValidateCard | src/patchboard_atlas/component_registry.py:20-71 | a rejection carries one of the fourteen reasons; an accepted card is a dict whose inbox is a non-empty absolute string |
| ComponentRegistry.ValidateCardPasses | src/patchboard_atlas/component_registry.py:20-71 | the card is valid exactly when all fourteen checks hold |
| ComponentRegistry.ValidateCardFirstFailure | src/patchboard_atlas/component_registry.py:20-71 | a rejected card's reason is that of the first failing check, and every earlier check holds |
| Values.Get | src/patchboard_atlas/component_registry.py:31 | `d.get(k)`: the value under k of a dict holding k, and None otherwise |
| Text.ReplaceChar | src/patchboard_atlas/component_registry.py:80 | `s.replace(c, d)` for one character: same length, each c becomes d, every other character is kept |
| ComponentRegistry.PersistFilename | src/patchboard_atlas/component_registry.py:79-82 | length +5, ends in ".json", each `\`, `/`, `:` becomes `_` and every other character is kept, and the stem holds none of the three |
| ComponentRegistry.FindEntityByInbox | src/patchboard_atlas/component_registry.py:85-90 | returns an entity whose card has the key; returns None only if every card has a different key; raises only for a card without a string inbox |
| ComponentRegistry.Registry.constructor | src/patchboard_atlas/component_registry.py:17 | the registry starts empty |
| ComponentRegistry.Registry.ValidateTop | src/patchboard_atlas/component_registry.py:20-26 | validates the top card without changing the stack; raises on an empty stack |
| ComponentRegistry.Registry.IngestCard | src/patchboard_atlas/component_registry.py:93-110 | the stack is kept; an empty stack raises; an invalid card is rejected with its reason and changes nothing; a valid card is never rejected, raises only for a card reference without a string inbox, and is ingested whenever every reference has one; ingesting stores it under its canonical key and removes an entity whose card has that key, else keeps the tables |
| ComponentRegistry.Registry.ClearRegistry | src/patchboard_atlas/component_registry.py:216-218 | the registry is empty |
| Text.IntToString | src/patchboard_atlas/rendering.py:40 | `str(i)` is non-empty, has no "\|" and starts with a digit exactly when i >= 0 |
| Text.IntToStringInjective | src/patchboard_atlas/rendering.py:40-45 | different ints have different decimal strings |
| Rendering.EkToTag | src/patchboard_atlas/rendering.py:38-40 | the tag starts with "ek\|" |
| Rendering.EkToTagForm | src/patchboard_atlas/rendering.py:38-40 | the tag is "ek\|entity\|" then the id, "\|" and the part name |
| Rendering.EkToTagInjective | src/patchboard_atlas/rendering.py:38-40 | different element keys have different tags |
| Rendering.EntityTag | src/patchboard_atlas/rendering.py:43-45 | the tag starts with "entity\|" |
| Rendering.EntityTagInjective | src/patchboard_atlas/rendering.py:43-45 | different entities have different grouping tags |
| Rendering.PerimeterDesc | src/patchboard_atlas/rendering.py:52-67 | a rectangle 120 wide and 60 high centred on (sx, sy), with the perimeter colours, width 2 and the key's tags |
| Rendering.TitleText | src/patchboard_atlas/rendering.py:80 | the card's title, or "" when it has none |
| Rendering.TitleDesc | src/patchboard_atlas/rendering.py:70-84 | a text item at (sx, sy) showing the title, with the title colour, font and tags |
| Rendering.DescFor | src/patchboard_atlas/rendering.py:52-84 | the entry for a key carries that key's three tags |
| Rendering.DeclaredKeys | src/patchboard_atlas/rendering.py:94-104 | a key is declared exactly when its entity is considered and placed, and, for a title, has a card |
| Rendering.Intent | src/patchboard_atlas/rendering.py:94-104 | holds exactly the declared keys, each with its rule's descriptor |
| Rendering.IntentStepUnplaced | src/patchboard_atlas/rendering.py:98-100 | an entity without a placement adds no entry |
| Rendering.IntentStepOthers | src/patchboard_atlas/rendering.py:97-104 | running the rules for one entity keeps every other entity's entries |
| Rendering.IntentStepOwn | src/patchboard_atlas/rendering.py:101-104 | a placed entity gets its perimeter, and a title exactly when it has a card |
| Rendering.IntentStepPlaced | src/patchboard_atlas/rendering.py:101-104 | the intent grows by the entity's perimeter, then its title if it has a card |
| Collections.HasLeast | src/patchboard_atlas/rendering.py:97 | a non-empty set of ids has a least element, the one `sorted` visits first |
| Rendering.Renderer.constructor | src/patchboard_atlas/rendering.py:31 | RENDER starts empty |
| Rendering.Renderer.RulePerimeter | src/patchboard_atlas/rendering.py:52-67 | sets the entity's perimeter entry to `PerimeterDesc` and nothing else |
| Rendering.Renderer.RuleTitle | src/patchboard_atlas/rendering.py:70-84 | with a card, sets the title entry to `TitleDesc`; without one, changes nothing |
| Rendering.Renderer.RebuildRenderIntent | src/patchboard_atlas/rendering.py:94-104 | afterwards RENDER is exactly `Intent` of the current tables, whatever it held before |

## Left out

- The Tk GUI, the CLI, start-up and the directory layout: `gui_scaffold.py`, `tree_projection.py`, `cliapp.py`, `startup.py`, `paths.py`. These are window and file-system plumbing. `reset.py` only sequences the reset calls modelled here.
- The canvas side of `rendering.py`: flushing RENDER to the canvas, tag reconciliation, viewport updates, placement and event binding. These are Tk canvas calls. The tag injectivity they rely on is proved.
- File and JSON I/O in `component_registry.py`: ingesting from a file or a folder, persisting, loading, deleting and culling persisted cards.
- `canonical_inbox_key` and `os.path.isabs` are parameters with no behaviour assumed, since path normalisation is host-specific.
- The wall clock and its ISO 8601 format: the timestamp is a parameter of `Log`.
- IEEE floats: coordinates are exact reals. The source's integers and exact halves fit this, but float rounding is not modelled.
- The unused `var` dict of `mem.py`.
- Card references are typed as dicts. A card reference that is not a dict, or a stored `None`, cannot be expressed. Such a reference would make `rule_title` skip or raise.
- CoordMachine.RoundTrip: the one-unit bound is proved only for points a whole number of units from the camera, the case of integer registers. For a fractional offset, which store_pt("center") can produce, the bound is false; RoundTripFailsForFractionalOffset gives an input.
- CoordMachine.Machine.ProjectRoundTrip: the same restriction to whole offsets from the camera.
- CoordMachine.UnitZoomIsTranslation: the same restriction to whole offsets from the camera.
- ComponentRegistry.FindEntityByInbox: the references are visited in no particular order. Python visits them in insertion order and returns the first match, so which match is returned, and whether a malformed reference before a match raises, is not pinned down.
- ComponentRegistry.Registry.IngestCard: inherits that looseness. When several entities' cards have the key, the contract names no particular one.
- CoordMachine.Machine.PushPtRunPopPt: the operations between the push and the pop exclude reset, push and pop, so nested save/restore pairs are not covered.
- CoordMachine.Machine.PushRectRunPopRect: the same limit; nested pairs of rectangle pushes and pops are not covered.
- Rendering.Renderer.RebuildRenderIntent: RENDER's insertion order, which follows the sorted entity ids, is not part of the map value.
- Python's `True == 1` and `1.0 == 1` make `schema_version` accept those values, and the model follows this. Hash-equality corner cases of `set()` beyond value equality are not modelled.
