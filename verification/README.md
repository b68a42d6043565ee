# OpenMW script interpreter and editor tool state, in Dafny

This project models three pieces of OpenMW and its editor, OpenCS.

**The script interpreter** (`interpreter.dfy`, module `Interpreter`).
Compiled scripts are sequences of 32-bit instruction words. Each word belongs
to one of six segments, and each segment splits the word into an opcode and
zero, one or two arguments with fixed widths:

| segment | opcode | arguments |
|---|---|---|
| 0 | 6 bits | 24 |
| 1 | 6 bits | 12 + 12 |
| 2 | 10 bits | 20 |
| 3 | 18 bits | 8 |
| 4 | 10 bits | 8 + 8 |
| 5 | 26 bits | none |

The `Interpreter` class holds six opcode tables (`map<int, Opcode…>`). Each
table's handler type fixes the arity of its segment. `Execute` decodes a word
and picks the installed handler with the decoded arguments, or one of the two
aborts: unknown segment, or unknown opcode in a known segment. `Begin` and
`End` push and pop the call stack of suspended runtimes. The running flag
marks the outermost begin.

Segments 0 to 2 carry 30 bits, so their selector is the top two bits (0, 1,
2). Segments 3 to 5 carry 26 bits and share top-two-bit value 3. They are
told apart by the top six bits: 0x30, 0x31, 0x32. Words whose top six bits are
0x33 to 0x3f select no segment, so decoding is partial. `abortUnknownSegment`
is the reaction to those words.

**The search box** (`searchbox.dfy`, module `CSVTools`). The search box is a
small state machine under its widgets. Its state is a searching-allowed flag,
a mode index (text, text regex, reference, reference regex, record state), the
text, the input page shown and the search button's enabled bit. `SearchFor` is
`getSearch`. It returns the search for the mode or the `logic_error` message.

**The texture brush** (`texturebrush.dfy`, module `CSVWidget`). The brush
window holds a shape, a size and a texture id. Selecting a texture whose record
is base-only clones it into the edited content file. The clone goes to the id
`"L0#"` plus the part after the first `#`. If a live record already has that
id, the clone goes to the first free numbered id instead. The tool keeps a
history of at most five recent textures, newest first. A click on a row swaps
that row with the first.

## Model

| member | source | states |
|---|---|---|
| `Interpreter.Decode` | components/interpreter/interpreter.hpp:48-70 | every decoded instruction fits its segment's documented widths; a word selects no segment exactly when its top six bits exceed 0x32; the selector of segments 0-2 is the top two bits, of segments 3-5 the top six bits 0x30-0x32 (pairwise disjoint) |
| `Interpreter.Encode` | components/interpreter/interpreter.hpp:48-70 | for every segment, an in-range (opcode, arguments) encodes to a word that decodes back to exactly that instruction |
| `Interpreter.EncodeDecode` | components/interpreter/interpreter.hpp:49-69 | every word that selects a segment is the encoding of its decoded instruction (decode then encode is the identity) |
| `Interpreter.EncodeInjective` | components/interpreter/interpreter.hpp:49-69 | distinct in-range instructions have distinct words |
| `Interpreter.Interpreter.Execute` | components/interpreter/interpreter.hpp:32-36 | a word selecting no segment aborts as unknown segment with that word; otherwise it aborts as unknown code with the segment and opcode exactly when that segment's table lacks the opcode; a handler is invoked with the decoded arguments and the arity of its segment (none for 5, one for 0, 2, 3, two for 1, 4), and the handler invoked is the entry of that segment's table for the decoded opcode |
| `Interpreter.UnknownOpcodeAborts` | components/interpreter/interpreter.hpp:32-34 | an encoded instruction whose opcode is not installed in its segment aborts with that segment and opcode and invokes no handler |
| `Interpreter.Interpreter.constructor` | components/interpreter/interpreter.hpp:18-26 | a new interpreter has six empty tables, an empty call stack, a cleared runtime and is not running |
| `Interpreter.Interpreter.InstallSegment0` | components/interpreter/interpreter.hpp:48-50 | the segment-0 table maps `code` to the handler and nothing else changes; afterwards every in-range segment-0 word with that opcode dispatches to it with its 24-bit argument |
| `Interpreter.Interpreter.InstallSegment1` | components/interpreter/interpreter.hpp:52-54 | same for segment 1, two 12-bit arguments |
| `Interpreter.Interpreter.InstallSegment2` | components/interpreter/interpreter.hpp:56-58 | same for segment 2, one 20-bit argument |
| `Interpreter.Interpreter.InstallSegment3` | components/interpreter/interpreter.hpp:60-62 | same for segment 3, one 8-bit argument |
| `Interpreter.Interpreter.InstallSegment4` | components/interpreter/interpreter.hpp:64-66 | same for segment 4, two 8-bit arguments |
| `Interpreter.Interpreter.InstallSegment5` | components/interpreter/interpreter.hpp:68-70 | same for segment 5, no argument |
| `Interpreter.Interpreter.Begin` | components/interpreter/interpreter.hpp:38 | the new frames are `AfterBegin` of the old: inside a run the current runtime is pushed and a cleared one starts, otherwise the interpreter starts running; the idle invariant is kept |
| `Interpreter.Interpreter.End` | components/interpreter/interpreter.hpp:40 | the new frames are `AfterEnd` of the old: the top runtime is popped into the current one, or with an empty stack the runtime is cleared and running stops |
| `Interpreter.BeginThenEnd` | components/interpreter/interpreter.hpp:38-40 | a begin followed by an end restores the runtime, the call stack and the running flag |
| `Interpreter.CallDepth` | components/interpreter/interpreter.hpp:18-20 | after n begins the interpreter runs, the old stack is still at the bottom, and the depth grew by n (by n-1 when it started idle) |
| `Interpreter.NestedCallsReturn` | components/interpreter/interpreter.hpp:38-40 | n begins followed by n ends give back the starting state, the original runtime included |
| `CSVTools.SearchFor` | apps/opencs/view/tools/searchbox.cpp:89-115 | modes 0-4 give a search of the type with that index: text and reference carry the text, the regex modes a case-insensitive pattern of the text, record state the record-state index; any other index fails with "invalid search mode index" |
| `CSVTools.SearchBox.GetSearch` | apps/opencs/view/tools/searchbox.cpp:89-115 | the box's search fails exactly when its mode index is outside 0-4; in a valid box it always succeeds with the search type of the current mode, carrying the text as a literal for the text and reference modes, as a case-insensitive pattern for the two regex modes, and the record-state index for the record-state mode |
| `CSVTools.ButtonState` | apps/opencs/view/tools/searchbox.cpp:14-36 | for a mode 0-4 the button is enabled exactly when searching is allowed and getSearch would have a query (non-empty text, or record state); so with searching off it is disabled whatever the mode and text; for any other index it keeps its previous state, and with searching off it is disabled |
| `CSVTools.QueryMeansSearch` | apps/opencs/view/tools/searchbox.cpp:89-115 | a mode has a query exactly when getSearch succeeds for it and looks for a record state or a non-empty text |
| `CSVTools.ButtonStateIdempotent` | apps/opencs/view/tools/searchbox.cpp:14-36 | recomputing the button twice gives the same state as once |
| `CSVTools.PageFor` | apps/opencs/view/tools/searchbox.cpp:117-132 | modes 0-3 show the text page, mode 4 the record-state page, any other index keeps the page |
| `CSVTools.SearchBox.constructor` | apps/opencs/view/tools/searchbox.cpp:38-81 | searching off, mode 0, empty text, text page shown, button disabled; the record states are the modification states without the last (erased) |
| `CSVTools.SearchBox.UpdateSearchButton` | apps/opencs/view/tools/searchbox.cpp:14-36 | the button becomes `ButtonState` of the flag, mode, text and its old state; nothing else changes |
| `CSVTools.SearchBox.SetSearchMode` | apps/opencs/view/tools/searchbox.cpp:83-87 | the flag becomes the argument and the button is enabled exactly when the flag is set and the mode has a query |
| `CSVTools.SearchBox.ModeSelected` | apps/opencs/view/tools/searchbox.cpp:117-135 | the page becomes `PageFor` the index and the button is recomputed |
| `CSVTools.SearchBox.ActivateMode` | apps/opencs/view/tools/searchbox.cpp:117-135 | after the mode list's index becomes `index`, the page is 1 for record state and 0 otherwise and the button follows the rule; the box invariant is kept |
| `CSVTools.SearchBox.TextChanged` | apps/opencs/view/tools/searchbox.cpp:137-140 | with the new text the button follows the rule; the box invariant is kept |
| `CSVTools.EnabledButtonSearches` | apps/opencs/view/tools/searchbox.cpp:89-115 | whenever the button is enabled, searching is allowed, getSearch does not throw, and a text search has a non-empty text |
| `CSVWidget.Find` | apps/opencs/view/widget/scenetooltexturebrush.cpp:157 | the result is the first position of the character, or npos when it does not occur |
| `CSVWidget.PluginId` | apps/opencs/view/widget/scenetooltexturebrush.cpp:157-158 | the result is "L0#" followed by the part after the first '#'; with no '#' the whole id follows, since npos + 1 wraps to 0 |
| `CSVWidget.PluginIdIdempotent` | apps/opencs/view/widget/scenetooltexturebrush.cpp:157-158 | an id rewritten once is its own rewrite |
| `CSVWidget.FirstFreeSlot` | apps/opencs/view/widget/scenetooltexturebrush.cpp:164-171 | the least counter in [from, 65534) whose id is absent or deleted; every counter before it names a live record |
| `CSVWidget.FindFreeIndex` | apps/opencs/view/widget/scenetooltexturebrush.cpp:164-171 | the loop stays in [0, 65533], never wraps, and stops at the first counter whose id is not live; that counter is `FirstFreeSlot` and its id is never a live record |
| `CSVWidget.Selection` | apps/opencs/view/widget/scenetooltexturebrush.cpp:136-179 | an id with no record reads row -1; a record that is not base-only is kept; a base-only record is cloned from the id to a target that is never live: its plugin id when that is free, else the id of the first free slot |
| `CSVWidget.TextureBrushWindow.SetBrushTexture` | apps/opencs/view/widget/scenetooltexturebrush.cpp:136-179 | the outcome is `Selection` and the brush holds the clone's id after a clone, else the id given |
| `CSVWidget.TextureBrushWindow.constructor` | apps/opencs/view/widget/scenetooltexturebrush.cpp:58-63 | shape 0 (point), size 0, texture "L0#0" |
| `CSVWidget.TextureBrushWindow.SetBrushSize` | apps/opencs/view/widget/scenetooltexturebrush.cpp:194-198 | the size becomes the argument; nothing else in the window changes |
| `CSVWidget.CheckedShape` | apps/opencs/view/widget/scenetooltexturebrush.cpp:200-207 | with no button checked the shape is unchanged; otherwise it is the code (point 0, square 1, circle 2, custom 3) of the last checked button in that order |
| `CSVWidget.ExclusiveShape` | apps/opencs/view/widget/scenetooltexturebrush.cpp:200-207 | with exactly one button checked, the shape is that button's code |
| `CSVWidget.TextureBrushWindow.SetBrushShape` | apps/opencs/view/widget/scenetooltexturebrush.cpp:200-207 | the shape becomes `CheckedShape` of the buttons and the old shape |
| `CSVWidget.Pushed` | apps/opencs/view/widget/scenetooltexturebrush.cpp:325-329 | the texture is at index 0 and every former entry moves up one index; the length grows by one, up to 5, after which the oldest entry is dropped |
| `CSVWidget.PushAllKeepsNewest` | apps/opencs/view/widget/scenetooltexturebrush.cpp:325-329 | after any sequence of selections the history is the newest textures first, duplicates kept, cut to 5, followed by the older history; it always has 1 to 5 entries |
| `CSVWidget.Swapped` | apps/opencs/view/widget/scenetooltexturebrush.cpp:336 | the clicked row's texture is first, the former first texture is at the clicked row, every other row is unchanged; hence the same entries (a permutation) |
| `CSVWidget.SwapTwice` | apps/opencs/view/widget/scenetooltexturebrush.cpp:336 | clicking the same row twice restores the history |
| `CSVWidget.SceneToolTextureBrush.constructor` | apps/opencs/view/widget/scenetooltexturebrush.cpp:219-220 | the history starts as ["L0#0"] and the brush window is new |
| `CSVWidget.SceneToolTextureBrush.UpdateBrushHistory` | apps/opencs/view/widget/scenetooltexturebrush.cpp:325-329 | the history becomes `Pushed` of the old one and keeps 1 to 5 entries |
| `CSVWidget.SceneToolTextureBrush.Clicked` | apps/opencs/view/widget/scenetooltexturebrush.cpp:331-342 | in column 0 or 1 the row is swapped with the first entry and its texture is selected in the brush window; in any other column nothing changes |

interpreter.cpp is outside this model; the following are modelling choices.
The header gives the state, the widths and the abort hooks; beyond those:

- the selector values above;
- a second install of the same code replaces the first ("last write wins");
- `begin` pushes and clears only inside a run, and otherwise sets the running flag;
- `end` on an empty stack clears the runtime and stops running.

Under these choices, outside a run the stack is empty and the runtime is
cleared (`Settled`). `Runtime::clear` is represented by a fixed value
`blank`, given to the constructor.

## Left out

- `Interpreter::run`: the fetch loop, the runtime's program counter, the code buffer and the `Context`. runtime.hpp, types.hpp and interpreter.cpp are not part of this model.
- The handler classes: `Opcode0`, `Opcode1` and `Opcode2` are opaque types and their `execute` bodies are not shown.
- Interpreter.Interpreter.Execute: returns the handler to call and its arguments rather than running it. The handler's effect on the runtime is not modelled. The aborts are outcomes, not exceptions.
- Ownership transfer of handlers and the suppressed copy constructor and assignment: C++ memory management with no observable logic.
- All Qt plumbing in both editor files: layouts, signal connections, `emit`, labels, tooltips, icons (`setButtonIcon`), `updatePanel`, `showPanel`, `activate`, drag and drop. The widgets' states appear only as the fields they feed: the mode list's index, the text, the input page, the button's enabled bit and the checked states passed to `SetBrushShape`.
- The record-state list's current index is set once by the constructor. The user choosing another record state is Qt plumbing.
- The conversion of the text to UTF-8 and the `QRegExp` object: a pattern is its text with a case-insensitive flag.
- The undo stack: the `CloneCommand` is returned as a value, and the land texture collection is not changed by the model.
- CSVWidget.Selection: for an id with no record, the source reads row -1 of the collection (collection.hpp is not part of this model). The model reports `MissingRecord` after the brush texture was assigned and does nothing further.
- CSVWidget.FindFreeIndex: requires a free slot among the 65534 counters. When every slot is live the source loops forever, and that divergence is not modelled.
- `createUniqueRecordId` is an abstract function parameter `recordId`. The properties proved do not need it to be injective.
- CSVTools.SearchBox.constructor: requires at least one modification state. The source's `resize(size()-1)` of an empty list is never reached, because the modification enum is a fixed non-empty list.
- Strings are assumed shorter than npos, as every std::string is.
- The brush size's slider range comes from the user settings and is not modelled.
- components/terrain/world.cpp, apps/openmw/mwrender/pathgrid.hpp and apps/openmw/doc.hpp: scene-graph construction, rendering declarations and documentation comments, with no logic of the modelled core.
