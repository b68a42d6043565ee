/**
 * The editor's texture brush without its widgets: the brush window's shape,
 * size and texture, the choice of the record a texture from another content
 * file is cloned into, and the tool's history of recently used textures.
 */
module CSVWidget {
  import opened Wrappers

  const DefaultTexture: string := "L0#0"
  /** The prefix of a land texture id in the edited content file. */
  const PluginPrefix: string := "L0#"
  const HistoryLimit := 5
  /** std::numeric_limits<uint16_t>::max() - 1: the free-slot counter runs over [0, MaxCounter). */
  const MaxCounter := 65534
  /** size_t arithmetic on a 64-bit target; npos is its largest value. */
  const SizeModulus := 0x1_0000_0000_0000_0000
  const Npos := SizeModulus - 1

  const ShapePoint := 0
  const ShapeSquare := 1
  const ShapeCircle := 2
  const ShapeCustom := 3

  /** The two columns of a land texture record the brush reads: its modification state and whether it is deleted. */
  datatype LandTexture = LandTexture(modification: int, deleted: bool)

  /** The land texture collection, by id. */
  type LandTextures = map<string, LandTexture>

  /** The id names a record that exists and is not deleted. */
  predicate Live(textures: LandTextures, id: string) {
    id in textures && !textures[id].deleted
  }

  // ---------------------------------------------------------------- ids

  /** std::string::find for one character: the first position of `c`, or npos. */
  function Find(s: string, c: char): (pos: int)
    requires |s| < Npos
    ensures c in s ==> 0 <= pos < |s| && s[pos] == c && c !in s[..pos]
    ensures c !in s ==> pos == Npos
  {
    if s == [] then Npos
    else if s[0] == c then 0
    else
      var p := Find(s[1..], c);
      if p == Npos then Npos
      else
        assert s[..p + 1] == [s[0]] + s[1..][..p];
        p + 1
  }

  /**
   * The id a texture gets in the edited content file: "L0#" followed by what
   * comes after the first '#'. Without a '#' the size_t sum npos + 1 wraps to
   * 0 and the whole id follows the prefix.
   */
  function PluginId(id: string): (r: string)
    requires |id| < Npos
    ensures |r| >= |PluginPrefix| && r[..|PluginPrefix|] == PluginPrefix
    ensures '#' !in id ==> r[|PluginPrefix|..] == id
    ensures '#' in id ==>
      (exists k :: 0 <= k < |id| && id[k] == '#' && '#' !in id[..k] && r[|PluginPrefix|..] == id[k + 1..])
  {
    var hash := Find(id, '#');
    var start := (hash + 1) % SizeModulus;
    assert '#' !in id ==> start == 0;
    assert '#' in id ==> start == hash + 1;
    var r := PluginPrefix + id[start..];
    assert r[|PluginPrefix|..] == id[start..];
    r
  }

  /** An id already in the edited content file's form is its own plugin id. */
  lemma PluginIdIdempotent(id: string)
    requires |id| < Npos - |PluginPrefix|
    ensures PluginId(PluginId(id)) == PluginId(id)
  {
    var p := PluginId(id);
    assert p == PluginPrefix + p[|PluginPrefix|..];
    assert p[2] == '#' && '#' !in p[..2];
  }

  // ---------------------------------------------------------------- free slot

  /** Some counter at or after `from` names an id that is absent or deleted. */
  ghost predicate HasFreeSlot(textures: LandTextures, recordId: int -> string, from: int) {
    exists k :: from <= k < MaxCounter && !Live(textures, recordId(k))
  }

  /** The first counter at or after `from` whose id (recordId plays createUniqueRecordId) is not live. */
  function FirstFreeSlot(textures: LandTextures, recordId: int -> string, from: nat): (slot: nat)
    requires from <= MaxCounter && HasFreeSlot(textures, recordId, from)
    ensures from <= slot < MaxCounter && !Live(textures, recordId(slot))
    ensures forall k :: from <= k < slot ==> Live(textures, recordId(k))
    decreases MaxCounter - from
  {
    if !Live(textures, recordId(from)) then from
    else FirstFreeSlot(textures, recordId, from + 1)
  }

  /**
   * The do-while loop of setBrushTexture: try counter 0, 1, ... and stop at
   * the first id that is not live. The counter advances modulo MaxCounter;
   * when every slot is live the source never stops, so a free one is required.
   */
  method FindFreeIndex(textures: LandTextures, recordId: int -> string) returns (counter: int, id: string)
    requires HasFreeSlot(textures, recordId, 0)
    ensures 0 <= counter < MaxCounter && id == recordId(counter) && !Live(textures, id)
    ensures counter == FirstFreeSlot(textures, recordId, 0)
  {
    ghost var free :| 0 <= free < MaxCounter && !Live(textures, recordId(free));
    counter, id := 0, "";
    var freeIndexFound := false;
    while !freeIndexFound
      invariant 0 <= counter <= free
      invariant forall k :: 0 <= k < counter ==> Live(textures, recordId(k))
      invariant freeIndexFound ==> id == recordId(counter) && !Live(textures, id)
      decreases free - counter + (if freeIndexFound then 0 else 1)
    {
      id := recordId(counter);
      if Live(textures, id) {
        counter := (counter + 1) % MaxCounter;
      } else {
        freeIndexFound := true;
      }
    }
  }

  // ---------------------------------------------------------------- texture selection

  /** The record the undo stack is asked to clone, and the id of the copy. */
  datatype CloneCommand = CloneCommand(source: string, target: string)

  /** What selecting a texture does to the document. */
  datatype TextureOutcome =
    | Kept                          // the record is not base-only: nothing is cloned
    | Cloned(command: CloneCommand) // a base-only record is cloned into the edited content file
    | MissingRecord                 // the id is in no record, so row -1 would be read

  /** The texture the brush holds after a selection of `id` with this outcome. */
  function Selected(id: string, outcome: TextureOutcome): string {
    if outcome.Cloned? then outcome.command.target else id
  }

  /** What selecting `id` needs: an id a std::string can hold and, when a clone must be renumbered, a free slot. */
  ghost predicate CanSelect(id: string, textures: LandTextures, recordId: int -> string) {
    && |id| < Npos
    && (id in textures && textures[id].modification == 0 && Live(textures, PluginId(id)) ==>
          HasFreeSlot(textures, recordId, 0))
  }

  /**
   * setBrushTexture on the document: a texture whose record is base-only
   * (modification state 0) is cloned to its plugin id, or to the first free
   * numbered id when the plugin id is taken by a live record.
   */
  function Selection(id: string, textures: LandTextures, recordId: int -> string): (o: TextureOutcome)
    requires CanSelect(id, textures, recordId)
    ensures o.MissingRecord? <==> id !in textures
    ensures o.Kept? <==> id in textures && textures[id].modification != 0
    ensures o.Cloned? ==> o.command.source == id && !Live(textures, o.command.target)
    ensures o.Cloned? && !Live(textures, PluginId(id)) ==> o.command.target == PluginId(id)
    ensures o.Cloned? && Live(textures, PluginId(id)) ==>
      o.command.target == recordId(FirstFreeSlot(textures, recordId, 0))
  {
    if id !in textures then MissingRecord
    else if textures[id].modification != 0 then Kept
    else
      var plugin := PluginId(id);
      if Live(textures, plugin) then Cloned(CloneCommand(id, recordId(FirstFreeSlot(textures, recordId, 0))))
      else Cloned(CloneCommand(id, plugin))
  }

  // ---------------------------------------------------------------- shape

  /**
   * setBrushShape: the buttons are tested in the order point, square,
   * circle, custom and each checked one overwrites the shape, so the last
   * checked button decides; with none checked the shape stays.
   */
  function CheckedShape(point: bool, square: bool, circle: bool, custom: bool, current: int): (shape: int)
    ensures var checked := [point, square, circle, custom];
      && (!point && !square && !circle && !custom ==> shape == current)
      && (point || square || circle || custom ==>
            0 <= shape < 4 && checked[shape] && forall j :: shape < j < 4 ==> !checked[j])
  {
    if custom then ShapeCustom
    else if circle then ShapeCircle
    else if square then ShapeSquare
    else if point then ShapePoint
    else current
  }

  /** In an exclusive button group at most one button is checked, and the shape is that button's. */
  lemma ExclusiveShape(point: bool, square: bool, circle: bool, custom: bool, current: int)
    requires (if point then 1 else 0) + (if square then 1 else 0) + (if circle then 1 else 0) +
             (if custom then 1 else 0) == 1
    ensures var shape := CheckedShape(point, square, circle, custom, current);
      (shape == ShapePoint <==> point) && (shape == ShapeSquare <==> square) &&
      (shape == ShapeCircle <==> circle) && (shape == ShapeCustom <==> custom)
  {
  }

  class TextureBrushWindow {
    var brushShape: int
    var brushSize: int
    var brushTexture: string

    constructor ()
      ensures brushShape == ShapePoint && brushSize == 0 && brushTexture == DefaultTexture
    {
      brushShape := ShapePoint;
      brushSize := 0;
      brushTexture := DefaultTexture;
    }

    /** Selects a texture; the clone, when there is one, goes to the undo stack and is returned. */
    method SetBrushTexture(id: string, textures: LandTextures, recordId: int -> string) returns (outcome: TextureOutcome)
      requires CanSelect(id, textures, recordId)
      modifies this`brushTexture
      ensures outcome == Selection(id, textures, recordId)
      ensures brushTexture == Selected(id, outcome)
    {
      brushTexture := id;
      if id !in textures {
        return MissingRecord;
      }
      if textures[id].modification == 0 {
        var plugin := PluginId(brushTexture);
        if Live(textures, plugin) {
          var counter;
          counter, plugin := FindFreeIndex(textures, recordId);
        }
        outcome := Cloned(CloneCommand(brushTexture, plugin));
        brushTexture := plugin;
      } else {
        outcome := Kept;
      }
    }

    method SetBrushSize(size: int)
      modifies this`brushSize
      ensures brushSize == size
    {
      brushSize := size;
    }

    method SetBrushShape(point: bool, square: bool, circle: bool, custom: bool)
      modifies this`brushShape
      ensures brushShape == CheckedShape(point, square, circle, custom, old(brushShape))
    {
      if point { brushShape := ShapePoint; }
      if square { brushShape := ShapeSquare; }
      if circle { brushShape := ShapeCircle; }
      if custom { brushShape := ShapeCustom; }
    }
  }

  // ---------------------------------------------------------------- history

  /** updateBrushHistory: the texture goes in front and, past the limit, the oldest entry is dropped. */
  function Pushed(history: seq<string>, texture: string): (r: seq<string>)
    ensures |r| == if |history| < HistoryLimit then |history| + 1 else |history|
    ensures r[0] == texture
    ensures forall i :: 1 <= i < |r| ==> r[i] == history[i - 1]
  {
    var grown := [texture] + history;
    if |grown| > HistoryLimit then grown[..|grown| - 1] else grown
  }

  /** clicked: the entry at `row` changes places with the first one. */
  function Swapped(history: seq<string>, row: int): (r: seq<string>)
    requires 0 <= row < |history|
    ensures |r| == |history| && multiset(r) == multiset(history)
    ensures r[0] == history[row] && r[row] == history[0]
    ensures forall i :: 0 < i < |r| && i != row ==> r[i] == history[i]
  {
    history[row := history[0]][0 := history[row]]
  }

  /** A second click on the same row puts the history back. */
  lemma SwapTwice(history: seq<string>, row: int)
    requires 0 <= row < |history|
    ensures Swapped(Swapped(history, row), row) == history
  {
  }

  /** The first HistoryLimit entries of `s`. */
  function Newest(s: seq<string>): seq<string> {
    if |s| > HistoryLimit then s[..HistoryLimit] else s
  }

  function Reversed(s: seq<string>): seq<string> {
    if s == [] then [] else Reversed(s[1..]) + [s[0]]
  }

  /** The history after the textures of `ts` are selected, first to last. */
  function PushAll(history: seq<string>, ts: seq<string>): seq<string>
    decreases |ts|
  {
    if ts == [] then history else PushAll(Pushed(history, ts[0]), ts[1..])
  }

  lemma NewestAbsorbs(a: seq<string>, b: seq<string>)
    ensures Newest(a + Newest(b)) == Newest(a + b)
  {
    if |b| > HistoryLimit {
      assert (a + b[..HistoryLimit])[..HistoryLimit] == (a + b)[..HistoryLimit];
    }
  }

  /**
   * The history holds the most recent textures, newest first and duplicates
   * kept, and never more than HistoryLimit of them.
   */
  lemma {:induction false} PushAllKeepsNewest(history: seq<string>, ts: seq<string>)
    requires 1 <= |history| <= HistoryLimit
    ensures PushAll(history, ts) == Newest(Reversed(ts) + history)
    ensures 1 <= |PushAll(history, ts)| <= HistoryLimit
    decreases |ts|
  {
    if ts == [] {
      assert Reversed(ts) + history == history;
    } else {
      var next := Pushed(history, ts[0]);
      assert next == Newest([ts[0]] + history);
      PushAllKeepsNewest(next, ts[1..]);
      NewestAbsorbs(Reversed(ts[1..]), [ts[0]] + history);
      assert Reversed(ts) + history == Reversed(ts[1..]) + ([ts[0]] + history);
    }
  }

  class SceneToolTextureBrush {
    /** The recently selected textures, newest first. */
    var history: seq<string>
    const window: TextureBrushWindow

    ghost predicate Valid()
      reads this
    {
      1 <= |history| <= HistoryLimit
    }

    constructor ()
      ensures Valid() && history == [DefaultTexture]
      ensures fresh(window)
      ensures window.brushShape == ShapePoint && window.brushSize == 0 && window.brushTexture == DefaultTexture
    {
      history := [DefaultTexture];
      window := new TextureBrushWindow();
    }

    method UpdateBrushHistory(texture: string)
      requires Valid()
      modifies this`history
      ensures Valid() && history == Pushed(old(history), texture)
    {
      history := [texture] + history;
      if |history| > HistoryLimit {
        history := history[..|history| - 1];
      }
    }

    /**
     * A click on a history row: in either column, the row's texture moves to
     * the front and is handed to the brush window; other columns do nothing.
     */
    method Clicked(column: int, row: int, textures: LandTextures, recordId: int -> string)
      returns (outcome: Option<TextureOutcome>)
      requires Valid()
      requires column == 0 || column == 1 ==>
        0 <= row < |history| && CanSelect(history[row], textures, recordId)
      modifies this`history, window`brushTexture
      ensures Valid()
      ensures column != 0 && column != 1 ==>
        history == old(history) && outcome == None && window.brushTexture == old(window.brushTexture)
      ensures column == 0 || column == 1 ==>
        && history == Swapped(old(history), row)
        && outcome == Some(Selection(old(history)[row], textures, recordId))
        && window.brushTexture == Selected(old(history)[row], outcome.value)
    {
      if column == 0 || column == 1 {
        var texture := history[row];
        history := history[row := history[0]][0 := texture];
        var selection := window.SetBrushTexture(texture, textures, recordId);
        outcome := Some(selection);
      } else {
        outcome := None;
      }
    }
  }
}
