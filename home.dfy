/** The landing page's drag-and-drop canvas: uploaded images join the canvas as
    items, dropping an item moves it to the drop point, and the sample button
    flips a playing flag. The file reader, the clock and the random start
    position are inputs. */
module Home {
  import opened Wrappers
  import opened Strings

  /** A canvas item. */
  datatype Item = Item(id: int, kind: string, src: string, x: real, y: real, width: int, height: int)

  /** One `reader.onload` firing: the file's `index` in the selection, the clock
      reading, the data URL read, and the two `Math.random()` draws. */
  datatype Load = Load(index: nat, now: int, dataUrl: string, rx: real, ry: real)

  // ---------------------------------------------------------------------
  // Moving

  /** `prev.map(item => item.id === id ? { ...item, x, y } : item)`, where `id`
      is `None` for `NaN` (which equals no id). */
  function MoveItem(items: seq<Item>, id: Option<int>, x: real, y: real): (r: seq<Item>)
    ensures |r| == |items|
    ensures forall i :: 0 <= i < |r| ==>
      if id == Some(items[i].id) then r[i] == items[i].(x := x, y := y) else r[i] == items[i]
  {
    seq(|items|, i requires 0 <= i < |items| =>
      if id == Some(items[i].id) then items[i].(x := x, y := y) else items[i])
  }

  /** A drop whose id matches no item, or is not a number, leaves the canvas as it is. */
  lemma {:induction false} MoveUnknownId(items: seq<Item>, id: Option<int>, x: real, y: real)
    requires forall i :: 0 <= i < |items| ==> id != Some(items[i].id)
    ensures MoveItem(items, id, x, y) == items
  {
    var r := MoveItem(items, id, x, y);
    assert forall i :: 0 <= i < |items| ==> r[i] == items[i];
  }

  /** A moved item keeps everything but its position, and of two moves of the
      same item the last one wins. */
  lemma {:induction false} MoveLastWins(items: seq<Item>, id: Option<int>, x1: real, y1: real, x2: real, y2: real)
    ensures MoveItem(MoveItem(items, id, x1, y1), id, x2, y2) == MoveItem(items, id, x2, y2)
    ensures forall i :: 0 <= i < |items| ==>
      var m := MoveItem(items, id, x1, y1)[i];
      m.id == items[i].id && m.kind == items[i].kind && m.src == items[i].src
      && m.width == items[i].width && m.height == items[i].height
  {
    var a := MoveItem(MoveItem(items, id, x1, y1), id, x2, y2);
    var b := MoveItem(items, id, x2, y2);
    assert forall i :: 0 <= i < |items| ==> a[i] == b[i];
  }

  /** `handleDrop`: the dragged id is read back with `parseInt` and the item
      moves to the drop point relative to the canvas. */
  function DropResult(items: seq<Item>, data: string, clientX: real, clientY: real, left: real, top: real): seq<Item>
  {
    MoveItem(items, ParseInt(data), clientX - left, clientY - top)
  }

  /** The id `handleDragStart` writes (`String(id)`) reads back as the same id, so
      the drop moves exactly that item. */
  lemma DragRoundTrip(items: seq<Item>, id: int, clientX: real, clientY: real, left: real, top: real)
    ensures DropResult(items, IntToString(id), clientX, clientY, left, top)
      == MoveItem(items, Some(id), clientX - left, clientY - top)
  {
    ParseIntOfIntToString(id);
  }

  // ---------------------------------------------------------------------
  // Uploading

  /** The item one `onload` appends. */
  function ImageItem(load: Load): (item: Item)
    ensures item.kind == "image" && item.width == 200 && item.height == 150
    ensures item.id == load.now + load.index && item.src == load.dataUrl
    ensures 0.0 <= load.rx < 1.0 ==> 0.0 <= item.x < 300.0
    ensures 0.0 <= load.ry < 1.0 ==> 0.0 <= item.y < 200.0
  {
    Item(load.now + load.index, "image", load.dataUrl, load.rx * 300.0, load.ry * 200.0, 200, 150)
  }

  /** The items appended for a sequence of loads, in the order they fired. */
  function ImageItems(loads: seq<Load>): (r: seq<Item>)
    ensures |r| == |loads|
    ensures forall i :: 0 <= i < |r| ==> r[i] == ImageItem(loads[i])
  {
    seq(|loads|, i requires 0 <= i < |loads| => ImageItem(loads[i]))
  }

  // ---------------------------------------------------------------------
  // The page state

  class HomePage {
    var draggedItems: seq<Item>
    var isPlaying: bool

    constructor ()
      ensures draggedItems == [] && !isPlaying
    {
      draggedItems, isPlaying := [], false;
    }

    /** `handleImageUpload`, with the reader callbacks in the order they fire:
        each one appends its item after the current ones. */
    method HandleImageUpload(loads: seq<Load>)
      modifies this`draggedItems
      ensures draggedItems == old(draggedItems) + ImageItems(loads)
    {
      var i := 0;
      while i < |loads|
        invariant 0 <= i <= |loads|
        invariant draggedItems == old(draggedItems) + ImageItems(loads[..i])
      {
        draggedItems := draggedItems + [ImageItem(loads[i])];
        assert ImageItems(loads[..i + 1]) == ImageItems(loads[..i]) + [ImageItem(loads[i])];
        i := i + 1;
      }
      assert loads[..i] == loads;
    }

    /** `handleDrop`. */
    method HandleDrop(data: string, clientX: real, clientY: real, left: real, top: real)
      modifies this`draggedItems
      ensures draggedItems == DropResult(old(draggedItems), data, clientX, clientY, left, top)
    {
      var id := ParseInt(data);
      draggedItems := MoveItem(draggedItems, id, clientX - left, clientY - top);
    }

    /** `playMusic`: flips the sample's playing flag. */
    method PlayMusic()
      modifies this`isPlaying
      ensures isPlaying == !old(isPlaying)
    {
      isPlaying := !isPlaying;
    }
  }
}
