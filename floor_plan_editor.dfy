/** The floor-plan editor: a canvas of items that the user drags, selects, resizes,
    rotates and resets. Pointer positions arrive already converted to percentages of
    the canvas; `None` stands for a pointer event that arrives before the canvas exists. */
module FloorPlanEditor {
  import opened Types

  /** A position in canvas percentages. */
  datatype Point = Point(x: real, y: real)

  /** A partial item (`Partial<FloorItem>`): each field is either given or left as it is. */
  datatype ItemUpdate = ItemUpdate(
    id: Option<string>,
    kind: Option<ItemType>,
    name: Option<string>,
    x: Option<real>,
    y: Option<real>,
    w: Option<real>,
    h: Option<real>,
    rotation: Option<int>,
    connectivity: Option<Connectivity>,
    zone: Option<Zone>,
    color: Option<string>,
    icon: Option<string>)

  /** The update that names no field. */
  const NoChange := ItemUpdate(None, None, None, None, None, None, None, None, None, None, None, None)

  /** The updates the control panel sends: one field each. */
  function RotationUpdate(r: int): (u: ItemUpdate)
    ensures forall item :: Merge(item, u) == item.(rotation := r)
  {
    NoChange.(rotation := Some(r))
  }

  function WidthUpdate(w: real): (u: ItemUpdate)
    ensures forall item :: Merge(item, u) == item.(w := w)
  {
    NoChange.(w := Some(w))
  }

  function HeightUpdate(h: real): (u: ItemUpdate)
    ensures forall item :: Merge(item, u) == item.(h := h)
  {
    NoChange.(h := Some(h))
  }

  function ConnectivityUpdate(c: Connectivity): (u: ItemUpdate)
    ensures forall item :: Merge(item, u) == item.(connectivity := c)
  {
    NoChange.(connectivity := Some(c))
  }

  function Pick<T>(given: Option<T>, current: T): T
  {
    match given
    case Some(v) => v
    case None => current
  }

  /** Object spread `{ ...item, ...u }`: the given fields of `u` win. */
  function Merge(item: FloorItem, u: ItemUpdate): FloorItem
  {
    FloorItem(
      Pick(u.id, item.id), Pick(u.kind, item.kind), Pick(u.name, item.name),
      Pick(u.x, item.x), Pick(u.y, item.y), Pick(u.w, item.w), Pick(u.h, item.h),
      Pick(u.rotation, item.rotation), Pick(u.connectivity, item.connectivity),
      Pick(u.zone, item.zone), Pick(u.color, item.color), Pick(u.icon, item.icon))
  }

  /** The zone a drag assigns: the top quarter of the canvas is the outdoor terrace. */
  function ZoneFor(y: real): Zone
  {
    if y < 25.0 then Outdoor else Indoor
  }

  /** The per-item transform of a pointer move. */
  function Moved(item: FloorItem, x: real, y: real): FloorItem
  {
    item.(x := x, y := y, zone := ZoneFor(y))
  }

  /** `items.map(item => item.id === id ? f(item) : item)`. */
  function MapMatching(items: seq<FloorItem>, id: string, f: FloorItem -> FloorItem): (r: seq<FloorItem>)
    ensures |r| == |items|
    ensures forall i :: 0 <= i < |items| ==> r[i] == if items[i].id == id then f(items[i]) else items[i]
  {
    if items == [] then []
    else [if items[0].id == id then f(items[0]) else items[0]] + MapMatching(items[1..], id, f)
  }

  /** The list after `updateItem(id, u)`. */
  function UpdateMatching(items: seq<FloorItem>, id: string, u: ItemUpdate): seq<FloorItem>
  {
    MapMatching(items, id, item => Merge(item, u))
  }

  /** The list after a pointer move of the item `id` to `(x, y)`. */
  function MoveMatching(items: seq<FloorItem>, id: string, x: real, y: real): seq<FloorItem>
  {
    MapMatching(items, id, item => Moved(item, x, y))
  }

  /** `items.find(i => i.id === id)`: the first item carrying `id`. */
  function FindById(items: seq<FloorItem>, id: string): (r: Option<FloorItem>)
    ensures r.None? <==> forall i :: 0 <= i < |items| ==> items[i].id != id
    ensures r.Some? ==> exists k :: 0 <= k < |items| && items[k] == r.value && r.value.id == id &&
                          forall j :: 0 <= j < k ==> items[j].id != id
  {
    if items == [] then None
    else if items[0].id == id then Some(items[0])
    else
      var r := FindById(items[1..], id);
      assert r.Some? ==> exists k :: 0 <= k < |items[1..]| && items[1..][k] == r.value && r.value.id == id &&
                          forall j :: 0 <= j < k ==> items[1..][j].id != id;
      r
  }

  /** JavaScript's `%` on integers, which truncates toward zero (the sign follows the dividend). */
  function JsRem(a: int, n: int): (r: int)
    requires n > 0
    ensures -n < r < n
    ensures exists q: int :: a == q * n + r
    ensures a >= 0 ==> r >= 0
    ensures a < 0 ==> r <= 0
  {
    if a >= 0 then
      assert a == (a / n) * n + a % n;
      a % n
    else
      var q := (-a) / n;
      assert -a == q * n + (-a) % n;
      assert a == (-q) * n + -((-a) % n);
      -((-a) % n)
  }

  /** One press of the rotate button: `(r + 90) % 360`. */
  function Rotate(r: int): int
  {
    JsRem(r + 90, 360)
  }

  /** The positions of the initial layout. */
  function InitialItems(): seq<FloorItem>
  {
    [ FloorItem("stairs", Stairs, "سلم دوران", 80.0, 80.0, 15.0, 15.0, 0, Open, Indoor, "bg-gray-800", "stairs"),
      FloorItem("door", Door, "باب جرار", 35.0, 25.0, 30.0, 2.0, 0, Open, Indoor, "bg-blue-500", "door"),
      FloorItem("kitchen", Kitchen, "مطبخ بار", 60.0, 40.0, 25.0, 15.0, 0, Open, Indoor, "bg-orange-200", "kitchen"),
      FloorItem("sofa", Sofa, "انتريه", 10.0, 40.0, 25.0, 20.0, 0, Open, Indoor, "bg-emerald-200", "sofa"),
      FloorItem("desk", Desk, "مكتب L", 10.0, 10.0, 20.0, 15.0, 0, Partition, Indoor, "bg-purple-200", "desk"),
      FloorItem("bath", Bath, "حمام ضيوف", 75.0, 5.0, 20.0, 20.0, 0, Enclosed, Indoor, "bg-cyan-100", "bath"),
      FloorItem("outdoor", OutdoorSeating, "جلسة خارجية", 20.0, -15.0, 20.0, 15.0, 0, Open, Outdoor, "bg-green-100", "outdoor") ]
  }

  predicate DistinctIds(items: seq<FloorItem>)
  {
    forall i, j :: 0 <= i < j < |items| ==> items[i].id != items[j].id
  }

  // ---------------------------------------------------------------------------
  // Properties of the pure transforms
  // ---------------------------------------------------------------------------

  /** A move rewrites position and zone of the dragged item only; `zone` is outdoor iff
      the new `y` is below 25, and size, rotation, connectivity and label are kept. */
  lemma MoveRewritesDraggedOnly(items: seq<FloorItem>, id: string, x: real, y: real)
    ensures var r := MoveMatching(items, id, x, y);
      |r| == |items| &&
      forall i :: 0 <= i < |items| ==>
        if items[i].id == id then
          r[i].x == x && r[i].y == y && (r[i].zone == Outdoor <==> y < 25.0) &&
          r[i].id == id && r[i].kind == items[i].kind && r[i].name == items[i].name &&
          r[i].w == items[i].w && r[i].h == items[i].h && r[i].rotation == items[i].rotation &&
          r[i].connectivity == items[i].connectivity && r[i].color == items[i].color &&
          r[i].icon == items[i].icon
        else r[i] == items[i]
  {
  }

  /** `updateItem` with an id that no item carries leaves the list as it is. */
  lemma UpdateAbsentIdIsIdentity(items: seq<FloorItem>, id: string, u: ItemUpdate)
    requires forall i :: 0 <= i < |items| ==> items[i].id != id
    ensures UpdateMatching(items, id, u) == items
  {
    var r := UpdateMatching(items, id, u);
    assert forall i :: 0 <= i < |items| ==> r[i] == items[i];
  }

  /** Applying the same update twice is the same as applying it once, even when the
      update rewrites the id itself. */
  lemma UpdateIdempotent(items: seq<FloorItem>, id: string, u: ItemUpdate)
    ensures UpdateMatching(UpdateMatching(items, id, u), id, u) == UpdateMatching(items, id, u)
  {
    var once := UpdateMatching(items, id, u);
    var twice := UpdateMatching(once, id, u);
    forall i | 0 <= i < |items|
      ensures twice[i] == once[i]
    {
      if items[i].id == id {
        assert once[i] == Merge(items[i], u);
        assert Merge(once[i], u) == once[i];
      }
    }
  }

  /** The rotate button keeps a quarter-turn angle a quarter-turn angle. */
  lemma RotateClosedOnQuarterTurns(r: int)
    requires r == 0 || r == 90 || r == 180 || r == 270
    ensures Rotate(r) == (if r == 270 then 0 else r + 90)
  {
  }

  /** Four presses bring any angle in [0, 360) back to itself. */
  lemma RotateFourTimes(r: int)
    requires 0 <= r < 360
    ensures Rotate(Rotate(Rotate(Rotate(r)))) == r
  {
  }

  /** Any angle reached by a press from a non-negative angle lies in [0, 360). */
  lemma RotateRange(r: int)
    requires r >= 0
    ensures 0 <= Rotate(r) < 360
  {
  }

  lemma InitialItemsDistinct()
    ensures |InitialItems()| == 7 && DistinctIds(InitialItems())
  {
  }

  /** Two items of the initial layout, the desk and the bath, are indoor although they lie
      in the band that a drag classifies as outdoor; a drag that puts them back where they
      were therefore turns them into outdoor items. */
  lemma InitialItemsInOutdoorBand()
    ensures forall i :: 0 <= i < |InitialItems()| && InitialItems()[i].id in {"desk", "bath"} ==>
      InitialItems()[i].zone == Indoor && ZoneFor(InitialItems()[i].y) == Outdoor
  {
  }

  // ---------------------------------------------------------------------------
  // The editor component
  // ---------------------------------------------------------------------------

  class Editor {
    /** The floor items, in rendering order. */
    var items: seq<FloorItem>
    /** The item being dragged, if any. */
    var activeDragId: Option<string>
    /** The item whose controls are shown; it survives the end of a drag. */
    var selectedId: Option<string>
    /** Pointer position minus item position at the moment the drag started. */
    var dragOffset: Point

    /** Mounting the editor over `initial`; the mount effect seeds the initial layout
        when the list is empty. */
    constructor (initial: seq<FloorItem>)
      ensures items == if initial == [] then InitialItems() else initial
      ensures activeDragId == None && selectedId == None && dragOffset == Point(0.0, 0.0)
    {
      items := initial;
      activeDragId := None;
      selectedId := None;
      dragOffset := Point(0.0, 0.0);
      if |initial| == 0 {
        items := InitialItems();
      }
    }

    /** `!activeDragId` is also true of the empty string, so only a non-empty id drags. */
    predicate Dragging()
      reads this
    {
      activeDragId.Some? && activeDragId.value != ""
    }

    /** The item the control panel shows. */
    function SelectedItem(): Option<FloorItem>
      reads this
    {
      match selectedId
      case None => None
      case Some(s) => FindById(items, s)
    }

    /** Pointer-down on the item `id` drawn at `(currentX, currentY)`. */
    method PointerDown(id: string, currentX: real, currentY: real, pointer: Option<Point>)
      modifies this
      ensures selectedId == Some(id) && items == old(items)
      ensures pointer.None? ==> activeDragId == old(activeDragId) && dragOffset == old(dragOffset)
      ensures pointer.Some? ==>
        activeDragId == Some(id) &&
        dragOffset == Point(pointer.value.x - currentX, pointer.value.y - currentY)
    {
      selectedId := Some(id);
      if pointer.None? {
        return;
      }
      var p := pointer.value;
      dragOffset := Point(p.x - currentX, p.y - currentY);
      activeDragId := Some(id);
    }

    /** Pointer-move over the canvas: the dragged item follows the pointer, keeping the
        grab offset, and takes the zone of its new `y`. */
    method PointerMove(pointer: Option<Point>)
      modifies this`items
      ensures !old(Dragging()) || pointer.None? ==> items == old(items)
      ensures old(Dragging()) && pointer.Some? ==>
        items == MoveMatching(old(items), activeDragId.value,
                              pointer.value.x - dragOffset.x, pointer.value.y - dragOffset.y)
    {
      if !Dragging() || pointer.None? {
        return;
      }
      var newX := pointer.value.x - dragOffset.x;
      var newY := pointer.value.y - dragOffset.y;
      items := MoveMatching(items, activeDragId.value, newX, newY);
    }

    /** Pointer-up ends the drag; selection and items stay. */
    method PointerUp()
      modifies this`activeDragId
      ensures activeDragId == None && !Dragging()
    {
      activeDragId := None;
    }

    /** `updateItem(id, u)`. */
    method UpdateItem(id: string, u: ItemUpdate)
      modifies this`items
      ensures items == UpdateMatching(old(items), id, u)
    {
      items := UpdateMatching(items, id, u);
    }

    /** A control-panel edit (width, height, connectivity) of the selected item; the
        panel is not shown, so nothing happens, when no item is selected. */
    method UpdateSelected(u: ItemUpdate)
      modifies this`items
      ensures old(SelectedItem()).None? ==> items == old(items)
      ensures old(SelectedItem()).Some? ==> items == UpdateMatching(old(items), old(SelectedItem()).value.id, u)
    {
      var selected := SelectedItem();
      if selected.Some? {
        UpdateItem(selected.value.id, u);
      }
    }

    /** The rotate button of the control panel. */
    method RotateSelected()
      modifies this`items
      ensures old(SelectedItem()).None? ==> items == old(items)
      ensures old(SelectedItem()).Some? ==>
        var s := old(SelectedItem()).value;
        items == UpdateMatching(old(items), s.id, RotationUpdate(Rotate(s.rotation)))
    {
      var selected := SelectedItem();
      if selected.Some? {
        UpdateItem(selected.value.id, RotationUpdate(Rotate(selected.value.rotation)));
      }
    }

    /** The reset button. */
    method Reset()
      modifies this`items
      ensures items == InitialItems() && DistinctIds(items)
    {
      items := InitialItems();
      InitialItemsDistinct();
    }
  }

  // ---------------------------------------------------------------------------
  // Interaction scenarios
  // ---------------------------------------------------------------------------

  /** Grabbing an item and moving the pointer back to where it was grabbed leaves the
      item where it was: the offset recorded on pointer-down is what the move subtracts. */
  method DragInPlace(initial: seq<FloorItem>, k: nat, pointer: Point) returns (moved: FloorItem)
    requires k < |initial|
    ensures moved.id == initial[k].id && moved.x == initial[k].x && moved.y == initial[k].y
    ensures moved.w == initial[k].w && moved.h == initial[k].h && moved.rotation == initial[k].rotation
    ensures initial[k].id != "" ==> moved.zone == ZoneFor(initial[k].y)
  {
    var editor := new Editor(initial);
    var item := initial[k];
    editor.PointerDown(item.id, item.x, item.y, Some(pointer));
    editor.PointerMove(Some(pointer));
    moved := editor.items[k];
  }

  /** After pointer-up, a pointer-move changes nothing, wherever the pointer goes. */
  method ReleaseThenMove(initial: seq<FloorItem>, id: string, down: Point, move: Point)
    returns (released: seq<FloorItem>, after: seq<FloorItem>, selected: Option<string>)
    ensures released == (if initial == [] then InitialItems() else initial)
    ensures after == released
    ensures selected == Some(id)
  {
    var editor := new Editor(initial);
    var start := FindById(editor.items, id);
    editor.PointerDown(id, if start.Some? then start.value.x else 0.0,
                       if start.Some? then start.value.y else 0.0, Some(down));
    editor.PointerUp();
    released := editor.items;
    editor.PointerMove(Some(move));
    after := editor.items;
    selected := editor.selectedId;
  }
}
