/** The diagram page controller (src/app/canvas/canvas.component.ts):
    click-to-create, JSON import, delete and clear, and the two store
    subscriptions. The subscriptions fire synchronously inside the store
    call that emits, so each handler below calls `OnStateEmission` /
    `OnSelectionEmission` at the point where the store would push a value. */
module CanvasPage {
  import opened Common
  import opened ShapeModel
  import opened CanvasStore

  /** One element of an imported JSON array, read field by field; an
      element that is not an object reads as all fields `Missing`. The
      optional `textPosition`/`zIndex` fields are carried through unchecked. */
  datatype RawShape = RawShape(
    id: Json, kind: Json, x: Json, y: Json, text: Json,
    width: Json, height: Json, color: Json,
    textPosition: Option<Point>, zIndex: Option<real>)

  /** `isValidShape`: the required fields are present with the right JSON
      types and the type is one of the two shape kinds. */
  predicate IsValidShape(o: RawShape) {
    && o.id.Str?
    && (o.kind == Str("circle") || o.kind == Str("square"))
    && o.x.Num? && o.y.Num? && o.text.Str?
    && o.width.Num? && o.height.Num? && o.color.Str?
  }

  function ToShape(o: RawShape): Shape
    requires IsValidShape(o)
  {
    Shape(o.id.s, if o.kind == Str("circle") then Circle else Square,
          o.x.n, o.y.n, o.text.s, o.width.n, o.height.n,
          Some(o.color.s), o.textPosition, o.zIndex)
  }

  /** `parsed.filter(isValidShape)`: keeps the valid elements in order and
      drops the others. */
  function ValidShapes(items: seq<RawShape>): (r: seq<Shape>)
    ensures |r| <= |items|
    ensures r == [] <==> forall i :: 0 <= i < |items| ==> !IsValidShape(items[i])
  {
    if items == [] then []
    else
      (if IsValidShape(items[0]) then [ToShape(items[0])] else [])
      + ValidShapes(items[1..])
  }

  /** Filtering distributes over concatenation: order is preserved and one
      invalid element does not affect the others. */
  lemma {:induction false} ValidShapesAppend(a: seq<RawShape>, b: seq<RawShape>)
    ensures ValidShapes(a + b) == ValidShapes(a) + ValidShapes(b)
  {
    if a == [] {
      assert a + b == b;
    } else {
      var head := if IsValidShape(a[0]) then [ToShape(a[0])] else [];
      calc {
        ValidShapes(a + b);
        { assert (a + b)[0] == a[0] && (a + b)[1..] == a[1..] + b; }
        head + ValidShapes(a[1..] + b);
        { ValidShapesAppend(a[1..], b); }
        head + (ValidShapes(a[1..]) + ValidShapes(b));
        (head + ValidShapes(a[1..])) + ValidShapes(b);
        ValidShapes(a) + ValidShapes(b);
      }
    }
  }

  /** Every valid element is imported, and every imported shape comes from
      a valid element. */
  lemma {:induction false} ValidShapesMembers(items: seq<RawShape>)
    ensures forall i :: 0 <= i < |items| && IsValidShape(items[i]) ==> ToShape(items[i]) in ValidShapes(items)
    ensures forall s :: s in ValidShapes(items) ==>
      exists i :: 0 <= i < |items| && IsValidShape(items[i]) && ToShape(items[i]) == s
  {
    if items != [] {
      var t := items[1..];
      ValidShapesMembers(t);
      forall s | s in ValidShapes(items)
        ensures exists i :: 0 <= i < |items| && IsValidShape(items[i]) && ToShape(items[i]) == s
      {
        if s !in ValidShapes(t) {
          assert IsValidShape(items[0]) && ToShape(items[0]) == s;
        } else {
          var j :| 0 <= j < |t| && IsValidShape(t[j]) && ToShape(t[j]) == s;
          assert items[j + 1] == t[j];
        }
      }
      forall i | 0 <= i < |items| && IsValidShape(items[i])
        ensures ToShape(items[i]) in ValidShapes(items)
      {
        if i > 0 {
          assert items[i] == t[i - 1];
        }
      }
    }
  }

  /** The store contents after deleting, one after the other, the
      identifiers of `removed`. */
  function WithoutAll(shapes: seq<Shape>, removed: seq<Shape>): (r: seq<Shape>)
    ensures forall s :: s in r <==> s in shapes && s.id !in Ids(removed)
  {
    if removed == [] then shapes
    else
      var front := removed[..|removed| - 1];
      assert Ids(removed) == Ids(front) + {removed[|removed| - 1].id} by {
        assert forall i :: 0 <= i < |front| ==> front[i] == removed[i];
      }
      Without(WithoutAll(shapes, front), removed[|removed| - 1].id)
  }

  /** Deleting the identifiers of every shape in the store empties it. */
  lemma ClearEmpties(shapes: seq<Shape>, removed: seq<Shape>)
    requires Ids(shapes) <= Ids(removed)
    ensures WithoutAll(shapes, removed) == []
  {
    var r := WithoutAll(shapes, removed);
    WithoutAllIds(shapes, removed);
    assert |r| > 0 ==> r[0].id in Ids(r);
  }

  /** The identifiers left are those of `shapes` not named in `removed`. */
  lemma WithoutAllIds(shapes: seq<Shape>, removed: seq<Shape>)
    ensures Ids(WithoutAll(shapes, removed)) == Ids(shapes) - Ids(removed)
  {
    var r := WithoutAll(shapes, removed);
    IdsOfMembers(shapes);
    IdsOfMembers(r);
    forall id | id in Ids(r) ensures id in Ids(shapes) && id !in Ids(removed) {
      var i :| 0 <= i < |r| && r[i].id == id;
      assert r[i] in r;
    }
    forall id | id in Ids(shapes) - Ids(removed) ensures id in Ids(r) {
      var i :| 0 <= i < |shapes| && shapes[i].id == id;
      assert shapes[i] in shapes;
    }
  }

  lemma IdsOfMembers(shapes: seq<Shape>)
    ensures forall s :: s in shapes ==> s.id in Ids(shapes)
  {
    forall s | s in shapes ensures s.id in Ids(shapes) {
      var i :| 0 <= i < |shapes| && shapes[i] == s;
    }
  }

  /** How the JSON text parsed. */
  datatype ImportDoc = Unparsable | NotArray | Elements(items: seq<RawShape>)

  /** Which alert the import ends with. */
  datatype LoadOutcome = InvalidJson | NoValidShapes | Loaded(count: nat)

  class CanvasComponent {
    const store: CanvasService
    /** The armed placement tool; `None` means no tool. */
    var selectedShapeType: Option<ShapeType>
    /** The page's copy of the store's list, refreshed on every emission. */
    var shapes: seq<Shape>
    var selectedShapeId: Option<string>
    var showClearModal: bool

    constructor (store: CanvasService)
      ensures this.store == store
      ensures selectedShapeType == None && shapes == [] && selectedShapeId == None && !showClearModal
    {
      this.store := store;
      selectedShapeType := None;
      shapes := [];
      selectedShapeId := None;
      showClearModal := false;
    }

    /** `ngOnInit`: both streams replay their current value on subscribe. */
    method Init()
      modifies this, store
      ensures shapes == store.shapes == old(store.shapes)
      ensures selectedShapeType == Some(old(selectedShapeType).GetOr(Circle))
      ensures store.selected == None && selectedShapeId == None
      ensures store.writes == old(store.writes) && store.emissions == old(store.emissions)
      ensures store.suppressNextCanvasClick == old(store.suppressNextCanvasClick)
      ensures showClearModal == old(showClearModal)
    {
      OnStateEmission();
      OnSelectionEmission(store.selected);
    }

    /** The `selectedShape$` subscription. */
    method OnSelectionEmission(id: Option<string>)
      modifies this`selectedShapeId
      ensures selectedShapeId == id
    {
      selectedShapeId := id;
    }

    /** The `state$` subscription: copy the list, then `setSelectedShape`
        with the armed tool or, when none is armed, 'circle'. Every state
        emission therefore clears the selection. */
    method OnStateEmission()
      modifies this`shapes, this`selectedShapeType, this`selectedShapeId, store`selected
      ensures shapes == store.shapes
      ensures selectedShapeType == Some(old(selectedShapeType).GetOr(Circle))
      ensures store.selected == None && selectedShapeId == None
    {
      shapes := store.shapes;
      SetSelectedShape(selectedShapeType.GetOr(Circle));
    }

    /** Arms a tool and clears the store's selection. */
    method SetSelectedShape(t: ShapeType)
      modifies this`selectedShapeType, this`selectedShapeId, store`selected
      ensures selectedShapeType == Some(t)
      ensures store.selected == None && selectedShapeId == None
    {
      selectedShapeType := Some(t);
      store.SelectShape(None);
      OnSelectionEmission(None);
    }

    /** A click on the canvas background at client position
        (`clientX`, `clientY`); `onShape` says whether the click target lies
        inside an `app-shape` element (`closest('app-shape')`), (`left`, `top`) is the canvas origin and `freshId` the
        identifier the new shape receives. */
    method OnCanvasClick(onShape: bool, clientX: real, clientY: real, left: real, top: real,
                         freshId: string)
      modifies this, store
      // a click right after a drag only re-arms clicking
      ensures old(store.suppressNextCanvasClick) ==>
        && !store.suppressNextCanvasClick
        && store.shapes == old(store.shapes) && store.selected == old(store.selected)
        && store.writes == old(store.writes) && store.emissions == old(store.emissions)
        && selectedShapeType == old(selectedShapeType) && shapes == old(shapes)
        && selectedShapeId == old(selectedShapeId)
      ensures !old(store.suppressNextCanvasClick) && (onShape || old(selectedShapeType).None?) ==>
        && !store.suppressNextCanvasClick
        && store.shapes == old(store.shapes) && store.selected == old(store.selected)
        && store.writes == old(store.writes) && store.emissions == old(store.emissions)
        && selectedShapeType == old(selectedShapeType) && shapes == old(shapes)
        && selectedShapeId == old(selectedShapeId)
      ensures !old(store.suppressNextCanvasClick) && !onShape && old(selectedShapeType).Some? ==>
        && !store.suppressNextCanvasClick
        && |store.shapes| == |old(store.shapes)| + 1
        && store.shapes[..|old(store.shapes)|] == old(store.shapes)
        && (var s := store.shapes[|old(store.shapes)|];
            s.kind == old(selectedShapeType).value && s.id == freshId
            && s.x == clientX - left - 50.0 && s.y == clientY - top - 50.0)
        && store.writes == old(store.writes) + 1 && store.emissions == old(store.emissions) + 1
        && store.selected == None && selectedShapeId == None
        && selectedShapeType == old(selectedShapeType) && shapes == store.shapes
      ensures showClearModal == old(showClearModal)
    {
      if store.suppressNextCanvasClick {
        store.suppressNextCanvasClick := false;
        return;
      }
      if onShape || selectedShapeType.None? {
        return;
      }
      var x := clientX - left - 50.0;
      var y := clientY - top - 50.0;
      var s := store.AddShape(selectedShapeType.value, x, y, freshId);
      OnStateEmission();
    }

    /** A right click outside every shape clears the selection; `onShape`
        says whether the target lies inside an element of class `shape`
        (`closest('.shape')`). */
    method OnContextMenu(onShape: bool)
      modifies this, store
      ensures store.selected == (if onShape then old(store.selected) else None)
      ensures selectedShapeId == (if onShape then old(selectedShapeId) else None)
      ensures store.shapes == old(store.shapes) && shapes == old(shapes)
      ensures store.writes == old(store.writes) && store.emissions == old(store.emissions)
      ensures store.suppressNextCanvasClick == old(store.suppressNextCanvasClick)
      ensures selectedShapeType == old(selectedShapeType) && showClearModal == old(showClearModal)
    {
      if !onShape {
        store.SelectShape(None);
        OnSelectionEmission(None);
      }
    }

    /** Deletes the selected shape; does nothing when no shape is selected
        (an empty identifier counts as none). */
    method DeleteSelectedShape()
      modifies this, store
      ensures old(selectedShapeId).None? || old(selectedShapeId) == Some("") ==>
        && store.shapes == old(store.shapes) && store.selected == old(store.selected)
        && store.writes == old(store.writes) && store.emissions == old(store.emissions)
        && shapes == old(shapes) && selectedShapeId == old(selectedShapeId)
        && selectedShapeType == old(selectedShapeType)
      ensures old(selectedShapeId).Some? && old(selectedShapeId) != Some("") ==>
        && store.shapes == Without(old(store.shapes), old(selectedShapeId).value)
        && shapes == store.shapes
        && store.writes == old(store.writes) + 1 && store.emissions == old(store.emissions) + 1
        && store.selected == None && selectedShapeId == None
        && selectedShapeType == Some(old(selectedShapeType).GetOr(Circle))
      ensures store.suppressNextCanvasClick == old(store.suppressNextCanvasClick)
      ensures showClearModal == old(showClearModal)
    {
      if selectedShapeId.Some? && selectedShapeId.value != "" {
        var id := selectedShapeId.value;
        var wasSelected := store.selected == Some(id);
        store.DeleteShape(id);
        if wasSelected {
          OnSelectionEmission(None);
        }
        OnStateEmission();
      }
    }

    /** Imports shapes from JSON text: anything but an array is rejected,
        invalid elements are dropped, and the store is replaced only when
        at least one element is valid. */
    method LoadCanvasFromJson(doc: ImportDoc) returns (outcome: LoadOutcome)
      modifies this, store
      ensures doc.Unparsable? || doc.NotArray? ==> outcome == InvalidJson
      ensures doc.Elements? ==>
        outcome == if ValidShapes(doc.items) == [] then NoValidShapes
                   else Loaded(|ValidShapes(doc.items)|)
      ensures !outcome.Loaded? ==>
        && store.shapes == old(store.shapes) && store.selected == old(store.selected)
        && store.writes == old(store.writes) && store.emissions == old(store.emissions)
        && shapes == old(shapes) && selectedShapeId == old(selectedShapeId)
        && selectedShapeType == old(selectedShapeType)
      ensures outcome.Loaded? ==>
        && store.shapes == ValidShapes(doc.items) && shapes == store.shapes
        && store.writes == old(store.writes) + 1 && store.emissions == old(store.emissions) + 2
        && store.selected == None && selectedShapeId == None
        && selectedShapeType == Some(old(selectedShapeType).GetOr(Circle))
      ensures store.suppressNextCanvasClick == old(store.suppressNextCanvasClick)
      ensures showClearModal == old(showClearModal)
    {
      if !doc.Elements? {
        return InvalidJson;
      }
      var valid := ValidShapes(doc.items);
      if valid == [] {
        return NoValidShapes;
      }
      shapes := valid;
      store.ReplaceAllShapes(valid);
      // replaceAllShapes pushes the new state twice
      OnStateEmission();
      OnStateEmission();
      outcome := Loaded(|valid|);
    }

    method OpenClearCanvasModal()
      modifies this`showClearModal
      ensures showClearModal
    {
      showClearModal := true;
    }

    method HandleClearCancel()
      modifies this`showClearModal
      ensures !showClearModal
    {
      showClearModal := false;
    }

    /** Deletes the shapes of `snapshot` one by one; each deletion's
        emission refreshes the page's copy of the list, re-arms the tool
        (circle when none is armed) and clears the selection. */
    method DeleteEach(snapshot: seq<Shape>)
      modifies this`shapes, this`selectedShapeType, this`selectedShapeId,
               store`shapes, store`selected, store`writes, store`emissions
      ensures store.shapes == WithoutAll(old(store.shapes), snapshot)
      ensures store.writes == old(store.writes) + |snapshot|
      ensures store.emissions == old(store.emissions) + |snapshot|
      ensures snapshot != [] ==>
        && shapes == store.shapes
        && selectedShapeType == Some(old(selectedShapeType).GetOr(Circle))
        && store.selected == None && selectedShapeId == None
      ensures snapshot == [] ==>
        && shapes == old(shapes) && selectedShapeType == old(selectedShapeType)
        && store.selected == old(store.selected) && selectedShapeId == old(selectedShapeId)
    {
      var k := 0;
      while k < |snapshot|
        invariant 0 <= k <= |snapshot|
        invariant store.shapes == WithoutAll(old(store.shapes), snapshot[..k])
        invariant store.writes == old(store.writes) + k
        invariant store.emissions == old(store.emissions) + k
        invariant k > 0 ==>
          && shapes == store.shapes
          && selectedShapeType == Some(old(selectedShapeType).GetOr(Circle))
          && store.selected == None && selectedShapeId == None
        invariant k == 0 ==>
          && shapes == old(shapes) && selectedShapeType == old(selectedShapeType)
          && store.selected == old(store.selected) && selectedShapeId == old(selectedShapeId)
      {
        ghost var done := snapshot[..k + 1];
        assert done[..k] == snapshot[..k] && done[k] == snapshot[k];
        store.DeleteShape(snapshot[k].id);
        assert store.shapes == WithoutAll(old(store.shapes), done);
        OnStateEmission();
        k := k + 1;
      }
      assert snapshot[..k] == snapshot;
    }

    /** Deletes, one by one, every shape in the page's copy of the list,
        then disarms the tool and clears the selection. The page's copy
        ends equal to the store's list. */
    method HandleClearConfirm()
      modifies this`selectedShapeType, this`shapes, this`selectedShapeId, this`showClearModal,
               store`shapes, store`selected, store`writes, store`emissions
      ensures store.shapes == WithoutAll(old(store.shapes), old(shapes))
      ensures Ids(old(store.shapes)) <= Ids(old(shapes)) ==> store.shapes == []
      ensures store.writes == old(store.writes) + |old(shapes)|
      ensures store.emissions == old(store.emissions) + |old(shapes)|
      ensures selectedShapeType == None && store.selected == None && selectedShapeId == None
      ensures !showClearModal
      ensures old(shapes) != [] ==> shapes == store.shapes
      ensures old(shapes) == [] ==> shapes == []
    {
      var snapshot := shapes;
      DeleteEach(snapshot);
      if Ids(old(store.shapes)) <= Ids(snapshot) {
        ClearEmpties(old(store.shapes), snapshot);
      }
      selectedShapeType := None;
      store.SelectShape(None);
      OnSelectionEmission(None);
      showClearModal := false;
    }
  }
}
