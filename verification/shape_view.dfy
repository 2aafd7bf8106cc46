/** The per-shape interaction state machine
    (src/app/components/shape/shape.component.ts): text editing, dragging,
    colour picking and the reaction to selection changes. Screen geometry
    (the canvas container's left/top corner) arrives as parameters. */
module ShapeView {
  import opened Common
  import opened Text
  import opened ShapeModel
  import opened CanvasStore

  /** The `shapeColor` getter: the shape's own colour when it is a
      non-blank string, the default yellow otherwise. */
  function ShapeColor(shape: Shape): (r: string)
    ensures Trim(r) != []
    ensures r == DefaultColor || shape.color == Some(r)
    ensures shape.color.Some? && Trim(shape.color.value) != [] ==> r == shape.color.value
    ensures shape.color.None? || Trim(shape.color.value) == [] ==> r == DefaultColor
  {
    if shape.color.Some? && Trim(shape.color.value) != [] then shape.color.value
    else
      TrimStartOfClean(DefaultColor);
      TrimEndOfClean(DefaultColor);
      DefaultColor
  }

  /** The grab offset recorded on mouse-down: how far the pointer is from
      the shape's corner, both in client coordinates. */
  function DragOffset(client: real, origin: real, pos: real): (r: real)
    ensures origin + pos + r == client
  {
    client - (origin + pos)
  }

  /** The position a mouse-move asks for: the one at which the pointer is
      again at the recorded grab offset from the shape's corner. */
  function DragTarget(client: real, origin: real, offset: real): (r: real)
    ensures DragOffset(client, origin, r) == offset
  {
    client - origin - offset
  }

  /** With a container that does not move, the shape follows the pointer:
      it moves by exactly the pointer's displacement since the press, and
      stays put at the press point. */
  lemma DragFollowsPointer(press: real, now: real, origin: real, pos: real)
    ensures DragTarget(now, origin, DragOffset(press, origin, pos)) == pos + (now - press)
    ensures DragTarget(press, origin, DragOffset(press, origin, pos)) == pos
  {
  }

  class ShapeComponent {
    const store: CanvasService
    /** The shape bound to the `shape` input. */
    var shape: Shape
    var isSelected: bool
    var isEditing: bool
    var isDragging: bool
    var colorPickerOpen: bool
    var editingText: string
    var originalText: string
    var inputWidth: real
    var dragOffsetX: real
    var dragOffsetY: real
    /** Whether the document-level mousemove/mouseup listeners are registered. */
    var moveListening: bool
    var upListening: bool
    /** Where the last drag started: the shape's position, the pointer and
        the container corner at the press. */
    ghost var grabX: real
    ghost var grabY: real
    ghost var pressX: real
    ghost var pressY: real
    ghost var pressLeft: real
    ghost var pressTop: real

    /** The shape as the component reads it. The input is the object the
        store holds under that id, which the store's position update
        changes in place, so while the store holds the id its fields are
        the store's; once the store has dropped it, the last binding. */
    function Current(): (r: Shape)
      reads this`shape, store`shapes
      ensures r.id == shape.id
      ensures shape.id in Ids(store.shapes) ==> r in store.shapes
      ensures shape.id !in Ids(store.shapes) ==> r == shape
    {
      var i := IndexOf(store.shapes, shape.id);
      if i == -1 then shape else store.shapes[i]
    }

    /** The `shapeColor` getter on the shape as currently read: never
        blank, the shape's own colour when that is non-blank, and the
        default otherwise. */
    function Color(): (r: string)
      reads this`shape, store`shapes
      ensures Trim(r) != []
      ensures Current().color.Some? && Trim(Current().color.value) != [] ==>
        r == Current().color.value
      ensures Current().color.None? || Trim(Current().color.value) == [] ==>
        r == DefaultColor
    {
      ShapeColor(Current())
    }

    /** The drag offset is the one recorded at the last press. */
    ghost predicate Valid()
      reads this`dragOffsetX, this`dragOffsetY, this`pressX, this`pressY
      reads this`pressLeft, this`pressTop, this`grabX, this`grabY
    {
      && dragOffsetX == DragOffset(pressX, pressLeft, grabX)
      && dragOffsetY == DragOffset(pressY, pressTop, grabY)
    }

    constructor (store: CanvasService, shape: Shape)
      ensures Valid()
      ensures this.store == store && this.shape == shape
      ensures !isSelected && !isEditing && !isDragging && !colorPickerOpen
      ensures editingText == "" && originalText == "" && inputWidth == 100.0
      ensures dragOffsetX == 0.0 && dragOffsetY == 0.0
      ensures !moveListening && !upListening
    {
      this.store := store;
      this.shape := shape;
      isSelected, isEditing, isDragging, colorPickerOpen := false, false, false, false;
      editingText, originalText := "", "";
      inputWidth := 100.0;
      dragOffsetX, dragOffsetY := 0.0, 0.0;
      moveListening, upListening := false, false;
      grabX, grabY, pressX, pressY, pressLeft, pressTop := 0.0, 0.0, 0.0, 0.0, 0.0, 0.0;
    }

    /** The `selectedShape$` subscription: the component is selected exactly
        when the store's selection is its id, and losing the selection ends
        editing. */
    method OnSelectionEmission(selectedId: Option<string>)
      modifies this`isSelected, this`isEditing
      ensures isSelected <==> selectedId == Some(shape.id)
      ensures isEditing <==> old(isEditing) && isSelected
    {
      isSelected := selectedId == Some(shape.id);
      if !isSelected {
        isEditing := false;
      }
    }

    /** `ngOnChanges`: a new object bound to the input; the text an edit
        would be measured against becomes its text. */
    method OnChanges(s: Shape)
      modifies this`shape, this`originalText
      ensures shape == s && originalText == s.text
    {
      shape := s;
      originalText := s.text;
    }

    /** A double-click on the shape. Right after a drag it only clears the
        drag flag; otherwise it starts editing the current text and
        selects the shape. */
    method StartEditing()
      modifies this`isDragging, this`isEditing, this`isSelected, this`inputWidth
      modifies this`editingText, this`originalText, store`selected
      ensures old(isDragging) ==>
        && !isDragging && isEditing == old(isEditing)
        && editingText == old(editingText) && originalText == old(originalText)
        && store.selected == old(store.selected) && isSelected == old(isSelected)
        && inputWidth == old(inputWidth)
      ensures !old(isDragging) ==>
        && !isDragging && isEditing && isSelected
        && originalText == Current().text && editingText == Current().text
        && store.selected == Some(shape.id) && inputWidth == Current().width
    {
      if isDragging {
        isDragging := false;
        return;
      }
      var cur := Current();
      inputWidth := cur.width;
      originalText := cur.text;
      editingText := cur.text;
      isEditing := true;
      store.SelectShape(Some(shape.id));
      OnSelectionEmission(Some(shape.id));
    }

    /** Commits the edit: the trimmed text goes to the store only when it
        differs from the text editing started with, and the input is rebound
        to a copy of the shape with that text; editing ends either way. */
    method SaveText()
      modifies this`isEditing, this`shape, store`shapes, store`writes, store`emissions
      ensures !isEditing
      ensures Trim(old(editingText)) == old(originalText) ==>
        && shape == old(shape)
        && store.shapes == old(store.shapes)
        && store.writes == old(store.writes) && store.emissions == old(store.emissions)
      ensures Trim(old(editingText)) != old(originalText) ==>
        && shape == old(Current()).(text := Trim(old(editingText)))
        && Current().text == Trim(old(editingText))
        && var i := IndexOf(old(store.shapes), old(shape).id);
           if i == -1 || old(store.shapes)[i].text == shape.text then
             && store.shapes == old(store.shapes)
             && store.writes == old(store.writes) && store.emissions == old(store.emissions)
           else
             && store.shapes == old(store.shapes)[i := old(store.shapes)[i].(text := shape.text)]
             && store.writes == old(store.writes) + 1 && store.emissions == old(store.emissions) + 2
    {
      var newText := Trim(editingText);
      if newText != originalText {
        CommitText(newText);
      }
      isEditing := false;
    }

    /** The changed-text branch of `saveText`: the store updates the text
        of the shape with this id, and the input is rebound to a copy of
        the current shape carrying the new text. */
    method CommitText(newText: string)
      modifies this`shape, store`shapes, store`writes, store`emissions
      ensures shape == old(Current()).(text := newText)
      ensures Current().text == newText
      ensures var i := IndexOf(old(store.shapes), old(shape).id);
        if i == -1 || old(store.shapes)[i].text == newText then
          && store.shapes == old(store.shapes)
          && store.writes == old(store.writes) && store.emissions == old(store.emissions)
        else
          && store.shapes == old(store.shapes)[i := old(store.shapes)[i].(text := newText)]
          && store.writes == old(store.writes) + 1 && store.emissions == old(store.emissions) + 2
    {
      var cur := Current();
      ghost var before := store.shapes;
      ghost var i := IndexOf(before, shape.id);
      if i >= 0 {
        ReplaceAtKeepsIndex(before, i, before[i].(text := newText), shape.id);
      }
      store.UpdateShapeText(shape.id, newText);
      shape := cur.(text := newText);
      if i >= 0 {
        assert store.shapes == before[i := before[i].(text := newText)] by {
          if before[i].text == newText {
            assert before[i] == before[i].(text := newText);
          }
        }
        assert IndexOf(store.shapes, shape.id) == i;
      }
    }

    /** Abandons the edit: the input is rebound to a copy of the shape with
        the text editing started with, and the store is not told anything. */
    method CancelEditing()
      modifies this`isEditing, this`shape
      ensures !isEditing
      ensures shape == old(Current()).(text := originalText)
    {
      isEditing := false;
      shape := Current().(text := originalText);
    }

    /** A mouse press on the shape at client (`clientX`, `clientY`), with the
        container's corner at (`left`, `top`). Only a left press outside
        editing starts a drag. */
    method OnMouseDown(button: int, clientX: real, clientY: real, left: real, top: real)
      requires Valid()
      modifies this`isDragging, this`isSelected, this`dragOffsetX, this`dragOffsetY
      modifies this`grabX, this`grabY, this`pressX, this`pressY, this`pressLeft, this`pressTop
      modifies this`moveListening, this`upListening, store`selected
      ensures Valid()
      ensures old(isEditing) || button != 0 ==>
        && isDragging == old(isDragging) && store.selected == old(store.selected)
        && dragOffsetX == old(dragOffsetX) && dragOffsetY == old(dragOffsetY)
        && moveListening == old(moveListening) && upListening == old(upListening)
        && isSelected == old(isSelected) && isEditing == old(isEditing)
      ensures !old(isEditing) && button == 0 ==>
        && isDragging && store.selected == Some(shape.id) && isSelected
        && moveListening && upListening
        && grabX == Current().x && grabY == Current().y
        && pressX == clientX && pressY == clientY && pressLeft == left && pressTop == top
    {
      if !isEditing && button == 0 {
        var cur := Current();
        var x, y := cur.x, cur.y;
        isDragging, isSelected := true, true;
        dragOffsetX, dragOffsetY := DragOffset(clientX, left, x), DragOffset(clientY, top, y);
        grabX, grabY, pressX, pressY, pressLeft, pressTop := x, y, clientX, clientY, left, top;
        moveListening, upListening := true, true;
        store.SelectShape(Some(shape.id));
      }
    }

    /** Pointer movement during a drag, with the container's corner now at
        (`left`, `top`): the store moves the shape to the pointer minus the
        container corner minus the grab offset. When the container has not
        moved since the press, that is the shape's position at the press
        plus the pointer's displacement. */
    method OnMouseMove(clientX: real, clientY: real, left: real, top: real)
      requires Valid()
      modifies store`shapes, store`writes, store`emissions
      ensures !isDragging ==>
        store.shapes == old(store.shapes) && store.writes == old(store.writes)
        && store.emissions == old(store.emissions)
      ensures isDragging ==>
        var i := IndexOf(old(store.shapes), shape.id);
        var x, y := DragTarget(clientX, left, dragOffsetX), DragTarget(clientY, top, dragOffsetY);
        if i == -1 || (old(store.shapes)[i].x == x && old(store.shapes)[i].y == y) then
          && store.shapes == old(store.shapes)
          && store.writes == old(store.writes) && store.emissions == old(store.emissions)
        else
          && store.shapes == old(store.shapes)[i := old(store.shapes)[i].(x := x, y := y)]
          && store.writes == old(store.writes) + 1 && store.emissions == old(store.emissions) + 1
      ensures isDragging && shape.id in Ids(old(store.shapes)) ==>
        && Current().x == DragTarget(clientX, left, dragOffsetX)
        && Current().y == DragTarget(clientY, top, dragOffsetY)
      ensures isDragging && left == pressLeft && top == pressTop ==>
        var i := IndexOf(old(store.shapes), shape.id);
        if i == -1 then store.shapes == old(store.shapes)
        else store.shapes == old(store.shapes)[i := old(store.shapes)[i].(
               x := grabX + (clientX - pressX), y := grabY + (clientY - pressY))]
      ensures UniqueIds(old(store.shapes)) ==> UniqueIds(store.shapes)
    {
      if !isDragging {
        return;
      }
      var newX := DragTarget(clientX, left, dragOffsetX);
      var newY := DragTarget(clientY, top, dragOffsetY);
      DragFollowsPointer(pressX, clientX, pressLeft, grabX);
      DragFollowsPointer(pressY, clientY, pressTop, grabY);
      var found := store.UpdateShapePosition(shape.id, newX, newY);
      ghost var i := IndexOf(old(store.shapes), shape.id);
      if i >= 0 && store.shapes == old(store.shapes) {
        assert old(store.shapes)[i] == old(store.shapes)[i].(x := newX, y := newY);
      }
      if i >= 0 {
        ReplaceAtKeepsIndex(old(store.shapes), i, store.shapes[i], shape.id);
      }
    }

    /** Releasing the mouse ends a drag, arms the store's flag that swallows
        the click the release produces, and removes both document
        listeners. */
    method OnMouseUp()
      modifies this`isDragging, this`moveListening, this`upListening, store`suppressNextCanvasClick
      ensures !isDragging && !moveListening && !upListening
      ensures store.suppressNextCanvasClick ==
        (old(isDragging) || old(store.suppressNextCanvasClick))
    {
      if isDragging {
        isDragging := false;
        store.suppressNextCanvasClick := true;
      }
      moveListening := false;
      upListening := false;
    }

    /** Picks a colour from the palette and closes it; the shape, read
        through the store, then has that colour. */
    method SetShapeColor(color: string)
      modifies store`shapes, store`writes, store`emissions, this`colorPickerOpen
      ensures !colorPickerOpen
      ensures shape.id in Ids(old(store.shapes)) ==> Current().color == Some(color)
      ensures shape.id in Ids(old(store.shapes)) && Trim(color) != [] ==> Color() == color
      ensures var i := IndexOf(old(store.shapes), shape.id);
        if i == -1 || old(store.shapes)[i].color == Some(color) then
          && store.shapes == old(store.shapes)
          && store.writes == old(store.writes) && store.emissions == old(store.emissions)
        else
          && store.shapes == old(store.shapes)[i := old(store.shapes)[i].(color := Some(color))]
          && store.writes == old(store.writes) + 1 && store.emissions == old(store.emissions) + 2
    {
      store.UpdateShapeColor(shape.id, color);
      colorPickerOpen := false;
      ghost var i := IndexOf(old(store.shapes), shape.id);
      if i >= 0 {
        ReplaceAtKeepsIndex(old(store.shapes), i, store.shapes[i], shape.id);
      }
    }

    method ToggleColorPicker()
      modifies this`colorPickerOpen
      ensures colorPickerOpen == !old(colorPickerOpen)
    {
      colorPickerOpen := !colorPickerOpen;
    }
  }
}
