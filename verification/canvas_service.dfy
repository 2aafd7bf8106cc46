/** The diagram editor's store (src/app/services/canvas.service.ts): the
    ordered shape list, the selected-id key, and the one-shot flag that
    suppresses the canvas click after a drag. Persistence to local storage
    (`saveState`) is the write counter `writes`; the `state$` stream is the
    emission counter `emissions`. */
module CanvasStore {
  import opened Common
  import opened Text
  import opened ShapeModel

  /** The identifiers in use. */
  function Ids(shapes: seq<Shape>): set<string> {
    set i | 0 <= i < |shapes| :: shapes[i].id
  }

  predicate UniqueIds(shapes: seq<Shape>) {
    forall i, j :: 0 <= i < j < |shapes| ==> shapes[i].id != shapes[j].id
  }

  /** `findIndex(s => s.id === id)`: the first position holding `id`, or -1. */
  function IndexOf(shapes: seq<Shape>, id: string): (r: int)
    ensures -1 <= r < |shapes|
    ensures r == -1 <==> id !in Ids(shapes)
    ensures r >= 0 ==> shapes[r].id == id && forall i :: 0 <= i < r ==> shapes[i].id != id
  {
    if shapes == [] then -1
    else if shapes[0].id == id then 0
    else
      var k := IndexOf(shapes[1..], id);
      assert Ids(shapes) == {shapes[0].id} + Ids(shapes[1..]) by {
        assert forall i :: 0 < i < |shapes| ==> shapes[i] == shapes[1..][i - 1];
      }
      if k == -1 then -1 else k + 1
  }

  /** `filter(s => s.id !== id)`. */
  function Without(shapes: seq<Shape>, id: string): (r: seq<Shape>)
    ensures |r| <= |shapes|
    ensures forall s :: s in r <==> s in shapes && s.id != id
  {
    if shapes == [] then []
    else (if shapes[0].id == id then [] else [shapes[0]]) + Without(shapes[1..], id)
  }

  /** Filtering distributes over concatenation, so the kept shapes stay in
      their original order. */
  lemma {:induction false} WithoutAppend(a: seq<Shape>, b: seq<Shape>, id: string)
    ensures Without(a + b, id) == Without(a, id) + Without(b, id)
  {
    if a == [] {
      assert a + b == b;
    } else {
      var head := if a[0].id == id then [] else [a[0]];
      calc {
        Without(a + b, id);
        { assert (a + b)[0] == a[0] && (a + b)[1..] == a[1..] + b; }
        head + Without(a[1..] + b, id);
        { WithoutAppend(a[1..], b, id); }
        head + (Without(a[1..], id) + Without(b, id));
        (head + Without(a[1..], id)) + Without(b, id);
        Without(a, id) + Without(b, id);
      }
    }
  }

  /** Removing an identifier that is absent changes nothing. */
  lemma {:induction false} WithoutAbsent(shapes: seq<Shape>, id: string)
    requires id !in Ids(shapes)
    ensures Without(shapes, id) == shapes
  {
    if shapes != [] {
      assert shapes[0].id in Ids(shapes);
      assert Ids(shapes[1..]) <= Ids(shapes) by {
        forall x | x in Ids(shapes[1..]) ensures x in Ids(shapes) {
          var i :| 0 <= i < |shapes[1..]| && shapes[1..][i].id == x;
          assert shapes[i + 1].id == x;
        }
      }
      WithoutAbsent(shapes[1..], id);
    }
  }

  lemma UniqueCons(x: Shape, t: seq<Shape>)
    ensures UniqueIds([x] + t) <==> (forall s :: s in t ==> s.id != x.id) && UniqueIds(t)
  {
    var u := [x] + t;
    assert u[0] == x;
    assert forall i :: 0 < i < |u| ==> u[i] == t[i - 1];
    if UniqueIds(u) {
      forall s | s in t ensures s.id != x.id {
        var i :| 0 <= i < |t| && t[i] == s;
        assert u[i + 1] == s;
        assert u[0].id != u[i + 1].id;
      }
      forall i, j | 0 <= i < j < |t| ensures t[i].id != t[j].id {
        assert u[i + 1].id != u[j + 1].id;
      }
    }
    if (forall s :: s in t ==> s.id != x.id) && UniqueIds(t) {
      forall i, j | 0 <= i < j < |u| ensures u[i].id != u[j].id {
        if i == 0 {
          assert u[j] in t;
        } else {
          assert u[i] == t[i - 1] && u[j] == t[j - 1];
        }
      }
    }
  }

  /** Deleting keeps identifiers pairwise distinct. */
  lemma {:induction false} WithoutKeepsUnique(shapes: seq<Shape>, id: string)
    requires UniqueIds(shapes)
    ensures UniqueIds(Without(shapes, id))
  {
    if shapes != [] {
      var t := shapes[1..];
      assert shapes == [shapes[0]] + t;
      UniqueCons(shapes[0], t);
      WithoutKeepsUnique(t, id);
      if shapes[0].id != id {
        UniqueCons(shapes[0], Without(t, id));
      } else {
        assert Without(shapes, id) == Without(t, id);
      }
    }
  }

  /** Appending a shape whose identifier is fresh keeps identifiers
      pairwise distinct. */
  lemma AppendFreshKeepsUnique(shapes: seq<Shape>, s: Shape)
    requires UniqueIds(shapes) && s.id !in Ids(shapes)
    ensures UniqueIds(shapes + [s])
  {
    var u := shapes + [s];
    forall i, j | 0 <= i < j < |u| ensures u[i].id != u[j].id {
      if j == |shapes| {
        assert u[i].id in Ids(shapes);
      }
    }
  }

  /** Rewriting a shape in place without touching its identifier keeps
      the identifier set. */
  lemma ReplaceAtKeepsIds(shapes: seq<Shape>, i: nat, s: Shape)
    requires i < |shapes| && s.id == shapes[i].id
    ensures Ids(shapes[i := s]) == Ids(shapes)
    ensures UniqueIds(shapes) ==> UniqueIds(shapes[i := s])
  {
    var u := shapes[i := s];
    assert forall k :: 0 <= k < |u| ==> u[k].id == shapes[k].id;
    assert Ids(u) == Ids(shapes) by {
      forall x ensures x in Ids(u) <==> x in Ids(shapes) {
        if x in Ids(u) {
          var k :| 0 <= k < |u| && u[k].id == x;
          assert shapes[k].id == x;
        }
        if x in Ids(shapes) {
          var k :| 0 <= k < |shapes| && shapes[k].id == x;
          assert u[k].id == x;
        }
      }
    }
  }
  /** Replacing a shape by one with the same id keeps where every id is
      first found. */
  lemma ReplaceAtKeepsIndex(shapes: seq<Shape>, i: nat, s: Shape, id: string)
    requires i < |shapes| && s.id == shapes[i].id
    ensures IndexOf(shapes[i := s], id) == IndexOf(shapes, id)
  {
    ReplaceAtKeepsIds(shapes, i, s);
    var u := shapes[i := s];
    assert forall k :: 0 <= k < |u| ==> u[k].id == shapes[k].id;
  }


  class CanvasService {
    var suppressNextCanvasClick: bool
    var shapes: seq<Shape>
    /** Weak reference: may name a shape that no longer exists. */
    var selected: Option<string>
    /** Number of `saveState` calls (local-storage writes). */
    var writes: nat
    /** Number of values pushed through `state$`. */
    var emissions: nat

    /** Construction runs `loadState`: `saved` is the parsed stored state,
        `None` when nothing is stored. */
    constructor (saved: Option<seq<Shape>>)
      ensures shapes == (if saved.Some? then saved.value else [])
      ensures selected == None && !suppressNextCanvasClick
      ensures writes == 0 && emissions == (if saved.Some? then 1 else 0)
    {
      suppressNextCanvasClick := false;
      selected := None;
      writes := 0;
      if saved.Some? {
        shapes := saved.value;
        emissions := 1;
      } else {
        shapes := [];
        emissions := 0;
      }
    }

    /** `generateId` is random; the caller supplies the new identifier. */
    method AddShape(kind: ShapeType, x: real, y: real, freshId: string) returns (s: Shape)
      modifies this`shapes, this`writes, this`emissions
      ensures shapes == old(shapes) + [s]
      ensures s.id == freshId && s.kind == kind && s.x == x && s.y == y
      ensures s.width == DefaultSize && s.height == DefaultSize && s.color == Some(DefaultColor)
      ensures s.text == Label(kind, |old(shapes)| + 1)
      ensures s.textPosition.None? && s.zIndex.None?
      ensures writes == old(writes) + 1 && emissions == old(emissions) + 1
      ensures UniqueIds(old(shapes)) && freshId !in Ids(old(shapes)) ==> UniqueIds(shapes)
    {
      s := Shape(freshId, kind, x, y, Label(kind, |shapes| + 1), DefaultSize, DefaultSize,
                 Some(DefaultColor), None, None);
      if UniqueIds(shapes) && freshId !in Ids(shapes) {
        AppendFreshKeepsUnique(shapes, s);
      }
      shapes := shapes + [s];
      SaveState();
    }

    method SaveState()
      modifies this`writes, this`emissions
      ensures writes == old(writes) + 1 && emissions == old(emissions) + 1
    {
      writes := writes + 1;
      emissions := emissions + 1;
    }

    /** Moves the first shape with `id`; a move to where it already is
        neither changes nor persists anything. */
    method UpdateShapePosition(id: string, x: real, y: real) returns (found: bool)
      modifies this`shapes, this`writes, this`emissions
      ensures found <==> id in Ids(old(shapes))
      ensures var i := IndexOf(old(shapes), id);
        if i == -1 || (old(shapes)[i].x == x && old(shapes)[i].y == y) then
          shapes == old(shapes) && writes == old(writes) && emissions == old(emissions)
        else
          shapes == old(shapes)[i := old(shapes)[i].(x := x, y := y)]
          && writes == old(writes) + 1 && emissions == old(emissions) + 1
      ensures Ids(shapes) == Ids(old(shapes))
      ensures UniqueIds(old(shapes)) ==> UniqueIds(shapes)
    {
      var i := IndexOf(shapes, id);
      if i == -1 {
        return false;
      }
      var s := shapes[i];
      if s.x != x || s.y != y {
        ReplaceAtKeepsIds(shapes, i, s.(x := x, y := y));
        shapes := shapes[i := s.(x := x, y := y)];
        SaveState();
      }
      return true;
    }

    /** Replaces the text of the first shape with `id`, unless there is no
        such shape or its text is already `text`. The store pushes the new
        state twice: once directly and once through `saveState`. */
    method UpdateShapeText(id: string, text: string)
      modifies this`shapes, this`writes, this`emissions
      ensures var i := IndexOf(old(shapes), id);
        if i == -1 || old(shapes)[i].text == text then
          shapes == old(shapes) && writes == old(writes) && emissions == old(emissions)
        else
          shapes == old(shapes)[i := old(shapes)[i].(text := text)]
          && writes == old(writes) + 1 && emissions == old(emissions) + 2
      ensures Ids(shapes) == Ids(old(shapes))
      ensures UniqueIds(old(shapes)) ==> UniqueIds(shapes)
    {
      var i := IndexOf(shapes, id);
      if i != -1 && shapes[i].text != text {
        ReplaceAtKeepsIds(shapes, i, shapes[i].(text := text));
        shapes := shapes[i := shapes[i].(text := text)];
        emissions := emissions + 1;
        SaveState();
      }
    }

    /** As `UpdateShapeText`, for the colour; a shape without a colour
        always differs from the requested one. */
    method UpdateShapeColor(id: string, color: string)
      modifies this`shapes, this`writes, this`emissions
      ensures var i := IndexOf(old(shapes), id);
        if i == -1 || old(shapes)[i].color == Some(color) then
          shapes == old(shapes) && writes == old(writes) && emissions == old(emissions)
        else
          shapes == old(shapes)[i := old(shapes)[i].(color := Some(color))]
          && writes == old(writes) + 1 && emissions == old(emissions) + 2
      ensures Ids(shapes) == Ids(old(shapes))
      ensures UniqueIds(old(shapes)) ==> UniqueIds(shapes)
    {
      var i := IndexOf(shapes, id);
      if i != -1 && shapes[i].color != Some(color) {
        ReplaceAtKeepsIds(shapes, i, shapes[i].(color := Some(color)));
        shapes := shapes[i := shapes[i].(color := Some(color))];
        emissions := emissions + 1;
        SaveState();
      }
    }

    /** Removes every shape with `id`, clears the selection when it named
        `id`, and always persists, even when nothing was removed. */
    method DeleteShape(id: string)
      modifies this`shapes, this`selected, this`writes, this`emissions
      ensures shapes == Without(old(shapes), id)
      ensures id !in Ids(shapes)
      ensures selected == if old(selected) == Some(id) then None else old(selected)
      ensures writes == old(writes) + 1 && emissions == old(emissions) + 1
      ensures UniqueIds(old(shapes)) ==> UniqueIds(shapes)
    {
      if UniqueIds(shapes) {
        WithoutKeepsUnique(shapes, id);
      }
      shapes := Without(shapes, id);
      if selected == Some(id) {
        selected := None;
      }
      SaveState();
    }

    /** Selection is session-only: it is neither persisted nor pushed
        through `state$`. */
    method SelectShape(id: Option<string>)
      modifies this`selected
      ensures selected == id
    {
      selected := id;
    }

    method GetSelectedShapeId() returns (id: Option<string>)
      ensures id == selected
    {
      id := selected;
    }

    /** Overwrites the list with a copy of `newShapes`; the new state is
        pushed through `saveState` and once more directly. */
    method ReplaceAllShapes(newShapes: seq<Shape>)
      modifies this`shapes, this`writes, this`emissions
      ensures shapes == newShapes
      ensures writes == old(writes) + 1 && emissions == old(emissions) + 2
    {
      shapes := newShapes;
      SaveState();
      emissions := emissions + 1;
    }
  }
}
