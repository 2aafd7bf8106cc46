/** The diagram shape record (src/app/models/shape.model.ts) and the
    defaults the editor gives a new shape. */
module ShapeModel {
  import opened Common
  import opened Text

  datatype ShapeType = Circle | Square

  function TypeName(t: ShapeType): (r: string)
    ensures |r| == 6
  {
    match t
    case Circle => "circle"
    case Square => "square"
  }

  datatype Point = Point(x: real, y: real)

  /** A placed shape: position and size in pixels relative to the canvas;
      `color`, `textPosition` and `zIndex` are optional fields. */
  datatype Shape = Shape(
    id: string,
    kind: ShapeType,
    x: real,
    y: real,
    text: string,
    width: real,
    height: real,
    color: Option<string>,
    textPosition: Option<Point>,
    zIndex: Option<real>)

  /** The yellow every new shape gets, also the fallback fill colour. */
  const DefaultColor: string := "#FFEB3B"

  const DefaultSize: real := 100.0

  /** Reads a label back: a type name, a space and a decimal number. */
  function ParseLabel(s: string): (r: Option<(ShapeType, nat)>)
    ensures r.Some? ==> |s| > 7 && s[..6] == TypeName(r.value.0) && s[6] == ' '
  {
    if |s| <= 7 || s[6] != ' ' then None
    else
      var kind := if s[..6] == "circle" then Some(Circle)
                  else if s[..6] == "square" then Some(Square)
                  else None;
      match (kind, ParseDecimal(s[7..]))
      case (Some(k), Some(n)) => Some((k, n))
      case _ => None
  }

  /** The label `"<type> N"` of a newly added shape; the type and the
      number can be read back from it. */
  function Label(t: ShapeType, n: nat): (r: string)
    ensures |r| > 7 && r[..6] == TypeName(t)
    ensures ParseLabel(r) == Some((t, n))
  {
    ParseNatToString(n);
    var r := TypeName(t) + " " + NatToString(n);
    assert r[..6] == TypeName(t) && r[6] == ' ' && r[7..] == NatToString(n);
    r
  }

  /** A label determines the shape type and the number it was built from. */
  lemma LabelInjective(t: ShapeType, m: nat, u: ShapeType, n: nat)
    ensures Label(t, m) == Label(u, n) <==> t == u && m == n
  {
  }
}
