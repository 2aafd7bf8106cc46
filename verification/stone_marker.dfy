/** The kidney-stone marker
    (src/app/components/kidney-stone-marker/kidney-stone-marker.component.ts):
    a list of markers in coordinates normalised to the image (0..1), an id
    counter, the drag/resize record, JSON import and export, and the colour
    helper. Persisting the list is counted in `writes`. */
module StoneMarker {
  import opened Common
  import opened Text

  /** A marker; `color` and `colorIndex` are kept as the JSON values they
      were imported with (a marker added in the page has a palette string
      and its index). */
  datatype Stone = Stone(id: string, x: real, y: real, radius: real, color: Json, colorIndex: Json)

  /** Drag/resize state; both flags false is the idle record. */
  datatype DragState = DragState(
    isDragging: bool, isResizing: bool, activeStoneId: Option<string>,
    startX: real, startY: real, startRadius: real)

  const Idle: DragState := DragState(false, false, None, 0.0, 0.0, 0.0)

  const MaxStones: nat := 100

  /** The 100-colour palette, in order. */
  const Palette: seq<string> := [
    "#FF6B6B", "#E74C3C", "#C0392B", "#FF3838", "#EE5A24", "#FF7675", "#F1948A", "#EC7063", "#CD6155", "#E55039",
    "#FF9500", "#F39C12", "#E67E22", "#D35400", "#FF9F43", "#FAB1A0", "#F8C471", "#F7DC6F", "#F4D03F", "#F1C40F",
    "#FFD32A", "#FFEAA7", "#FDCB6E", "#F9E79F", "#F7DC6F", "#F4D03F", "#F1C40F", "#D4AC0D", "#B7950B", "#F39801",
    "#8CC152", "#2ECC71", "#27AE60", "#58D68D", "#82E0AA", "#A9DFBF", "#00B894", "#00CEC9", "#1ABC9C", "#16A085",
    "#4ECDC4", "#37D5D3", "#81ECEC", "#00D2D3", "#0ABDE3", "#74B9FF", "#00CEC9", "#48CAE4", "#00B4D8", "#0077B6",
    "#45B7D1", "#3498DB", "#2980B9", "#5DADE2", "#85C1E9", "#AED6F1", "#54A0FF", "#0984E3", "#74B9FF", "#006BA6",
    "#9B59B6", "#8E44AD", "#6C5CE7", "#5F27CD", "#A29BFE", "#BB8FCE", "#D7BDE2", "#AF7AC5", "#C44569", "#8E44AD",
    "#DDA0DD", "#FD79A8", "#FF9FF3", "#F8B500", "#D5A6BD", "#E91E63", "#AD1457", "#880E4F", "#C2185B", "#E91E63",
    "#96CEB4", "#95A5A6", "#7F8C8D", "#BDC3C7", "#ECF0F1", "#AEB6BF", "#85929E", "#5D6D7E", "#34495E", "#2C3E50",
    "#636E72", "#B2BEC3", "#DDD", "#55A3FF", "#3742FA", "#2F3542", "#98D8C8", "#A3E4D7", "#FAD7A0", "#2D3436"
  ]

  // ---------------------------------------------------------------------
  // Identifiers

  /** The number in an id of the form `stone<digits>`, if it has that form. */
  function ParseStoneId(id: string): (r: Option<nat>)
    ensures r.Some? ==> |id| > 5 && id[..5] == "stone"
  {
    if |id| > 5 && id[..5] == "stone" then ParseDecimal(id[5..]) else None
  }

  /** The id of the `k`-th marker added: `stone<k>`, which reads back as `k`. */
  function StoneId(k: nat): (r: string)
    ensures |r| > 5 && r[..5] == "stone"
    ensures ParseStoneId(r) == Some(k)
  {
    ParseNatToString(k);
    var r := "stone" + NatToString(k);
    assert r[5..] == NatToString(k);
    r
  }

  /** Distinct counter values give distinct ids. */
  lemma StoneIdInjective(m: nat, n: nat)
    ensures StoneId(m) == StoneId(n) <==> m == n
  {
  }

  /** `id` is not `stone<k>` for any `k` above `c`. */
  predicate IssuedAtMost(id: string, c: nat) {
    ParseStoneId(id).None? || ParseStoneId(id).value <= c
  }

  predicate UniqueStoneIds(stones: seq<Stone>) {
    forall i, j :: 0 <= i < j < |stones| ==> stones[i].id != stones[j].id
  }

  /** The counter a reload should set: the largest `k` among the loaded
      `stone<k>` ids (0 if there is none), so that the next id is new. */
  function MaxIssued(stones: seq<Stone>): (c: nat)
    ensures forall i :: 0 <= i < |stones| ==> IssuedAtMost(stones[i].id, c)
    ensures c == 0 || exists i :: 0 <= i < |stones| && ParseStoneId(stones[i].id) == Some(c)
  {
    if stones == [] then 0
    else
      var front := stones[..|stones| - 1];
      var last := ParseStoneId(stones[|stones| - 1].id).GetOr(0);
      var m := MaxIssued(front);
      assert forall i :: 0 <= i < |front| ==> front[i] == stones[i];
      if last >= m then last else m
  }

  /** `stones.find(s => s.id === id)`: the first index with `id`, or -1. */
  function StoneIndex(stones: seq<Stone>, id: string): (r: int)
    ensures -1 <= r < |stones|
    ensures r == -1 <==> forall i :: 0 <= i < |stones| ==> stones[i].id != id
    ensures r >= 0 ==> stones[r].id == id && forall i :: 0 <= i < r ==> stones[i].id != id
  {
    if stones == [] then -1
    else if stones[0].id == id then 0
    else
      var k := StoneIndex(stones[1..], id);
      if k == -1 then -1 else k + 1
  }

  /** `stones.filter(s => s.id !== id)`: the markers without `id`, in
      their order. */
  function RemoveStone(stones: seq<Stone>, id: string): (r: seq<Stone>)
    ensures |r| <= |stones|
    ensures forall s :: s in r <==> s in stones && s.id != id
  {
    if stones == [] then []
    else (if stones[0].id == id then [] else [stones[0]]) + RemoveStone(stones[1..], id)
  }

  /** Filtering keeps the survivors in their original relative order. */
  lemma {:induction false} RemoveStoneAppend(a: seq<Stone>, b: seq<Stone>, id: string)
    ensures RemoveStone(a + b, id) == RemoveStone(a, id) + RemoveStone(b, id)
  {
    if a == [] {
      assert a + b == b;
    } else {
      var head := if a[0].id == id then [] else [a[0]];
      calc {
        RemoveStone(a + b, id);
        { assert (a + b)[0] == a[0] && (a + b)[1..] == a[1..] + b; }
        head + RemoveStone(a[1..] + b, id);
        { RemoveStoneAppend(a[1..], b, id); }
        head + (RemoveStone(a[1..], id) + RemoveStone(b, id));
        (head + RemoveStone(a[1..], id)) + RemoveStone(b, id);
        RemoveStone(a, id) + RemoveStone(b, id);
      }
    }
  }

  // ---------------------------------------------------------------------
  // Geometry

  /** `getCircleSize`: the diameter in pixels, scaled by the smaller side of
      the container. */
  function CircleSize(radius: real, width: real, height: real): (size: real)
    ensures size == 2.0 * radius * width || size == 2.0 * radius * height
    ensures radius >= 0.0 ==> size <= 2.0 * radius * width && size <= 2.0 * radius * height
  {
    radius * Min(width, height) * 2.0
  }

  // ---------------------------------------------------------------------
  // Import

  /** One element of an imported array: an object (or a primitive, whose
      fields all read as missing), or `null`, whose fields cannot be read. */
  datatype RawStone =
    | RawStone(id: Json, x: Json, y: Json, radius: Json, color: Json, colorIndex: Json)
    | NullStone

  /** What the chosen file turned out to hold. */
  datatype StoneDoc = NoFile | Unparsable | NotArray | Items(items: seq<RawStone>)

  predicate IsValidStone(o: RawStone) {
    && o.RawStone?
    && o.id.Str? && o.x.Num? && o.y.Num? && o.radius.Num?
    && 0.0 <= o.x.n <= 1.0 && 0.0 <= o.y.n <= 1.0
    && 0.0 < o.radius.n <= 1.0
  }

  /** `validateStonesData` returns true: an array whose every element is a
      valid marker (the empty array included). */
  predicate ValidateStonesData(doc: StoneDoc) {
    doc.Items? && forall i :: 0 <= i < |doc.items| ==> IsValidStone(doc.items[i])
  }

  /** How the validator's `every` ends on an array: it stops at the first
      element that is not a valid marker, returning false there, or
      throwing when that element is `null`. */
  datatype Scan = AllValid | FailsAt(at: nat) | ThrowsAt(at: nat)

  function ScanStones(items: seq<RawStone>): (r: Scan)
    ensures r.AllValid? <==> forall i :: 0 <= i < |items| ==> IsValidStone(items[i])
    ensures !r.AllValid? ==>
      && r.at < |items| && !IsValidStone(items[r.at])
      && forall j :: 0 <= j < r.at ==> IsValidStone(items[j])
    ensures r.ThrowsAt? ==> items[r.at].NullStone?
    ensures r.FailsAt? ==> items[r.at].RawStone?
  {
    if items == [] then AllValid
    else if items[0].NullStone? then ThrowsAt(0)
    else if !IsValidStone(items[0]) then FailsAt(0)
    else
      match ScanStones(items[1..])
      case AllValid =>
        assert forall i :: 1 <= i < |items| ==> items[i] == items[1..][i - 1];
        AllValid
      case FailsAt(k) => FailsAt(k + 1)
      case ThrowsAt(k) => ThrowsAt(k + 1)
  }

  /** The `loadStones` mapping: each element keeps its fields; a falsy
      colour is replaced by the palette colour of its position and a
      missing colour index by the position. */
  function ImportStones(items: seq<RawStone>): (r: seq<Stone>)
    requires forall i :: 0 <= i < |items| ==> IsValidStone(items[i])
    ensures |r| == |items|
    ensures forall i :: 0 <= i < |items| && IsValidStone(items[i]) ==>
      && r[i].id == items[i].id.s && r[i].x == items[i].x.n
      && r[i].y == items[i].y.n && r[i].radius == items[i].radius.n
    ensures forall i :: 0 <= i < |items| && IsValidStone(items[i]) ==>
      r[i].color == (if Truthy(items[i].color) then items[i].color else Str(Palette[i % 100]))
    ensures forall i :: 0 <= i < |items| && IsValidStone(items[i]) ==>
      r[i].colorIndex == (if items[i].colorIndex.Missing? then Num(i as real) else items[i].colorIndex)
  {
    seq(|items|, i requires 0 <= i < |items| && IsValidStone(items[i]) =>
      var o := items[i];
      Stone(o.id.s, o.x.n, o.y.n, o.radius.n,
            if Truthy(o.color) then o.color else Str(Palette[i % 100]),
            if o.colorIndex.Missing? then Num(i as real) else o.colorIndex))
  }

  // ---------------------------------------------------------------------
  // Export

  /** `Math.round(v * 1000) / 1000` (JavaScript rounds halves upwards). */
  function RoundThousandth(v: real): (r: real)
    ensures v - 0.0005 < r <= v + 0.0005
  {
    ((v * 1000.0 + 0.5).Floor as real) / 1000.0
  }

  /** Rounding an already rounded value changes nothing. */
  lemma RoundThousandthIdempotent(v: real)
    ensures RoundThousandth(RoundThousandth(v)) == RoundThousandth(v)
  {
    var n := (v * 1000.0 + 0.5).Floor;
    assert RoundThousandth(v) * 1000.0 == n as real;
    assert (n as real + 0.5).Floor == n;
  }

  /** Rounding keeps a value in [0, 1] inside [0, 1], and keeps a value of at
      least half a thousandth strictly positive. */
  lemma RoundThousandthRange(v: real)
    ensures 0.0 <= v <= 1.0 ==> 0.0 <= RoundThousandth(v) <= 1.0
    ensures v >= 0.0005 ==> RoundThousandth(v) > 0.0
  {
    var n := (v * 1000.0 + 0.5).Floor;
    if 0.0 <= v <= 1.0 {
      assert 0 <= n <= 1000;
    }
    if v >= 0.0005 {
      assert n >= 1;
    }
  }

  /** An entry of the exported file: id and rounded geometry only. */
  datatype ExportedStone = ExportedStone(id: string, x: real, y: real, radius: real)

  /** The `saveStones` export map: each marker's id, and its geometry
      rounded to thousandths; colours are dropped. */
  function Export(stones: seq<Stone>): (r: seq<ExportedStone>)
    ensures |r| == |stones|
    ensures forall i :: 0 <= i < |stones| ==>
      && r[i].id == stones[i].id
      && r[i].x == RoundThousandth(stones[i].x)
      && r[i].y == RoundThousandth(stones[i].y)
      && r[i].radius == RoundThousandth(stones[i].radius)
  {
    seq(|stones|, i requires 0 <= i < |stones| =>
      ExportedStone(stones[i].id, RoundThousandth(stones[i].x),
                    RoundThousandth(stones[i].y), RoundThousandth(stones[i].radius)))
  }

  /** How an exported entry reads back as a JSON object. */
  function AsRaw(e: ExportedStone): RawStone {
    RawStone(Str(e.id), Num(e.x), Num(e.y), Num(e.radius), Missing, Missing)
  }

  function ExportDoc(stones: seq<Stone>): (doc: StoneDoc)
    ensures doc.Items? && |doc.items| == |stones|
  {
    var ex := Export(stones);
    Items(seq(|ex|, i requires 0 <= i < |ex| => AsRaw(ex[i])))
  }

  /** An exported file of markers lying on the image, none smaller than half
      a thousandth, passes the import validator. */
  lemma ExportValidates(stones: seq<Stone>)
    requires forall i :: 0 <= i < |stones| ==>
      0.0 <= stones[i].x <= 1.0 && 0.0 <= stones[i].y <= 1.0 && 0.0005 <= stones[i].radius <= 1.0
    ensures ValidateStonesData(ExportDoc(stones))
  {
    var doc := ExportDoc(stones);
    forall i | 0 <= i < |doc.items| ensures IsValidStone(doc.items[i]) {
      RoundThousandthRange(stones[i].x);
      RoundThousandthRange(stones[i].y);
      RoundThousandthRange(stones[i].radius);
    }
  }

  /** Exporting and importing again gives the markers back in order, with
      their ids, their geometry rounded to thousandths, and the colour and
      colour index of their position. */
  lemma ExportImportRoundTrip(stones: seq<Stone>)
    requires forall i :: 0 <= i < |stones| ==>
      0.0 <= stones[i].x <= 1.0 && 0.0 <= stones[i].y <= 1.0 && 0.0005 <= stones[i].radius <= 1.0
    ensures ValidateStonesData(ExportDoc(stones))
    ensures var back := ImportStones(ExportDoc(stones).items);
      |back| == |stones|
      && forall i :: 0 <= i < |stones| ==>
        back[i] == Stone(stones[i].id, RoundThousandth(stones[i].x), RoundThousandth(stones[i].y),
                         RoundThousandth(stones[i].radius), Str(Palette[i % 100]), Num(i as real))
  {
    ExportValidates(stones);
  }

  // ---------------------------------------------------------------------
  // hexToRgba

  /** The first index of `c` in `s`, or -1. */
  function CharIndex(s: string, c: char): (k: int)
    ensures -1 <= k < |s|
    ensures k == -1 <==> c !in s
    ensures k >= 0 ==> s[k] == c && c !in s[..k]
  {
    if s == [] then -1
    else if s[0] == c then 0
    else
      var k := CharIndex(s[1..], c);
      assert k >= 0 ==> s[..k + 1] == [s[0]] + s[1..][..k];
      if k == -1 then -1 else k + 1
  }

  /** `s.replace(c, '')` with a one-character pattern: drops the first `c`. */
  function RemoveFirst(s: string, c: char): (r: string)
    ensures c !in s ==> r == s
    ensures c in s ==> |r| == |s| - 1
  {
    if s == [] then []
    else if s[0] == c then s[1..]
    else [s[0]] + RemoveFirst(s[1..], c)
  }

  /** The removed character is the first `c`: what comes before it and
      what comes after it are kept, in order. */
  lemma {:induction false} RemoveFirstSplits(s: string, c: char)
    requires c in s
    ensures var k := CharIndex(s, c); RemoveFirst(s, c) == s[..k] + s[k + 1..]
  {
    if s[0] != c {
      var k := CharIndex(s[1..], c);
      RemoveFirstSplits(s[1..], c);
      assert CharIndex(s, c) == k + 1;
      assert s[..k + 1] == [s[0]] + s[1..][..k];
      assert s[k + 2..] == s[1..][k + 1..];
    }
  }

  /** `s.substring(start, end)` for `start <= end`: indices past the end
      are clamped to the length. */
  function Substring(s: string, start: nat, end: nat): (r: string)
    requires start <= end
    ensures var a, b := if start <= |s| then start else |s|, if end <= |s| then end else |s|;
      a <= b && r == s[a..b]
    ensures |r| == (if end <= |s| then end - start else if start <= |s| then |s| - start else 0)
  {
    var a := if start <= |s| then start else |s|;
    var b := if end <= |s| then end else |s|;
    s[a..b]
  }

  /** The three channels `hexToRgba` parses (`None` is NaN) and the alpha. */
  datatype Rgba = Rgba(r: Option<int>, g: Option<int>, b: Option<int>, alpha: real)

  /** `hexToRgba` as written: drop the first `#`, then read characters 0-1,
      2-3 and 4-5 as hexadecimal numbers. */
  function HexToRgba(hex: string, alpha: real): (c: Rgba)
    ensures c.alpha == alpha
  {
    var h := RemoveFirst(hex, '#');
    Rgba(ParseHex(Substring(h, 0, 2)), ParseHex(Substring(h, 2, 4)),
         ParseHex(Substring(h, 4, 6)), alpha)
  }

  /** A single hexadecimal digit reads as its value. */
  lemma ParseHexSingle(a: char)
    requires HexDigitValue(a).Some?
    ensures ParseHex([a]) == Some(HexDigitValue(a).value)
  {
    var s := [a];
    HexBodyOfDigits(s);
    assert s[1..] == [];
    assert HexRun(s) == 1;
    assert s[..1] == s;
    assert HexValue(s) == HexDigitValue(a).value by {
      assert s[..0] == [];
    }
    assert ReadHexRun(s) == Some(HexValue(s));
  }

  /** `hexToRgba` on `#` followed by `h` reads the channels from `h`. */
  lemma HexToRgbaOf(h: string, alpha: real)
    ensures HexToRgba(['#'] + h, alpha) ==
      Rgba(ParseHex(Substring(h, 0, 2)), ParseHex(Substring(h, 2, 4)), ParseHex(Substring(h, 4, 6)), alpha)
  {
    assert (['#'] + h)[1..] == h;
  }

  /** The palette's one shorthand entry. */
  lemma PaletteShorthand()
    ensures Palette[92] == ['#'] + ['D', 'D', 'D']
  {
  }

  /** A six-digit colour `#RRGGBB` decodes to its three two-digit
      channels. */
  lemma HexToRgbaSixDigits(a: char, b: char, c: char, d: char, e: char, f: char, alpha: real)
    requires HexDigitValue(a).Some? && HexDigitValue(b).Some? && HexDigitValue(c).Some?
    requires HexDigitValue(d).Some? && HexDigitValue(e).Some? && HexDigitValue(f).Some?
    ensures HexToRgba(['#'] + [a, b, c, d, e, f], alpha) ==
      Rgba(Some(HexDigitValue(a).value * 16 + HexDigitValue(b).value),
           Some(HexDigitValue(c).value * 16 + HexDigitValue(d).value),
           Some(HexDigitValue(e).value * 16 + HexDigitValue(f).value), alpha)
  {
    HexToRgbaOf([a, b, c, d, e, f], alpha);
    RedOfSix(a, b, c, d, e, f);
    GreenOfSix(a, b, c, d, e, f);
    BlueOfSix(a, b, c, d, e, f);
  }

  lemma RedOfSix(a: char, b: char, c: char, d: char, e: char, f: char)
    requires HexDigitValue(a).Some? && HexDigitValue(b).Some?
    ensures ParseHex(Substring([a, b, c, d, e, f], 0, 2)) ==
      Some(HexDigitValue(a).value * 16 + HexDigitValue(b).value)
  {
    assert Substring([a, b, c, d, e, f], 0, 2) == [a, b];
    ParseHexPair(a, b);
  }

  lemma GreenOfSix(a: char, b: char, c: char, d: char, e: char, f: char)
    requires HexDigitValue(c).Some? && HexDigitValue(d).Some?
    ensures ParseHex(Substring([a, b, c, d, e, f], 2, 4)) ==
      Some(HexDigitValue(c).value * 16 + HexDigitValue(d).value)
  {
    assert Substring([a, b, c, d, e, f], 2, 4) == [c, d];
    ParseHexPair(c, d);
  }

  lemma BlueOfSix(a: char, b: char, c: char, d: char, e: char, f: char)
    requires HexDigitValue(e).Some? && HexDigitValue(f).Some?
    ensures ParseHex(Substring([a, b, c, d, e, f], 4, 6)) ==
      Some(HexDigitValue(e).value * 16 + HexDigitValue(f).value)
  {
    assert Substring([a, b, c, d, e, f], 4, 6) == [e, f];
    ParseHexPair(e, f);
  }

  /** The palette's shorthand entry `#DDD` decodes to red 221, green 13 and
      no blue at all. */
  lemma HexToRgbaShorthand(alpha: real)
    ensures HexToRgba(Palette[92], alpha) == Rgba(Some(221), Some(13), None, alpha)
  {
    PaletteShorthand();
    assert HexDigitValue('D') == Some(13);
    HexToRgbaThreeDigits('D', 'D', 'D', alpha);
  }

  /** Any three-digit colour: the first two digits make red, the third
      alone makes green, and blue is not a number. */
  lemma HexToRgbaThreeDigits(a: char, b: char, c: char, alpha: real)
    requires HexDigitValue(a).Some? && HexDigitValue(b).Some? && HexDigitValue(c).Some?
    ensures HexToRgba(['#'] + [a, b, c], alpha) ==
      Rgba(Some(HexDigitValue(a).value * 16 + HexDigitValue(b).value),
           Some(HexDigitValue(c).value), None, alpha)
  {
    HexToRgbaOf([a, b, c], alpha);
    FirstPairOfThree(a, b, c);
    ThirdOfThree(a, b, c);
    NothingPastThree(a, b, c);
  }

  lemma FirstPairOfThree(a: char, b: char, c: char)
    requires HexDigitValue(a).Some? && HexDigitValue(b).Some?
    ensures ParseHex(Substring([a, b, c], 0, 2)) ==
      Some(HexDigitValue(a).value * 16 + HexDigitValue(b).value)
  {
    assert Substring([a, b, c], 0, 2) == [a, b];
    ParseHexPair(a, b);
  }

  lemma ThirdOfThree(a: char, b: char, c: char)
    requires HexDigitValue(c).Some?
    ensures ParseHex(Substring([a, b, c], 2, 4)) == Some(HexDigitValue(c).value)
  {
    assert Substring([a, b, c], 2, 4) == [c];
    ParseHexSingle(c);
  }

  lemma NothingPastThree(a: char, b: char, c: char)
    ensures ParseHex(Substring([a, b, c], 4, 6)) == None
  {
    assert Substring([a, b, c], 4, 6) == [];
    assert HexBody([]) == [];
  }

  /** Three-digit shorthand expanded as CSS reads it (`abc` is `aabbcc`);
      any other string is kept. */
  function Expand(h: string): (full: string)
    ensures |h| != 3 ==> full == h
    ensures |h| == 3 ==> |full| == 6 && forall i :: 0 <= i < 6 ==> full[i] == h[i / 2]
  {
    if |h| == 3 then [h[0], h[0], h[1], h[1], h[2], h[2]] else h
  }

  /** `hexToRgba` with three-digit shorthand expanded first. */
  function HexToRgbaFixed(hex: string, alpha: real): (c: Rgba)
    ensures c.alpha == alpha
  {
    var full := Expand(RemoveFirst(hex, '#'));
    Rgba(ParseHex(Substring(full, 0, 2)), ParseHex(Substring(full, 2, 4)),
         ParseHex(Substring(full, 4, 6)), alpha)
  }

  /** The corrected helper reads a three-digit colour with each digit
      doubled (`abc` as `aabbcc`), so `#DDD` is a light grey. */
  lemma HexToRgbaFixedShorthand(a: char, b: char, c: char, alpha: real)
    requires HexDigitValue(a).Some? && HexDigitValue(b).Some? && HexDigitValue(c).Some?
    ensures HexToRgbaFixed(['#'] + [a, b, c], alpha) ==
      Rgba(Some(HexDigitValue(a).value * 16 + HexDigitValue(a).value),
           Some(HexDigitValue(b).value * 16 + HexDigitValue(b).value),
           Some(HexDigitValue(c).value * 16 + HexDigitValue(c).value), alpha)
  {
    HexToRgbaFixedOfThree(a, b, c, alpha);
    RedOfSix(a, a, b, b, c, c);
    GreenOfSix(a, a, b, b, c, c);
    BlueOfSix(a, a, b, b, c, c);
  }

  /** The corrected helper on `#` and three characters reads the expanded
      six. */
  lemma HexToRgbaFixedOfThree(a: char, b: char, c: char, alpha: real)
    ensures HexToRgbaFixed(['#'] + [a, b, c], alpha) ==
      var full := [a, a, b, b, c, c];
      Rgba(ParseHex(Substring(full, 0, 2)), ParseHex(Substring(full, 2, 4)),
           ParseHex(Substring(full, 4, 6)), alpha)
  {
    assert (['#'] + [a, b, c])[1..] == [a, b, c];
    assert Expand([a, b, c]) == [a, a, b, b, c, c];
  }

  lemma HexToRgbaFixedDDD(alpha: real)
    ensures HexToRgbaFixed(Palette[92], alpha) == Rgba(Some(221), Some(221), Some(221), alpha)
  {
    PaletteShorthand();
    assert HexDigitValue('D') == Some(13);
    HexToRgbaFixedShorthand('D', 'D', 'D', alpha);
  }

  /** Apart from three-digit shorthand, the corrected helper reads every
      colour exactly as the original does. */
  lemma HexToRgbaFixedAgrees(hex: string, alpha: real)
    requires |RemoveFirst(hex, '#')| != 3
    ensures HexToRgbaFixed(hex, alpha) == HexToRgba(hex, alpha)
  {
  }

  /** What a page load found under the storage key. */
  datatype Saved = NothingSaved | Unreadable | SavedStones(items: seq<Stone>)

  /** Which alert, if any, an import ends with. */
  datatype StoneLoadOutcome = NotChosen | ReadError | InvalidFormat | Loaded(count: nat)

  // ---------------------------------------------------------------------
  // The component

  class KidneyStoneMarker {
    var stones: seq<Stone>
    var stoneCounter: nat
    var dragState: DragState
    /** Number of times the list was written to storage. */
    var writes: nat

    /** No marker carries a `stone<k>` id the counter has yet to issue. */
    ghost predicate CounterAhead()
      reads this
    {
      forall i :: 0 <= i < |stones| ==> IssuedAtMost(stones[i].id, stoneCounter)
    }

    constructor ()
      ensures stones == [] && stoneCounter == 0 && dragState == Idle && writes == 0
      ensures CounterAhead()
    {
      stones := [];
      stoneCounter := 0;
      dragState := Idle;
      writes := 0;
    }

    /** Restores the saved list on page load, setting the counter to the
        number of markers restored. That count can lie below a live
        `stone<k>` id, so `CounterAhead` is not kept: see
        `ReloadReissuesLiveId`. */
    method LoadSavedStones(saved: Saved)
      modifies this
      ensures saved.NothingSaved? ==> stones == old(stones) && stoneCounter == old(stoneCounter)
      ensures saved.Unreadable? ==> stones == [] && stoneCounter == old(stoneCounter)
      ensures saved.SavedStones? ==> stones == saved.items && stoneCounter == |saved.items|
      ensures saved.Unreadable? || (saved.NothingSaved? && old(CounterAhead())) ==> CounterAhead()
      ensures dragState == old(dragState) && writes == old(writes)
    {
      match saved
      case NothingSaved =>
      case Unreadable =>
        stones := [];
      case SavedStones(items) =>
        stones := items;
        stoneCounter := |items|;
    }

    /** The reload as it should be: the counter is set past every
        `stone<k>` id restored, so the next marker added gets a new id. */
    method LoadSavedStonesFixed(saved: Saved)
      modifies this
      ensures saved.NothingSaved? ==> stones == old(stones) && stoneCounter == old(stoneCounter)
      ensures saved.Unreadable? ==> stones == [] && stoneCounter == old(stoneCounter)
      ensures saved.SavedStones? ==> stones == saved.items && stoneCounter == MaxIssued(saved.items)
      ensures old(CounterAhead()) || !saved.NothingSaved? ==> CounterAhead()
      ensures dragState == old(dragState) && writes == old(writes)
    {
      match saved
      case NothingSaved =>
      case Unreadable =>
        stones := [];
      case SavedStones(items) =>
        stones := items;
        stoneCounter := MaxIssued(items);
    }

    /** Adds a marker at the centre of the image, unless there are 100
        already. Its colour is the palette entry of its position. */
    method AddStone()
      modifies this
      ensures |old(stones)| >= MaxStones ==>
        stones == old(stones) && stoneCounter == old(stoneCounter) && writes == old(writes)
      ensures |old(stones)| < MaxStones ==>
        && stoneCounter == old(stoneCounter) + 1
        && stones == old(stones) + [Stone(StoneId(stoneCounter), 0.5, 0.5, 0.05,
                                          Str(Palette[|old(stones)|]), Num(|old(stones)| as real))]
        && writes == old(writes) + 1
      ensures |stones| <= MaxStones || stones == old(stones)
      ensures old(CounterAhead()) ==> CounterAhead()
      ensures old(CounterAhead()) && UniqueStoneIds(old(stones)) ==> UniqueStoneIds(stones)
      ensures dragState == old(dragState)
    {
      if |stones| >= MaxStones {
        return;
      }
      stoneCounter := stoneCounter + 1;
      var colorIndex := |stones| % |Palette|;
      var s := Stone(StoneId(stoneCounter), 0.5, 0.5, 0.05, Str(Palette[colorIndex]), Num(colorIndex as real));
      ghost var before := stones;
      stones := stones + [s];
      writes := writes + 1;
      if old(CounterAhead()) && UniqueStoneIds(before) {
        forall i, j | 0 <= i < j < |stones| ensures stones[i].id != stones[j].id {
          if j == |before| {
            assert IssuedAtMost(before[i].id, stoneCounter - 1);
          } else {
            assert stones[i] == before[i] && stones[j] == before[j];
          }
        }
      }
    }

    /** Removes every marker with `id` and persists, even when none had it. */
    method DeleteStone(id: string)
      modifies this`stones, this`writes
      ensures stones == RemoveStone(old(stones), id)
      ensures forall i :: 0 <= i < |stones| ==> stones[i].id != id
      ensures writes == old(writes) + 1
      ensures old(CounterAhead()) ==> CounterAhead()
    {
      stones := RemoveStone(stones, id);
      writes := writes + 1;
      forall i | 0 <= i < |stones| ensures stones[i].id != id {
        assert stones[i] in stones;
      }
      if old(CounterAhead()) {
        forall i | 0 <= i < |stones| ensures IssuedAtMost(stones[i].id, stoneCounter) {
          assert stones[i] in old(stones);
        }
      }
    }

    /** Highlights a marker without starting a drag. */
    method SelectStone(id: string)
      modifies this`dragState
      ensures dragState == old(dragState).(activeStoneId := Some(id))
    {
      dragState := dragState.(activeStoneId := Some(id));
    }

    /** One step up: by 0.01, capped at 0.15; nothing at or above the cap. */
    method IncreaseStoneSize(id: string)
      modifies this`stones, this`writes
      ensures var i := StoneIndex(old(stones), id);
        if i == -1 || old(stones)[i].radius >= 0.15 then
          stones == old(stones) && writes == old(writes)
        else
          && |stones| == |old(stones)|
          && stones == old(stones)[i := stones[i]]
          && stones[i] == old(stones)[i].(radius := stones[i].radius)
          && stones[i].radius == Min(0.15, old(stones)[i].radius + 0.01)
          && old(stones)[i].radius < stones[i].radius <= old(stones)[i].radius + 0.01
          && stones[i].radius <= 0.15
          && writes == old(writes) + 1
      ensures old(CounterAhead()) ==> CounterAhead()
    {
      var i := StoneIndex(stones, id);
      if i >= 0 && stones[i].radius < 0.15 {
        stones := stones[i := stones[i].(radius := Min(0.15, stones[i].radius + 0.01))];
        writes := writes + 1;
      }
    }

    /** One step down: by 0.01, floored at 0.02; nothing at or below the
        floor. */
    method DecreaseStoneSize(id: string)
      modifies this`stones, this`writes
      ensures var i := StoneIndex(old(stones), id);
        if i == -1 || old(stones)[i].radius <= 0.02 then
          stones == old(stones) && writes == old(writes)
        else
          && |stones| == |old(stones)|
          && stones == old(stones)[i := stones[i]]
          && stones[i] == old(stones)[i].(radius := stones[i].radius)
          && stones[i].radius == Max(0.02, old(stones)[i].radius - 0.01)
          && old(stones)[i].radius - 0.01 <= stones[i].radius < old(stones)[i].radius
          && stones[i].radius >= 0.02
          && writes == old(writes) + 1
      ensures old(CounterAhead()) ==> CounterAhead()
    {
      var i := StoneIndex(stones, id);
      if i >= 0 && stones[i].radius > 0.02 {
        stones := stones[i := stones[i].(radius := Max(0.02, stones[i].radius - 0.01))];
        writes := writes + 1;
      }
    }

    /** Removes every marker and persists; the counter is kept. */
    method ClearAll()
      modifies this`stones, this`writes
      ensures stones == [] && writes == old(writes) + 1
      ensures CounterAhead()
    {
      stones := [];
      writes := writes + 1;
    }

    /** Starts moving a marker from the pointer position. */
    method StartDrag(clientX: real, clientY: real, id: string)
      modifies this`dragState
      ensures dragState == DragState(true, false, Some(id), clientX, clientY, 0.0)
    {
      dragState := DragState(true, false, Some(id), clientX, clientY, 0.0);
    }

    /** Starts resizing a marker, remembering its radius; an unknown id
        leaves the record as it was. */
    method StartResize(clientX: real, clientY: real, id: string)
      modifies this`dragState
      ensures var i := StoneIndex(stones, id);
        dragState == if i == -1 then old(dragState)
                     else DragState(false, true, Some(id), clientX, clientY, stones[i].radius)
    {
      var i := StoneIndex(stones, id);
      if i == -1 {
        return;
      }
      dragState := DragState(false, true, Some(id), clientX, clientY, stones[i].radius);
    }

    /** Whether a pointer move has something to act on: an active marker id
        that is a non-empty string and a drag or resize in progress. */
    predicate Engaged()
      reads this
    {
      && dragState.activeStoneId.Some? && dragState.activeStoneId.value != ""
      && (dragState.isDragging || dragState.isResizing)
    }

    /** A pointer move to (`clientX`, `clientY`) over a container of
        `width` x `height` pixels (`hasContainer` false when the image
        container is not rendered). A drag moves the marker by the pointer
        displacement, scaled to the container and clamped into
        [0.05, 0.95]; a resize scales the starting radius by `ratio` (the
        pointer's distance from the marker centre over the distance at the
        press) and clamps it into [0.02, 0.15]. Nothing is persisted. */
    method OnMouseMove(clientX: real, clientY: real, width: real, height: real, ratio: real,
                       hasContainer: bool)
      requires width > 0.0 && height > 0.0
      modifies this`stones, this`dragState
      ensures var i := if old(Engaged()) then StoneIndex(old(stones), old(dragState).activeStoneId.value) else -1;
        if i == -1 || !hasContainer then
          stones == old(stones) && dragState == old(dragState)
        else if old(dragState).isDragging then
          && stones == old(stones)[i := old(stones)[i].(
               x := Clamp(0.05, 0.95, old(stones)[i].x + (clientX - old(dragState).startX) / width),
               y := Clamp(0.05, 0.95, old(stones)[i].y + (clientY - old(dragState).startY) / height))]
          && 0.05 <= stones[i].x <= 0.95 && 0.05 <= stones[i].y <= 0.95
          && dragState == old(dragState).(startX := clientX, startY := clientY)
        else
          && stones == old(stones)[i := old(stones)[i].(
               radius := Clamp(0.02, 0.15, old(dragState).startRadius * ratio))]
          && 0.02 <= stones[i].radius <= 0.15
          && dragState == old(dragState)
      ensures |stones| == |old(stones)|
      ensures forall i :: 0 <= i < |stones| ==> stones[i].id == old(stones)[i].id
      ensures old(CounterAhead()) ==> CounterAhead()
    {
      if !Engaged() {
        return;
      }
      var i := StoneIndex(stones, dragState.activeStoneId.value);
      if i == -1 || !hasContainer {
        return;
      }
      var s := stones[i];
      if dragState.isDragging {
        var newX := s.x + (clientX - dragState.startX) / width;
        var newY := s.y + (clientY - dragState.startY) / height;
        stones := stones[i := s.(x := Clamp(0.05, 0.95, newX), y := Clamp(0.05, 0.95, newY))];
        dragState := dragState.(startX := clientX, startY := clientY);
      } else {
        stones := stones[i := s.(radius := Clamp(0.02, 0.15, dragState.startRadius * ratio))];
      }
    }

    /** Releasing the pointer persists a drag or resize in progress and
        always returns to the idle record. */
    method OnMouseUp()
      modifies this`dragState, this`writes
      ensures dragState == Idle
      ensures writes == if old(Engaged()) then old(writes) + 1 else old(writes)
    {
      if Engaged() {
        writes := writes + 1;
      }
      dragState := Idle;
    }

    /** Imports markers from a chosen file: nothing happens without a file;
        an unparsable file, or an array in which the validator reaches a
        `null` element, ends with the read-error alert; one failing
        `ValidateStonesData` otherwise ends with the invalid-format alert;
        in each of these the list stays as it was, and a valid file
        replaces it. The counter is kept. */
    method LoadStones(doc: StoneDoc) returns (outcome: StoneLoadOutcome)
      modifies this`stones, this`writes
      ensures outcome ==
        if doc.NoFile? then NotChosen
        else if doc.Unparsable? then ReadError
        else if doc.NotArray? then InvalidFormat
        else if ScanStones(doc.items).ThrowsAt? then ReadError
        else if !ValidateStonesData(doc) then InvalidFormat
        else Loaded(|doc.items|)
      ensures outcome.Loaded? <==> ValidateStonesData(doc)
      ensures !outcome.Loaded? ==> stones == old(stones) && writes == old(writes)
      ensures outcome.Loaded? ==> stones == ImportStones(doc.items) && writes == old(writes) + 1
    {
      if doc.NoFile? {
        return NotChosen;
      }
      if doc.Unparsable? {
        return ReadError;
      }
      if doc.Items? && ScanStones(doc.items).ThrowsAt? {
        return ReadError;
      }
      if !ValidateStonesData(doc) {
        return InvalidFormat;
      }
      stones := ImportStones(doc.items);
      writes := writes + 1;
      outcome := Loaded(|doc.items|);
    }

    /** The export of the current list (`saveStones`, without the download). */
    method SaveStones() returns (data: seq<ExportedStone>)
      ensures data == Export(stones)
      ensures |data| == |stones|
      ensures forall i :: 0 <= i < |stones| ==>
        data[i].id == stones[i].id
        && stones[i].x - 0.0005 < data[i].x <= stones[i].x + 0.0005
        && stones[i].y - 0.0005 < data[i].y <= stones[i].y + 0.0005
        && stones[i].radius - 0.0005 < data[i].radius <= stones[i].radius + 0.0005
    {
      data := Export(stones);
    }
  }

  /** Add `stone1` and `stone2`, delete `stone1` and reload the page: the
      reload sets the counter to 1, so the next marker added is a second
      `stone2`. */
  method ReloadReissuesLiveId() returns (m: KidneyStoneMarker)
    ensures |m.stones| == 2 && m.stones[0].id == m.stones[1].id == "stone2"
    ensures !UniqueStoneIds(m.stones)
  {
    m := new KidneyStoneMarker();
    m.LoadSavedStones(SavedStones([Stone("stone2", 0.5, 0.5, 0.05, Null, Null)]));
    m.AddStone();
    assert NatToString(2) == "2";
  }

  /** The same sequence with the corrected reload: the next marker added is
      `stone3` and the ids stay distinct. */
  method ReloadFixedKeepsIdsUnique() returns (m: KidneyStoneMarker)
    ensures |m.stones| == 2 && m.stones[0].id == "stone2" && m.stones[1].id == "stone3"
    ensures UniqueStoneIds(m.stones)
  {
    m := new KidneyStoneMarker();
    var saved := [Stone("stone2", 0.5, 0.5, 0.05, Null, Null)];
    assert NatToString(2) == "2";
    assert ParseStoneId("stone2") == Some(2) by {
      assert StoneId(2) == "stone2";
    }
    m.LoadSavedStonesFixed(SavedStones(saved));
    m.AddStone();
    assert NatToString(3) == "3";
  }
}
