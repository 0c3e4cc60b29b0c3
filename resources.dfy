/** Resource nodes of the main game (src/resources.py): rocks hold minerals,
    pine trees ("plants") and bushes hold plant resources.  A node is an object
    because ants drain its content in place.  The three Python classes become
    one class tagged with its kind.

    Pixel art is modelled only as far as the layout goes: which layout cells
    become pixels, and with which part tag.  The colours are random draws and
    are not modelled. */
module Resources {
  import opened Wrappers
  import opened Geometry

  datatype NodeKind = Rock | Plant | Bush

  /** What a fresh node holds: 50 minerals in a rock, 30 resources in a pine
      tree, 10 in a bush. */
  function InitialContent(kind: NodeKind): (c: int)
    ensures c > 0
  {
    match kind
    case Rock => 50
    case Plant => 30
    case Bush => 10
  }

  /** The `size` attribute ants use for contact: a rock and a bush keep their
      original size 40; a pine tree's `size` is set to 0 and never changed. */
  function ContactSize(kind: NodeKind): real
  {
    match kind
    case Rock => 40.0
    case Plant => 0.0
    case Bush => 40.0
  }

  /** The elastic easing curve of the growth animation.  `wave` stands for the
      term `2^(-10x) * sin((10x - 0.75) * 2pi/3)`, which is trigonometry and is
      supplied by the caller; only the two end points are fixed. */
  function EaseOutElastic(x: real, wave: real): (r: real)
    ensures x == 0.0 ==> r == 0.0
    ensures x == 1.0 ==> r == 1.0
    ensures x != 0.0 && x != 1.0 ==> r == wave + 1.0
  {
    if x == 0.0 then 0.0
    else if x == 1.0 then 1.0
    else wave + 1.0
  }

  // ---------------------------------------------------------------------
  // Pixel layouts
  // ---------------------------------------------------------------------

  datatype Part = Stone | Shine | Leaf | Trunk | Berry | Stem

  /** A pixel at column `x`, row `y` of a layout, tagged with its part. */
  datatype Pixel = Pixel(x: nat, y: nat, part: Part)

  /** The pixels one row produces, scanning columns `x..` left to right. */
  function RowPixels(row: string, y: nat, x: nat, classify: (nat, nat, char) -> Option<Part>): seq<Pixel>
    requires x <= |row|
    decreases |row| - x
  {
    if x == |row| then []
    else
      var here := match classify(x, y, row[x])
        case Some(p) => [Pixel(x, y, p)]
        case None => [];
      here + RowPixels(row, y, x + 1, classify)
  }

  /** The pixels rows `y..` produce, top to bottom. */
  function LayoutPixels(layout: seq<string>, y: nat, classify: (nat, nat, char) -> Option<Part>): seq<Pixel>
    requires y <= |layout|
    decreases |layout| - y
  {
    if y == |layout| then []
    else RowPixels(layout[y], y, 0, classify) + LayoutPixels(layout, y + 1, classify)
  }

  /** The nested `for y, row in enumerate(layout): for x, char in enumerate(row)`
      loop of the three `generate_*_pixels` methods. */
  function Expand(layout: seq<string>, classify: (nat, nat, char) -> Option<Part>): seq<Pixel>
  {
    LayoutPixels(layout, 0, classify)
  }

  /** The layout cell under `px` exists and produces exactly `px`'s part. */
  predicate Marks(layout: seq<string>, classify: (nat, nat, char) -> Option<Part>, px: Pixel)
  {
    px.y < |layout| && px.x < |layout[px.y]| && classify(px.x, px.y, layout[px.y][px.x]) == Some(px.part)
  }

  /** `a` comes strictly before `b` in row-major order. */
  predicate RowMajorBefore(a: Pixel, b: Pixel)
  {
    a.y < b.y || (a.y == b.y && a.x < b.x)
  }

  predicate StrictlyRowMajor(s: seq<Pixel>)
  {
    forall i, j :: 0 <= i < j < |s| ==> RowMajorBefore(s[i], s[j])
  }

  lemma {:induction false} RowPixelsSpec(row: string, y: nat, x: nat, classify: (nat, nat, char) -> Option<Part>)
    requires x <= |row|
    ensures forall px :: px in RowPixels(row, y, x, classify) <==>
      px.y == y && x <= px.x < |row| && classify(px.x, y, row[px.x]) == Some(px.part)
    ensures forall i, j :: 0 <= i < j < |RowPixels(row, y, x, classify)| ==>
      RowPixels(row, y, x, classify)[i].x < RowPixels(row, y, x, classify)[j].x
    decreases |row| - x
  {
    if x < |row| {
      RowPixelsSpec(row, y, x + 1, classify);
      var rest := RowPixels(row, y, x + 1, classify);
      assert forall px :: px in rest ==> x < px.x;
    }
  }

  lemma {:induction false} LayoutPixelsSpec(layout: seq<string>, y: nat, classify: (nat, nat, char) -> Option<Part>)
    requires y <= |layout|
    ensures forall px :: px in LayoutPixels(layout, y, classify) <==> y <= px.y && Marks(layout, classify, px)
    ensures StrictlyRowMajor(LayoutPixels(layout, y, classify))
    decreases |layout| - y
  {
    if y < |layout| {
      RowPixelsSpec(layout[y], y, 0, classify);
      LayoutPixelsSpec(layout, y + 1, classify);
      var row := RowPixels(layout[y], y, 0, classify);
      var rest := LayoutPixels(layout, y + 1, classify);
      assert LayoutPixels(layout, y, classify) == row + rest;
      forall i, j | 0 <= i < j < |row + rest|
        ensures RowMajorBefore((row + rest)[i], (row + rest)[j])
      {
        if j < |row| {
          assert (row + rest)[i] == row[i] && (row + rest)[j] == row[j];
        } else if i >= |row| {
          assert (row + rest)[i] == rest[i - |row|] && (row + rest)[j] == rest[j - |row|];
        } else {
          assert (row + rest)[i] == row[i] && row[i] in row;
          assert (row + rest)[j] == rest[j - |row|] && rest[j - |row|] in rest;
        }
      }
    }
  }

  /** Every pixel of an expanded layout comes from a producing cell, every
      producing cell yields a pixel, and the pixels are in strict row-major
      order, so each producing cell yields exactly one pixel. */
  lemma ExpandSpec(layout: seq<string>, classify: (nat, nat, char) -> Option<Part>)
    ensures forall px :: px in Expand(layout, classify) <==> Marks(layout, classify, px)
    ensures StrictlyRowMajor(Expand(layout, classify))
  {
    LayoutPixelsSpec(layout, 0, classify);
  }

  /** generate_rock_pixels: 'X' is rock, 'S' is the shine spot. */
  function RockCell(x: nat, y: nat, ch: char): Option<Part>
  {
    if ch == 'X' then Some(Stone) else if ch == 'S' then Some(Shine) else None
  }

  /** generate_pine_pixels: 'X' is a leaf, '|' is trunk. */
  function PineCell(x: nat, y: nat, ch: char): Option<Part>
  {
    if ch == 'X' then Some(Leaf) else if ch == '|' then Some(Trunk) else None
  }

  /** The berry cells of a bush; a bush without berries has none. */
  function BerryPositions(hasBerries: bool): seq<(nat, nat)>
  {
    if hasBerries then [(1, 1), (4, 1), (2, 2), (3, 3)] else []
  }

  /** generate_bush_pixels: an 'X' is a berry on a berry cell and a leaf
      elsewhere; '/', '\' and '|' are stem. */
  function BushCell(hasBerries: bool): (nat, nat, char) -> Option<Part>
  {
    (x: nat, y: nat, ch: char) =>
      if ch == 'X' then
        (if (x, y) in BerryPositions(hasBerries) then Some(Berry) else Some(Leaf))
      else if ch == '/' || ch == '\\' || ch == '|' then Some(Stem)
      else None
  }

  const RockShapes: seq<seq<string>> := [
    ["  X  ", " XXX ", "XXXSX", "XXXXX"],
    [" XXX ", "XXXXX", "XXSXX", "XXXXX", " XXX "],
    ["  XX ", "XXXXX", "XXSXX", " XXX ", " XX  "],
    [" XXX ", "XXXSX", "XXXXX", " XXX "]
  ]

  const PineLayout: seq<string> := [
    "   XX   ", "  XXXX  ", " XXXXXX ", "XXXXXXXX", "XXXXXXXX", " XXXXXX ",
    " XXXXXX ", "  XXXX  ", "   ||   ", "   ||   ", "   ||   ", "   ||   "
  ]

  const BushLayout: seq<string> := [
    " XXXX ", "XXXXXX", "XXXXXX", "XXXXXX", " /||\\", "  ||  "
  ]

  function GenerateRockPixels(shape: seq<string>): seq<Pixel>
  {
    Expand(shape, RockCell)
  }

  function GeneratePinePixels(): seq<Pixel>
  {
    Expand(PineLayout, PineCell)
  }

  function GenerateBushPixels(hasBerries: bool): seq<Pixel>
  {
    Expand(BushLayout, BushCell(hasBerries))
  }

  /** A rock emits one entry per 'X' (tagged rock) and per 'S' (tagged shine)
      at its (column, row), in row-major order. */
  lemma RockPixelsSpec(shape: seq<string>)
    ensures forall px :: px in GenerateRockPixels(shape) <==>
      px.y < |shape| && px.x < |shape[px.y]| &&
      ((shape[px.y][px.x] == 'X' && px.part == Stone) || (shape[px.y][px.x] == 'S' && px.part == Shine))
    ensures StrictlyRowMajor(GenerateRockPixels(shape))
  {
    ExpandSpec(shape, RockCell);
  }

  /** A pine tree maps 'X' to leaf and '|' to trunk and skips every other
      character. */
  lemma PinePixelsSpec()
    ensures forall px :: px in GeneratePinePixels() <==>
      px.y < |PineLayout| && px.x < |PineLayout[px.y]| &&
      ((PineLayout[px.y][px.x] == 'X' && px.part == Leaf) || (PineLayout[px.y][px.x] == '|' && px.part == Trunk))
    ensures StrictlyRowMajor(GeneratePinePixels())
  {
    ExpandSpec(PineLayout, PineCell);
  }

  /** A bush emits one entry per 'X', tagged as a berry exactly when it has
      berries and the cell is one of the berry positions and as a leaf
      otherwise, and one entry tagged stem per '/', '\' and '|', each at its
      (column, row), in row-major order. */
  lemma BushPixelsSpec(hasBerries: bool)
    ensures forall px :: px in GenerateBushPixels(hasBerries) <==>
      || (BushCellIs(px, 'X') && px.part == (if hasBerries && (px.x, px.y) in BerryPositions(true) then Berry else Leaf))
      || ((BushCellIs(px, '/') || BushCellIs(px, '\\') || BushCellIs(px, '|')) && px.part == Stem)
    ensures forall px :: px in GenerateBushPixels(hasBerries) && px.part == Berry <==>
      BushCellIs(px, 'X') && hasBerries && (px.x, px.y) in BerryPositions(true) && px.part == Berry
    ensures forall px :: px in GenerateBushPixels(hasBerries) && px.part == Leaf <==>
      BushCellIs(px, 'X') && !(hasBerries && (px.x, px.y) in BerryPositions(true)) && px.part == Leaf
    ensures StrictlyRowMajor(GenerateBushPixels(hasBerries))
  {
    var cells := BushCell(hasBerries);
    ExpandSpec(BushLayout, cells);
    forall px: Pixel
      ensures px in GenerateBushPixels(hasBerries) <==>
        || (BushCellIs(px, 'X') && px.part == (if hasBerries && (px.x, px.y) in BerryPositions(true) then Berry else Leaf))
        || ((BushCellIs(px, '/') || BushCellIs(px, '\\') || BushCellIs(px, '|')) && px.part == Stem)
      ensures px in GenerateBushPixels(hasBerries) && px.part == Berry <==>
        BushCellIs(px, 'X') && hasBerries && (px.x, px.y) in BerryPositions(true) && px.part == Berry
      ensures px in GenerateBushPixels(hasBerries) && px.part == Leaf <==>
        BushCellIs(px, 'X') && !(hasBerries && (px.x, px.y) in BerryPositions(true)) && px.part == Leaf
    {
      assert px in GenerateBushPixels(hasBerries) <==> Marks(BushLayout, cells, px);
      if px.y < |BushLayout| && px.x < |BushLayout[px.y]| {
        BushCellFacts(hasBerries, px.x, px.y, BushLayout[px.y][px.x]);
      }
    }
  }

  /** What BushCell makes of one character. */
  lemma BushCellFacts(hasBerries: bool, x: nat, y: nat, ch: char)
    ensures BushCell(hasBerries)(x, y, ch) == Some(Berry) <==> ch == 'X' && hasBerries && (x, y) in BerryPositions(true)
    ensures BushCell(hasBerries)(x, y, ch) == Some(Leaf) <==> ch == 'X' && !(hasBerries && (x, y) in BerryPositions(true))
    ensures BushCell(hasBerries)(x, y, ch) == Some(Stem) <==> ch == '/' || ch == '\\' || ch == '|'
    ensures BushCell(hasBerries)(x, y, ch) == None <==> ch != 'X' && ch != '/' && ch != '\\' && ch != '|'
  {
  }

  /** The bush layout has character `ch` under pixel `px`. */
  predicate BushCellIs(px: Pixel, ch: char)
  {
    px.y < |BushLayout| && px.x < |BushLayout[px.y]| && BushLayout[px.y][px.x] == ch
  }

  // ---------------------------------------------------------------------
  // Nodes
  // ---------------------------------------------------------------------

  class ResourceNode {
    const kind: NodeKind
    const position: Point
    /** Contact size, see ContactSize. */
    const size: real
    const pixels: seq<Pixel>
    /** `minerals` of a rock, `resources` of a pine tree or a bush. */
    var content: int
    /** The `has_spider` attribute: absent (None) until the game marks a
        node as a spider's spawn point. */
    var hasSpider: Option<bool>
    /** Growth animation of a pine tree; rocks and bushes have none and are
        created already grown. */
    var isGrowing: bool
    var growthScale: real
    const growthStart: int
    /** One second, for every pine tree. */
    const growthDuration: int := 1000

    ghost predicate Fresh(k: NodeKind, p: Point)
      reads this
    {
      && kind == k && position == p && size == ContactSize(k)
      && content == InitialContent(k) && hasSpider == None
    }

    /** Rock(position); `shape` is the index of the randomly chosen shape. */
    constructor NewRock(p: Point, shape: nat)
      requires shape < |RockShapes|
      ensures Fresh(Rock, p) && pixels == GenerateRockPixels(RockShapes[shape])
      ensures !isGrowing && growthScale == 1.0
    {
      kind, position, size := Rock, p, ContactSize(Rock);
      pixels := GenerateRockPixels(RockShapes[shape]);
      content := InitialContent(Rock);
      hasSpider := None;
      isGrowing, growthScale, growthStart := false, 1.0, 0;
    }

    /** Plant(position): a pine tree that starts growing at time `now`. */
    constructor NewPlant(p: Point, now: int)
      ensures Fresh(Plant, p) && pixels == GeneratePinePixels()
      ensures isGrowing && growthScale == 0.0 && growthStart == now
    {
      kind, position, size := Plant, p, ContactSize(Plant);
      pixels := GeneratePinePixels();
      content := InitialContent(Plant);
      hasSpider := None;
      isGrowing, growthScale, growthStart := true, 0.0, now;
    }

    /** Bush(position); `hasBerries` is the coin flip `random() > 0.5`. */
    constructor NewBush(p: Point, hasBerries: bool)
      ensures Fresh(Bush, p) && pixels == GenerateBushPixels(hasBerries)
      ensures !isGrowing && growthScale == 1.0
    {
      kind, position, size := Bush, p, ContactSize(Bush);
      pixels := GenerateBushPixels(hasBerries);
      content := InitialContent(Bush);
      hasSpider := None;
      isGrowing, growthScale, growthStart := false, 1.0, 0;
    }

    /** Plant.update: while growing, follow the easing curve; once the growth
        duration has elapsed, stop growing at full scale.  A node that has
        stopped growing never changes here again.  `wave` is the trigonometric
        part of the easing curve at the current progress. */
    method UpdateGrowth(now: int, wave: real)
      modifies this`isGrowing, this`growthScale
      ensures !old(isGrowing) ==> !isGrowing && growthScale == old(growthScale)
      ensures old(isGrowing) && now - growthStart >= growthDuration ==> !isGrowing && growthScale == 1.0
      ensures old(isGrowing) && now - growthStart < growthDuration ==>
        isGrowing && growthScale == EaseOutElastic((now - growthStart) as real / growthDuration as real, wave)
    {
      if isGrowing {
        var elapsed := now - growthStart;
        if elapsed < growthDuration {
          var progress := elapsed as real / growthDuration as real;
          growthScale := EaseOutElastic(progress, wave);
        } else {
          isGrowing := false;
          growthScale := 1.0;
        }
      }
    }
  }
}
