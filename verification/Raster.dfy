/** Dithering an image to one bit per dot for the receipt printer (imageToBitmapData, pkg/print/direct.go). Gray levels
    are exact reals. */
module Raster {
  import opened Money
  import opened Domain

  type byte = bv8

  const MAX_WIDTH: nat := 576
  const MAX_HEIGHT: nat := 30000

  /** 16-bit colour components, as image.Image reports them. */
  datatype Pixel = Pixel(r: nat, g: nat, b: nat)

  type Color = p: Pixel | p.r < 0x10000 && p.g < 0x10000 && p.b < 0x10000 witness Pixel(0, 0, 0)

  /** An image: its bounds' minimum and size, and a colour everywhere. */
  datatype Image = Image(minX: int, minY: int, width: int, height: int, at: (int, int) -> Color)

  /** The gray level of a pixel: the integer mean of its components, scaled to 0..255. */
  function Gray(p: Color): (level: real)
    ensures 0.0 <= level <= 255.0
    ensures 0.0 <= (p.r + p.g + p.b) as real - 771.0 * level < 3.0
  {
    ((p.r + p.g + p.b) / 3) as real / 257.0
  }

  function Clamped(level: real): real
  {
    if level < 0.0 then 0.0 else if level > 255.0 then 255.0 else level
  }

  predicate Black(level: real) { Clamped(level) < 128.0 }

  /** The quantisation error passed on to the neighbours. */
  function QuantError(level: real): (e: real)
    ensures -127.0 <= e < 128.0
  {
    if Black(level) then Clamped(level) else Clamped(level) - 255.0
  }

  // ----- the specification: each cell pulls its neighbours' errors -----

  /** A grid of gray levels. */
  type Grid = (int, int) -> real

  /** Cell (x, y) comes before the cell (dx, dy) in row order. */
  predicate Before(x: int, y: int, dx: int, dy: int) { y < dy || (y == dy && x < dx) }

  /** The level of cell (x, y) once every cell before (dx, dy) has passed on its error: its own gray plus 7/16 of the
      error of its left neighbour, 1/16, 5/16 and 3/16 of those of the cells above left, above and above right. */
  ghost function Level(g: Grid, w: nat, x: nat, y: nat, dx: int, dy: int): (level: real)
    requires x < w && dx >= 0 && dy >= 0
    ensures 0.0 <= g(x, y) <= 255.0 ==> -127.0 <= level < 383.0
    decreases dy, dx
  {
    g(x, y)
    + (if x > 0 && Before(x - 1, y, dx, dy) then QuantError(Level(g, w, x - 1, y, x - 1, y)) * 7.0 / 16.0 else 0.0)
    + (if x > 0 && y > 0 && Before(x - 1, y - 1, dx, dy)
        then QuantError(Level(g, w, x - 1, y - 1, x - 1, y - 1)) / 16.0 else 0.0)
    + (if y > 0 && Before(x, y - 1, dx, dy) then QuantError(Level(g, w, x, y - 1, x, y - 1)) * 5.0 / 16.0 else 0.0)
    + (if y > 0 && x + 1 < w && Before(x + 1, y - 1, dx, dy)
        then QuantError(Level(g, w, x + 1, y - 1, x + 1, y - 1)) * 3.0 / 16.0 else 0.0)
  }

  /** The level a cell is quantised at. */
  ghost function Final(g: Grid, w: nat, x: nat, y: nat): real
    requires x < w
  {
    Level(g, w, x, y, x, y)
  }

  /** What cell (x, y) adds to (x', y') when it passes on its error `e`. */
  function Push(w: nat, x: int, y: int, x': int, y': int, e: real): real
  {
    if y' == y && x' == x + 1 && x + 1 < w then e * 7.0 / 16.0
    else if y' == y + 1 && x' == x - 1 then e * 3.0 / 16.0
    else if y' == y + 1 && x' == x then e * 5.0 / 16.0
    else if y' == y + 1 && x' == x + 1 && x + 1 < w then e / 16.0
    else 0.0
  }

  /** Pushing and pulling agree: one more cell processed adds exactly its push to every other cell. */
  lemma LevelAfter(g: Grid, w: nat, x: nat, y: nat, x': nat, y': nat)
    requires x < w && x' < w && Before(x, y, x', y')
    ensures Level(g, w, x', y', x + 1, y) == Level(g, w, x', y', x, y)
              + Push(w, x, y, x', y', QuantError(Final(g, w, x, y)))
  {
  }

  /** The end of a row is the start of the next. */
  lemma LevelAtRowEnd(g: Grid, w: nat, y: nat, x': nat, y': nat)
    requires x' < w
    ensures Level(g, w, x', y', w, y) == Level(g, w, x', y', 0, y + 1)
  {
  }

  /** A cell passes its error on in sixteenths, 7 to the right and 3, 5 and 1 below: all of it, but for what would fall
      off the sides. */
  lemma ErrorPassedOn(w: nat, x: nat, y: nat, e: real)
    requires x < w
    ensures var right, belowLeft := Push(w, x, y, x + 1, y, e), Push(w, x, y, x - 1, y + 1, e);
            var below, belowRight := Push(w, x, y, x, y + 1, e), Push(w, x, y, x + 1, y + 1, e);
            if x + 1 < w then
              right == 7.0 * belowRight && belowLeft == 3.0 * belowRight && below == 5.0 * belowRight
              && right + belowLeft + below + belowRight == e
            else right == belowRight == 0.0 && 5.0 * belowLeft == 3.0 * below && belowLeft + below == e / 2.0
    ensures forall x', y' :: Push(w, x, y, x', y', e) != 0.0 ==>
              (x', y') == (x + 1, y) || (x', y') == (x - 1, y + 1)
              || (x', y') == (x, y + 1) || (x', y') == (x + 1, y + 1)
  {
  }

  // ----- bits -----

  function Mask(i: nat): byte
    requires i < 8
  {
    (0x80 as bv8) >> i
  }

  predicate Bit(b: byte, i: nat)
    requires i < 8
  {
    b & Mask(i) != 0
  }

  lemma MaskTable(i: nat)
    requires i < 8
    ensures Mask(i) == if i == 0 then 0x80 else if i == 1 then 0x40 else if i == 2 then 0x20 else if i == 3 then 0x10
                       else if i == 4 then 0x08 else if i == 5 then 0x04 else if i == 6 then 0x02 else 0x01
  {
  }

  lemma SetBit(b: byte, i: nat, j: nat)
    requires i < 8 && j < 8
    ensures Bit(b | Mask(i), j) <==> i == j || Bit(b, j)
  {
    hide Mask;
    MaskTable(i);
    MaskTable(j);
  }

  lemma ZeroBits(i: nat)
    requires i < 8
    ensures !Bit(0, i)
  {
  }

  // ----- flat indices -----

  function Cell(x: nat, y: nat, stride: nat): nat { y * stride + x }

  lemma CellInside(x: nat, y: nat, w: nat, h: nat)
    requires x < w && y < h
    ensures Cell(x, y, w) < w * h
  {
    assert (y + 1) * w <= h * w;
  }

  lemma CellInjective(x: nat, y: nat, x': nat, y': nat, w: nat)
    requires x < w && x' < w
    ensures Cell(x, y, w) == Cell(x', y', w) <==> x == x' && y == y'
  {
    if y < y' { assert (y + 1) * w <= y' * w; }
    if y' < y { assert (y' + 1) * w <= y * w; }
  }

  // ----- the algorithm, in place -----

  /** A cell as it stands while (dx, dy) is next: final once processed, else with the errors received so far. */
  ghost function Standing(g: Grid, w: nat, x: nat, y: nat, dx: nat, dy: nat): real
    requires x < w
  {
    if Before(x, y, dx, dy) then Final(g, w, x, y) else Level(g, w, x, y, dx, dy)
  }

  ghost predicate Stands(gray: array<real>, g: Grid, w: nat, h: nat, dx: nat, dy: nat)
    reads gray
  {
    gray.Length == w * h &&
    forall x: nat, y: nat :: x < w && y < h ==>
      Cell(x, y, w) < gray.Length && gray[Cell(x, y, w)] == Standing(g, w, x, y, dx, dy)
  }

  /** The four neighbours' updates of one cell. */
  method Spread(gray: array<real>, x: nat, y: nat, w: nat, h: nat, err: real)
    requires x < w && y < h && gray.Length == w * h
    requires forall a: nat, b: nat :: a < w && b < h ==> Cell(a, b, w) < gray.Length
    modifies gray
    ensures forall a: nat, b: nat :: a < w && b < h ==>
              gray[Cell(a, b, w)] == old(gray[Cell(a, b, w)]) + Push(w, x, y, a, b, err)
  {
    ghost var before := gray[..];
    if x + 1 < w {
      gray[Cell(x + 1, y, w)] := gray[Cell(x + 1, y, w)] + err * 7.0 / 16.0;
    }
    if y + 1 < h {
      if x > 0 {
        gray[Cell(x - 1, y + 1, w)] := gray[Cell(x - 1, y + 1, w)] + err * 3.0 / 16.0;
      }
      gray[Cell(x, y + 1, w)] := gray[Cell(x, y + 1, w)] + err * 5.0 / 16.0;
      if x + 1 < w {
        gray[Cell(x + 1, y + 1, w)] := gray[Cell(x + 1, y + 1, w)] + err * 1.0 / 16.0;
      }
    }
    forall a: nat, b: nat | a < w && b < h
      ensures gray[Cell(a, b, w)] == before[Cell(a, b, w)] + Push(w, x, y, a, b, err)
    {
      if x + 1 < w { CellInjective(a, b, x + 1, y, w); CellInjective(a, b, x + 1, y + 1, w); }
      if x > 0 { CellInjective(a, b, x - 1, y + 1, w); }
      CellInjective(a, b, x, y + 1, w);
    }
  }

  ghost predicate BitsUpTo(bitmap: array<byte>, g: Grid, w: nat, h: nat, stride: nat, dx: nat, dy: nat)
    reads bitmap
  {
    bitmap.Length == stride * h &&
    forall x: nat, y: nat :: x < 8 * stride && y < h ==>
      Cell(x / 8, y, stride) < bitmap.Length &&
      (Bit(bitmap[Cell(x / 8, y, stride)], x % 8) <==> x < w && Before(x, y, dx, dy) && Black(Final(g, w, x, y)))
  }

  lemma StandingAfter(g: Grid, w: nat, x: nat, y: nat, a: nat, b: nat)
    requires x < w && a < w
    ensures Standing(g, w, a, b, x + 1, y) == Standing(g, w, a, b, x, y)
              + Push(w, x, y, a, b, QuantError(Final(g, w, x, y)))
  {
    if Before(x, y, a, b) {
      LevelAfter(g, w, x, y, a, b);
    }
  }

  lemma StandingAtRowEnd(g: Grid, w: nat, y: nat, a: nat, b: nat)
    requires a < w
    ensures Standing(g, w, a, b, w, y) == Standing(g, w, a, b, 0, y + 1)
  {
    LevelAtRowEnd(g, w, y, a, b);
  }

  /** Or-ing the bit of cell (x, y) into its byte. */
  method SetCell(bitmap: array<byte>, x: nat, y: nat, h: nat, stride: nat)
    requires x < 8 * stride && y < h && bitmap.Length == stride * h
    requires forall a: nat, b: nat :: a < stride && b < h ==> Cell(a, b, stride) < bitmap.Length
    modifies bitmap
    ensures forall a: nat, b: nat :: a < 8 * stride && b < h ==>
              (Bit(bitmap[Cell(a / 8, b, stride)], a % 8) <==>
                 (a == x && b == y) || Bit(old(bitmap[Cell(a / 8, b, stride)]), a % 8))
  {
    hide Bit, Mask;
    ghost var before := bitmap[..];
    var at := Cell(x / 8, y, stride);
    bitmap[at] := bitmap[at] | Mask(x % 8);
    forall a: nat, b: nat | a < 8 * stride && b < h
      ensures Bit(bitmap[Cell(a / 8, b, stride)], a % 8) <==>
                (a == x && b == y) || Bit(before[Cell(a / 8, b, stride)], a % 8)
    {
      CellInjective(a / 8, b, x / 8, y, stride);
      SetBit(before[at], x % 8, a % 8);
    }
  }

  /** One cell: quantise it, spread its error, and set its bit when it came out black. */
  method DitherCell(gray: array<real>, bitmap: array<byte>, ghost g: Grid, x: nat, y: nat, w: nat, h: nat, stride: nat)
    requires x < w && y < h && w <= 8 * stride
    requires gray as object != bitmap as object
    requires Stands(gray, g, w, h, x, y) && BitsUpTo(bitmap, g, w, h, stride, x, y)
    modifies gray, bitmap
    ensures Stands(gray, g, w, h, x + 1, y) && BitsUpTo(bitmap, g, w, h, stride, x + 1, y)
  {
    hide Level, QuantError, Black, BitsUpTo, Stands, Cell, Final;
    NextCell(gray, g, w, h, x, y);
    var black, err := Quantise(gray[Cell(x, y, w)]);
    SpreadError(gray, g, x, y, w, h, err);
    MarkCell(bitmap, g, x, y, w, h, stride, black);
  }

  lemma NextCell(gray: array<real>, g: Grid, w: nat, h: nat, x: nat, y: nat)
    requires x < w && y < h && Stands(gray, g, w, h, x, y)
    ensures Cell(x, y, w) < gray.Length && gray[Cell(x, y, w)] == Final(g, w, x, y)
  {
  }

  method Quantise(level: real) returns (black: bool, err: real)
    ensures black == Black(level) && err == QuantError(level)
  {
    var p := level;
    if p < 0.0 {
      p := 0.0;
    } else if p > 255.0 {
      p := 255.0;
    }
    var quantized := 255.0;
    if p < 128.0 {
      quantized := 0.0;
    }
    err := p - quantized;
    black := quantized == 0.0;
  }

  method SpreadError(gray: array<real>, ghost g: Grid, x: nat, y: nat, w: nat, h: nat, err: real)
    requires x < w && y < h && Stands(gray, g, w, h, x, y) && err == QuantError(Final(g, w, x, y))
    modifies gray
    ensures Stands(gray, g, w, h, x + 1, y)
  {
    hide QuantError, Level, Final, Push, Standing;
    Spread(gray, x, y, w, h, err);
    forall a: nat, b: nat | a < w && b < h ensures gray[Cell(a, b, w)] == Standing(g, w, a, b, x + 1, y) {
      StandingAfter(g, w, x, y, a, b);
    }
  }

  method MarkCell(bitmap: array<byte>, ghost g: Grid, x: nat, y: nat, w: nat, h: nat, stride: nat, black: bool)
    requires x < w && y < h && w <= 8 * stride && black == Black(Final(g, w, x, y))
    requires BitsUpTo(bitmap, g, w, h, stride, x, y)
    modifies bitmap
    ensures BitsUpTo(bitmap, g, w, h, stride, x + 1, y)
  {
    hide Bit, Mask, Level, Final, Black;
    if black {
      BytesInside(bitmap, g, w, h, stride, x, y);
      SetCell(bitmap, x, y, h, stride);
    }
  }

  lemma BytesInside(bitmap: array<byte>, g: Grid, w: nat, h: nat, stride: nat, dx: nat, dy: nat)
    requires BitsUpTo(bitmap, g, w, h, stride, dx, dy)
    ensures forall a: nat, b: nat :: a < stride && b < h ==> Cell(a, b, stride) < bitmap.Length
  {
    forall a: nat, b: nat | a < stride && b < h ensures Cell(a, b, stride) < bitmap.Length {
      CellInside(a, b, stride, h);
    }
  }

  /** The nested loops over the gray grid. */
  method Dither(gray: array<real>, ghost g: Grid, w: nat, h: nat) returns (bitmap: array<byte>)
    requires Stands(gray, g, w, h, 0, 0)
    modifies gray
    ensures fresh(bitmap) && BitsUpTo(bitmap, g, w, h, (w + 7) / 8, 0, h)
  {
    hide Bit, Mask, Level, Final, Black, Standing;
    var stride := (w + 7) / 8;
    bitmap := new byte[stride * h](_ => 0);
    NoBits(bitmap, g, w, h, stride);
    for y := 0 to h
      invariant Stands(gray, g, w, h, 0, y) && BitsUpTo(bitmap, g, w, h, stride, 0, y)
    {
      for x := 0 to w
        invariant Stands(gray, g, w, h, x, y) && BitsUpTo(bitmap, g, w, h, stride, x, y)
      {
        DitherCell(gray, bitmap, g, x, y, w, h, stride);
      }
      forall a: nat, b: nat | a < w && b < h ensures Standing(g, w, a, b, w, y) == Standing(g, w, a, b, 0, y + 1) {
        StandingAtRowEnd(g, w, y, a, b);
      }
    }
  }

  lemma NoBits(bitmap: array<byte>, g: Grid, w: nat, h: nat, stride: nat)
    requires bitmap.Length == stride * h && forall i :: 0 <= i < bitmap.Length ==> bitmap[i] == 0
    ensures BitsUpTo(bitmap, g, w, h, stride, 0, 0)
  {
    hide Bit, Mask;
    forall x: nat, y: nat | x < 8 * stride && y < h
      ensures Cell(x / 8, y, stride) < bitmap.Length && !Bit(bitmap[Cell(x / 8, y, stride)], x % 8)
    {
      CellInside(x / 8, y, stride, h);
      ZeroBits(x % 8);
    }
  }

  // ----- sampling -----

  predicate Fits(img: Image) { img.width > 0 && 0 < img.height <= MAX_HEIGHT }

  /** Printed width and height in dots: at most MAX_WIDTH wide, height in proportion but at least one. */
  function Dots(img: Image): (d: (nat, nat))
    requires Fits(img)
    ensures 0 < d.0 <= MAX_WIDTH && 0 < d.1 <= MAX_HEIGHT
  {
    if img.width <= MAX_WIDTH then (img.width, img.height)
    else
      var height := img.height * MAX_WIDTH / img.width;
      ScaledHeight(img.height, img.width);
      (MAX_WIDTH, if height < 1 then 1 else height)
  }

  lemma ScaledHeight(height: int, width: int)
    requires height > 0 && width > MAX_WIDTH
    ensures 0 <= height * MAX_WIDTH / width <= height
  {
    Mono(height, MAX_WIDTH, width);
    assert height * width == width * height;
    DivAtMost(height * MAX_WIDTH, width, height);
    DivAtLeast(height * MAX_WIDTH, width, 0);
  }

  /** The gray level sampled for dot (x, y): nearest source pixel above and to the left. */
  ghost function Sampled(img: Image): Grid
    requires Fits(img)
  {
    (x, y) => Gray(img.at(x * img.width / Dots(img).0 + img.minX, y * img.height / Dots(img).1 + img.minY))
  }

  lemma SourceInside(i: nat, dots: nat, size: nat)
    requires i < dots && size > 0
    ensures 0 <= i * size / dots < size
  {
    Mono(size, i, dots - 1);
    assert i * size == size * i;
    assert size * (dots - 1) == dots * (size - 1) + dots - size;
    DivAtMost(i * size, dots, size - 1);
    DivAtLeast(i * size, dots, 0);
  }

  method Sample(img: Image) returns (gray: array<real>)
    requires Fits(img)
    ensures fresh(gray) && Stands(gray, Sampled(img), Dots(img).0, Dots(img).1, 0, 0)
  {
    hide Gray, Dots;
    var (w, h) := Dots(img);
    ghost var g := Sampled(img);
    gray := new real[w * h];
    for y := 0 to h
      invariant forall a: nat, b: nat :: a < w && b < y ==>
                Cell(a, b, w) < gray.Length && gray[Cell(a, b, w)] == g(a, b)
    {
      var srcY := y * img.height / h;
      SourceInside(y, h, img.height);
      for x := 0 to w
        invariant forall a: nat, b: nat :: a < w && b < h && Before(a, b, x, y) ==>
                  Cell(a, b, w) < gray.Length && gray[Cell(a, b, w)] == g(a, b)
      {
        var srcX := x * img.width / w;
        SourceInside(x, w, img.width);
        CellInside(x, y, w, h);
        gray[Cell(x, y, w)] := Gray(img.at(srcX + img.minX, srcY + img.minY));
        forall a: nat, b: nat | a < w && b < h && Before(a, b, x + 1, y)
          ensures Cell(a, b, w) < gray.Length && gray[Cell(a, b, w)] == g(a, b)
        {
          CellInjective(a, b, x, y, w);
          CellInside(a, b, w, h);
        }
      }
    }
    SampledStands(gray, g, w, h);
  }

  lemma SampledStands(gray: array<real>, g: Grid, w: nat, h: nat)
    requires gray.Length == w * h
    requires forall a: nat, b: nat :: a < w && b < h ==> Cell(a, b, w) < gray.Length && gray[Cell(a, b, w)] == g(a, b)
    ensures Stands(gray, g, w, h, 0, 0)
  {
  }

  // ----- the raster command -----

  const HEADER: nat := 8

  /** GS v 0 0, then the row length in bytes and the row count, low byte first. */
  function Header(stride: nat, h: nat): seq<byte>
  {
    [0x1D, 0x76, 0x30, 0, AsByte(stride % 256), AsByte(stride / 256 % 256), AsByte(h % 256), AsByte(h / 256 % 256)]
  }

  function AsByte(n: nat): byte
    requires n < 256
  {
    n as byte
  }

  function LowHigh(lo: byte, hi: byte): nat { (lo as int) + 256 * (hi as int) }

  lemma SomeByte(n: nat) returns (b: byte)
    requires n < 256
    ensures b as int == n
  {
    var k := 0;
    b := 0;
    while k < n
      invariant k <= n && b as int == k
    {
      b, k := b + 1, k + 1;
    }
  }

  lemma ByteBack(b: byte)
    ensures AsByte(b as int) == b
  {
  }

  lemma ByteOf(n: nat)
    requires n < 256
    ensures AsByte(n) as int == n
  {
    var b := SomeByte(n);
    ByteBack(b);
  }

  /** The header decodes back to the dimensions. */
  lemma HeaderDecodes(stride: nat, h: nat)
    requires stride < 0x10000 && h < 0x10000
    ensures var d := Header(stride, h);
            && |d| == HEADER == 8 && d[..4] == [0x1D, 0x76, 0x30, 0]
            && LowHigh(d[4], d[5]) == stride && LowHigh(d[6], d[7]) == h
  {
    hide AsByte, LowHigh;
    WordDecodes(stride);
    WordDecodes(h);
  }

  lemma WordDecodes(n: nat)
    requires n < 0x10000
    ensures LowHigh(AsByte(n % 256), AsByte(n / 256 % 256)) == n
  {
    hide AsByte, LowHigh;
    LowHighOf(n % 256, n / 256 % 256);
  }

  lemma LowHighOf(lo: nat, hi: nat)
    requires lo < 256 && hi < 256
    ensures LowHigh(AsByte(lo), AsByte(hi)) == lo + 256 * hi
  {
    hide AsByte;
    ByteOf(lo);
    ByteOf(hi);
  }

  /** The command prints exactly the dots that quantised to black; the padding at the end of each row is white. */
  ghost predicate Prints(data: seq<byte>, g: Grid, w: nat, h: nat)
  {
    var stride := (w + 7) / 8;
    && |data| == HEADER + stride * h && data[..HEADER] == Header(stride, h)
    && forall x: nat, y: nat :: x < 8 * stride && y < h ==>
         HEADER + Cell(x / 8, y, stride) < |data|
         && (Bit(data[HEADER + Cell(x / 8, y, stride)], x % 8) <==> x < w && Black(Final(g, w, x, y)))
  }

  /** Prints any image of positive size up to MAX_HEIGHT rows. */
  method ImageToBitmapData(img: Image) returns (r: Result<seq<byte>>)
    ensures r.Ok? <==> Fits(img)
    ensures r.Ok? ==> Prints(r.value, Sampled(img), Dots(img).0, Dots(img).1)
  {
    hide Bit, Mask, Level, Final, Black, Dots, Gray, Stands;
    if img.width <= 0 || img.height <= 0 || img.height > MAX_HEIGHT {
      return Err(InvalidAmount);
    }
    var (w, h) := Dots(img);
    var gray := Sample(img);
    var bitmap := Dither(gray, Sampled(img), w, h);
    var stride := (w + 7) / 8;
    var data := Header(stride, h) + bitmap[..];
    forall x: nat, y: nat | x < 8 * stride && y < h
      ensures HEADER + Cell(x / 8, y, stride) < |data|
      ensures Bit(data[HEADER + Cell(x / 8, y, stride)], x % 8) <==> x < w && Black(Final(Sampled(img), w, x, y))
    {
      assert data[HEADER + Cell(x / 8, y, stride)] == bitmap[Cell(x / 8, y, stride)];
    }
    r := Ok(data);
  }

  /** Every cell stays in (-128, 383) at every moment, however errors pile up. */
  lemma LevelsStayBounded(img: Image, x: nat, y: nat, dx: nat, dy: nat)
    requires Fits(img) && x < Dots(img).0
    ensures -128.0 < Standing(Sampled(img), Dots(img).0, x, y, dx, dy) < 383.0
  {
    hide Gray, Dots, Level;
    assert 0.0 <= Sampled(img)(x, y) <= 255.0;
  }

  // ----- what is printed, in terms of the pixels -----

  const WHITE: Color := Pixel(0xFFFF, 0xFFFF, 0xFFFF)
  const BLACK: Color := Pixel(0, 0, 0)

  ghost predicate Everywhere(img: Image, color: Color)
  {
    forall x, y :: img.minX <= x < img.minX + img.width && img.minY <= y < img.minY + img.height ==>
      img.at(x, y) == color
  }

  /** The bit of dot (x, y) in the command: eight bytes of header, then the rows, the leftmost dot of a byte highest. */
  predicate DotSet(data: seq<byte>, w: nat, x: nat, y: nat)
    requires 8 + y * ((w + 7) / 8) + x / 8 < |data|
  {
    (data[8 + y * ((w + 7) / 8) + x / 8] >> (7 - x % 8)) & 1 == 1
  }

  lemma BitFromLeft(b: byte, i: nat)
    requires i < 8
    ensures Bit(b, i) <==> (b >> (7 - i)) & 1 == 1
  {
    hide Mask;
    MaskTable(i);
  }

  /** The printed size: as it is up to 576 dots wide, else 576 wide and in proportion, rounded down but at least 1. */
  lemma DotsAre(img: Image)
    requires Fits(img)
    ensures var d := Dots(img);
            if img.width <= 576 then d == (img.width, img.height)
            else d.0 == 576 && if img.height * 576 < img.width then d.1 == 1
                               else 0 <= img.height * 576 - d.1 * img.width < img.width
  {
    var n := img.height * 576;
    if img.width > 576 {
      ScaledHeight(img.height, img.width);
      assert n == img.width * (n / img.width) + n % img.width;
      if n < img.width { DivAtMost(n, img.width, 0); } else { DivAtLeast(n, img.width, 1); }
    }
  }

  /** Dot (x, y) shows the pixel the same part of the way across and down. */
  lemma SampledIs(img: Image, x: nat, y: nat, srcX: nat, srcY: nat)
    requires Fits(img)
    requires srcX * Dots(img).0 <= x * img.width < (srcX + 1) * Dots(img).0
    requires srcY * Dots(img).1 <= y * img.height < (srcY + 1) * Dots(img).1
    ensures Sampled(img)(x, y) == Gray(img.at(srcX + img.minX, srcY + img.minY))
  {
    hide Gray, Dots;
    QuotientIs(x * img.width, Dots(img).0, srcX);
    QuotientIs(y * img.height, Dots(img).1, srcY);
  }

  lemma QuotientIs(n: nat, d: nat, q: nat)
    requires q * d <= n < (q + 1) * d
    ensures n / d == q
  {
    DivAtLeast(n, d, q);
    DivAtMost(n, d, q);
  }

  lemma FinalOpens(g: Grid, w: nat, x: nat, y: nat)
    requires x < w
    ensures Final(g, w, x, y) ==
              g(x, y)
              + (if x > 0 then QuantError(Final(g, w, x - 1, y)) * 7.0 / 16.0 else 0.0)
              + (if x > 0 && y > 0 then QuantError(Final(g, w, x - 1, y - 1)) / 16.0 else 0.0)
              + (if y > 0 then QuantError(Final(g, w, x, y - 1)) * 5.0 / 16.0 else 0.0)
              + (if y > 0 && x + 1 < w then QuantError(Final(g, w, x + 1, y - 1)) * 3.0 / 16.0 else 0.0)
  {
    hide QuantError;
  }

  /** A flat white or black region passes no error on. */
  lemma {:induction false} FlatFinal(g: Grid, w: nat, h: nat, x: nat, y: nat, level: real)
    requires level == 0.0 || level == 255.0
    requires forall a, b :: 0 <= a < w && 0 <= b < h ==> g(a, b) == level
    requires x < w && y < h
    ensures Final(g, w, x, y) == level
    decreases y, x
  {
    hide QuantError, Final;
    NoError(level);
    FinalOpens(g, w, x, y);
    if x > 0 { FlatFinal(g, w, h, x - 1, y, level); }
    if x > 0 && y > 0 { FlatFinal(g, w, h, x - 1, y - 1, level); }
    if y > 0 { FlatFinal(g, w, h, x, y - 1, level); }
    if y > 0 && x + 1 < w { FlatFinal(g, w, h, x + 1, y - 1, level); }
  }

  lemma NoError(level: real)
    requires level == 0.0 || level == 255.0
    ensures QuantError(level) == 0.0
  {
  }

  lemma FlatSampled(img: Image, color: Color, x: nat, y: nat)
    requires Fits(img) && Everywhere(img, color) && x < Dots(img).0 && y < Dots(img).1
    ensures Sampled(img)(x, y) == Gray(color)
  {
    hide Gray, Dots;
    SourceInside(x, Dots(img).0, img.width);
    SourceInside(y, Dots(img).1, img.height);
  }

  lemma PrintedBit(data: seq<byte>, g: Grid, w: nat, h: nat, x: nat, y: nat)
    requires Prints(data, g, w, h) && x < w && y < h
    ensures 8 + y * ((w + 7) / 8) + x / 8 < |data|
    ensures DotSet(data, w, x, y) <==> Black(Final(g, w, x, y))
  {
    hide Bit, Black, Final;
    BitFromLeft(data[HEADER + Cell(x / 8, y, (w + 7) / 8)], x % 8);
  }

  /** An all-white image prints nothing. */
  lemma WhitePrintsNothing(img: Image, data: seq<byte>, x: nat, y: nat)
    requires Fits(img) && Prints(data, Sampled(img), Dots(img).0, Dots(img).1)
    requires Everywhere(img, WHITE) && x < Dots(img).0 && y < Dots(img).1
    ensures 8 + y * ((Dots(img).0 + 7) / 8) + x / 8 < |data| && !DotSet(data, Dots(img).0, x, y)
  {
    hide Dots, Prints, Final, DotSet;
    var (w, h) := Dots(img);
    forall a, b | 0 <= a < w && 0 <= b < h ensures Sampled(img)(a, b) == 255.0 {
      FlatSampled(img, WHITE, a, b);
    }
    FlatFinal(Sampled(img), w, h, x, y, 255.0);
    PrintedBit(data, Sampled(img), w, h, x, y);
  }

  /** An all-black one prints every dot. */
  lemma BlackPrintsAll(img: Image, data: seq<byte>, x: nat, y: nat)
    requires Fits(img) && Prints(data, Sampled(img), Dots(img).0, Dots(img).1)
    requires Everywhere(img, BLACK) && x < Dots(img).0 && y < Dots(img).1
    ensures 8 + y * ((Dots(img).0 + 7) / 8) + x / 8 < |data| && DotSet(data, Dots(img).0, x, y)
  {
    hide Dots, Prints, Final, DotSet;
    var (w, h) := Dots(img);
    forall a, b | 0 <= a < w && 0 <= b < h ensures Sampled(img)(a, b) == 0.0 {
      FlatSampled(img, BLACK, a, b);
    }
    FlatFinal(Sampled(img), w, h, x, y, 0.0);
    PrintedBit(data, Sampled(img), w, h, x, y);
  }

  /** The first dot receives no error: it is printed exactly when its pixel is darker than the middle. */
  lemma FirstDot(img: Image, data: seq<byte>)
    requires Fits(img) && Prints(data, Sampled(img), Dots(img).0, Dots(img).1)
    ensures var p := img.at(img.minX, img.minY);
            |data| > 8 && (DotSet(data, Dots(img).0, 0, 0) <==> p.r + p.g + p.b < 3 * 128 * 257)
  {
    hide Dots, Prints, DotSet;
    SampledIs(img, 0, 0, 0, 0);
    PrintedBit(data, Sampled(img), Dots(img).0, Dots(img).1, 0, 0);
  }
}
