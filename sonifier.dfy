/** The column-averaging loop of convertDrawingToSound: one audio sample per
    canvas column, from the mean brightness of the column's pixels. */
module Sonifier {
  import opened Bytes

  /** The ImageData of a width x height canvas: row-major RGBA, four bytes
      per pixel. */
  predicate IsBitmap(data: seq<byte>, width: nat, height: nat)
  {
    |data| == 4 * width * height
  }

  /** Every byte the loop reads for pixel (i, j) lies inside the bitmap. */
  lemma PixelIndexInBounds(width: nat, height: nat, i: nat, j: nat, k: nat)
    requires i < width && j < height && k < 4
    ensures (j * width + i) * 4 + k < 4 * width * height
  {
    assert j * width + i < (j + 1) * width;
    assert (j + 1) * width <= height * width by {
      MulMonotone(j + 1, height, width);
    }
  }

  lemma MulMonotone(a: nat, b: nat, c: nat)
    requires a <= b
    ensures a * c <= b * c
  {
  }

  /** Byte k (0 red, 1 green, 2 blue, 3 alpha) of the pixel in column i, row j. */
  function Px(data: seq<byte>, width: nat, height: nat, i: nat, j: nat, k: nat): byte
    requires IsBitmap(data, width, height) && i < width && j < height && k < 4
  {
    PixelIndexInBounds(width, height, i, j, k);
    data[(j * width + i) * 4 + k]
  }

  /** (r + g + b) / (3 * 255), in [0, 1]. */
  function Brightness(r: byte, g: byte, b: byte): (v: real)
    ensures 0.0 <= v <= 1.0
    ensures v == 0.0 <==> r == 0 && g == 0 && b == 0
    ensures v == 1.0 <==> r == 0xFF && g == 0xFF && b == 0xFF
  {
    (r as int + g as int + b as int) as real / (3.0 * 255.0)
  }

  /** What pixel (i, j) adds to its column's sum: its brightness when its
      alpha is above 0, nothing otherwise. */
  function Contribution(data: seq<byte>, width: nat, height: nat, i: nat, j: nat): real
    requires IsBitmap(data, width, height) && i < width && j < height
  {
    if Px(data, width, height, i, j, 3) > 0 then
      Brightness(Px(data, width, height, i, j, 0), Px(data, width, height, i, j, 1), Px(data, width, height, i, j, 2))
    else
      0.0
  }

  /** The running sum over the first `rows` rows of column i. */
  function ColumnSum(data: seq<byte>, width: nat, height: nat, i: nat, rows: nat): real
    requires IsBitmap(data, width, height) && i < width && rows <= height
  {
    if rows == 0 then 0.0
    else ColumnSum(data, width, height, i, rows - 1) + Contribution(data, width, height, i, rows - 1)
  }

  /** avgBrightness * 2 - 1, with the sum always divided by the full height. */
  function ColumnSample(data: seq<byte>, width: nat, height: nat, i: nat): real
    requires IsBitmap(data, width, height) && i < width && 0 < height
  {
    ColumnSum(data, width, height, i, height) / height as real * 2.0 - 1.0
  }

  /** The samples of the whole canvas, left to right. */
  function Sonified(data: seq<byte>, width: nat, height: nat): (samples: seq<real>)
    requires IsBitmap(data, width, height) && 0 < height
    ensures |samples| == width
  {
    seq(width, i requires 0 <= i < width => ColumnSample(data, width, height, i))
  }

  /** A pixel that adds nothing: fully transparent, or black. */
  predicate IsDark(data: seq<byte>, width: nat, height: nat, i: nat, j: nat)
    requires IsBitmap(data, width, height) && i < width && j < height
  {
    Px(data, width, height, i, j, 3) == 0
    || Px(data, width, height, i, j, 0) as int + Px(data, width, height, i, j, 1) as int + Px(data, width, height, i, j, 2) as int == 0
  }

  /** A pixel that adds the most: not fully transparent, and white. */
  predicate IsWhite(data: seq<byte>, width: nat, height: nat, i: nat, j: nat)
    requires IsBitmap(data, width, height) && i < width && j < height
  {
    Px(data, width, height, i, j, 3) > 0
    && Px(data, width, height, i, j, 0) == 0xFF
    && Px(data, width, height, i, j, 1) == 0xFF
    && Px(data, width, height, i, j, 2) == 0xFF
  }

  lemma ContributionRange(data: seq<byte>, width: nat, height: nat, i: nat, j: nat)
    requires IsBitmap(data, width, height) && i < width && j < height
    ensures 0.0 <= Contribution(data, width, height, i, j) <= 1.0
    ensures Contribution(data, width, height, i, j) == 0.0 <==> IsDark(data, width, height, i, j)
    ensures Contribution(data, width, height, i, j) == 1.0 <==> IsWhite(data, width, height, i, j)
  {
  }

  lemma {:induction false} ColumnSumRange(data: seq<byte>, width: nat, height: nat, i: nat, rows: nat)
    requires IsBitmap(data, width, height) && i < width && rows <= height
    ensures 0.0 <= ColumnSum(data, width, height, i, rows) <= rows as real
  {
    if rows > 0 {
      ColumnSumRange(data, width, height, i, rows - 1);
      ContributionRange(data, width, height, i, rows - 1);
    }
  }

  /** A column sums to 0 exactly when every pixel in it is dark. */
  lemma {:induction false} ColumnSumZero(data: seq<byte>, width: nat, height: nat, i: nat, rows: nat)
    requires IsBitmap(data, width, height) && i < width && rows <= height
    ensures ColumnSum(data, width, height, i, rows) == 0.0
            <==> forall j :: 0 <= j < rows ==> IsDark(data, width, height, i, j)
  {
    if rows > 0 {
      ColumnSumZero(data, width, height, i, rows - 1);
      ColumnSumRange(data, width, height, i, rows - 1);
      ContributionRange(data, width, height, i, rows - 1);
    }
  }

  /** A column sums to its row count exactly when every pixel in it is white. */
  lemma {:induction false} ColumnSumFull(data: seq<byte>, width: nat, height: nat, i: nat, rows: nat)
    requires IsBitmap(data, width, height) && i < width && rows <= height
    ensures ColumnSum(data, width, height, i, rows) == rows as real
            <==> forall j :: 0 <= j < rows ==> IsWhite(data, width, height, i, j)
  {
    if rows > 0 {
      ColumnSumFull(data, width, height, i, rows - 1);
      ColumnSumRange(data, width, height, i, rows - 1);
      ContributionRange(data, width, height, i, rows - 1);
    }
  }

  /** Every sample lies in [-1, 1]. */
  lemma SampleRange(data: seq<byte>, width: nat, height: nat, i: nat)
    requires IsBitmap(data, width, height) && i < width && 0 < height
    ensures -1.0 <= ColumnSample(data, width, height, i) <= 1.0
  {
    ColumnSumRange(data, width, height, i, height);
    MeanInUnit(ColumnSum(data, width, height, i, height), height as real);
  }

  lemma MeanInUnit(sum: real, h: real)
    requires 0.0 < h && 0.0 <= sum <= h
    ensures 0.0 <= sum / h <= 1.0
  {
    assert sum / h * h == sum;
  }

  /** A sample is -1 exactly when its whole column is transparent or black:
      transparent pixels still count in the divisor. */
  lemma SampleIsMinusOne(data: seq<byte>, width: nat, height: nat, i: nat)
    requires IsBitmap(data, width, height) && i < width && 0 < height
    ensures ColumnSample(data, width, height, i) == -1.0
            <==> forall j :: 0 <= j < height ==> IsDark(data, width, height, i, j)
  {
    ColumnSumZero(data, width, height, i, height);
  }

  /** A sample is 1 exactly when its whole column is opaque white. */
  lemma SampleIsOne(data: seq<byte>, width: nat, height: nat, i: nat)
    requires IsBitmap(data, width, height) && i < width && 0 < height
    ensures ColumnSample(data, width, height, i) == 1.0
            <==> forall j :: 0 <= j < height ==> IsWhite(data, width, height, i, j)
  {
    ColumnSumFull(data, width, height, i, height);
    MeanIsOne(ColumnSum(data, width, height, i, height), height as real);
  }

  lemma MeanIsOne(sum: real, h: real)
    requires 0.0 < h
    ensures sum / h * 2.0 - 1.0 == 1.0 <==> sum == h
  {
    if sum / h == 1.0 {
      assert sum == (sum / h) * h;
    }
  }

  /** The nested loop of convertDrawingToSound: fills a zeroed buffer of
      `width` samples column by column and hands back its contents. */
  method Sonify(data: seq<byte>, width: nat, height: nat) returns (channelData: seq<real>)
    requires IsBitmap(data, width, height) && 0 < height
    ensures channelData == Sonified(data, width, height)
    ensures forall i :: 0 <= i < width ==> -1.0 <= channelData[i] <= 1.0
  {
    var channel := new real[width](_ => 0.0);
    for i := 0 to width
      invariant forall k :: 0 <= k < i ==> channel[k] == ColumnSample(data, width, height, k)
    {
      var sum := 0.0;
      for j := 0 to height
        invariant sum == ColumnSum(data, width, height, i, j)
        invariant forall k :: 0 <= k < i ==> channel[k] == ColumnSample(data, width, height, k)
      {
        var pixelIndex := (j * width + i) * 4;
        PixelIndexInBounds(width, height, i, j, 3);
        var r, g, b, a := data[pixelIndex], data[pixelIndex + 1], data[pixelIndex + 2], data[pixelIndex + 3];
        assert r == Px(data, width, height, i, j, 0) && g == Px(data, width, height, i, j, 1);
        assert b == Px(data, width, height, i, j, 2) && a == Px(data, width, height, i, j, 3);
        if a > 0 {
          var brightness := (r as int + g as int + b as int) as real / (3.0 * 255.0);
          sum := sum + brightness;
        }
      }
      var avgBrightness := sum / height as real;
      channel[i] := avgBrightness * 2.0 - 1.0;
    }
    channelData := channel[..];
    forall i | 0 <= i < width
      ensures -1.0 <= channelData[i] <= 1.0
    {
      SampleRange(data, width, height, i);
    }
  }
}
