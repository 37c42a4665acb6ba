/** The processor object and its frame-combination algorithms: a stack of C
    frames of shape (H, W) is reduced along the frame axis to one (H, W)
    image. Pixels are mathematical integers. */
module MicroscopeProcessor {
  import opened Arrays
  import opened Reductions

  /** A 3-D stack of shape (C, H, W): `frames` holds C frames, each of
      `height` rows of `width` pixels. H and W are kept explicitly so that a
      stack with no frames still has a spatial shape, as a numpy array does. */
  datatype Cube = Cube(frames: seq<seq<seq<int>>>, height: nat, width: nat)
  {
    predicate Valid()
    {
      forall c :: 0 <= c < |frames| ==> IsGrid(frames[c], height, width)
    }
  }

  /** The array handed to the constructor as the stack: either a 3-D array,
      or an array with some other number of axes, whose samples are never
      read because construction fails on its shape. */
  datatype NdArray = Rank3(cube: Cube) | OtherRank(ndim: nat)
  {
    predicate Valid()
    {
      match this
      case Rank3(cube) => cube.Valid()
      case OtherRank(ndim) => ndim != 3
    }
  }

  /** The processor: the stack and the single image given to the
      constructor, and the number of frames read off the stack's shape. No
      operation changes any of the three after construction. */
  datatype Processor = Processor(stack: Cube, img: seq<seq<real>>, cStack: nat)
  {
    predicate Valid()
    {
      stack.Valid() && cStack == |stack.frames| && IsPlane(img)
    }
  }

  /** The constructor: it unpacks the stack's shape into (C, _, _), which
      fails unless the stack has exactly three axes. The single image is
      stored as given. */
  function Init(stack: NdArray, img: seq<seq<real>>): (r: Result<Processor>)
    requires stack.Valid()
    ensures r.Ok? <==> stack.Rank3?
    ensures r.Err? ==> r.error == ShapeUnpack
    ensures r.Ok? ==> r.value.stack == stack.cube && r.value.img == img
    ensures r.Ok? ==> r.value.cStack == |stack.cube.frames|
    ensures r.Ok? && IsPlane(img) ==> r.value.Valid()
  {
    match stack
    case Rank3(cube) => Ok(Processor(cube, img, |cube.frames|))
    case OtherRank(_) => Err(ShapeUnpack)
  }

  /** The values pixel (h, w) takes across the frames, frame 0 first. */
  function Column(cube: Cube, h: nat, w: nat): (col: seq<int>)
    requires cube.Valid() && h < cube.height && w < cube.width
    ensures |col| == |cube.frames|
    ensures forall c :: 0 <= c < |col| ==> col[c] == cube.frames[c][h][w]
  {
    seq(|cube.frames|, c requires 0 <= c < |cube.frames| => cube.frames[c][h][w])
  }

  /** `img` is the per-pixel sum over all frames of `cube` (np.sum along axis 0). */
  ghost predicate IsSumImage(cube: Cube, img: seq<seq<int>>)
    requires cube.Valid()
  {
    IsGrid(img, cube.height, cube.width) &&
    forall h, w :: 0 <= h < cube.height && 0 <= w < cube.width ==>
      img[h][w] == Sum(Column(cube, h, w))
  }

  /** `img` is, per pixel, the maximum over the frames minus the minimum
      over the frames (np.max minus np.min along axis 0). */
  ghost predicate IsRangeImage(cube: Cube, img: seq<seq<int>>)
    requires cube.Valid() && |cube.frames| > 0
  {
    IsGrid(img, cube.height, cube.width) &&
    forall h, w :: 0 <= h < cube.height && 0 <= w < cube.width ==>
      img[h][w] == Max(Column(cube, h, w)) - Min(Column(cube, h, w))
  }

  /** The sum of pixel (h, w) over the frames, accumulated frame by frame. */
  method PixelSum(cube: Cube, h: nat, w: nat) returns (s: int)
    requires cube.Valid() && h < cube.height && w < cube.width
    ensures s == Sum(Column(cube, h, w))
  {
    ghost var col := Column(cube, h, w);
    s := 0;
    var c := 0;
    while c < |cube.frames|
      invariant 0 <= c <= |cube.frames|
      invariant s == Sum(col[..c])
    {
      assert col[..c + 1] == col[..c] + [cube.frames[c][h][w]];
      SumSnoc(col[..c], cube.frames[c][h][w]);
      s := s + cube.frames[c][h][w];
      c := c + 1;
    }
    assert col[..c] == col;
  }

  /** The maximum minus the minimum of pixel (h, w) over the frames, both
      tracked frame by frame starting from frame 0. */
  method PixelRange(cube: Cube, h: nat, w: nat) returns (d: int)
    requires cube.Valid() && |cube.frames| > 0 && h < cube.height && w < cube.width
    ensures d == Max(Column(cube, h, w)) - Min(Column(cube, h, w))
  {
    ghost var col := Column(cube, h, w);
    var hi := cube.frames[0][h][w];
    var lo := hi;
    var c := 1;
    assert col[..1] == [hi];
    while c < |cube.frames|
      invariant 1 <= c <= |cube.frames|
      invariant hi == Max(col[..c]) && lo == Min(col[..c])
    {
      var x := cube.frames[c][h][w];
      assert col[..c + 1][..c] == col[..c] && col[..c + 1][c] == x;
      if x > hi { hi := x; }
      if x < lo { lo := x; }
      c := c + 1;
    }
    assert col[..c] == col;
    d := hi - lo;
  }

  /** average_projection: the per-pixel SUM over all frames. The stack is
      not divided by its number of frames, and a stack with no frames gives
      an all-zero image. */
  method AverageProjection(p: Processor) returns (img: seq<seq<int>>)
    requires p.Valid()
    ensures IsSumImage(p.stack, img)
  {
    var cube := p.stack;
    img := [];
    var h := 0;
    while h < cube.height
      invariant 0 <= h <= cube.height
      invariant |img| == h
      invariant forall i :: 0 <= i < h ==> |img[i]| == cube.width
      invariant forall i, j :: 0 <= i < h && 0 <= j < cube.width ==>
        img[i][j] == Sum(Column(cube, i, j))
    {
      var row := [];
      var w := 0;
      while w < cube.width
        invariant 0 <= w <= cube.width
        invariant |row| == w
        invariant forall j :: 0 <= j < w ==> row[j] == Sum(Column(cube, h, j))
      {
        var s := PixelSum(cube, h, w);
        row := row + [s];
        w := w + 1;
      }
      img := img + [row];
      h := h + 1;
    }
  }

  /** max_min_projection: per pixel, the maximum over the frames minus the
      minimum over the frames. A stack with no frames has nothing to take a
      maximum of, and numpy raises. */
  method MaxMinProjection(p: Processor) returns (r: Result<seq<seq<int>>>)
    requires p.Valid()
    ensures r.Err? <==> p.cStack == 0
    ensures r.Err? ==> r.error == EmptyReduction
    ensures r.Ok? ==> p.cStack > 0 && IsRangeImage(p.stack, r.value)
  {
    var cube := p.stack;
    if |cube.frames| == 0 {
      return Err(EmptyReduction);
    }
    var img := [];
    var h := 0;
    while h < cube.height
      invariant 0 <= h <= cube.height
      invariant |img| == h
      invariant forall i :: 0 <= i < h ==> |img[i]| == cube.width
      invariant forall i, j :: 0 <= i < h && 0 <= j < cube.width ==>
        img[i][j] == Max(Column(cube, i, j)) - Min(Column(cube, i, j))
    {
      var row := [];
      var w := 0;
      while w < cube.width
        invariant 0 <= w <= cube.width
        invariant |row| == w
        invariant forall j :: 0 <= j < w ==>
          row[j] == Max(Column(cube, h, j)) - Min(Column(cube, h, j))
      {
        var d := PixelRange(cube, h, w);
        row := row + [d];
        w := w + 1;
      }
      img := img + [row];
      h := h + 1;
    }
    r := Ok(img);
  }

  // Properties of the two projections, stated on any image that satisfies
  // the methods' postconditions.

  /** A one-frame stack sums to that frame, unchanged. */
  lemma SumOfOneFrame(cube: Cube, img: seq<seq<int>>)
    requires cube.Valid() && |cube.frames| == 1
    requires IsSumImage(cube, img)
    ensures img == cube.frames[0]
  {
    forall h | 0 <= h < cube.height ensures img[h] == cube.frames[0][h] {
      forall w | 0 <= w < cube.width ensures img[h][w] == cube.frames[0][h][w] {
        var col := Column(cube, h, w);
        assert col[..0] == [];
        assert Sum(col) == Sum(col[..0]) + col[0];
      }
    }
  }

  /** Two constant frames of values a and b sum to the constant a + b
      (3 and 5 give 8). */
  lemma SumOfTwoConstantFrames(cube: Cube, img: seq<seq<int>>, a: int, b: int)
    requires cube.Valid() && |cube.frames| == 2
    requires forall h, w :: 0 <= h < cube.height && 0 <= w < cube.width ==>
      cube.frames[0][h][w] == a && cube.frames[1][h][w] == b
    requires IsSumImage(cube, img)
    ensures forall h, w :: 0 <= h < cube.height && 0 <= w < cube.width ==> img[h][w] == a + b
  {
    forall h, w | 0 <= h < cube.height && 0 <= w < cube.width ensures img[h][w] == a + b {
      var col := Column(cube, h, w);
      assert col[..1][..0] == [];
      assert Sum(col[..1]) == a;
      assert Sum(col) == Sum(col[..1]) + b;
    }
  }

  /** A stack of C copies of one frame f sums to C * f: the result grows
      with the number of frames and is not their mean. */
  lemma SumOfRepeatedFrame(cube: Cube, img: seq<seq<int>>, f: seq<seq<int>>)
    requires cube.Valid()
    requires IsGrid(f, cube.height, cube.width)
    requires forall c :: 0 <= c < |cube.frames| ==> cube.frames[c] == f
    requires IsSumImage(cube, img)
    ensures forall h, w :: 0 <= h < cube.height && 0 <= w < cube.width ==>
      img[h][w] == |cube.frames| * f[h][w]
  {
    forall h, w | 0 <= h < cube.height && 0 <= w < cube.width
      ensures img[h][w] == |cube.frames| * f[h][w]
    {
      SumOfConstant(Column(cube, h, w), f[h][w]);
    }
  }

  /** Every pixel of the max-min image is at least 0, and a pixel is 0
      exactly when all frames agree there. */
  lemma RangeZeroIffFramesAgree(cube: Cube, img: seq<seq<int>>, h: nat, w: nat)
    requires cube.Valid() && |cube.frames| > 0
    requires IsRangeImage(cube, img)
    requires h < cube.height && w < cube.width
    ensures img[h][w] >= 0
    ensures img[h][w] == 0 <==>
      forall c :: 0 <= c < |cube.frames| ==> cube.frames[c][h][w] == cube.frames[0][h][w]
  {
    var col := Column(cube, h, w);
    RangeZeroIffConstant(col);
    if forall c :: 0 <= c < |cube.frames| ==> cube.frames[c][h][w] == cube.frames[0][h][w] {
      assert forall c :: 0 <= c < |col| ==> col[c] == col[0];
    }
  }

  /** The max-min image of a one-frame stack is all zeros. */
  lemma RangeOfOneFrame(cube: Cube, img: seq<seq<int>>)
    requires cube.Valid() && |cube.frames| == 1
    requires IsRangeImage(cube, img)
    ensures forall h, w :: 0 <= h < cube.height && 0 <= w < cube.width ==> img[h][w] == 0
  {
  }

  /** Two constant frames of values a and b give the constant |b - a|
      (an all-zero frame and an all-one frame give all ones). */
  lemma RangeOfTwoConstantFrames(cube: Cube, img: seq<seq<int>>, a: int, b: int)
    requires cube.Valid() && |cube.frames| == 2
    requires forall h, w :: 0 <= h < cube.height && 0 <= w < cube.width ==>
      cube.frames[0][h][w] == a && cube.frames[1][h][w] == b
    requires IsRangeImage(cube, img)
    ensures forall h, w :: 0 <= h < cube.height && 0 <= w < cube.width ==>
      img[h][w] == if a <= b then b - a else a - b
  {
    forall h, w | 0 <= h < cube.height && 0 <= w < cube.width
      ensures img[h][w] == if a <= b then b - a else a - b
    {
      var col := Column(cube, h, w);
      assert col[..1] == [a];
      assert Max(col) == (if b > a then b else a);
      assert Min(col) == (if b < a then b else a);
    }
  }
}
