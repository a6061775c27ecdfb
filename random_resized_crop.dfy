/** The `RandomResizedCrop` preprocessing layer: validation of its constructor
    arguments, the crop box it derives from four random draws, and the
    training/inference branch of `call`.

    Square roots are taken by a function `sqrt` passed in by the caller and
    constrained by `IsSquareRoot`; the random draws are passed in as `Draws`.
    Images are reduced to their shapes (a `seq<int>` of dimensions). */
module RandomResizedCrop {
  import opened Results

  // ---------------------------------------------------------------------------
  // Constructor
  // ---------------------------------------------------------------------------

  /** What can be passed as `aspect_ratio_factor` or `area_factor`, by Python type. */
  datatype FactorArg =
    | NoneValue                 // None
    | Number(v: real)           // an int, a float or a bool
    | Tuple(items: seq<real>)   // a tuple of numbers
    | List(items: seq<real>)    // a list of numbers
    | Sampler                   // an instance of core.FactorSampler

  /** The exceptions the constructor can raise. */
  datatype InitError =
    | ValueError(param: string)        // the type check on `aspect_ratio_factor`
    | UnboundLocalError(name: string)  // a local read before it was assigned

  /** The fields the constructor assigns on the layer. `aspectRatioFactor` is the
      argument after a falsy value has been replaced by the default; it and
      `areaFactor` are what the samplers are built from. `minAspectRatio` and
      `maxAspectRatio` are the bounds handed to that sampler construction.
      `warned` records whether the no-augmentation warning was issued. */
  datatype Layer = Layer(
    targetSize: (int, int),
    areaFactor: FactorArg,
    aspectRatioFactor: FactorArg,
    minAspectRatio: real,
    maxAspectRatio: real,
    interpolation: string,
    seed: Option<int>,
    warned: bool)

  const DefaultAspectRatioFactor: FactorArg := Tuple([3.0 / 4.0, 4.0 / 3.0])

  /** The defaults of the other optional constructor arguments. */
  const DefaultAreaFactor: FactorArg := Tuple([0.08, 1.0])
  const DefaultInterpolation: string := "bilinear"
  const DefaultSeed: Option<int> := None

  /** Python truthiness of the argument: None, zero and empty containers are false.
      A FactorSampler is an ordinary object and is true. */
  predicate Falsy(f: FactorArg) {
    match f
    case NoneValue => true
    case Number(v) => v == 0.0
    case Tuple(items) => items == []
    case List(items) => items == []
    case Sampler => false
  }

  /** Python's `min` over a non-empty tuple. */
  function SeqMin(s: seq<real>): (m: real)
    requires |s| > 0
    ensures m in s
    ensures forall x :: x in s ==> m <= x
  {
    if |s| == 1 then s[0]
    else
      var rest := SeqMin(s[1..]);
      assert forall x :: x in s ==> x == s[0] || x in s[1..];
      if s[0] <= rest then s[0] else rest
  }

  /** Python's `max` over a non-empty tuple. */
  function SeqMax(s: seq<real>): (m: real)
    requires |s| > 0
    ensures m in s
    ensures forall x :: x in s ==> x <= m
  {
    if |s| == 1 then s[0]
    else
      var rest := SeqMax(s[1..]);
      assert forall x :: x in s ==> x == s[0] || x in s[1..];
      if rest <= s[0] then s[0] else rest
  }

  /** `RandomResizedCrop.__init__`. A falsy `aspect_ratio_factor` becomes the
      default tuple; a tuple yields its minimum and maximum as the bounds handed
      to the sampler construction, and is itself passed on unchanged; anything
      that is neither a tuple nor a FactorSampler raises ValueError; a
      FactorSampler passes the type check but the sampler construction then
      reads `min_aspect_ratio`, which no branch assigned. */
  function Init(targetSize: (int, int), areaFactor: FactorArg, aspectRatioFactor: FactorArg,
                interpolation: string, seed: Option<int>): (r: Result<Layer, InitError>)
    ensures Falsy(aspectRatioFactor) ==>
              r.Ok? && r.value.aspectRatioFactor == DefaultAspectRatioFactor
              && r.value.minAspectRatio == 3.0 / 4.0 && r.value.maxAspectRatio == 4.0 / 3.0
    ensures aspectRatioFactor.Tuple? && aspectRatioFactor.items != [] ==>
              r.Ok? && r.value.aspectRatioFactor == aspectRatioFactor
              && r.value.minAspectRatio in aspectRatioFactor.items
              && r.value.maxAspectRatio in aspectRatioFactor.items
              && (forall x :: x in aspectRatioFactor.items ==>
                    r.value.minAspectRatio <= x <= r.value.maxAspectRatio)
    ensures aspectRatioFactor.Sampler? ==> r == Err(UnboundLocalError("min_aspect_ratio"))
    ensures r == Err(ValueError("aspect_ratio_factor")) <==>
              !Falsy(aspectRatioFactor) && !aspectRatioFactor.Tuple? && !aspectRatioFactor.Sampler?
    ensures r.Ok? ==>
              r.value.targetSize == targetSize && r.value.areaFactor == areaFactor
              && r.value.interpolation == interpolation && r.value.seed == seed
              && r.value.minAspectRatio <= r.value.maxAspectRatio
              && !r.value.warned
  {
    var aspect := if Falsy(aspectRatioFactor) then DefaultAspectRatioFactor else aspectRatioFactor;
    match aspect
    case Tuple(items) =>
      var lo := SeqMin(items);
      var hi := SeqMax(items);
      Ok(Layer(targetSize, areaFactor, aspect, lo, hi, interpolation, seed,
               areaFactor == Number(0.0) && aspect == Number(0.0)))
    case Sampler => Err(UnboundLocalError("min_aspect_ratio"))
    case _ => Err(ValueError("aspect_ratio_factor"))
  }

  /** The bounds computed from a pair are its minimum and maximum whatever order
      its elements are given in; the pair itself is kept in the caller's order. */
  lemma PairNormalised(targetSize: (int, int), areaFactor: FactorArg, a: real, b: real,
                       interpolation: string, seed: Option<int>)
    ensures Init(targetSize, areaFactor, Tuple([a, b]), interpolation, seed).Ok?
    ensures Init(targetSize, areaFactor, Tuple([a, b]), interpolation, seed).value.minAspectRatio
         == Minimum(a, b)
         == Init(targetSize, areaFactor, Tuple([b, a]), interpolation, seed).value.minAspectRatio
    ensures Init(targetSize, areaFactor, Tuple([a, b]), interpolation, seed).value.maxAspectRatio
         == Maximum(a, b)
         == Init(targetSize, areaFactor, Tuple([b, a]), interpolation, seed).value.maxAspectRatio
    ensures Init(targetSize, areaFactor, Tuple([a, b]), interpolation, seed).value.aspectRatioFactor
         == Tuple([a, b])
  {
  }

  /** Construction with every optional argument left at its default succeeds,
      with aspect bounds (3/4, 4/3) and the default area factor, interpolation
      and seed stored. */
  lemma DefaultConstruction(targetSize: (int, int))
    ensures Init(targetSize, DefaultAreaFactor, DefaultAspectRatioFactor,
                 DefaultInterpolation, DefaultSeed)
         == Ok(Layer(targetSize, Tuple([0.08, 1.0]), Tuple([3.0 / 4.0, 4.0 / 3.0]),
                     3.0 / 4.0, 4.0 / 3.0, "bilinear", None, false))
  {
  }

  /** A single float is refused, although the class documentation allows one. */
  lemma SingleFloatRejected(targetSize: (int, int), areaFactor: FactorArg, v: real,
                            interpolation: string, seed: Option<int>)
    requires v != 0.0
    ensures Init(targetSize, areaFactor, Number(v), interpolation, seed)
         == Err(ValueError("aspect_ratio_factor"))
  {
  }

  // ---------------------------------------------------------------------------
  // Crop geometry
  // ---------------------------------------------------------------------------

  /** `sqrt` behaves as the real square root on non-negative arguments. */
  ghost predicate IsSquareRoot(sqrt: real -> real) {
    forall x: real :: 0.0 <= x ==> 0.0 <= sqrt(x) && sqrt(x) * sqrt(x) == x
  }

  /** The four scalar draws of one call of `get_random_transformation`, in the
      order the source makes them. The offsets are given as the unit draws
      `heightUnit` and `widthUnit` that `random_uniform` scales into its interval. */
  datatype Draws = Draws(area: real, aspectRatio: real, heightUnit: real, widthUnit: real)

  function Minimum(a: real, b: real): real { if a <= b then a else b }

  function Maximum(a: real, b: real): real { if a <= b then b else a }

  /** `tf.clip_by_value`. */
  function Clip(v: real, lo: real, hi: real): (c: real)
    requires lo <= hi
    ensures lo <= c <= hi
    ensures lo <= v <= hi ==> c == v
  {
    Minimum(Maximum(v, lo), hi)
  }

  /** A non-negative root is at most 1 exactly when its square is. */
  lemma RootBelowOne(s: real)
    requires 0.0 <= s
    ensures s <= 1.0 <==> s * s <= 1.0
  {
    if 1.0 < s {
      assert s * s > s * 1.0;
    } else {
      assert s * s <= s * 1.0;
    }
  }

  /** Clipped square root of a non-negative quantity: the normalised extent
      whose square is that quantity, or the whole image when it is 1 or more. */
  function ClippedRoot(sqrt: real -> real, q: real): (e: real)
    requires IsSquareRoot(sqrt) && 0.0 <= q
    ensures 0.0 <= e <= 1.0
    ensures q <= 1.0 ==> e * e == q
    ensures 1.0 <= q ==> e == 1.0
  {
    RootBelowOne(sqrt(q));
    Clip(sqrt(q), 0.0, 1.0)
  }

  /** `new_height`: the clipped root of area / aspect ratio. */
  function CropHeight(sqrt: real -> real, area: real, aspectRatio: real): (h: real)
    requires IsSquareRoot(sqrt) && 0.0 <= area && 0.0 < aspectRatio
    ensures 0.0 <= h <= 1.0
    ensures area / aspectRatio <= 1.0 ==> h * h == area / aspectRatio
    ensures 1.0 <= area / aspectRatio ==> h == 1.0
  {
    ClippedRoot(sqrt, area / aspectRatio)
  }

  /** `new_width`: the clipped root of area * aspect ratio. */
  function CropWidth(sqrt: real -> real, area: real, aspectRatio: real): (w: real)
    requires IsSquareRoot(sqrt) && 0.0 <= area && 0.0 < aspectRatio
    ensures 0.0 <= w <= 1.0
    ensures area * aspectRatio <= 1.0 ==> w * w == area * aspectRatio
    ensures 1.0 <= area * aspectRatio ==> w == 1.0
  {
    ClippedRoot(sqrt, area * aspectRatio)
  }

  /** The interval `[min(0, 1 - extent), max(0, 1 - extent)]` an offset is drawn from. */
  function OffsetRange(extent: real): (range: (real, real))
    ensures range.0 <= range.1
    ensures extent <= 1.0 ==> range == (0.0, 1.0 - extent)
    ensures 1.0 <= extent ==> range == (1.0 - extent, 0.0)
  {
    (Minimum(0.0, 1.0 - extent), Maximum(0.0, 1.0 - extent))
  }

  /** A width scaled by a unit draw in `[0, 1)`: within the width, and below it
      when the width is positive. */
  function Scale(width: real, u: real): (p: real)
    requires 0.0 <= width && 0.0 <= u < 1.0
    ensures 0.0 <= p <= width
    ensures 0.0 < width ==> p < width
  {
    assert 0.0 < width ==> width * u < width * 1.0;
    width * u
  }

  /** `random_uniform((), minval, maxval)` for a float dtype: the unit draw `u`
      in `[0, 1)` scaled into the interval. */
  function RandomUniform(range: (real, real), u: real): (v: real)
    requires range.0 <= range.1 && 0.0 <= u < 1.0
    ensures range.0 <= v <= range.1
    ensures range.0 < range.1 ==> v < range.1
  {
    range.0 + Scale(range.1 - range.0, u)
  }

  /** The draws the samplers can produce: a non-negative area, a positive aspect
      ratio, and two unit draws in `[0, 1)`. */
  ghost predicate ValidDraws(sqrt: real -> real, d: Draws) {
    && IsSquareRoot(sqrt)
    && 0.0 <= d.area
    && 0.0 < d.aspectRatio
    && 0.0 <= d.heightUnit < 1.0
    && 0.0 <= d.widthUnit < 1.0
  }

  /** `get_random_transformation`: the single box `[[y1, x1, y2, x2]]` in
      normalised coordinates. */
  function GetRandomTransformation(sqrt: real -> real, d: Draws): (boxes: seq<seq<real>>)
    requires ValidDraws(sqrt, d)
    ensures |boxes| == 1 && |boxes[0]| == 4
    ensures OffsetRange(CropHeight(sqrt, d.area, d.aspectRatio)).0 <= boxes[0][0]
                                                            <= OffsetRange(CropHeight(sqrt, d.area, d.aspectRatio)).1
    ensures OffsetRange(CropWidth(sqrt, d.area, d.aspectRatio)).0 <= boxes[0][1]
                                                           <= OffsetRange(CropWidth(sqrt, d.area, d.aspectRatio)).1
    ensures boxes[0][2] - boxes[0][0] == CropHeight(sqrt, d.area, d.aspectRatio)
    ensures boxes[0][3] - boxes[0][1] == CropWidth(sqrt, d.area, d.aspectRatio)
    ensures 0.0 <= boxes[0][0] <= boxes[0][2] <= 1.0
    ensures 0.0 <= boxes[0][1] <= boxes[0][3] <= 1.0
  {
    var newHeight := CropHeight(sqrt, d.area, d.aspectRatio);
    var newWidth := CropWidth(sqrt, d.area, d.aspectRatio);
    var heightOffset := RandomUniform(OffsetRange(newHeight), d.heightUnit);
    var widthOffset := RandomUniform(OffsetRange(newWidth), d.widthUnit);
    var y1 := heightOffset;
    var y2 := heightOffset + newHeight;
    var x1 := widthOffset;
    var x2 := widthOffset + newWidth;
    [[y1, x1, y2, x2]]
  }

  /** An area draw of 1 with an aspect draw of 1 gives extents of 1, collapses
      both offset intervals to the point 0, and crops the full image whatever
      the offset draws are. */
  lemma FullImageCrop(sqrt: real -> real, d: Draws)
    requires ValidDraws(sqrt, d) && d.area == 1.0 && d.aspectRatio == 1.0
    ensures CropHeight(sqrt, d.area, d.aspectRatio) == 1.0
    ensures CropWidth(sqrt, d.area, d.aspectRatio) == 1.0
    ensures OffsetRange(1.0) == (0.0, 0.0)
    ensures GetRandomTransformation(sqrt, d) == [[0.0, 0.0, 1.0, 1.0]]
  {
  }

  /** With area 1/2 and aspect 1 both extents are 1/sqrt(2), strictly inside the
      image, and each offset is drawn from `[0, 1 - 1/sqrt(2)]`. */
  lemma HalfAreaSquareCrop(sqrt: real -> real, d: Draws)
    requires IsSquareRoot(sqrt) && d.area == 0.5 && d.aspectRatio == 1.0
    ensures CropHeight(sqrt, d.area, d.aspectRatio) == CropWidth(sqrt, d.area, d.aspectRatio)
    ensures CropHeight(sqrt, d.area, d.aspectRatio) * CropHeight(sqrt, d.area, d.aspectRatio) == 0.5
    ensures 0.0 < CropHeight(sqrt, d.area, d.aspectRatio) < 1.0
    ensures OffsetRange(CropHeight(sqrt, d.area, d.aspectRatio))
         == (0.0, 1.0 - CropHeight(sqrt, d.area, d.aspectRatio))
  {
  }

  // ---------------------------------------------------------------------------
  // call: training and inference paths, on image shapes
  // ---------------------------------------------------------------------------

  /** `tf.expand_dims(image, axis=0)`. */
  function ExpandDims(shape: seq<int>): seq<int> { [1] + shape }

  /** `tf.squeeze(image, axis=0)`, defined when that axis has size 1. */
  function Squeeze(shape: seq<int>): seq<int>
    requires |shape| > 0 && shape[0] == 1
  {
    shape[1..]
  }

  /** Output shape of `tf.image.crop_and_resize`: one image of the requested size
      per box, with the channels of the input batch. */
  function CropAndResize(batch: seq<int>, boxes: seq<seq<real>>, boxIndices: seq<int>,
                         size: (int, int)): seq<int>
    requires |batch| == 4
  {
    [|boxes|, size.0, size.1, batch[3]]
  }

  /** Output shape of `smart_resize` on one image or a batch: the two spatial
      dimensions become the requested size. */
  function SmartResize(shape: seq<int>, size: (int, int)): seq<int>
    requires |shape| == 3 || |shape| == 4
  {
    shape[..|shape| - 3] + [size.0, size.1, shape[|shape| - 1]]
  }

  /** `augment_image`: crop one image with the single box and resize it. */
  function AugmentImage(layer: Layer, image: seq<int>, transformation: seq<seq<real>>): (out: seq<int>)
    requires |image| == 3 && |transformation| == 1
    ensures out == [layer.targetSize.0, layer.targetSize.1, image[2]]
  {
    Squeeze(CropAndResize(ExpandDims(image), transformation, [0], layer.targetSize))
  }

  /** `_resize`: the inference path, which preserves a leading batch dimension. */
  function Resize(layer: Layer, images: seq<int>): (out: seq<int>)
    requires |images| == 3 || |images| == 4
    ensures |out| == |images| && out[..|out| - 3] == images[..|images| - 3]
    ensures out[|out| - 3] == layer.targetSize.0 && out[|out| - 2] == layer.targetSize.1
    ensures out[|out| - 1] == images[|images| - 1]
  {
    SmartResize(images, layer.targetSize)
  }

  /** What one call produces: the output shape and, when a crop box was sampled,
      that box. */
  datatype CallResult = CallResult(image: seq<int>, transformation: Option<seq<seq<real>>>)

  /** `call`. In training a box is sampled and the image cropped and resized;
      otherwise the image goes straight to `_resize` and nothing is sampled. */
  function Call(layer: Layer, sqrt: real -> real, image: seq<int>, training: bool, d: Draws): (r: CallResult)
    requires |image| == 3 || (!training && |image| == 4)
    requires training ==> ValidDraws(sqrt, d)
    ensures r.transformation.Some? <==> training
    ensures training ==> r.transformation.value == GetRandomTransformation(sqrt, d)
    ensures r.image == image[..|image| - 3]
                       + [layer.targetSize.0, layer.targetSize.1, image[|image| - 1]]
  {
    if training then
      var boxes := GetRandomTransformation(sqrt, d);
      CallResult(AugmentImage(layer, image, boxes), Some(boxes))
    else
      CallResult(Resize(layer, image), None)
  }
}
