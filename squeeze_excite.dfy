/** The `SqueezeAndExciteBlock2D` layer: validation of its constructor arguments,
    the width of its bottleneck, and the configuration it reports. The block's
    forward pass is not modelled. Activations are kept as opaque values of a
    type parameter, since the constructor only stores them. */
module SqueezeExcite {
  import opened Results

  /** What can be passed as `filters`, by Python type. */
  datatype FiltersArg =
    | Int(n: int)     // a Python int (a bool is one too)
    | Float(v: real)  // any other number, such as 16.0
    | NonNumeric      // a value that cannot be compared with 0, such as "16"

  /** The exceptions the constructor can raise. */
  datatype InitError =
    | ValueError(param: string)  // one of the two range checks, naming the argument
    | TypeError                  // `filters <= 0` on a value that is not a number

  /** The fields the constructor assigns. The three sublayers it also builds are
      determined by `filters`, `bottleneckFilters` and the two activations. */
  datatype Block<A> = Block(
    filters: int,
    ratio: real,
    bottleneckFilters: int,
    squeezeActivation: A,
    exciteActivation: A)

  /** The entries `get_config` adds to the base layer's configuration. */
  datatype Config<A> = Config(
    filters: int,
    ratio: real,
    squeezeActivation: A,
    exciteActivation: A)

  /** The defaults of the optional constructor arguments. */
  const DefaultRatio: real := 0.25
  const DefaultSqueezeActivation: string := "relu"
  const DefaultExciteActivation: string := "sigmoid"

  /** `int(filters * ratio)`: truncation toward zero of the bottleneck width. */
  function BottleneckFilters(filters: int, ratio: real): (b: int)
    requires 0 < filters && 0.0 < ratio < 1.0
    ensures 0 <= b < filters
    ensures b as real <= filters as real * ratio < b as real + 1.0
  {
    var product := filters as real * ratio;
    assert product < filters as real by {
      assert filters as real * ratio < filters as real * 1.0;
    }
    product.Floor
  }

  /** `SqueezeAndExciteBlock2D.__init__`: the ratio check runs first, then the
      filters check; on success the bottleneck width is computed. */
  function Init<A>(filters: FiltersArg, ratio: real, squeezeActivation: A, exciteActivation: A)
    : (r: Result<Block<A>, InitError>)
    ensures (ratio <= 0.0 || 1.0 <= ratio) ==> r == Err(ValueError("ratio"))
    ensures 0.0 < ratio < 1.0 && filters.NonNumeric? ==> r == Err(TypeError)
    ensures 0.0 < ratio < 1.0 && filters.Float? ==> r == Err(ValueError("filters"))
    ensures 0.0 < ratio < 1.0 && filters.Int? && filters.n <= 0 ==> r == Err(ValueError("filters"))
    ensures r.Ok? <==> 0.0 < ratio < 1.0 && filters.Int? && 0 < filters.n
    ensures r.Ok? ==>
              && r.value.filters == filters.n
              && r.value.ratio == ratio
              && r.value.squeezeActivation == squeezeActivation
              && r.value.exciteActivation == exciteActivation
              && 0 <= r.value.bottleneckFilters < r.value.filters
              && r.value.bottleneckFilters as real <= filters.n as real * ratio
              && filters.n as real * ratio < r.value.bottleneckFilters as real + 1.0
  {
    if ratio <= 0.0 || ratio >= 1.0 then Err(ValueError("ratio"))
    else
      match filters
      case NonNumeric => Err(TypeError)
      case Float(v) => Err(ValueError("filters"))
      case Int(n) =>
        if n <= 0 then Err(ValueError("filters"))
        else Ok(Block(n, ratio, BottleneckFilters(n, ratio), squeezeActivation, exciteActivation))
  }

  /** `get_config`: the stored arguments, exactly as stored. */
  function GetConfig<A>(block: Block<A>): (c: Config<A>)
    ensures c.filters == block.filters && c.ratio == block.ratio
    ensures c.squeezeActivation == block.squeezeActivation
    ensures c.exciteActivation == block.exciteActivation
  {
    Config(block.filters, block.ratio, block.squeezeActivation, block.exciteActivation)
  }

  /** Rebuilding a block from its configuration gives back the same block, and in
      particular the same bottleneck width. */
  lemma ConfigRoundTrip<A>(filters: FiltersArg, ratio: real, squeezeActivation: A, exciteActivation: A)
    requires Init(filters, ratio, squeezeActivation, exciteActivation).Ok?
    ensures
      var block := Init(filters, ratio, squeezeActivation, exciteActivation).value;
      var c := GetConfig(block);
      Init(Int(c.filters), c.ratio, c.squeezeActivation, c.exciteActivation) == Ok(block)
  {
  }

  /** The ratio check comes first: with both arguments out of range, the ratio
      error is the one raised. */
  lemma RatioCheckedFirst<A>(filters: FiltersArg, ratio: real, squeezeActivation: A, exciteActivation: A)
    requires ratio <= 0.0 || 1.0 <= ratio
    requires !filters.Int? || filters.n <= 0
    ensures Init(filters, ratio, squeezeActivation, exciteActivation) == Err(ValueError("ratio"))
  {
  }

  /** With the default ratio and activations, any positive int is accepted and
      the bottleneck is a quarter of the filters, rounded down. */
  lemma DefaultConstruction(n: int)
    requires 0 < n
    ensures Init(Int(n), DefaultRatio, DefaultSqueezeActivation, DefaultExciteActivation)
         == Ok(Block(n, 0.25, n / 4, "relu", "sigmoid"))
  {
  }

  /** A bottleneck of width zero is not rejected: 3 filters at ratio 1/4. */
  lemma ZeroBottleneckAccepted<A>(squeezeActivation: A, exciteActivation: A)
    ensures Init(Int(3), 0.25, squeezeActivation, exciteActivation)
         == Ok(Block(3, 0.25, 0, squeezeActivation, exciteActivation))
  {
  }
}
