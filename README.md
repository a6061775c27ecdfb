# RandomResizedCrop and SqueezeAndExciteBlock2D in Dafny

This project models two Keras CV layers.

**`RandomResizedCrop`** (module `RandomResizedCrop`, `random_resized_crop.dfy`):
- The constructor is a function that returns a `Result`. It checks the type of `aspect_ratio_factor`, computes the bounds handed to the sampler construction, and stores the arguments. A tuple is passed on unchanged, in the caller's order. The model keeps what the code actually does:
  - A falsy argument becomes the default `(3/4, 4/3)`. Falsy means `None`, `0`, an empty tuple or an empty list.
  - A non-empty tuple gives its minimum and maximum as the `min_value` and `max_value` handed to `parse_factor`.
  - A float that is not zero, or a list, raises `ValueError`. This happens even though the class documentation says a single float is accepted.
  - A `FactorSampler` gets past the type check. It then fails when line 84 reads `min_aspect_ratio`, which was never assigned. The model returns `UnboundLocalError` for this case.
  - The "no augmentation" warning is kept as a field, `warned`. The constructor's contract proves it is never set. By line 99, an `aspect_ratio_factor` of `0.0` has already been replaced by the default tuple.
- `get_random_transformation` is a function of four random draws: area, aspect ratio, and the two unit draws that `random_uniform` scales into the offset intervals. It returns the single box `[[y1, x1, y2, x2]]`. Square roots come from a function parameter `sqrt`, constrained by `IsSquareRoot`.
- `call` is a function on image shapes:
  - Training samples a box, then crops and resizes.
  - Inference goes straight to `_resize` and samples nothing.

**`SqueezeAndExciteBlock2D`** (module `SqueezeExcite`, `squeeze_excite.dfy`):
- The constructor returns a `Result`. It checks `ratio` first, then `filters`, and on success computes `bottleneck_filters = int(filters * ratio)`.
- `get_config` returns the four stored arguments. Rebuilding the block from them gives back the same block.

`results.dfy` defines the shared `Result` and `Option` types.

The source stores `interpolation` (line 96) but passes it to neither `crop_and_resize` (lines 158-165) nor `smart_resize` (lines 170-171), so the setting has no effect on the output. The model stores it and nothing reads it.

Numbers are Dafny `real`, so the arithmetic is exact. An equality such as `y2 - y1 == new_height` is a statement about real numbers, not about `float32`.

## Model

| member | source | states |
|---|---|---|
| RandomResizedCrop.Init | keras_cv/layers/preprocessing/random_resized_crop.py:57-103 | A falsy factor becomes the default `(3/4, 4/3)`. A non-empty tuple passes the type check and is passed on unchanged. The bounds handed to `parse_factor` are members of the tuple and enclose every element. A `FactorSampler` ends in `UnboundLocalError` on `min_aspect_ratio`. `ValueError("aspect_ratio_factor")` is raised exactly when the factor is neither falsy, nor a tuple, nor a sampler. A built layer stores target size, area factor, interpolation and seed unchanged, has min ≤ max, and never has `warned` set. |
| RandomResizedCrop.SeqMin | keras_cv/layers/preprocessing/random_resized_crop.py:72 | The result is an element of the tuple and is ≤ every element. |
| RandomResizedCrop.SeqMax | keras_cv/layers/preprocessing/random_resized_crop.py:73 | The result is an element of the tuple and is ≥ every element. |
| RandomResizedCrop.PairNormalised | keras_cv/layers/preprocessing/random_resized_crop.py:70-88 | For a pair `(a, b)`, the bounds handed to `parse_factor` are `min(a,b)` and `max(a,b)`, and swapping the pair gives the same bounds. The pair itself is passed on unchanged, in the order given. |
| RandomResizedCrop.DefaultConstruction | keras_cv/layers/preprocessing/random_resized_crop.py:57-97 | With every optional argument at its default, the layer is built with aspect bounds `(3/4, 4/3)`, area factor `(0.08, 1.0)`, interpolation `"bilinear"`, seed `None`, and no warning. |
| RandomResizedCrop.SingleFloatRejected | keras_cv/layers/preprocessing/random_resized_crop.py:71-80 | Any float other than zero is refused with `ValueError` naming `aspect_ratio_factor`. |
| RandomResizedCrop.ClippedRoot | keras_cv/layers/preprocessing/random_resized_crop.py:113-117 | A clipped square root lies in `[0,1]`. Its square is the argument when the argument is ≤ 1, and it is exactly 1 when the argument is ≥ 1. |
| RandomResizedCrop.CropHeight | keras_cv/layers/preprocessing/random_resized_crop.py:113-115 | `new_height` lies in `[0,1]`. Its square is area/aspect when that is ≤ 1; otherwise it is 1. |
| RandomResizedCrop.CropWidth | keras_cv/layers/preprocessing/random_resized_crop.py:116-117 | `new_width` lies in `[0,1]`. Its square is area·aspect when that is ≤ 1; otherwise it is 1. |
| RandomResizedCrop.OffsetRange | keras_cv/layers/preprocessing/random_resized_crop.py:119-131 | The offset interval is well formed (min ≤ max). It is exactly `[0, 1-e]` for an extent `e ≤ 1`, and swaps to `[1-e, 0]` for `e ≥ 1`. |
| RandomResizedCrop.RandomUniform | keras_cv/layers/preprocessing/random_resized_crop.py:119-131 | An offset drawn with `random_uniform` from a well-formed interval lies in `[minval, maxval]`. It is strictly below `maxval` unless the interval is a single point. |
| RandomResizedCrop.GetRandomTransformation | keras_cv/layers/preprocessing/random_resized_crop.py:105-138 | Returns one box of four coordinates in the order `y1, x1, y2, x2`. `y1` lies in the height offset interval and `x1` in the width offset interval. `y2 - y1` is `new_height` and `x2 - x1` is `new_width`. The box lies in the unit square: `0 ≤ y1 ≤ y2 ≤ 1` and `0 ≤ x1 ≤ x2 ≤ 1`. |
| RandomResizedCrop.FullImageCrop | keras_cv/layers/preprocessing/random_resized_crop.py:110-138 | Area 1 and aspect 1 give both extents 1. Both offset intervals collapse to `[0,0]`, and the box is the full image `[[0,0,1,1]]` whatever the offset draws are. |
| RandomResizedCrop.HalfAreaSquareCrop | keras_cv/layers/preprocessing/random_resized_crop.py:110-131 | Area 1/2 and aspect 1 give equal extents whose square is 1/2, strictly between 0 and 1. The offset interval is `[0, 1 - h]`. |
| RandomResizedCrop.AugmentImage | keras_cv/layers/preprocessing/random_resized_crop.py:153-167 | Adding a batch axis, cropping with the single box and removing that axis again gives an image of shape `target_size` × channels. |
| RandomResizedCrop.Resize | keras_cv/layers/preprocessing/random_resized_crop.py:169-173 | The inference resize keeps the rank, any leading batch dimension and the channels, and sets the spatial size to `target_size`. |
| RandomResizedCrop.Call | keras_cv/layers/preprocessing/random_resized_crop.py:140-151 | A box is sampled exactly when `training` is true, and it is the box `GetRandomTransformation` returns. In both modes the output has spatial size `target_size` and keeps the batch and channel dimensions. |
| SqueezeExcite.BottleneckFilters | keras_cv/layers/regularization/squeeze_excite.py:66 | `bottleneck_filters` is the floor of `filters · ratio`, which `int` truncation gives for a positive product. Hence `0 ≤ bottleneck_filters < filters`. |
| SqueezeExcite.Init | keras_cv/layers/regularization/squeeze_excite.py:47-66 | A ratio outside `(0,1)` raises `ValueError("ratio")`, whatever `filters` is. With a valid ratio: a non-int `filters` or one ≤ 0 raises `ValueError("filters")`, and a non-numeric one raises `TypeError` from the comparison. The checks at lines 59-63 pass exactly when `0 < ratio < 1` and `filters` is a positive int. The model then stores the arguments unchanged with `0 ≤ bottleneck_filters < filters`. |
| SqueezeExcite.GetConfig | keras_cv/layers/regularization/squeeze_excite.py:88-96 | Reports `filters`, `ratio` and both activations exactly as stored. |
| SqueezeExcite.ConfigRoundTrip | keras_cv/layers/regularization/squeeze_excite.py:47-96 | Rebuilding from the reported configuration succeeds and gives back the same block, including the same `bottleneck_filters`. |
| SqueezeExcite.RatioCheckedFirst | keras_cv/layers/regularization/squeeze_excite.py:59-63 | When both `ratio` and `filters` are invalid, the ratio error is the one raised. |
| SqueezeExcite.DefaultConstruction | keras_cv/layers/regularization/squeeze_excite.py:47-69 | With the default ratio `0.25` and activations `"relu"` and `"sigmoid"`, every positive int `n` passes the checks, and `bottleneck_filters` is `n / 4` rounded down. |
| SqueezeExcite.ZeroBottleneckAccepted | keras_cv/layers/regularization/squeeze_excite.py:59-66 | `filters = 3` with `ratio = 0.25` passes the checks at lines 59-63, and `bottleneck_filters` is 0. |

## Left out

- Square root: there is no real `sqrt` to call. A caller-supplied function takes its place, and `IsSquareRoot` requires it to return the non-negative root of every non-negative argument.
- Floating point: IEEE rounding of `float32` and `float64` is not modelled. `area/aspect`, the extents and `filters · ratio` are exact reals.
- RandomResizedCrop.ValidDraws: an area draw below 0 or an aspect draw of 0 or less is not modelled. These are the cases where float division or `sqrt` would give `inf` or `NaN`.
- Random draws: random number generation, seeding, and how many draws share one stream are not modelled. The four draws are parameters. Each offset is given as a unit draw in `[0, 1)`, which `random_uniform` scales into its interval.
- Not part of this model:
  - `preprocessing.parse_factor` and `core.FactorSampler`.
  - The sampler objects built from `area_factor` and `aspect_ratio_factor`. The layer records the arguments and the aspect bounds handed to them.
- TensorFlow kernels: `crop_and_resize`, `smart_resize`, `expand_dims`, `squeeze` and the dtype cast are reduced to their output shapes. Pixel values and interpolation are not modelled.
- RandomResizedCrop.Call: the training path is modelled for a single rank-3 image. The batch dispatch in `BaseImageAugmentationLayer` is not part of this model. This covers `super().call`, `_format_inputs`, `_format_output` and `_ensure_inputs_are_compute_dtype`.
- Warning output: `warnings.warn` is a flag, `warned`, rather than output.
- Argument types: a `FactorSampler` is treated as truthy. Arguments of other Python types not listed in `FactorArg` are not modelled.
- `SqueezeAndExciteBlock2D.call`: pooling, the two convolutions and the multiply are neural-network numerics and are not modelled.
- Sublayers: the three sublayers the constructor builds are not modelled.
- SqueezeExcite.Init: an `Ok` result assumes that the sublayers built at lines 71-79 accept their arguments, including a bottleneck of 0 filters for `Conv2D`. Their own checks are outside this model.
- RandomResizedCrop.Init: an `Ok` result assumes that `parse_factor` at lines 82-94 accepts the aspect tuple as given, including a one-element tuple, bounds of 0 or less, and a tuple in descending order. It also assumes that `parse_factor` accepts `area_factor`.
- Serialisation: Keras serialisation registration, the base layer's part of `get_config`, and `RandomResizedCrop.get_config` are not modelled.
