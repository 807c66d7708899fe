# DataLoader patch sampler, modelled in Dafny

This project models `DataLoader` in `train/dataloader.py`. It is the component of a
super-resolution training program that hands the training loop batches of paired
patches: a low-resolution input patch and its ground-truth patch, `scale` times larger.

- **Set-up.** `prepare` indexes the `.png` files of the first scale's input directory.
  The match on the suffix ignores case. It also starts an empty input-image cache per
  configured scale and an empty ground-truth cache.
- **Image lookup.** `_get_input_image` and `_get_truth_image` decode a PNG on demand.
  When caching is enabled, the decoded image is kept in the cache for later calls.
- **Pair sampling.** `get_image_pair` draws an image name and a crop origin in the
  input image. It crops the input window and the truth window `scale` times larger at
  the same place. It then gives both patches the same `rot90` count, drawn in 1..4,
  and the same optional left-right mirror.
- **Batches.** `get_batch` collects `batch_size` such pairs into two parallel lists.

The Dafny modules follow that structure:

- `Images`: decoded images as rectangular pixel grids, plus numpy's slicing, `rot90`,
  `fliplr` and `flipud`.
- `Outcomes`: file paths and the errors the loader can raise.
- `Blocks`: the two coordinate maps between the resolutions. `Upscale(v, s)` is
  `v * s`, the truth coordinate of input coordinate `v`. `Block(v, s)` is `v // s`, the
  input pixel whose `s` x `s` footprint holds truth pixel `v`. Both are defined by
  repeated addition and subtraction, which keeps the proofs in linear arithmetic.
- `Sampling`: the random draws and the pure crop, rotate and mirror step of
  `get_image_pair`.
- `ImageIndex`: the `.png` name filter.
- `Loader`: the `DataLoader` class. Its name index and its two caches are mutable
  fields.

Random numbers are inputs. Each `np.random.randint(n)` is a raw natural number reduced
modulo `n`; for `n <= 0` it is numpy's ValueError. The lemmas show that every value
in `[0, n)` is reachable. The mirror coin is a `bool`. PNG decoding and directory
listing are function parameters: `None` stands for a missing or unreadable file.

The rotation count is drawn in 1..4, and `np.rot90(x, 4)` is `x`. So one draw in four,
when the mirror coin is also false, returns the plain crops
(`Sampling.FourTurnsIsPlainCrop`).

## Model

| member | source | states |
|---|---|---|
| Sampling.RandInt | train/dataloader.py:92 | `np.random.randint(n)` succeeds exactly when `n > 0`, with a value below `n`; otherwise it is the ValueError for `n` |
| Sampling.RandIntCovers | train/dataloader.py:92 | every value in `[0, n)` is produced by some raw draw |
| Sampling.RotationCount | train/dataloader.py:110 | `randint(4) + 1` is always in 1..4 |
| Sampling.RotationCountCovers | train/dataloader.py:110 | each of 1, 2, 3, 4 is produced by some draw |
| Sampling.TruthWindowInside | train/dataloader.py:100-107 | when the input window fits in the input image, the truth window at the origin times `scale`, `scale` times larger, fits in the truth image |
| Blocks.UpscaleIsProduct | train/dataloader.py:100-105 | the truth patch size and the truth crop origin, written with `Upscale`, are the products `input_patch_size * scale`, `input_x * scale` and `input_y * scale` |
| Sampling.CropRotateFlip | train/dataloader.py:100-121 | for fixed draws, the input patch is `p` x `p` and the truth patch is `p*scale` x `p*scale`, whatever the rotation and mirror |
| Sampling.CropTransformIsNumpy | train/dataloader.py:106-118 | each patch, built pixel by pixel, equals numpy's slice of the window, then `rot90` by `k`, then `fliplr` when the mirror coin says so |
| Sampling.SamplePatches | train/dataloader.py:100-121 | sampling succeeds exactly when `p` is below both the input width and the input height; otherwise it fails with the ValueError of the first empty range; on success the patches have the shapes above |
| Sampling.SampleIsPlacement | train/dataloader.py:102-118 | every sampled pair is a crop at an origin with `x + p < width` and `y + p < height` (so the last input column and row are never covered), turned 1..4 times and optionally mirrored |
| Sampling.EveryPlacementIsSampled | train/dataloader.py:102-118 | conversely, every such origin, rotation count and mirror choice is produced by some draws |
| Sampling.FourTurnsIsPlainCrop | train/dataloader.py:110-112 | with rotation count 4 and no mirror, the pair is exactly the two unrotated crops |
| Sampling.CoRegisteredAt | train/dataloader.py:104-118 | truth-patch pixel (i, j) is the truth pixel (R, C) at the offset `Origin` gives from the truth crop origin; input-patch pixel (i // scale, j // scale) is the input pixel (R // scale, C // scale), whose footprint holds (R, C); so both patches show the same region, turned and mirrored alike |
| Images.Crop | train/dataloader.py:106-107 | the slice of an in-bounds window has the window's shape, and pixel (i, j) is the image's pixel (top+i, left+j) |
| Images.FlipLR | train/dataloader.py:117-118 | `np.fliplr` keeps the shape and mirrors the column index |
| Images.Rot90K | train/dataloader.py:111-112 | `np.rot90(g, k)` swaps height and width for odd `k`; every pixel comes from the position a counter-clockwise turn by `k` quarters gives |
| Images.NumpyRot90IsRotation | train/dataloader.py:111-112 | numpy's own transpose-and-mirror construction of `rot90` equals that rotation for every grid and every `k` |
| Images.Rot90KIsQuarterTurns | train/dataloader.py:110-112 | `rot90(g, k)` equals `k` successive single quarter turns, so `k = 4` is the identity |
| Images.FlipLRInvolution | train/dataloader.py:115-118 | mirroring twice gives back the patch |
| Images.TransformAt | train/dataloader.py:110-118 | a square patch stays square under the rotation and mirror, and pixel (i, j) comes from the position `Origin` names |
| Images.TransformShape | train/dataloader.py:110-118 | rotating and mirroring a square patch keeps it `n` x `n` |
| ImageIndex.IsPngChars | train/dataloader.py:31 | a name is kept exactly when it ends in a dot followed by p, n, g in either case |
| ImageIndex.PngNames | train/dataloader.py:31 | the index holds exactly the listed names that pass the filter, and is no longer than the listing |
| ImageIndex.PngNamesAppend | train/dataloader.py:31 | the filter keeps listing order: filtering a concatenation is concatenating the filtered parts |
| ImageIndex.PngNamesCount | train/dataloader.py:31 | each `.png` name appears as often as it is listed; every other name does not appear |
| ImageIndex.PngNamesIdempotent | train/dataloader.py:31 | filtering the index again changes nothing |
| Loader.Decoded | train/dataloader.py:133-134 | reading a file succeeds exactly when it decodes, with the decoded image; otherwise the error names the path |
| Loader.EmptyInputCaches | train/dataloader.py:50-53 | the input caches are keyed by exactly the configured scales, each holding no image |
| Loader.PairOutcomeSpec | train/dataloader.py:91-121 | every outcome, in the order the code meets them: an empty index is the ValueError of `randint(0)`; with caching on, a scale without a cache map is a KeyError; an input or truth file that does not decode fails with that file's path; with both images decoded, the pair succeeds exactly when `p` is below the input width and height, and otherwise fails with the ValueError of the first empty origin range; a success is a `p` x `p` and a `p*scale` x `p*scale` patch sampled from the images of the name the draws pick |
| Loader.EveryPairIsReachable | train/dataloader.py:91-118 | conversely, for every indexed name whose two files decode, every crop origin with `x + p < width` and `y + p < height`, every rotation count in 1..4 and both mirror choices, some draws make `get_image_pair` return exactly that crop, turned and mirrored |
| Loader.PairEffectGrows | train/dataloader.py:124-157 | one `get_image_pair` (both lookups) never evicts or replaces a cached input or truth image, and the decode count rises by at most two |
| Loader.PairEffectSpec | train/dataloader.py:91-157 | one `get_image_pair` never evicts or replaces a cached image and decodes at most two files; an empty index changes nothing; with caching off the caches stay as they are; with caching on, a name cached under both keys decodes nothing and changes nothing, and a name whose two files decode is cached under both keys afterwards |
| Loader.DataLoader.constructor | train/dataloader.py:14-20 | only the configuration is stored; the index and caches are empty and set-up has not run |
| Loader.DataLoader.Prepare | train/dataloader.py:23-54 | set-up succeeds exactly when the scale list is non-empty and the first scale's directory can be listed; an empty scale list or an unlistable directory fails with its own error and changes nothing; on success the index is the `.png` filter of the first scale's listing, the input caches are one empty map per scale, and the truth cache is empty |
| Loader.DataLoader.LoadInput | train/dataloader.py:124-139 | the result is the decoded file whatever the cache holds (a KeyError for an uncached scale with caching on); a cache hit decodes nothing; a miss decodes once and stores the image only when caching is on |
| Loader.DataLoader.LoadTruth | train/dataloader.py:142-157 | the same get-or-insert under the image name alone |
| Loader.DataLoader.GetImagePair | train/dataloader.py:81-121 | the result is `PairOutcome` for the draws, independent of the cache contents; the new caches and decode count are exactly `PairEffect` of the old ones: the input image is looked up first, and the truth image only when the input image loaded; at most two files are decoded; cached images are never evicted or replaced |
| Loader.DataLoader.GetBatch | train/dataloader.py:57-78 | a batch succeeds exactly when every pair does; element i of both lists is the i-th pair; a failure carries the error of the first failing pair; no cached image is evicted or replaced, and at most `2 * batch_size` files are decoded |
| Loader.LookupTwice | train/dataloader.py:124-139 | with caching on, two lookups of one input image agree, and a successful first lookup leaves at most one decode |

## Left out

- The TensorFlow graph and session in `prepare` (lines 34-48) are not modelled; `read_file` and `decode_png` are the `Decoder` function parameter. A decode failure is the `DecodeFailed` error.
- `os.listdir` is the `Lister` function parameter. `os.path.join` and the `x%d` directory name are the `ImagePath` and `ImageDir` datatypes, not strings.
- The command-line flags and their defaults are not modelled; the three settings are fields of `Config`. The logging call at line 32 is not modelled.
- Uniformity of the random draws is not modelled. The lemmas state which values are reachable, not their probabilities. `np.random.uniform() < 0.5` is a `bool`.
- numpy slicing past the end of an array truncates the slice. The model requires instead that the truth image is at least `scale` times the input image (`Loader.CoRegistered`), so the truth slice is always whole.
- Lower-casing covers ASCII letters only; Unicode case mapping is not modelled.
- A grid with no rows has width 0 in this model, while numpy keeps a second extent. `Images.Rot90KIsQuarterTurns` therefore excludes grids with one extent zero and the other not.
- Scales and patch sizes are natural numbers; negative values, which Python would accept, are not modelled.
- The returned patches are values, so the sharing between numpy views of the cached images is not modelled.
- `LoadInput`, `LoadTruth`, `GetImagePair` and `GetBatch` require that `Prepare` has succeeded. Called earlier, the source raises AttributeError, because the name index and the caches do not exist yet; the model does not represent that error.
- The `Decoder` is a pure function of the path, so a file never changes between reads. With `data_cached` on, the source keeps returning the first decoded version of a file that later changes on disk; the model cannot express that difference.
- Loader.DataLoader.GetBatch: states that the caches only grow and bounds the number of decodes, but does not give the exact final cache contents after a batch. The exact per-pair change is stated by `Loader.DataLoader.GetImagePair`.
