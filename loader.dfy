/** `DataLoader`: the image-name index, the lazily filled image caches, and the batch
    and pair sampling that read through them. */
module Loader {
  import opened Images
  import opened Outcomes
  import opened Sampling
  import opened ImageIndex
  import opened Blocks

  /** `scale_list`, and the three settings `dataloader.py` reads from command-line flags
      (`data_input_path`, `data_truth_path`, `data_cached`). */
  datatype Config = Config(scales: seq<nat>, inputBase: string, truthBase: string, cached: bool)

  /** Reading and decoding one PNG file; None when the file is missing or corrupt. */
  type Decoder = ImagePath -> Option<Image>

  /** Listing one directory; None when it is missing or unreadable. */
  type Lister = ImageDir -> Option<seq<string>>

  /** The two parallel lists `get_batch` returns. */
  datatype Batch = Batch(inputs: seq<Image>, truths: seq<Image>)

  function InputPathOf(cfg: Config, scale: nat, name: string): ImagePath {
    InputFile(cfg.inputBase, scale, name)
  }

  function TruthPathOf(cfg: Config, name: string): ImagePath {
    TruthFile(cfg.truthBase, name)
  }

  function Decoded(decode: Decoder, path: ImagePath): (r: Result<Image>)
    ensures r.Ok? <==> decode(path).Some?
    ensures r.Ok? ==> decode(path) == Some(r.value)
    ensures r.Err? ==> r.error == DecodeFailed(path)
  {
    match decode(path)
    case Some(g) => Ok(g)
    case None => Err(DecodeFailed(path))
  }

  predicate PairFits(input: Option<Image>, truth: Option<Image>, scale: nat) {
    input.Some? && truth.Some? ==> Fits(input.value, truth.value, scale)
  }

  /** Every indexed name whose two files decode has a ground-truth image at least
      `scale` times its input image. */
  predicate CoRegistered(cfg: Config, decode: Decoder, names: seq<string>, scale: nat) {
    forall i :: 0 <= i < |names| ==>
      PairFits(decode(InputPathOf(cfg, scale, names[i])), decode(TruthPathOf(cfg, names[i])), scale)
  }

  /** What one `get_image_pair` call returns for the given draws: pick a name, load its
      input image (a KeyError when caching is on and the scale has no cache map) and its
      ground-truth image, then sample the patches. The caches never change the answer. */
  function PairOutcome(cfg: Config, decode: Decoder, names: seq<string>, scale: nat, p: nat,
                       d: Draws): Result<PatchPair>
    requires CoRegistered(cfg, decode, names, scale)
  {
    var index :- RandInt(|names|, d.index);
    var name := names[index];
    if cfg.cached && scale !in cfg.scales then Err(MissingScale(scale))
    else
      var input :- Decoded(decode, InputPathOf(cfg, scale, name));
      var truth :- Decoded(decode, TruthPathOf(cfg, name));
      assert PairFits(decode(InputPathOf(cfg, scale, names[index])),
                      decode(TruthPathOf(cfg, names[index])), scale);
      SamplePatches(input, truth, scale, p, d)
  }

  /** The pair could have come from the images stored under `name`: some crop origin
      in [0, width - p) x [0, height - p), some rotation count in 1..4 and some mirror
      choice produce it. */
  ghost predicate DrawnFrom(cfg: Config, decode: Decoder, name: string, scale: nat, p: nat,
                            pr: PatchPair)
  {
    var input, truth := decode(InputPathOf(cfg, scale, name)), decode(TruthPathOf(cfg, name));
    input.Some? && truth.Some? && Fits(input.value, truth.value, scale) &&
    exists x: nat, y: nat, k: int, flip: bool ::
      x + p < Width(input.value) && y + p < Height(input.value) && 1 <= k <= 4 &&
      pr == CropRotateFlip(input.value, truth.value, scale, p, x, y, k, flip)
  }

  /** The name `image_name_list[randint(len(image_name_list))]` the draws pick. */
  function DrawnName(names: seq<string>, d: Draws): (name: string)
    requires |names| > 0
    ensures name in names
  {
    names[RandInt(|names|, d.index).value]
  }

  /** Every outcome of `get_image_pair`, in the order the code meets them: an empty index
      is the ValueError of `randint(0)`; with caching on, a scale without a cache map is
      a KeyError; an input or ground-truth file that does not decode fails with its path;
      a patch size not below the input width or height is the ValueError of the empty
      crop-origin range. Otherwise the pair is a p x p input patch and a
      (p * scale) x (p * scale) truth patch sampled from the images of an indexed name. */
  lemma PairOutcomeSpec(cfg: Config, decode: Decoder, names: seq<string>, scale: nat, p: nat, d: Draws)
    requires CoRegistered(cfg, decode, names, scale)
    ensures var r := PairOutcome(cfg, decode, names, scale, p, d);
      (|names| == 0 ==> r == Err(RandomRange(0))) &&
      (|names| > 0 ==>
        var name := DrawnName(names, d);
        var input, truth := decode(InputPathOf(cfg, scale, name)), decode(TruthPathOf(cfg, name));
        (cfg.cached && scale !in cfg.scales ==> r == Err(MissingScale(scale))) &&
        (!(cfg.cached && scale !in cfg.scales) && input.None? ==>
           r == Err(DecodeFailed(InputPathOf(cfg, scale, name)))) &&
        (!(cfg.cached && scale !in cfg.scales) && input.Some? && truth.None? ==>
           r == Err(DecodeFailed(TruthPathOf(cfg, name)))) &&
        (!(cfg.cached && scale !in cfg.scales) && input.Some? && truth.Some? ==>
           (r.Ok? <==> p < Width(input.value) && p < Height(input.value)) &&
           (p >= Width(input.value) ==> r == Err(RandomRange(Width(input.value) - p))) &&
           (p < Width(input.value) && p >= Height(input.value) ==>
              r == Err(RandomRange(Height(input.value) - p))))) &&
      (r.Ok? ==> HasShape(r.value.input, p, p) && HasShape(r.value.truth, p * scale, p * scale)) &&
      (r.Ok? ==> |names| > 0 && DrawnFrom(cfg, decode, DrawnName(names, d), scale, p, r.value))
  {
    var r := PairOutcome(cfg, decode, names, scale, p, d);
    UpscaleIsProduct(p, scale);
    if |names| > 0 {
      var i := d.index % |names|;
      var input := decode(InputPathOf(cfg, scale, names[i]));
      var truth := decode(TruthPathOf(cfg, names[i]));
      assert PairFits(input, truth, scale);
      if !(cfg.cached && scale !in cfg.scales) && input.Some? && truth.Some? {
        assert r == SamplePatches(input.value, truth.value, scale, p, d);
        if r.Ok? {
          SampleIsPlacement(input.value, truth.value, scale, p, d);
          assert DrawnFrom(cfg, decode, names[i], scale, p, r.value);
        }
      }
    }
  }

  /** Conversely, every indexed name whose files decode, every crop origin in
      [0, width - p) x [0, height - p), every rotation count in 1..4 and both mirror
      choices are produced by some draws. */
  lemma EveryPairIsReachable(cfg: Config, decode: Decoder, names: seq<string>, scale: nat, p: nat,
                             i: nat, x: nat, y: nat, k: int, flip: bool)
    requires CoRegistered(cfg, decode, names, scale)
    requires i < |names| && !(cfg.cached && scale !in cfg.scales)
    requires decode(InputPathOf(cfg, scale, names[i])).Some? && decode(TruthPathOf(cfg, names[i])).Some?
    ensures var input, truth := decode(InputPathOf(cfg, scale, names[i])).value, decode(TruthPathOf(cfg, names[i])).value;
      Fits(input, truth, scale) &&
      (x + p < Width(input) && y + p < Height(input) && 1 <= k <= 4 ==>
         PairOutcome(cfg, decode, names, scale, p, Draws(i, x, y, k - 1, flip))
           == Ok(CropRotateFlip(input, truth, scale, p, x, y, k, flip)))
  {
    var input, truth := decode(InputPathOf(cfg, scale, names[i])), decode(TruthPathOf(cfg, names[i]));
    assert PairFits(input, truth, scale);
    if x + p < Width(input.value) && y + p < Height(input.value) && 1 <= k <= 4 {
      RandIntCovers(|names|, i);
      EveryPlacementIsSampled(input.value, truth.value, scale, p, x, y, k, flip);
    }
  }

  /** The input caches `prepare` leaves: one empty map per configured scale. */
  function EmptyInputCaches(scales: seq<nat>): (m: map<nat, map<string, Image>>)
    ensures forall s :: s in m <==> s in scales
    ensures forall s :: s in m ==> m[s] == map[]
  {
    map s | s in scales :: map[]
  }

  /** The input caches after storing `image` under (scale, name). */
  function StoreInput(cache: map<nat, map<string, Image>>, scale: nat, name: string, image: Image)
    : map<nat, map<string, Image>>
    requires scale in cache
  {
    var inner: map<string, Image> := cache[scale][name := image];
    cache[scale := inner]
  }

  /** Entries are only ever added: every image once cached stays cached, unchanged. */
  ghost predicate InputCacheGrows(before: map<nat, map<string, Image>>, after: map<nat, map<string, Image>>) {
    before.Keys == after.Keys &&
    forall s, name :: s in before && name in before[s] ==> name in after[s] && after[s][name] == before[s][name]
  }

  ghost predicate TruthCacheGrows(before: map<string, Image>, after: map<string, Image>) {
    forall name :: name in before ==> name in after && after[name] == before[name]
  }

  /** The part of a loader's state that `get_image_pair` changes: both caches and the
      number of files decoded so far. */
  datatype Caches = Caches(input: map<nat, map<string, Image>>, truth: map<string, Image>, decodes: nat)

  /** Whether `_get_input_image(scale, name)` returns an image given the input caches:
      with caching on the scale needs a cache map, and the file must decode. */
  predicate InputLoads(cfg: Config, decode: Decoder, cache: map<nat, map<string, Image>>, scale: nat, name: string) {
    !(cfg.cached && scale !in cache) && decode(InputPathOf(cfg, scale, name)).Some?
  }

  /** The input caches after `_get_input_image(scale, name)`: a freshly decoded image is
      stored when caching is on, the scale has a cache map and the name is not cached. */
  function InputCacheAfter(cfg: Config, decode: Decoder, cache: map<nat, map<string, Image>>, scale: nat, name: string)
    : map<nat, map<string, Image>>
  {
    if cfg.cached && scale in cache && name !in cache[scale] && decode(InputPathOf(cfg, scale, name)).Some?
    then StoreInput(cache, scale, name, decode(InputPathOf(cfg, scale, name)).value)
    else cache
  }

  /** Files `_get_input_image(scale, name)` decodes: none on a cache hit or a KeyError. */
  function InputDecodes(cfg: Config, cache: map<nat, map<string, Image>>, scale: nat, name: string): nat {
    if cfg.cached && (scale !in cache || name in cache[scale]) then 0 else 1
  }

  function TruthCacheAfter(cfg: Config, decode: Decoder, cache: map<string, Image>, name: string): map<string, Image> {
    if cfg.cached && name !in cache && decode(TruthPathOf(cfg, name)).Some?
    then cache[name := decode(TruthPathOf(cfg, name)).value]
    else cache
  }

  function TruthDecodes(cfg: Config, cache: map<string, Image>, name: string): nat {
    if cfg.cached && name in cache then 0 else 1
  }

  /** The state after one `get_image_pair`: nothing happens for an empty index; otherwise
      the drawn name's input image is loaded, and its ground-truth image too when that
      load succeeded. */
  function PairEffect(cfg: Config, decode: Decoder, names: seq<string>, scale: nat, d: Draws, c: Caches): Caches {
    if |names| == 0 then c
    else
      var name := DrawnName(names, d);
      var input := InputCacheAfter(cfg, decode, c.input, scale, name);
      var decodes := c.decodes + InputDecodes(cfg, c.input, scale, name);
      if InputLoads(cfg, decode, c.input, scale, name)
      then Caches(input, TruthCacheAfter(cfg, decode, c.truth, name), decodes + TruthDecodes(cfg, c.truth, name))
      else Caches(input, c.truth, decodes)
  }

  /** One `get_image_pair` never evicts or replaces a cached image and decodes at most
      two files. */
  lemma PairEffectGrows(cfg: Config, decode: Decoder, names: seq<string>, scale: nat, d: Draws, c: Caches)
    ensures var e := PairEffect(cfg, decode, names, scale, d, c);
      InputCacheGrows(c.input, e.input) && TruthCacheGrows(c.truth, e.truth) &&
      c.decodes <= e.decodes <= c.decodes + 2
  {
    if |names| > 0 {
      var name := DrawnName(names, d);
      var input := InputCacheAfter(cfg, decode, c.input, scale, name);
      if input != c.input {
        var inner: map<string, Image> := c.input[scale][name := decode(InputPathOf(cfg, scale, name)).value];
        assert input == c.input[scale := inner];
      }
    }
  }

  /** Besides growing the caches, one `get_image_pair` leaves them alone for an empty
      index. With caching on, a name whose two images are cached decodes nothing and
      changes nothing, and a name whose two files load is cached afterwards under both
      keys. With caching off the caches stay as they are. */
  lemma PairEffectSpec(cfg: Config, decode: Decoder, names: seq<string>, scale: nat, d: Draws, c: Caches)
    ensures var e := PairEffect(cfg, decode, names, scale, d, c);
      InputCacheGrows(c.input, e.input) && TruthCacheGrows(c.truth, e.truth) &&
      c.decodes <= e.decodes <= c.decodes + 2 &&
      (|names| == 0 ==> e == c) &&
      (!cfg.cached ==> e.input == c.input && e.truth == c.truth) &&
      (|names| > 0 && cfg.cached ==>
        var name := DrawnName(names, d);
        (scale in c.input && name in c.input[scale] && name in c.truth ==> e == c) &&
        (scale in c.input && decode(InputPathOf(cfg, scale, name)).Some? && decode(TruthPathOf(cfg, name)).Some? ==>
           scale in e.input && name in e.input[scale] && name in e.truth))
  {
    PairEffectGrows(cfg, decode, names, scale, d, c);
  }

  /** The outcome of `get_image_pair` for each draw. */
  function PairOutcomes(cfg: Config, decode: Decoder, names: seq<string>, scale: nat, p: nat,
                        draws: seq<Draws>): (outs: seq<Result<PatchPair>>)
    requires CoRegistered(cfg, decode, names, scale)
    ensures |outs| == |draws|
    ensures forall j :: 0 <= j < |draws| ==> outs[j] == PairOutcome(cfg, decode, names, scale, p, draws[j])
  {
    seq(|draws|, j requires 0 <= j < |draws| => PairOutcome(cfg, decode, names, scale, p, draws[j]))
  }

  /** Appending the pair drawn at step i keeps the collected lists in step with the outcomes. */
  lemma ExtendPrefix(outs: seq<Result<PatchPair>>, inputs: seq<Image>, truths: seq<Image>, i: nat, a: Image, b: Image)
    requires i < |outs| && |inputs| == i && |truths| == i
    requires forall j :: 0 <= j < i ==> outs[j] == Ok(PatchPair(inputs[j], truths[j]))
    requires outs[i] == Ok(PatchPair(a, b))
    ensures forall j :: 0 <= j < i + 1 ==> outs[j] == Ok(PatchPair((inputs + [a])[j], (truths + [b])[j]))
  {
  }

  /** Growth of the caches is transitive. */
  lemma CacheGrowsTrans(i0: map<nat, map<string, Image>>, i1: map<nat, map<string, Image>>, i2: map<nat, map<string, Image>>,
                        t0: map<string, Image>, t1: map<string, Image>, t2: map<string, Image>)
    requires InputCacheGrows(i0, i1) && InputCacheGrows(i1, i2)
    requires TruthCacheGrows(t0, t1) && TruthCacheGrows(t1, t2)
    ensures InputCacheGrows(i0, i2) && TruthCacheGrows(t0, t2)
  {
  }

  class DataLoader {
    const config: Config
    const decode: Decoder
    /** `image_name_list` */
    var imageNames: seq<string>
    /** `cached_input_image_list`: scale -> image name -> decoded input image */
    var inputCache: map<nat, map<string, Image>>
    /** `cached_truth_image_list`: image name -> decoded ground-truth image */
    var truthCache: map<string, Image>
    /** Whether `prepare` has completed. */
    ghost var prepared: bool
    /** How many times a file has been read and decoded. */
    ghost var decodes: nat

    /** The caches only hold what decoding their file gives, the input caches are keyed
        by exactly the configured scales, and with caching off they stay empty. */
    ghost predicate Valid()
      reads this
    {
      (prepared ==> forall s :: s in inputCache <==> s in config.scales) &&
      (forall s, name :: s in inputCache && name in inputCache[s] ==>
         decode(InputPathOf(config, s, name)) == Some(inputCache[s][name])) &&
      (forall name :: name in truthCache ==> decode(TruthPathOf(config, name)) == Some(truthCache[name])) &&
      (!config.cached ==> truthCache == map[] && forall s :: s in inputCache ==> inputCache[s] == map[])
    }

    /** `__init__`: only the configuration is stored; `prepare` must run before use. */
    constructor (config: Config, decode: Decoder)
      ensures this.config == config && this.decode == decode
      ensures Valid() && !prepared && decodes == 0
      ensures imageNames == [] && inputCache == map[] && truthCache == map[]
    {
      this.config := config;
      this.decode := decode;
      imageNames := [];
      inputCache := map[];
      truthCache := map[];
      prepared := false;
      decodes := 0;
    }

    /** `prepare`: index the ".png" names listed under the first scale's directory and
        start with one empty input cache per configured scale and an empty truth cache.
        An empty scale list or an unreadable directory fails and changes nothing. */
    method Prepare(listDir: Lister) returns (err: Option<Error>)
      requires Valid()
      modifies this
      ensures Valid() && decodes == old(decodes)
      ensures |config.scales| == 0 ==> err == Some(EmptyScaleList)
      ensures |config.scales| > 0 && listDir(InputDir(config.inputBase, config.scales[0])).None? ==>
        err == Some(ListingFailed(InputDir(config.inputBase, config.scales[0])))
      ensures err.None? <==> |config.scales| > 0 && listDir(InputDir(config.inputBase, config.scales[0])).Some?
      ensures err.Some? ==>
        imageNames == old(imageNames) && inputCache == old(inputCache) &&
        truthCache == old(truthCache) && prepared == old(prepared)
      ensures err.None? ==>
        |config.scales| > 0 &&
        listDir(InputDir(config.inputBase, config.scales[0])).Some? &&
        imageNames == PngNames(listDir(InputDir(config.inputBase, config.scales[0])).value) &&
        inputCache == EmptyInputCaches(config.scales) && truthCache == map[] && prepared
    {
      if |config.scales| == 0 {
        return Some(EmptyScaleList);
      }
      var dir := InputDir(config.inputBase, config.scales[0]);
      var listing := listDir(dir);
      if listing.None? {
        return Some(ListingFailed(dir));
      }
      imageNames := PngNames(listing.value);

      var caches: map<nat, map<string, Image>> := map[];
      for i := 0 to |config.scales|
        invariant forall s :: s in caches <==> s in config.scales[..i]
        invariant forall s :: s in caches ==> caches[s] == map[]
      {
        caches := caches[config.scales[i] := map[]];
      }
      assert config.scales[..|config.scales|] == config.scales;
      inputCache := caches;
      truthCache := map[];
      prepared := true;
      assert inputCache == EmptyInputCaches(config.scales);
      err := None;
    }

    /** `_get_input_image`: with caching on, a cached image is returned without decoding
        and a decoded one is stored under (scale, name); a scale without a cache map is a
        KeyError. With caching off every call decodes and nothing is stored. Either way
        the image is the one decoding the file gives. */
    method LoadInput(scale: nat, name: string) returns (r: Result<Image>)
      requires Valid() && prepared
      modifies this`inputCache, this`decodes
      ensures Valid()
      ensures r == if config.cached && scale !in config.scales then Err(MissingScale(scale))
                   else Decoded(decode, InputPathOf(config, scale, name))
      ensures inputCache == InputCacheAfter(config, decode, old(inputCache), scale, name)
      ensures decodes == old(decodes) + InputDecodes(config, old(inputCache), scale, name)
      ensures if config.cached && scale !in old(inputCache) then
                inputCache == old(inputCache) && decodes == old(decodes)
              else if config.cached && name in old(inputCache)[scale] then
                r == Ok(old(inputCache)[scale][name]) &&
                inputCache == old(inputCache) && decodes == old(decodes)
              else
                decodes == old(decodes) + 1 &&
                inputCache == if config.cached && r.Ok?
                              then StoreInput(old(inputCache), scale, name, r.value)
                              else old(inputCache)
    {
      var image: Option<Image> := None;
      var hasCached := false;
      if config.cached {
        if scale !in inputCache {
          return Err(MissingScale(scale));
        }
        if name in inputCache[scale] {
          image := Some(inputCache[scale][name]);
          hasCached := true;
        }
      }
      if image.None? {
        var path := InputPathOf(config, scale, name);
        image := decode(path);
        decodes := decodes + 1;
        if image.None? {
          return Err(DecodeFailed(path));
        }
      }
      if config.cached && !hasCached {
        inputCache := StoreInput(inputCache, scale, name, image.value);
      }
      r := Ok(image.value);
    }

    /** `_get_truth_image`: the same get-or-insert under the key `name` alone. */
    method LoadTruth(name: string) returns (r: Result<Image>)
      requires Valid() && prepared
      modifies this`truthCache, this`decodes
      ensures Valid()
      ensures r == Decoded(decode, TruthPathOf(config, name))
      ensures truthCache == TruthCacheAfter(config, decode, old(truthCache), name)
      ensures decodes == old(decodes) + TruthDecodes(config, old(truthCache), name)
      ensures if config.cached && name in old(truthCache) then
                r == Ok(old(truthCache)[name]) && truthCache == old(truthCache) && decodes == old(decodes)
              else
                decodes == old(decodes) + 1 &&
                truthCache == if config.cached && r.Ok? then old(truthCache)[name := r.value] else old(truthCache)
    {
      var image: Option<Image> := None;
      var hasCached := false;
      if config.cached {
        if name in truthCache {
          image := Some(truthCache[name]);
          hasCached := true;
        }
      }
      if image.None? {
        var path := TruthPathOf(config, name);
        image := decode(path);
        decodes := decodes + 1;
        if image.None? {
          return Err(DecodeFailed(path));
        }
      }
      if config.cached && !hasCached {
        truthCache := truthCache[name := image.value];
      }
      r := Ok(image.value);
    }

    /** `get_image_pair`: the result is `PairOutcome` whatever the caches hold, and the
        new caches and decode count are `PairEffect` of the old ones; so at most two
        files are decoded and cached images are never evicted or replaced. */
    method GetImagePair(scale: nat, p: nat, d: Draws) returns (r: Result<PatchPair>)
      requires Valid() && prepared
      requires CoRegistered(config, decode, imageNames, scale)
      modifies this`inputCache, this`truthCache, this`decodes
      ensures Valid()
      ensures r == PairOutcome(config, decode, imageNames, scale, p, d)
      ensures Caches(inputCache, truthCache, decodes)
           == PairEffect(config, decode, imageNames, scale, d, Caches(old(inputCache), old(truthCache), old(decodes)))
      ensures old(decodes) <= decodes <= old(decodes) + 2
      ensures InputCacheGrows(old(inputCache), inputCache) && TruthCacheGrows(old(truthCache), truthCache)
    {
      PairEffectGrows(config, decode, imageNames, scale, d, Caches(inputCache, truthCache, decodes));
      var index :- RandInt(|imageNames|, d.index);
      var name := imageNames[index];
      var input :- LoadInput(scale, name);
      var truth :- LoadTruth(name);
      assert PairFits(decode(InputPathOf(config, scale, imageNames[index])),
                      decode(TruthPathOf(config, imageNames[index])), scale);
      r := SamplePatches(input, truth, scale, p, d);
    }

    /** `get_batch`: `batch_size` independent pairs, element i of both lists from the
        i-th pair; the first failing pair aborts the whole batch with its error. No
        cached image is evicted or replaced, and at most two files are decoded per
        pair. */
    method GetBatch(batchSize: int, scale: nat, p: nat, draws: seq<Draws>) returns (r: Result<Batch>)
      requires Valid() && prepared
      requires CoRegistered(config, decode, imageNames, scale)
      requires |draws| == if batchSize < 0 then 0 else batchSize
      modifies this`inputCache, this`truthCache, this`decodes
      ensures Valid()
      ensures r.Ok? <==> forall i :: 0 <= i < |draws| ==> PairOutcome(config, decode, imageNames, scale, p, draws[i]).Ok?
      ensures r.Ok? ==>
        |r.value.inputs| == |draws| && |r.value.truths| == |draws| &&
        forall i :: 0 <= i < |draws| ==>
          PatchPair(r.value.inputs[i], r.value.truths[i]) == PairOutcome(config, decode, imageNames, scale, p, draws[i]).value
      ensures r.Err? ==>
        exists i ::
          0 <= i < |draws| &&
          (forall j :: 0 <= j < i ==> PairOutcome(config, decode, imageNames, scale, p, draws[j]).Ok?) &&
          PairOutcome(config, decode, imageNames, scale, p, draws[i]) == Err(r.error)
      ensures InputCacheGrows(old(inputCache), inputCache) && TruthCacheGrows(old(truthCache), truthCache)
      ensures old(decodes) <= decodes <= old(decodes) + 2 * |draws|
    {
      ghost var outs := PairOutcomes(config, decode, imageNames, scale, p, draws);
      var inputs: seq<Image> := [];
      var truths: seq<Image> := [];
      for i := 0 to |draws|
        invariant Valid()
        invariant |inputs| == i && |truths| == i
        invariant forall j :: 0 <= j < i ==> outs[j] == Ok(PatchPair(inputs[j], truths[j]))
        invariant InputCacheGrows(old(inputCache), inputCache) && TruthCacheGrows(old(truthCache), truthCache)
        invariant old(decodes) <= decodes <= old(decodes) + 2 * i
      {
        ghost var inputs0, truths0 := inputCache, truthCache;
        var pair := GetImagePair(scale, p, draws[i]);
        CacheGrowsTrans(old(inputCache), inputs0, inputCache, old(truthCache), truths0, truthCache);
        if pair.Err? {
          return Err(pair.error);
        }
        ExtendPrefix(outs, inputs, truths, i, pair.value.input, pair.value.truth);
        inputs := inputs + [pair.value.input];
        truths := truths + [pair.value.truth];
      }
      r := Ok(Batch(inputs, truths));
    }
  }

  /** With caching on, looking the same input image up twice gives the same image and
      decodes the file at most once. */
  method LookupTwice(loader: DataLoader, scale: nat, name: string) returns (first: Result<Image>, second: Result<Image>)
    requires loader.Valid() && loader.prepared && loader.config.cached
    modifies loader
    ensures first == second
    ensures first.Ok? ==> loader.decodes <= old(loader.decodes) + 1
  {
    first := loader.LoadInput(scale, name);
    second := loader.LoadInput(scale, name);
  }
}
