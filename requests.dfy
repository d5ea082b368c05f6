/** Image requests, sizes and the options handed to the fetch/decode stage. */
module Requests {
  import opened Wrappers
  import opened Graphics

  /** One dimension of a target size: a pixel count or `Dimension.Undefined`. */
  datatype Dimension = Pixels(px: int) | Undefined

  datatype Size = Size(width: Dimension, height: Dimension)

  datatype Scale = Fill | Fit

  datatype CachePolicy = Enabled | ReadOnly | WriteOnly | Disabled

  /** The two facts about an Android `View` that the hardware check reads. */
  datatype View = View(isAttachedToWindow: bool, isHardwareAccelerated: bool)

  /** A request's target: a `ViewTarget` wraps a view; other targets do not. */
  datatype Target = ViewTarget(view: View) | OtherTarget | NoTarget

  datatype Transformation = Transformation(cacheKey: string)

  /** The keys of `Extras`: the two the request service resolves, and any other. */
  datatype ExtraKey = BitmapConfigKey | AllowRgb565Key | CustomKey(name: string)

  datatype ExtraValue = ConfigValue(config: BitmapConfig) | FlagValue(flag: bool) | CustomValue(data: string)

  /** `Extras`: typed key-value metadata. */
  type Extras = map<ExtraKey, ExtraValue>

  /**
   * Each of the two resolved keys holds a value of its own type, as `Extras.Key<T>`
   * guarantees: a config under `BitmapConfigKey`, a flag under `AllowRgb565Key`.
   */
  predicate WellTyped(extras: Extras) {
    && (BitmapConfigKey in extras ==> extras[BitmapConfigKey].ConfigValue?)
    && (AllowRgb565Key in extras ==> extras[AllowRgb565Key].FlagValue?)
  }

  /**
   * `bitmapConfig` as read from extras: the stored value, else `fallback`, the config that
   * applies when the extras do not set one (the loader's default or the key's own default).
   */
  function ConfigOf(extras: Extras, fallback: BitmapConfig): BitmapConfig {
    if BitmapConfigKey in extras && extras[BitmapConfigKey].ConfigValue?
    then extras[BitmapConfigKey].config
    else fallback
  }

  /** `allowRgb565` as read from extras: the stored value, else the key's default false. */
  function AllowRgb565Of(extras: Extras): bool {
    if AllowRgb565Key in extras && extras[AllowRgb565Key].FlagValue?
    then extras[AllowRgb565Key].flag
    else false
  }

  /** The fields of `ImageRequest` that the request service reads. */
  datatype Request = Request(
    extras: Extras,
    transformations: seq<Transformation>,
    allowHardware: bool,
    target: Target,
    scale: Scale,
    allowInexactSize: bool,
    diskCacheKey: Option<string>,
    memoryCachePolicy: CachePolicy,
    diskCachePolicy: CachePolicy,
    networkCachePolicy: CachePolicy)
  {
    function AllowRgb565(): bool {
      AllowRgb565Of(extras)
    }
  }

  /** `Options`: what the fetch/decode stage is asked to honour. */
  datatype Options = Options(
    size: Size,
    scale: Scale,
    allowInexactSize: bool,
    diskCacheKey: Option<string>,
    memoryCachePolicy: CachePolicy,
    diskCachePolicy: CachePolicy,
    networkCachePolicy: CachePolicy,
    extras: Extras)

  /** Two extras agree at `k`: both lack it or both map it to the same value. */
  predicate SameAt(a: Extras, b: Extras, k: ExtraKey) {
    (k in a <==> k in b) && (k in a ==> a[k] == b[k])
  }
}
