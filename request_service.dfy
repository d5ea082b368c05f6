/**
 * The request service's decisions (`AndroidRequestService`): which bitmap config a request
 * may use, how its extras, scale and network policy are resolved into options, and whether
 * a cached value may be handed back for it. Platform queries are explicit inputs.
 */
module RequestService {
  import opened Wrappers
  import opened Graphics
  import opened MemoryTypes
  import opened Requests

  /**
   * Platform facts: the configs that `isHardware` answers true for,
   * `VALID_TRANSFORMATION_CONFIGS`, and the bitmap config a request or options have when
   * their extras do not set one (HARDWARE or ARGB_8888, depending on the platform).
   */
  datatype Platform = Platform(
    hardwareConfigs: set<BitmapConfig>,
    validTransformationConfigs: set<BitmapConfig>,
    defaultBitmapConfig: BitmapConfig)

  /**
   * The answers of `HardwareBitmapService`: whether hardware bitmaps may be used for a size,
   * asked on the main thread, and whether they may be allocated now, asked on the worker.
   */
  datatype HardwareBitmapService = HardwareBitmapService(
    allowHardwareMainThread: Size -> bool,
    allowHardwareWorkerThread: bool)

  /** The service's inputs: platform facts, the hardware service and `systemCallbacks.isOnline`. */
  datatype AndroidRequestService = AndroidRequestService(
    platform: Platform,
    hardwareBitmapService: HardwareBitmapService,
    isOnline: bool)

  /** `bitmapConfig` of a request or of options: set in their extras, else the platform default. */
  function ConfigIn(svc: AndroidRequestService, extras: Extras): BitmapConfig {
    ConfigOf(extras, svc.platform.defaultBitmapConfig)
  }

  /** `Bitmap.Config.isHardware`. */
  predicate IsHardware(svc: AndroidRequestService, config: BitmapConfig) {
    config in svc.platform.hardwareConfigs
  }

  /** A view target that is attached to a window which is not hardware accelerated. */
  predicate RejectsHardware(target: Target) {
    target.ViewTarget? && target.view.isAttachedToWindow && !target.view.isHardwareAccelerated
  }

  /**
   * The fallback the service downgrades to, ARGB_8888, is a software config that every
   * transformation accepts (as on Android).
   */
  predicate FallbackIsSafe(svc: AndroidRequestService) {
    !IsHardware(svc, Argb8888) && Argb8888 in svc.platform.validTransformationConfigs
  }

  /**
   * `isConfigValidForHardware`: a software config is always valid; a hardware config is
   * valid iff the request allows hardware and its target can show hardware bitmaps.
   */
  function IsConfigValidForHardware(svc: AndroidRequestService, request: Request, requestedConfig: BitmapConfig): (r: bool)
    ensures !IsHardware(svc, requestedConfig) ==> r
    ensures IsHardware(svc, requestedConfig) ==> (r <==> request.allowHardware && !RejectsHardware(request.target))
  {
    if !IsHardware(svc, requestedConfig) then true
    else if !request.allowHardware then false
    else if request.target.ViewTarget? && request.target.view.isAttachedToWindow && !request.target.view.isHardwareAccelerated then false
    else true
  }

  /**
   * `isCacheValueValidForHardware`: a cached value is rejected exactly when it is a bitmap
   * drawable with a hardware config and the request forbids hardware or its target
   * cannot show it.
   */
  function IsCacheValueValidForHardware(svc: AndroidRequestService, request: Request, cacheValue: Value): (r: bool)
    ensures !cacheValue.image.drawable.BitmapDrawable? ==> r
    ensures cacheValue.image.drawable.BitmapDrawable? ==>
      r == IsConfigValidForHardware(svc, request, cacheValue.image.drawable.config)
    ensures !r <==>
      && cacheValue.image.drawable.BitmapDrawable?
      && IsHardware(svc, cacheValue.image.drawable.config)
      && (!request.allowHardware || RejectsHardware(request.target))
  {
    match cacheValue.image.drawable
    case BitmapDrawable(config) => IsConfigValidForHardware(svc, request, config)
    case OtherDrawable => true
  }

  /**
   * `isBitmapConfigValidMainThread`: the requested config suits the transformations (there
   * are none, or it is a valid transformation config) and, if it is a hardware config, the
   * hardware check passes and the hardware service allows it for `size`.
   */
  function IsBitmapConfigValidMainThread(svc: AndroidRequestService, request: Request, size: Size): (r: bool)
    ensures r <==>
      && (|request.transformations| == 0 || ConfigIn(svc, request.extras) in svc.platform.validTransformationConfigs)
      && (IsHardware(svc, ConfigIn(svc, request.extras)) ==>
            request.allowHardware && !RejectsHardware(request.target) && svc.hardwareBitmapService.allowHardwareMainThread(size))
    ensures r ==> IsConfigValidForHardware(svc, request, ConfigIn(svc, request.extras))
  {
    var validForTransformations :=
      |request.transformations| == 0 || ConfigIn(svc, request.extras) in svc.platform.validTransformationConfigs;
    var validForHardware :=
      !IsHardware(svc, ConfigIn(svc, request.extras)) ||
      (IsConfigValidForHardware(svc, request, ConfigIn(svc, request.extras)) && svc.hardwareBitmapService.allowHardwareMainThread(size));
    validForTransformations && validForHardware
  }

  /**
   * `isBitmapConfigValidWorkerThread`: a software config always passes; a hardware config
   * passes iff the hardware service allows allocating it now.
   */
  function IsBitmapConfigValidWorkerThread(svc: AndroidRequestService, options: Options): (r: bool)
    ensures !IsHardware(svc, ConfigIn(svc, options.extras)) ==> r
    ensures IsHardware(svc, ConfigIn(svc, options.extras)) ==> r == svc.hardwareBitmapService.allowHardwareWorkerThread
  {
    !IsHardware(svc, ConfigIn(svc, options.extras)) || svc.hardwareBitmapService.allowHardwareWorkerThread
  }

  /** `resolveScale`: FIT when either dimension is undefined, else the request's scale. */
  function ResolveScale(request: Request, size: Size): (r: Scale)
    ensures size.width.Undefined? || size.height.Undefined? ==> r == Fit
    ensures !size.width.Undefined? && !size.height.Undefined? ==> r == request.scale
  {
    if size.width == Undefined || size.height == Undefined then Fit else request.scale
  }

  /** `resolveNetworkCachePolicy`: DISABLED while offline, else the request's policy. */
  function ResolveNetworkCachePolicy(svc: AndroidRequestService, request: Request): (r: CachePolicy)
    ensures !svc.isOnline ==> r == Disabled
    ensures svc.isOnline ==> r == request.networkCachePolicy
  {
    if svc.isOnline then request.networkCachePolicy else Disabled
  }

  /**
   * `resolveExtras`: the config falls back to ARGB_8888 when the main-thread check fails;
   * RGB_565 stays allowed only if requested, without transformations, and not for ALPHA_8.
   * Only the keys whose value changed are overridden; with no change the extras are
   * returned as they were.
   */
  function ResolveExtras(svc: AndroidRequestService, request: Request, size: Size): (r: Extras)
    ensures ConfigIn(svc, r) == if IsBitmapConfigValidMainThread(svc, request, size) then ConfigIn(svc, request.extras) else Argb8888
    ensures AllowRgb565Of(r) <==> request.AllowRgb565() && |request.transformations| == 0 && ConfigIn(svc, r) != Alpha8
    ensures forall k :: k != BitmapConfigKey && k != AllowRgb565Key ==> SameAt(r, request.extras, k)
    ensures ConfigIn(svc, r) == ConfigIn(svc, request.extras) ==> SameAt(r, request.extras, BitmapConfigKey)
    ensures ConfigIn(svc, r) != ConfigIn(svc, request.extras) ==> BitmapConfigKey in r && r[BitmapConfigKey] == ConfigValue(ConfigIn(svc, r))
    ensures AllowRgb565Of(r) == request.AllowRgb565() ==> SameAt(r, request.extras, AllowRgb565Key)
    ensures AllowRgb565Of(r) != request.AllowRgb565() ==> AllowRgb565Key in r && r[AllowRgb565Key] == FlagValue(false)
    ensures ConfigIn(svc, r) == ConfigIn(svc, request.extras) && AllowRgb565Of(r) == request.AllowRgb565() ==> r == request.extras
  {
    var bitmapConfig := if !IsBitmapConfigValidMainThread(svc, request, size) then Argb8888 else ConfigIn(svc, request.extras);
    var allowRgb565 := request.AllowRgb565() && |request.transformations| == 0 && bitmapConfig != Alpha8;
    var builder: Option<Extras> :=
      if bitmapConfig != ConfigIn(svc, request.extras)
      then Some(request.extras[BitmapConfigKey := ConfigValue(bitmapConfig)])
      else None;
    var builder: Option<Extras> :=
      if allowRgb565 != request.AllowRgb565()
      then Some((if builder.Some? then builder.value else request.extras)[AllowRgb565Key := FlagValue(allowRgb565)])
      else builder;
    if builder.Some? then builder.value else request.extras
  }

  /**
   * `options`: the request's own fields, with the scale, the network policy and the extras
   * resolved for `size`.
   */
  function MakeOptions(svc: AndroidRequestService, request: Request, size: Size): (r: Options)
    ensures r.size == size && r.scale == ResolveScale(request, size)
    ensures r.networkCachePolicy == ResolveNetworkCachePolicy(svc, request)
    ensures r.extras == ResolveExtras(svc, request, size)
    ensures r.allowInexactSize == request.allowInexactSize && r.diskCacheKey == request.diskCacheKey
    ensures r.memoryCachePolicy == request.memoryCachePolicy && r.diskCachePolicy == request.diskCachePolicy
  {
    Options(
      size := size,
      scale := ResolveScale(request, size),
      allowInexactSize := request.allowInexactSize,
      diskCacheKey := request.diskCacheKey,
      memoryCachePolicy := request.memoryCachePolicy,
      diskCachePolicy := request.diskCachePolicy,
      networkCachePolicy := ResolveNetworkCachePolicy(svc, request),
      extras := ResolveExtras(svc, request, size))
  }

  /**
   * `updateOptionsOnWorkerThread`: unchanged when the worker-thread check passes; otherwise
   * a copy whose only difference is that its bitmap config is ARGB_8888.
   */
  function UpdateOptionsOnWorkerThread(svc: AndroidRequestService, options: Options): (r: Options)
    ensures IsBitmapConfigValidWorkerThread(svc, options) ==> r == options
    ensures !IsBitmapConfigValidWorkerThread(svc, options) ==>
      && r == options.(extras := r.extras)
      && BitmapConfigKey in r.extras && r.extras[BitmapConfigKey] == ConfigValue(Argb8888)
      && forall k :: k != BitmapConfigKey ==> SameAt(r.extras, options.extras, k)
  {
    if !IsBitmapConfigValidWorkerThread(svc, options) then
      options.(extras := options.extras[BitmapConfigKey := ConfigValue(Argb8888)])
    else
      options
  }

  /** Whether a cached value is reusable does not depend on the size recorded for its image. */
  lemma CacheValidityIgnoresSize(svc: AndroidRequestService, request: Request, cacheValue: Value, size: nat)
    ensures IsCacheValueValidForHardware(svc, request, cacheValue.(image := cacheValue.image.(size := size)))
         == IsCacheValueValidForHardware(svc, request, cacheValue)
  {
  }

  /** Resolving the extras a second time changes nothing. */
  lemma ResolveExtrasIdempotent(svc: AndroidRequestService, request: Request, size: Size)
    requires FallbackIsSafe(svc)
    ensures var resolved := request.(extras := ResolveExtras(svc, request, size));
      ResolveExtras(svc, resolved, size) == resolved.extras
  {
    var resolved := request.(extras := ResolveExtras(svc, request, size));
    if !IsBitmapConfigValidMainThread(svc, request, size) {
      assert ConfigIn(svc, resolved.extras) == Argb8888;
      assert IsBitmapConfigValidMainThread(svc, resolved, size);
    }
  }

  /** Updating options on the worker thread a second time changes nothing. */
  lemma UpdateOptionsIdempotent(svc: AndroidRequestService, options: Options)
    requires !IsHardware(svc, Argb8888)
    ensures UpdateOptionsOnWorkerThread(svc, UpdateOptionsOnWorkerThread(svc, options))
         == UpdateOptionsOnWorkerThread(svc, options)
  {
  }

  /**
   * The two-step planning: the config finally asked of the decoder is the requested one or
   * ARGB_8888, and it is a hardware config only when the request allows hardware, its
   * target can show it, and both the main-thread and the worker-thread allowances passed.
   * A value decoded with it is then reusable for the same request.
   */
  lemma HardwareOnlyWhenAllowed(svc: AndroidRequestService, request: Request, size: Size, image: Image, extras: map<string, string>)
    requires !IsHardware(svc, Argb8888)
    ensures var config := ConfigIn(svc, UpdateOptionsOnWorkerThread(svc, MakeOptions(svc, request, size)).extras);
      && (config == ConfigIn(svc, request.extras) || config == Argb8888)
      && (IsHardware(svc, config) ==>
            && config == ConfigIn(svc, request.extras)
            && request.allowHardware && !RejectsHardware(request.target)
            && svc.hardwareBitmapService.allowHardwareMainThread(size)
            && svc.hardwareBitmapService.allowHardwareWorkerThread)
      && (image.drawable == BitmapDrawable(config) ==>
            IsCacheValueValidForHardware(svc, request, Value(image, extras)))
  {
  }

  /**
   * A request that leaves the config to a hardware platform default, but forbids hardware,
   * has ARGB_8888 written explicitly into its resolved extras.
   */
  lemma HardwareDefaultFallsBack(svc: AndroidRequestService, request: Request, size: Size)
    requires IsHardware(svc, svc.platform.defaultBitmapConfig) && !IsHardware(svc, Argb8888)
    requires BitmapConfigKey !in request.extras && !request.allowHardware
    ensures var r := ResolveExtras(svc, request, size);
      BitmapConfigKey in r && r[BitmapConfigKey] == ConfigValue(Argb8888)
  {
  }

  /** Resolving extras writes only values of the keys' own types. */
  lemma ResolveExtrasWellTyped(svc: AndroidRequestService, request: Request, size: Size)
    requires WellTyped(request.extras)
    ensures WellTyped(ResolveExtras(svc, request, size))
  {
  }

  /** The worker-thread update writes only a config under the config key. */
  lemma UpdateOptionsWellTyped(svc: AndroidRequestService, options: Options)
    requires WellTyped(options.extras)
    ensures WellTyped(UpdateOptionsOnWorkerThread(svc, options).extras)
  {
  }
}
