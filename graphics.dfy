/**
 * Platform graphics types, reduced to what the cache and the request service inspect.
 * Everything else about Android's `Bitmap` and `Drawable` is opaque here.
 */
module Graphics {
  /** `Bitmap.Config`. */
  datatype BitmapConfig = Alpha8 | Rgb565 | Argb4444 | Argb8888 | RgbaF16 | Hardware | Rgba1010102

  /**
   * The drawable behind an image: a `BitmapDrawable` exposes its bitmap's (safe) config,
   * any other drawable exposes nothing.
   */
  datatype Drawable = BitmapDrawable(config: BitmapConfig) | OtherDrawable

  /**
   * A decoded image. `id` stands for the identity of the image object and `size` for
   * `image.size`, its byte footprint, which is computed by the platform.
   */
  datatype Image = Image(id: nat, size: nat, drawable: Drawable)
}
