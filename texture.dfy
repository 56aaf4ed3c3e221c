/**
 * Texture descriptors: what `Texture2d`'s constructors ask the device to
 * create, the copy layout of an upload, and how image-loading failures turn
 * into `TextureCreateError` messages. The device, the queue and the image
 * decoder are foreign; their results are parameters.
 */
module Texture {
  import opened Wrappers
  import opened Gpu

  datatype TextureCreateError = TextureCreateError(message: string)

  /** `Display for TextureCreateError`: the message, verbatim. */
  function Display(e: TextureCreateError): (s: string)
    ensures s == e.message
  {
    e.message
  }

  /** What `TextureCreateError::new` is given is what `Display` writes. */
  lemma DisplayRoundTrip(message: string)
    ensures Display(TextureCreateError(message)) == message
  {
  }

  const OPEN_PREFIX: string := "Failed to open file: "
  const DECODE_PREFIX: string := "Failed to decode image: "
  const MEMORY_PREFIX: string := "Failed to load image from memory: "

  datatype Extent3d = Extent3d(width: u32, height: u32, depthOrArrayLayers: u32)

  datatype TextureDimension = D1 | D2 | D3

  /** `wgpu::TextureDescriptor` (the label is kept, the view formats are always empty). */
  datatype TextureDescriptor = TextureDescriptor(
    debugLabel: Option<string>,
    size: Extent3d,
    mipLevelCount: u32,
    sampleCount: u32,
    dimension: TextureDimension,
    format: TextureFormat,
    usage: set<TextureUsage>)

  datatype AddressMode = ClampToEdge | Repeat | MirrorRepeat

  datatype FilterMode = Nearest | Linear

  datatype CompareFunction = Never | Less | Equal | LessEqual | Greater | NotEqual | GreaterEqual | Always

  /** `wgpu::SamplerDescriptor`; the address mode is the same on all three axes here. */
  datatype SamplerDescriptor = SamplerDescriptor(
    addressMode: AddressMode,
    magFilter: FilterMode,
    minFilter: FilterMode,
    mipmapFilter: FilterMode,
    compare: Option<CompareFunction>,
    lodMinClamp: real,
    lodMaxClamp: real)

  /** The sampler `from_bytes` uses. */
  const NEAREST_SAMPLER: SamplerDescriptor :=
    SamplerDescriptor(ClampToEdge, Nearest, Nearest, Nearest, None, 0.0, 100.0)

  /** The comparison sampler of render and depth textures. */
  const COMPARE_SAMPLER: SamplerDescriptor :=
    SamplerDescriptor(ClampToEdge, Linear, Linear, Nearest, Some(LessEqual), 0.0, 100.0)

  /** A `Texture2d`: the texture it describes (its view is the default view of it), its sampler and size. */
  datatype Texture2d = Texture2d(descriptor: TextureDescriptor, sampler: SamplerDescriptor, size: Extent3d)

  const DEPTH_FORMAT: TextureFormat := Depth32Float

  /**
   * `create_depth_texture`: the surface size with each side raised to at
   * least 1, so never empty, in the depth format and at the caller's sample
   * count.
   */
  function CreateDepthTexture(config: SurfaceConfiguration, sampleCount: u32, debugLabel: Option<string>): (t: Texture2d)
    ensures t.size.width >= 1 && t.size.height >= 1 && t.size.depthOrArrayLayers == 1
    ensures config.width >= 1 ==> t.size.width == config.width
    ensures config.height >= 1 ==> t.size.height == config.height
    ensures config.width == 0 ==> t.size.width == 1
    ensures config.height == 0 ==> t.size.height == 1
    ensures t.descriptor.size == t.size
    ensures t.descriptor.format == Depth32Float && t.descriptor.sampleCount == sampleCount
    ensures t.descriptor.mipLevelCount == 1 && t.descriptor.dimension == D2
    ensures t.descriptor.usage == {RenderAttachment, TextureBinding}
    ensures t.sampler == COMPARE_SAMPLER
  {
    var size := Extent3d(Max(config.width, 1), Max(config.height, 1), 1);
    Texture2d(TextureDescriptor(debugLabel, size, 1, sampleCount, D2, DEPTH_FORMAT, {RenderAttachment, TextureBinding}),
              COMPARE_SAMPLER, size)
  }

  /** `create_render_texture`: exactly the surface's size and format, unclamped, one sample. */
  function CreateRenderTexture(config: SurfaceConfiguration, debugLabel: Option<string>): (t: Texture2d)
    ensures t.size == Extent3d(config.width, config.height, 1) && t.descriptor.size == t.size
    ensures t.descriptor.format == config.format && t.descriptor.sampleCount == 1
    ensures t.descriptor.mipLevelCount == 1 && t.descriptor.dimension == D2
    ensures t.descriptor.usage == {RenderAttachment, TextureBinding}
    ensures t.sampler == COMPARE_SAMPLER
  {
    var size := Extent3d(config.width, config.height, 1);
    Texture2d(TextureDescriptor(debugLabel, size, 1, 1, D2, config.format, {RenderAttachment, TextureBinding}),
              COMPARE_SAMPLER, size)
  }

  /**
   * The depth and render textures built from one configuration have the same
   * size unless a side of the surface is 0, where only the depth texture is
   * raised to 1.
   */
  lemma DepthMatchesRenderUnlessEmpty(config: SurfaceConfiguration, sampleCount: u32, debugLabel: Option<string>)
    ensures CreateDepthTexture(config, sampleCount, debugLabel).size == CreateRenderTexture(config, debugLabel).size
            <==> config.width >= 1 && config.height >= 1
  {
  }

  /**
   * `create_texture`: a sampled, copy-destination 2D texture of `size`
   * (two `usize`, cast to u32), one mip level and one sample.
   */
  function CreateTexture(size: (nat, nat), format: TextureFormat, sampler: SamplerDescriptor, debugLabel: Option<string>): (t: Texture2d)
    ensures size.0 < U32_LIMIT && size.1 < U32_LIMIT ==> t.size == Extent3d(size.0, size.1, 1)
    ensures t.descriptor.size == t.size && t.size.depthOrArrayLayers == 1
    ensures t.descriptor.format == format && t.descriptor.sampleCount == 1 && t.descriptor.mipLevelCount == 1
    ensures t.descriptor.dimension == D2 && t.descriptor.usage == {TextureBinding, CopyDst}
    ensures t.sampler == sampler
  {
    var extent := Extent3d(AsU32(size.0), AsU32(size.1), 1);
    Texture2d(TextureDescriptor(debugLabel, extent, 1, 1, D2, format, {TextureBinding, CopyDst}), sampler, extent)
  }

  /** `wgpu::TexelCopyBufferLayout`. */
  datatype TexelCopyBufferLayout = TexelCopyBufferLayout(offset: nat, bytesPerRow: Option<u32>, rowsPerImage: Option<u32>)

  /** The `queue.write_texture` call: mip level 0 at the origin, all aspects. */
  datatype TextureUpload = TextureUpload(mipLevel: nat, data: seq<bv8>, layout: TexelCopyBufferLayout, extent: Extent3d)

  /** A texture together with the upload that fills it. */
  datatype LoadedTexture = LoadedTexture(texture: Texture2d, upload: TextureUpload)

  /**
   * `from_bytes`: a texture of the image's size in `format`, sampled with
   * the nearest-filter sampler, and one upload of the bytes with rows of
   * 4 * width bytes, `height` rows, covering the whole texture. `4 * width`
   * is a u32 product, so it must not overflow.
   */
  function FromBytes(bytes: seq<bv8>, size: (u32, u32), format: TextureFormat, debugLabel: Option<string>): (r: LoadedTexture)
    requires 4 * size.0 < U32_LIMIT
    ensures r.texture.size == Extent3d(size.0, size.1, 1)
    ensures r.texture.descriptor.format == format && r.texture.sampler == NEAREST_SAMPLER
    ensures r.upload.mipLevel == 0 && r.upload.data == bytes
    ensures r.upload.layout == TexelCopyBufferLayout(0, Some(4 * size.0), Some(size.1))
    ensures r.upload.extent == r.texture.size
  {
    var texture := CreateTexture((size.0, size.1), format, NEAREST_SAMPLER, debugLabel);
    LoadedTexture(texture, TextureUpload(0, bytes, TexelCopyBufferLayout(0, Some(4 * size.0), Some(size.1)), texture.size))
  }

  /** A decoded image converted to RGBA8: four bytes per pixel, row after row. */
  datatype RgbaImage = RgbaImage(width: u32, height: u32, pixels: seq<bv8>)

  predicate WellFormed(img: RgbaImage) {
    |img.pixels| == 4 * img.width * img.height
  }

  /** The texture an image becomes: always `Rgba8UnormSrgb`. */
  function FromImage(img: RgbaImage, debugLabel: Option<string>): LoadedTexture
    requires 4 * img.width < U32_LIMIT
  {
    FromBytes(img.pixels, (img.width, img.height), Rgba8UnormSrgb, debugLabel)
  }

  /**
   * `from_file`. `openResult` is the outcome of opening the file (the I/O
   * error's text on failure) and `decoded` that of decoding it; decoding is
   * only reached when opening succeeded.
   */
  function FromFile(openResult: Outcome<string>, decoded: Result<RgbaImage, string>, debugLabel: Option<string>)
    : (r: Result<LoadedTexture, TextureCreateError>)
    requires decoded.Success? ==> 4 * decoded.value.width < U32_LIMIT
    ensures r.Failure? <==> openResult.Fail? || decoded.Failure?
    ensures openResult.Fail? ==> r.error.message == OPEN_PREFIX + openResult.error
    ensures openResult.Pass? && decoded.Failure? ==> r.error.message == DECODE_PREFIX + decoded.error
    ensures r.Success? ==> r.value.texture.descriptor.format == Rgba8UnormSrgb
  {
    match openResult
    case Fail(e) => Failure(TextureCreateError(OPEN_PREFIX + e))
    case Pass =>
      match decoded
      case Failure(e) => Failure(TextureCreateError(DECODE_PREFIX + e))
      case Success(img) => Success(FromImage(img, debugLabel))
  }

  /** `from_image_bytes`; `loaded` is the outcome of `image::load_from_memory`. */
  function FromImageBytes(loaded: Result<RgbaImage, string>, debugLabel: Option<string>)
    : (r: Result<LoadedTexture, TextureCreateError>)
    requires loaded.Success? ==> 4 * loaded.value.width < U32_LIMIT
    ensures r.Failure? <==> loaded.Failure?
    ensures loaded.Failure? ==> r.error.message == MEMORY_PREFIX + loaded.error
    ensures r.Success? ==> r.value.texture.descriptor.format == Rgba8UnormSrgb
  {
    match loaded
    case Failure(e) => Failure(TextureCreateError(MEMORY_PREFIX + e))
    case Success(img) => Success(FromImage(img, debugLabel))
  }

  /**
   * For a well-formed RGBA image the upload's layout spans exactly the pixel
   * bytes (rows of 4 * width bytes, `height` of them) and its extent is the
   * texture's, so the copy neither reads past the data nor leaves any of it out.
   */
  lemma UploadCoversImage(img: RgbaImage, debugLabel: Option<string>)
    requires WellFormed(img) && 4 * img.width < U32_LIMIT
    ensures var u := FromImage(img, debugLabel).upload;
      && u.layout.bytesPerRow.Some? && u.layout.rowsPerImage.Some?
      && u.layout.offset + u.layout.bytesPerRow.value * u.layout.rowsPerImage.value == |u.data|
      && u.extent == FromImage(img, debugLabel).texture.size
  {
  }

  /** The loading step that failed, read back from an error message. */
  datatype LoadStage = OpenStage | DecodeStage | MemoryStage

  function StageOf(e: TextureCreateError): Option<LoadStage> {
    if OPEN_PREFIX <= e.message then Some(OpenStage)
    else if DECODE_PREFIX <= e.message then Some(DecodeStage)
    else if MEMORY_PREFIX <= e.message then Some(MemoryStage)
    else None
  }

  /** The three prefixes tell the failing step apart, whatever the underlying error text. */
  lemma {:induction false} StageRecoverable(cause: string)
    ensures StageOf(TextureCreateError(OPEN_PREFIX + cause)) == Some(OpenStage)
    ensures StageOf(TextureCreateError(DECODE_PREFIX + cause)) == Some(DecodeStage)
    ensures StageOf(TextureCreateError(MEMORY_PREFIX + cause)) == Some(MemoryStage)
  {
    assert (DECODE_PREFIX + cause)[10] == 'd' != OPEN_PREFIX[10];
    assert (MEMORY_PREFIX + cause)[10] == 'l' != OPEN_PREFIX[10];
    assert (MEMORY_PREFIX + cause)[10] != DECODE_PREFIX[10];
  }

  /** Every failure of `from_file` or `from_image_bytes` names the step that failed. */
  lemma ErrorsNameTheirStage(openResult: Outcome<string>, decoded: Result<RgbaImage, string>,
                             loaded: Result<RgbaImage, string>, debugLabel: Option<string>)
    requires decoded.Success? ==> 4 * decoded.value.width < U32_LIMIT
    requires loaded.Success? ==> 4 * loaded.value.width < U32_LIMIT
    ensures var r := FromFile(openResult, decoded, debugLabel);
      r.Failure? ==> StageOf(r.error) == if openResult.Fail? then Some(OpenStage) else Some(DecodeStage)
    ensures var r := FromImageBytes(loaded, debugLabel);
      r.Failure? ==> StageOf(r.error) == Some(MemoryStage)
  {
    if openResult.Fail? {
      StageRecoverable(openResult.error);
    } else if decoded.Failure? {
      StageRecoverable(decoded.error);
    }
    if loaded.Failure? {
      StageRecoverable(loaded.error);
    }
  }
}
