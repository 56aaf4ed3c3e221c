/**
 * The wgpu value types the application passes around. GPU objects (buffers,
 * bind groups, pipelines, swapchain images) are opaque handles: the model only
 * needs to know which object a command refers to, never what the driver does
 * with it.
 */
module Gpu {

  const U32_LIMIT: int := 0x1_0000_0000

  /** Rust's `u32`. */
  type u32 = x: int | 0 <= x < U32_LIMIT

  /** Rust's `n as u32` applied to a `usize`: keeps the low 32 bits. */
  function AsU32(n: nat): (r: u32)
    ensures n < U32_LIMIT ==> r == n
    ensures n >= U32_LIMIT ==> r < n
    ensures (n - r) % U32_LIMIT == 0
  {
    n % U32_LIMIT
  }

  /** `u32::max`. */
  function Max(a: u32, b: u32): (r: u32)
    ensures r >= a && r >= b
    ensures r == a || r == b
  {
    if a >= b then a else b
  }

  /** A `[f32; 3]` or a cgmath vector; f32 rounding is not modelled. */
  datatype Vec3 = Vec3(x: real, y: real, z: real)
  {
    function Add(v: Vec3): Vec3 {
      Vec3(x + v.x, y + v.y, z + v.z)
    }

    function Scale(k: real): Vec3 {
      Vec3(k * x, k * y, k * z)
    }
  }

  type BufferId = nat
  type BindGroupId = nat
  type PipelineId = nat
  /** A swapchain image handed out by `Surface::get_current_texture`. */
  type ImageId = nat

  /** The texture formats this code meets; every other wgpu format is `OtherFormat`. */
  datatype TextureFormat =
    | Bgra8Unorm
    | Bgra8UnormSrgb
    | Rgba8Unorm
    | Rgba8UnormSrgb
    | Rgba16Float
    | Rgb10a2Unorm
    | Depth32Float
    | OtherFormat(code: nat)
  {
    /** `TextureFormat::is_srgb`. */
    predicate IsSrgb() {
      this == Bgra8UnormSrgb || this == Rgba8UnormSrgb
    }
  }

  datatype PresentMode = AutoVsync | AutoNoVsync | Fifo | FifoRelaxed | Immediate | Mailbox

  datatype CompositeAlphaMode = AutoAlpha | Opaque | PreMultiplied | PostMultiplied | Inherit

  datatype TextureUsage = CopySrc | CopyDst | TextureBinding | StorageBinding | RenderAttachment

  datatype BufferUsage = VertexUsage | IndexUsage | UniformUsage | CopyDstUsage

  /** `wgpu::SurfaceConfiguration`. */
  datatype SurfaceConfiguration = SurfaceConfiguration(
    usage: set<TextureUsage>,
    format: TextureFormat,
    width: u32,
    height: u32,
    presentMode: PresentMode,
    desiredMaximumFrameLatency: u32,
    alphaMode: CompositeAlphaMode,
    viewFormats: seq<TextureFormat>)

  /** `wgpu::SurfaceError`, the ways `get_current_texture` can fail. */
  datatype SurfaceError = Timeout | Outdated | Lost | OutOfMemory | Other

  /** A buffer created with `create_buffer_init`: its handle, usage and initial contents. */
  datatype Buffer<T> = Buffer(id: BufferId, usage: set<BufferUsage>, contents: seq<T>)

  /** `std::ops::Range<u32>`. */
  datatype Range = Range(start: u32, end: u32)
  {
    /** Number of values the range yields; a range with `end <= start` is empty. */
    function Len(): (n: nat)
      ensures n == 0 <==> end <= start
      ensures n <= end
    {
      if start <= end then end - start else 0
    }

    predicate Contains(k: int) {
      start <= k < end
    }
  }
}
