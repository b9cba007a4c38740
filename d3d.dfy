/**
 * Types and constants of the Direct3D 12 API that the framework uses.
 * The numeric values are those of the public d3d12.h / dxgiformat.h headers.
 */
module D3D {

  type u16 = x: nat | x < 0x1_0000
  type u32 = x: nat | x < 0x1_0000_0000
  type u64 = x: nat | x < 0x1_0000_0000_0000_0000

  datatype Option<+T> = None | Some(value: T)

  /** A COM interface pointer: null, or the identity of a live object. */
  datatype Ptr = Null | Obj(id: nat)

  /** D3D12_RESOURCE_STATES (a bit mask). */
  type ResourceState = u32
  const STATE_COMMON: ResourceState := 0
  const STATE_VERTEX_AND_CONSTANT_BUFFER: ResourceState := 0x1
  const STATE_INDEX_BUFFER: ResourceState := 0x2
  const STATE_RENDER_TARGET: ResourceState := 0x4
  const STATE_UNORDERED_ACCESS: ResourceState := 0x8
  const STATE_DEPTH_WRITE: ResourceState := 0x10
  const STATE_NON_PIXEL_SHADER_RESOURCE: ResourceState := 0x40
  const STATE_COPY_DEST: ResourceState := 0x400
  const STATE_COPY_SOURCE: ResourceState := 0x800
  const STATE_RESOLVE_DEST: ResourceState := 0x1000
  const STATE_RESOLVE_SOURCE: ResourceState := 0x2000

  /** D3D12_RESOURCE_BARRIER_ALL_SUBRESOURCES */
  const ALL_SUBRESOURCES: u32 := 0xffff_ffff

  /** D3D12_COMMAND_LIST_TYPE */
  type ListType = u32
  const LIST_DIRECT: ListType := 0
  const LIST_BUNDLE: ListType := 1
  const LIST_COMPUTE: ListType := 2
  const LIST_COPY: ListType := 3

  /** D3D12_DESCRIPTOR_HEAP_TYPE */
  type HeapType = x: nat | x < 4
  const HEAP_CBV_SRV_UAV: HeapType := 0
  const HEAP_SAMPLER: HeapType := 1
  const HEAP_RTV: HeapType := 2
  const HEAP_DSV: HeapType := 3
  /** D3D12_DESCRIPTOR_HEAP_TYPE_NUM_TYPES */
  const NUM_HEAP_TYPES: nat := 4

  /** D3D12_RESOURCE_FLAGS (a bit mask). */
  type ResourceFlags = bv32
  const FLAG_ALLOW_RENDER_TARGET: ResourceFlags := 0x1
  const FLAG_ALLOW_DEPTH_STENCIL: ResourceFlags := 0x2
  const FLAG_ALLOW_UNORDERED_ACCESS: ResourceFlags := 0x4

  /** DXGI_FORMAT */
  type Format = u32
  const FORMAT_R32_UINT: Format := 42
  const FORMAT_R16_UINT: Format := 57

  /** D3D12_RESOURCE_DIMENSION */
  datatype Dimension = Unknown | Buffer | Texture1D | Texture2D | Texture3D

  /** The fields of D3D12_RESOURCE_DESC that the framework reads. */
  datatype ResourceDesc = ResourceDesc(
    dimension: Dimension,
    width: u64,
    height: u32,
    depthOrArraySize: u16,
    mipLevels: u16,
    format: Format,
    sampleCount: u32,
    flags: ResourceFlags)
}
