/**
 * Image-format metadata (TRAP/src/Graphics/API/ImageFormat.h).
 *
 * Every query is a total function of the format: a switch over the enum
 * with a default branch, written here as a match with a final `case _`.
 */
module ImageFormats {
  import opened Ints

  /** The ImageFormat enumeration, in declaration order (Undefined = 0 ...
      IMAGE_FORMAT_COUNT = 239). */
  datatype ImageFormat =
      Undefined | R1_UNORM | R2_UNORM | R4_UNORM | R4G4_UNORM | G4R4_UNORM | A8_UNORM | R8_UNORM
    | R8_SNORM | R8_UINT | R8_SINT | R8_SRGB | B2G3R3_UNORM | R4G4B4A4_UNORM | R4G4B4X4_UNORM
    | B4G4R4A4_UNORM | B4G4R4X4_UNORM | A4R4G4B4_UNORM | X4R4G4B4_UNORM | A4B4G4R4_UNORM
    | X4B4G4R4_UNORM | R5G6B5_UNORM | B5G6R5_UNORM | R5G5B5A1_UNORM | B5G5R5A1_UNORM
    | A1B5G5R5_UNORM | A1R5G5B5_UNORM | R5G5B5X1_UNORM | B5G5R5X1_UNORM | X1R5G5B5_UNORM
    | X1B5G5R5_UNORM | B2G3R3A8_UNORM | R8G8_UNORM | R8G8_SNORM | G8R8_UNORM | G8R8_SNORM
    | R8G8_UINT | R8G8_SINT | R8G8_SRGB | R16_UNORM | R16_SNORM | R16_UINT | R16_SINT | R16_SFLOAT
    | R16_SBFLOAT | R8G8B8_UNORM | R8G8B8_SNORM | R8G8B8_UINT | R8G8B8_SINT | R8G8B8_SRGB
    | B8G8R8_UNORM | B8G8R8_SNORM | B8G8R8_UINT | B8G8R8_SINT | B8G8R8_SRGB | R8G8B8A8_UNORM
    | R8G8B8A8_SNORM | R8G8B8A8_UINT | R8G8B8A8_SINT | R8G8B8A8_SRGB | B8G8R8A8_UNORM
    | B8G8R8A8_SNORM | B8G8R8A8_UINT | B8G8R8A8_SINT | B8G8R8A8_SRGB | R8G8B8X8_UNORM
    | B8G8R8X8_UNORM | R16G16_UNORM | G16R16_UNORM | R16G16_SNORM | G16R16_SNORM | R16G16_UINT
    | R16G16_SINT | R16G16_SFLOAT | R16G16_SBFLOAT | R32_UINT | R32_SINT | R32_SFLOAT
    | A2R10G10B10_UNORM | A2R10G10B10_UINT | A2R10G10B10_SNORM | A2R10G10B10_SINT
    | A2B10G10R10_UNORM | A2B10G10R10_UINT | A2B10G10R10_SNORM | A2B10G10R10_SINT
    | R10G10B10A2_UNORM | R10G10B10A2_UINT | R10G10B10A2_SNORM | R10G10B10A2_SINT
    | B10G10R10A2_UNORM | B10G10R10A2_UINT | B10G10R10A2_SNORM | B10G10R10A2_SINT
    | B10G11R11_UFLOAT | E5B9G9R9_UFLOAT | R16G16B16_UNORM | R16G16B16_SNORM | R16G16B16_UINT
    | R16G16B16_SINT | R16G16B16_SFLOAT | R16G16B16_SBFLOAT | R16G16B16A16_UNORM
    | R16G16B16A16_SNORM | R16G16B16A16_UINT | R16G16B16A16_SINT | R16G16B16A16_SFLOAT
    | R16G16B16A16_SBFLOAT | R32G32_UINT | R32G32_SINT | R32G32_SFLOAT | R32G32B32_UINT
    | R32G32B32_SINT | R32G32B32_SFLOAT | R32G32B32A32_UINT | R32G32B32A32_SINT
    | R32G32B32A32_SFLOAT | R64_UINT | R64_SINT | R64_SFLOAT | R64G64_UINT | R64G64_SINT
    | R64G64_SFLOAT | R64G64B64_UINT | R64G64B64_SINT | R64G64B64_SFLOAT | R64G64B64A64_UINT
    | R64G64B64A64_SINT | R64G64B64A64_SFLOAT | D16_UNORM | X8_D24_UNORM | D32_SFLOAT | S8_UINT
    | D16_UNORM_S8_UINT | D24_UNORM_S8_UINT | D32_SFLOAT_S8_UINT | DXBC1_RGB_UNORM | DXBC1_RGB_SRGB
    | DXBC1_RGBA_UNORM | DXBC1_RGBA_SRGB | DXBC2_UNORM | DXBC2_SRGB | DXBC3_UNORM | DXBC3_SRGB
    | DXBC4_UNORM | DXBC4_SNORM | DXBC5_UNORM | DXBC5_SNORM | DXBC6H_UFLOAT | DXBC6H_SFLOAT
    | DXBC7_UNORM | DXBC7_SRGB | PVRTC1_2BPP_UNORM | PVRTC1_4BPP_UNORM | PVRTC2_2BPP_UNORM
    | PVRTC2_4BPP_UNORM | PVRTC1_2BPP_SRGB | PVRTC1_4BPP_SRGB | PVRTC2_2BPP_SRGB | PVRTC2_4BPP_SRGB
    | ETC2_R8G8B8_UNORM | ETC2_R8G8B8_SRGB | ETC2_R8G8B8A1_UNORM | ETC2_R8G8B8A1_SRGB
    | ETC2_R8G8B8A8_UNORM | ETC2_R8G8B8A8_SRGB | ETC2_EAC_R11_UNORM | ETC2_EAC_R11_SNORM
    | ETC2_EAC_R11G11_UNORM | ETC2_EAC_R11G11_SNORM | ASTC_4x4_UNORM | ASTC_4x4_SRGB
    | ASTC_5x4_UNORM | ASTC_5x4_SRGB | ASTC_5x5_UNORM | ASTC_5x5_SRGB | ASTC_6x5_UNORM
    | ASTC_6x5_SRGB | ASTC_6x6_UNORM | ASTC_6x6_SRGB | ASTC_8x5_UNORM | ASTC_8x5_SRGB
    | ASTC_8x6_UNORM | ASTC_8x6_SRGB | ASTC_8x8_UNORM | ASTC_8x8_SRGB | ASTC_10x5_UNORM
    | ASTC_10x5_SRGB | ASTC_10x6_UNORM | ASTC_10x6_SRGB | ASTC_10x8_UNORM | ASTC_10x8_SRGB
    | ASTC_10x10_UNORM | ASTC_10x10_SRGB | ASTC_12x10_UNORM | ASTC_12x10_SRGB | ASTC_12x12_UNORM
    | ASTC_12x12_SRGB | CLUT_P4 | CLUT_P4A4 | CLUT_P8 | CLUT_P8A8 | R4G4B4A4_UNORM_PACK16
    | B4G4R4A4_UNORM_PACK16 | R5G6B5_UNORM_PACK16 | B5G6R5_UNORM_PACK16 | R5G5B5A1_UNORM_PACK16
    | B5G5R5A1_UNORM_PACK16 | A1R5G5B5_UNORM_PACK16 | G16B16G16R16_422_UNORM
    | B16G16R16G16_422_UNORM | R12X4G12X4B12X4A12X4_UNORM_4PACK16
    | G12X4B12X4G12X4R12X4_422_UNORM_4PACK16 | B12X4G12X4R12X4G12X4_422_UNORM_4PACK16
    | R10X6G10X6B10X6A10X6_UNORM_4PACK16 | G10X6B10X6G10X6R10X6_422_UNORM_4PACK16
    | B10X6G10X6R10X6G10X6_422_UNORM_4PACK16 | G8B8G8R8_422_UNORM | B8G8R8G8_422_UNORM
    | G8_B8_R8_3PLANE_420_UNORM | G8_B8R8_2PLANE_420_UNORM | G8_B8_R8_3PLANE_422_UNORM
    | G8_B8R8_2PLANE_422_UNORM | G8_B8_R8_3PLANE_444_UNORM
    | G10X6_B10X6_R10X6_3PLANE_420_UNORM_3PACK16 | G10X6_B10X6_R10X6_3PLANE_422_UNORM_3PACK16
    | G10X6_B10X6_R10X6_3PLANE_444_UNORM_3PACK16 | G10X6_B10X6R10X6_2PLANE_420_UNORM_3PACK16
    | G10X6_B10X6R10X6_2PLANE_422_UNORM_3PACK16 | G12X4_B12X4_R12X4_3PLANE_420_UNORM_3PACK16
    | G12X4_B12X4_R12X4_3PLANE_422_UNORM_3PACK16 | G12X4_B12X4_R12X4_3PLANE_444_UNORM_3PACK16
    | G12X4_B12X4R12X4_2PLANE_420_UNORM_3PACK16 | G12X4_B12X4R12X4_2PLANE_422_UNORM_3PACK16
    | G16_B16_R16_3PLANE_420_UNORM | G16_B16_R16_3PLANE_422_UNORM | G16_B16_R16_3PLANE_444_UNORM
    | G16_B16R16_2PLANE_420_UNORM | G16_B16R16_2PLANE_422_UNORM | IMAGE_FORMAT_COUNT

  /** ImageFormatIsDepthOnly. */
  predicate IsDepthOnly(fmt: ImageFormat)
  {
    match fmt
    case D16_UNORM | X8_D24_UNORM | D32_SFLOAT => true
    case _ => false
  }

  /** ImageFormatIsDepthAndStencil. */
  predicate IsDepthAndStencil(fmt: ImageFormat)
  {
    match fmt
    case D16_UNORM_S8_UINT | D24_UNORM_S8_UINT | D32_SFLOAT_S8_UINT => true
    case _ => false
  }

  /** ImageFormatIsStencilOnly. */
  predicate IsStencilOnly(fmt: ImageFormat)
  {
    match fmt
    case S8_UINT => true
    case _ => false
  }

  /** ImageFormatHasStencil: stencil-only or depth-and-stencil. */
  predicate HasStencil(fmt: ImageFormat)
  {
    IsStencilOnly(fmt) || IsDepthAndStencil(fmt)
  }

  /** ImageFormatBitSizeOfBlock: bits in one block (one texel for uncompressed formats). */
  function BitSizeOfBlock(fmt: ImageFormat): uint32
  {
    match fmt
    case Undefined => 0
    case R1_UNORM | R2_UNORM | R4_UNORM | R4G4_UNORM | G4R4_UNORM | A8_UNORM | R8_UNORM | R8_SNORM
       | R8_UINT | R8_SINT | R8_SRGB | B2G3R3_UNORM => 8
    case R4G4B4A4_UNORM | R4G4B4X4_UNORM | B4G4R4A4_UNORM | B4G4R4X4_UNORM | A4R4G4B4_UNORM
       | X4R4G4B4_UNORM | A4B4G4R4_UNORM | X4B4G4R4_UNORM | R5G6B5_UNORM | B5G6R5_UNORM
       | R5G5B5A1_UNORM | B5G5R5A1_UNORM | A1B5G5R5_UNORM | A1R5G5B5_UNORM | R5G5B5X1_UNORM
       | B5G5R5X1_UNORM | X1R5G5B5_UNORM | X1B5G5R5_UNORM | B2G3R3A8_UNORM | R8G8_UNORM | R8G8_SNORM
       | G8R8_UNORM | G8R8_SNORM | R8G8_UINT | R8G8_SINT | R8G8_SRGB | R16_UNORM | R16_SNORM
       | R16_UINT | R16_SINT | R16_SFLOAT | R16_SBFLOAT => 16
    case R8G8B8_UNORM | R8G8B8_SNORM | R8G8B8_UINT | R8G8B8_SINT | R8G8B8_SRGB | B8G8R8_UNORM
       | B8G8R8_SNORM | B8G8R8_UINT | B8G8R8_SINT | B8G8R8_SRGB => 24
    case R16G16B16_UNORM | R16G16B16_SNORM | R16G16B16_UINT | R16G16B16_SINT | R16G16B16_SFLOAT
       | R16G16B16_SBFLOAT => 48
    case R16G16B16A16_UNORM | R16G16B16A16_SNORM | R16G16B16A16_UINT | R16G16B16A16_SINT
       | R16G16B16A16_SFLOAT | R16G16B16A16_SBFLOAT | R32G32_UINT | R32G32_SINT | R32G32_SFLOAT => 64
    case R32G32B32_UINT | R32G32B32_SINT | R32G32B32_SFLOAT => 96
    case R32G32B32A32_UINT | R32G32B32A32_SINT | R32G32B32A32_SFLOAT => 128
    case R64_UINT | R64_SINT | R64_SFLOAT => 64
    case R64G64_UINT | R64G64_SINT | R64G64_SFLOAT => 128
    case R64G64B64_UINT | R64G64B64_SINT | R64G64B64_SFLOAT => 192
    case R64G64B64A64_UINT | R64G64B64A64_SINT | R64G64B64A64_SFLOAT => 256
    case D16_UNORM => 16
    case S8_UINT => 8
    case D32_SFLOAT_S8_UINT | DXBC1_RGB_UNORM | DXBC1_RGB_SRGB | DXBC1_RGBA_UNORM | DXBC1_RGBA_SRGB => 64
    case DXBC2_UNORM | DXBC2_SRGB | DXBC3_UNORM | DXBC3_SRGB => 128
    case DXBC4_UNORM | DXBC4_SNORM => 64
    case DXBC5_UNORM | DXBC5_SNORM | DXBC6H_UFLOAT | DXBC6H_SFLOAT | DXBC7_UNORM | DXBC7_SRGB => 128
    case PVRTC1_2BPP_UNORM | PVRTC1_4BPP_UNORM | PVRTC2_2BPP_UNORM | PVRTC2_4BPP_UNORM
       | PVRTC1_2BPP_SRGB | PVRTC1_4BPP_SRGB | PVRTC2_2BPP_SRGB | PVRTC2_4BPP_SRGB
       | ETC2_R8G8B8_UNORM | ETC2_R8G8B8_SRGB | ETC2_R8G8B8A1_UNORM | ETC2_R8G8B8A1_SRGB
       | ETC2_R8G8B8A8_UNORM | ETC2_R8G8B8A8_SRGB | ETC2_EAC_R11_UNORM | ETC2_EAC_R11_SNORM
       | ETC2_EAC_R11G11_UNORM | ETC2_EAC_R11G11_SNORM => 64
    case ASTC_4x4_UNORM | ASTC_4x4_SRGB | ASTC_5x4_UNORM | ASTC_5x4_SRGB | ASTC_5x5_UNORM
       | ASTC_5x5_SRGB | ASTC_6x5_UNORM | ASTC_6x5_SRGB | ASTC_6x6_UNORM | ASTC_6x6_SRGB
       | ASTC_8x5_UNORM | ASTC_8x5_SRGB | ASTC_8x6_UNORM | ASTC_8x6_SRGB | ASTC_8x8_UNORM
       | ASTC_8x8_SRGB | ASTC_10x5_UNORM | ASTC_10x5_SRGB | ASTC_10x6_UNORM | ASTC_10x6_SRGB
       | ASTC_10x8_UNORM | ASTC_10x8_SRGB | ASTC_10x10_UNORM | ASTC_10x10_SRGB | ASTC_12x10_UNORM
       | ASTC_12x10_SRGB | ASTC_12x12_UNORM | ASTC_12x12_SRGB => 128
    case CLUT_P4 | CLUT_P4A4 | CLUT_P8 => 8
    case CLUT_P8A8 => 16
    case G16B16G16R16_422_UNORM | B16G16R16G16_422_UNORM | R12X4G12X4B12X4A12X4_UNORM_4PACK16
       | G12X4B12X4G12X4R12X4_422_UNORM_4PACK16 | B12X4G12X4R12X4G12X4_422_UNORM_4PACK16
       | R10X6G10X6B10X6A10X6_UNORM_4PACK16 | G10X6B10X6G10X6R10X6_422_UNORM_4PACK16
       | B10X6G10X6R10X6G10X6_422_UNORM_4PACK16 => 8
    case G8B8G8R8_422_UNORM | B8G8R8G8_422_UNORM => 4
    case _ => 32
  }

  /** ImageFormatWidthOfBlock: texels in the x dimension of a block. */
  function WidthOfBlock(fmt: ImageFormat): uint32
  {
    match fmt
    case Undefined => 1
    case R1_UNORM => 8
    case R2_UNORM => 4
    case R4_UNORM => 2
    case DXBC1_RGB_UNORM | DXBC1_RGB_SRGB | DXBC1_RGBA_UNORM | DXBC1_RGBA_SRGB | DXBC2_UNORM
       | DXBC2_SRGB | DXBC3_UNORM | DXBC3_SRGB | DXBC4_UNORM | DXBC4_SNORM | DXBC5_UNORM
       | DXBC5_SNORM | DXBC6H_UFLOAT | DXBC6H_SFLOAT | DXBC7_UNORM | DXBC7_SRGB => 4
    case PVRTC1_2BPP_UNORM => 8
    case PVRTC1_4BPP_UNORM => 4
    case PVRTC2_2BPP_UNORM => 8
    case PVRTC2_4BPP_UNORM => 4
    case PVRTC1_2BPP_SRGB => 8
    case PVRTC1_4BPP_SRGB => 4
    case PVRTC2_2BPP_SRGB => 8
    case PVRTC2_4BPP_SRGB | ETC2_R8G8B8_UNORM | ETC2_R8G8B8_SRGB | ETC2_R8G8B8A1_UNORM
       | ETC2_R8G8B8A1_SRGB | ETC2_R8G8B8A8_UNORM | ETC2_R8G8B8A8_SRGB | ETC2_EAC_R11_UNORM
       | ETC2_EAC_R11_SNORM | ETC2_EAC_R11G11_UNORM | ETC2_EAC_R11G11_SNORM | ASTC_4x4_UNORM
       | ASTC_4x4_SRGB => 4
    case ASTC_5x4_UNORM | ASTC_5x4_SRGB | ASTC_5x5_UNORM | ASTC_5x5_SRGB => 5
    case ASTC_6x5_UNORM | ASTC_6x5_SRGB | ASTC_6x6_UNORM | ASTC_6x6_SRGB => 6
    case ASTC_8x5_UNORM | ASTC_8x5_SRGB | ASTC_8x6_UNORM | ASTC_8x6_SRGB | ASTC_8x8_UNORM
       | ASTC_8x8_SRGB => 8
    case ASTC_10x5_UNORM | ASTC_10x5_SRGB | ASTC_10x6_UNORM | ASTC_10x6_SRGB | ASTC_10x8_UNORM
       | ASTC_10x8_SRGB | ASTC_10x10_UNORM | ASTC_10x10_SRGB => 10
    case ASTC_12x10_UNORM | ASTC_12x10_SRGB | ASTC_12x12_UNORM | ASTC_12x12_SRGB => 12
    case CLUT_P4 => 2
    case _ => 1
  }

  /** ImageFormatHeightOfBlock: texels in the y dimension of a block. */
  function HeightOfBlock(fmt: ImageFormat): uint32
  {
    match fmt
    case Undefined => 1
    case DXBC1_RGB_UNORM | DXBC1_RGB_SRGB | DXBC1_RGBA_UNORM | DXBC1_RGBA_SRGB | DXBC2_UNORM
       | DXBC2_SRGB | DXBC3_UNORM | DXBC3_SRGB | DXBC4_UNORM | DXBC4_SNORM | DXBC5_UNORM
       | DXBC5_SNORM | DXBC6H_UFLOAT | DXBC6H_SFLOAT | DXBC7_UNORM | DXBC7_SRGB | PVRTC1_2BPP_UNORM
       | PVRTC1_4BPP_UNORM | PVRTC2_2BPP_UNORM | PVRTC2_4BPP_UNORM | PVRTC1_2BPP_SRGB
       | PVRTC1_4BPP_SRGB | PVRTC2_2BPP_SRGB | PVRTC2_4BPP_SRGB | ETC2_R8G8B8_UNORM
       | ETC2_R8G8B8_SRGB | ETC2_R8G8B8A1_UNORM | ETC2_R8G8B8A1_SRGB | ETC2_R8G8B8A8_UNORM
       | ETC2_R8G8B8A8_SRGB | ETC2_EAC_R11_UNORM | ETC2_EAC_R11_SNORM | ETC2_EAC_R11G11_UNORM
       | ETC2_EAC_R11G11_SNORM | ASTC_4x4_UNORM | ASTC_4x4_SRGB | ASTC_5x4_UNORM | ASTC_5x4_SRGB => 4
    case ASTC_5x5_UNORM | ASTC_5x5_SRGB | ASTC_6x5_UNORM | ASTC_6x5_SRGB => 5
    case ASTC_6x6_UNORM | ASTC_6x6_SRGB => 6
    case ASTC_8x5_UNORM | ASTC_8x5_SRGB => 5
    case ASTC_8x6_UNORM | ASTC_8x6_SRGB => 6
    case ASTC_8x8_UNORM | ASTC_8x8_SRGB => 8
    case ASTC_10x5_UNORM | ASTC_10x5_SRGB => 5
    case ASTC_10x6_UNORM | ASTC_10x6_SRGB => 6
    case ASTC_10x8_UNORM | ASTC_10x8_SRGB => 8
    case ASTC_10x10_UNORM | ASTC_10x10_SRGB | ASTC_12x10_UNORM | ASTC_12x10_SRGB => 10
    case ASTC_12x12_UNORM | ASTC_12x12_SRGB => 12
    case _ => 1
  }

  /** ImageFormatIsPlanar. */
  predicate IsPlanar(fmt: ImageFormat)
  {
    match fmt
    case G8_B8R8_2PLANE_420_UNORM | G8_B8R8_2PLANE_422_UNORM | G8_B8_R8_3PLANE_420_UNORM
       | G8_B8_R8_3PLANE_422_UNORM | G8_B8_R8_3PLANE_444_UNORM | G16_B16R16_2PLANE_420_UNORM
       | G16_B16R16_2PLANE_422_UNORM | G16_B16_R16_3PLANE_420_UNORM | G16_B16_R16_3PLANE_422_UNORM
       | G16_B16_R16_3PLANE_444_UNORM | G10X6_B10X6R10X6_2PLANE_420_UNORM_3PACK16
       | G10X6_B10X6R10X6_2PLANE_422_UNORM_3PACK16 | G12X4_B12X4R12X4_2PLANE_420_UNORM_3PACK16
       | G12X4_B12X4R12X4_2PLANE_422_UNORM_3PACK16 | G12X4_B12X4_R12X4_3PLANE_420_UNORM_3PACK16
       | G12X4_B12X4_R12X4_3PLANE_422_UNORM_3PACK16 | G12X4_B12X4_R12X4_3PLANE_444_UNORM_3PACK16
       | G10X6_B10X6_R10X6_3PLANE_420_UNORM_3PACK16 | G10X6_B10X6_R10X6_3PLANE_422_UNORM_3PACK16
       | G10X6_B10X6_R10X6_3PLANE_444_UNORM_3PACK16 => true
    case _ => false
  }

  /** ImageFormatNumOfPlanes. */
  function NumOfPlanes(fmt: ImageFormat): uint32
  {
    match fmt
    case G8_B8_R8_3PLANE_420_UNORM | G8_B8_R8_3PLANE_422_UNORM | G8_B8_R8_3PLANE_444_UNORM
       | G16_B16_R16_3PLANE_420_UNORM | G16_B16_R16_3PLANE_422_UNORM | G16_B16_R16_3PLANE_444_UNORM
       | G10X6_B10X6_R10X6_3PLANE_420_UNORM_3PACK16 | G10X6_B10X6_R10X6_3PLANE_422_UNORM_3PACK16
       | G10X6_B10X6_R10X6_3PLANE_444_UNORM_3PACK16 | G12X4_B12X4_R12X4_3PLANE_420_UNORM_3PACK16
       | G12X4_B12X4_R12X4_3PLANE_422_UNORM_3PACK16 | G12X4_B12X4_R12X4_3PLANE_444_UNORM_3PACK16 => 3
    case G8_B8R8_2PLANE_420_UNORM | G8_B8R8_2PLANE_422_UNORM | G16_B16R16_2PLANE_420_UNORM
       | G16_B16R16_2PLANE_422_UNORM | G10X6_B10X6R10X6_2PLANE_420_UNORM_3PACK16
       | G10X6_B10X6R10X6_2PLANE_422_UNORM_3PACK16 | G12X4_B12X4R12X4_2PLANE_420_UNORM_3PACK16
       | G12X4_B12X4R12X4_2PLANE_422_UNORM_3PACK16 => 2
    case _ => 1
  }

  /** ImageFormatIsSinglePlane. */
  predicate IsSinglePlane(fmt: ImageFormat)
  {
    !IsPlanar(fmt) || NumOfPlanes(fmt) < 2
  }

  /** ImageFormatPlaneWidth: plane 0 has the full width; listed formats halve it
      (an unsigned shift right by one) on the other planes. */
  function PlaneWidth(fmt: ImageFormat, plane: uint32, width: uint32): uint32
  {
    if plane == 0 then width else
    match fmt
    case G8_B8_R8_3PLANE_420_UNORM | G8_B8R8_2PLANE_420_UNORM
       | G10X6_B10X6_R10X6_3PLANE_420_UNORM_3PACK16 | G8_B8_R8_3PLANE_422_UNORM
       | G8_B8R8_2PLANE_422_UNORM | G10X6_B10X6_R10X6_3PLANE_422_UNORM_3PACK16
       | G12X4_B12X4_R12X4_3PLANE_420_UNORM_3PACK16 | G10X6_B10X6R10X6_2PLANE_422_UNORM_3PACK16
       | G12X4_B12X4_R12X4_3PLANE_422_UNORM_3PACK16 | G12X4_B12X4R12X4_2PLANE_420_UNORM_3PACK16
       | G12X4_B12X4R12X4_2PLANE_422_UNORM_3PACK16 | G16_B16_R16_3PLANE_420_UNORM
       | G16_B16_R16_3PLANE_422_UNORM | G16_B16R16_2PLANE_420_UNORM | G16_B16R16_2PLANE_422_UNORM => width / 2
    case _ => width
  }

  /** ImageFormatPlaneHeight. */
  function PlaneHeight(fmt: ImageFormat, plane: uint32, height: uint32): uint32
  {
    if plane == 0 then height else
    match fmt
    case G8_B8_R8_3PLANE_420_UNORM | G8_B8R8_2PLANE_420_UNORM
       | G10X6_B10X6_R10X6_3PLANE_420_UNORM_3PACK16 | G10X6_B10X6R10X6_2PLANE_420_UNORM_3PACK16
       | G12X4_B12X4_R12X4_3PLANE_420_UNORM_3PACK16 | G12X4_B12X4R12X4_2PLANE_420_UNORM_3PACK16
       | G16_B16_R16_3PLANE_420_UNORM | G16_B16R16_2PLANE_420_UNORM => height / 2
    case _ => height
  }

  /** ImageFormatPlaneSizeOfBlock: bytes per texel in the given plane. */
  function PlaneSizeOfBlock(fmt: ImageFormat, plane: uint32): uint32
  {
    match fmt
    case G8_B8_R8_3PLANE_420_UNORM | G8_B8_R8_3PLANE_422_UNORM | G8_B8_R8_3PLANE_444_UNORM => 1
    case G10X6_B10X6_R10X6_3PLANE_420_UNORM_3PACK16 | G10X6_B10X6_R10X6_3PLANE_422_UNORM_3PACK16
       | G10X6_B10X6_R10X6_3PLANE_444_UNORM_3PACK16 | G16_B16_R16_3PLANE_420_UNORM
       | G16_B16_R16_3PLANE_422_UNORM | G16_B16_R16_3PLANE_444_UNORM
       | G12X4_B12X4_R12X4_3PLANE_420_UNORM_3PACK16 | G12X4_B12X4_R12X4_3PLANE_422_UNORM_3PACK16
       | G12X4_B12X4_R12X4_3PLANE_444_UNORM_3PACK16 => 2
    case G8_B8R8_2PLANE_420_UNORM | G8_B8R8_2PLANE_422_UNORM => if plane == 0 then 1 else 2
    case G16_B16R16_2PLANE_420_UNORM | G16_B16R16_2PLANE_422_UNORM
       | G10X6_B10X6R10X6_2PLANE_420_UNORM_3PACK16 | G10X6_B10X6R10X6_2PLANE_422_UNORM_3PACK16
       | G12X4_B12X4R12X4_2PLANE_420_UNORM_3PACK16 | G12X4_B12X4R12X4_2PLANE_422_UNORM_3PACK16 => if plane == 0 then 2 else 4
    case _ => 1
  }

  /** ImageFormatIsCompressed. */
  predicate IsCompressed(fmt: ImageFormat)
  {
    match fmt
    case DXBC1_RGB_UNORM | DXBC1_RGB_SRGB | DXBC1_RGBA_UNORM | DXBC1_RGBA_SRGB | DXBC2_UNORM
       | DXBC2_SRGB | DXBC3_UNORM | DXBC3_SRGB | DXBC4_UNORM | DXBC4_SNORM | DXBC5_UNORM
       | DXBC5_SNORM | DXBC6H_UFLOAT | DXBC6H_SFLOAT | DXBC7_UNORM | DXBC7_SRGB | PVRTC1_2BPP_UNORM
       | PVRTC1_4BPP_UNORM | PVRTC2_2BPP_UNORM | PVRTC2_4BPP_UNORM | PVRTC1_2BPP_SRGB
       | PVRTC1_4BPP_SRGB | PVRTC2_2BPP_SRGB | PVRTC2_4BPP_SRGB | ETC2_R8G8B8_UNORM
       | ETC2_R8G8B8_SRGB | ETC2_R8G8B8A1_UNORM | ETC2_R8G8B8A1_SRGB | ETC2_R8G8B8A8_UNORM
       | ETC2_R8G8B8A8_SRGB | ETC2_EAC_R11_UNORM | ETC2_EAC_R11_SNORM | ETC2_EAC_R11G11_UNORM
       | ETC2_EAC_R11G11_SNORM | ASTC_4x4_UNORM | ASTC_4x4_SRGB | ASTC_5x4_UNORM | ASTC_5x4_SRGB
       | ASTC_5x5_UNORM | ASTC_5x5_SRGB | ASTC_6x5_UNORM | ASTC_6x5_SRGB | ASTC_6x6_UNORM
       | ASTC_6x6_SRGB | ASTC_8x5_UNORM | ASTC_8x5_SRGB | ASTC_8x6_UNORM | ASTC_8x6_SRGB
       | ASTC_8x8_UNORM | ASTC_8x8_SRGB | ASTC_10x5_UNORM | ASTC_10x5_SRGB | ASTC_10x6_UNORM
       | ASTC_10x6_SRGB | ASTC_10x8_UNORM | ASTC_10x8_SRGB | ASTC_10x10_UNORM | ASTC_10x10_SRGB
       | ASTC_12x10_UNORM | ASTC_12x10_SRGB | ASTC_12x12_UNORM | ASTC_12x12_SRGB => true
    case _ => false
  }

  /** ImageFormatChannelCount. */
  function ChannelCount(fmt: ImageFormat): uint32
  {
    match fmt
    case Undefined => 0
    case R1_UNORM | R2_UNORM | R4_UNORM => 1
    case R4G4_UNORM | G4R4_UNORM => 2
    case A8_UNORM | R8_UNORM | R8_SNORM | R8_UINT | R8_SINT | R8_SRGB => 1
    case B2G3R3_UNORM | R5G6B5_UNORM | B5G6R5_UNORM => 3
    case R8G8_UNORM | R8G8_SNORM | G8R8_UNORM | G8R8_SNORM | R8G8_UINT | R8G8_SINT | R8G8_SRGB => 2
    case R16_UNORM | R16_SNORM | R16_UINT | R16_SINT | R16_SFLOAT | R16_SBFLOAT => 1
    case R8G8B8_UNORM | R8G8B8_SNORM | R8G8B8_UINT | R8G8B8_SINT | R8G8B8_SRGB | B8G8R8_UNORM
       | B8G8R8_SNORM | B8G8R8_UINT | B8G8R8_SINT | B8G8R8_SRGB => 3
    case R16G16_UNORM | G16R16_UNORM | R16G16_SNORM | G16R16_SNORM | R16G16_UINT | R16G16_SINT
       | R16G16_SFLOAT | R16G16_SBFLOAT => 2
    case R32_UINT | R32_SINT | R32_SFLOAT => 1
    case B10G11R11_UFLOAT | R16G16B16_UNORM | R16G16B16_SNORM | R16G16B16_UINT | R16G16B16_SINT
       | R16G16B16_SFLOAT | R16G16B16_SBFLOAT => 3
    case R32G32_UINT | R32G32_SINT | R32G32_SFLOAT => 2
    case R32G32B32_UINT | R32G32B32_SINT | R32G32B32_SFLOAT => 3
    case R64_UINT | R64_SINT | R64_SFLOAT => 1
    case R64G64_UINT | R64G64_SINT | R64G64_SFLOAT => 2
    case R64G64B64_UINT | R64G64B64_SINT | R64G64B64_SFLOAT => 3
    case D16_UNORM => 1
    case X8_D24_UNORM => 2
    case D32_SFLOAT | S8_UINT => 1
    case D16_UNORM_S8_UINT | D24_UNORM_S8_UINT | D32_SFLOAT_S8_UINT => 2
    case DXBC1_RGB_UNORM | DXBC1_RGB_SRGB => 3
    case DXBC4_UNORM | DXBC4_SNORM => 1
    case DXBC5_UNORM | DXBC5_SNORM => 2
    case DXBC6H_UFLOAT | DXBC6H_SFLOAT | ETC2_R8G8B8_UNORM | ETC2_R8G8B8_SRGB => 3
    case ETC2_EAC_R11_UNORM | ETC2_EAC_R11_SNORM => 1
    case ETC2_EAC_R11G11_UNORM | ETC2_EAC_R11G11_SNORM => 2
    case CLUT_P4 => 1
    case CLUT_P4A4 => 2
    case CLUT_P8 => 1
    case CLUT_P8A8 => 2
    case _ => 4
  }

  /** ImageFormatIsFloat. */
  predicate IsFloat(fmt: ImageFormat)
  {
    match fmt
    case R16_SFLOAT | R16_SBFLOAT | R16G16_SFLOAT | R16G16_SBFLOAT | R32_SFLOAT | B10G11R11_UFLOAT
       | E5B9G9R9_UFLOAT | R16G16B16_SFLOAT | R16G16B16_SBFLOAT | R16G16B16A16_SFLOAT
       | R16G16B16A16_SBFLOAT | R32G32_SFLOAT | R32G32B32_SFLOAT | R32G32B32A32_SFLOAT | R64_SFLOAT
       | R64G64_SFLOAT | R64G64B64_SFLOAT | R64G64B64A64_SFLOAT | D32_SFLOAT | D32_SFLOAT_S8_UINT
       | DXBC6H_UFLOAT | DXBC6H_SFLOAT => true
    case _ => false
  }

  /** ImageFormatIsU16. */
  predicate IsU16(fmt: ImageFormat)
  {
    match fmt
    case R16_UNORM | R16_SNORM | R16_UINT | R16_SINT | R16G16_UNORM | G16R16_UNORM | R16G16_SNORM
       | G16R16_SNORM | R16G16_UINT | R16G16_SINT | R16G16B16_UNORM | R16G16B16_SNORM
       | R16G16B16_UINT | R16G16B16_SINT | R16G16B16A16_UNORM | R16G16B16A16_SNORM
       | R16G16B16A16_UINT | R16G16B16A16_SINT | D16_UNORM | D16_UNORM_S8_UINT => true
    case _ => false
  }

  // ---------------------------------------------------------------------------
  // Cross-table properties
  // ---------------------------------------------------------------------------

  /** The formats that carry stencil are exactly S8_UINT and the three
      depth-and-stencil formats. */
  lemma HasStencilExactly(fmt: ImageFormat)
    ensures HasStencil(fmt) <==> fmt in {S8_UINT, D16_UNORM_S8_UINT, D24_UNORM_S8_UINT, D32_SFLOAT_S8_UINT}
  {
  }

  /** Depth-only, depth-and-stencil and stencil-only are pairwise disjoint. */
  lemma DepthStencilClassesDisjoint(fmt: ImageFormat)
    ensures !(IsDepthOnly(fmt) && IsDepthAndStencil(fmt))
    ensures !(IsDepthOnly(fmt) && IsStencilOnly(fmt))
    ensures !(IsStencilOnly(fmt) && IsDepthAndStencil(fmt))
    ensures IsDepthOnly(fmt) ==> !HasStencil(fmt)
  {
  }

  /** Planar formats have two or three planes and all others one, so
      IsSinglePlane is exactly the negation of IsPlanar. */
  lemma PlaneCountMatchesPlanarity(fmt: ImageFormat)
    ensures IsPlanar(fmt) ==> NumOfPlanes(fmt) == 2 || NumOfPlanes(fmt) == 3
    ensures !IsPlanar(fmt) ==> NumOfPlanes(fmt) == 1
    ensures IsSinglePlane(fmt) <==> !IsPlanar(fmt)
  {
  }

  /** Plane 0 keeps the full extent; any other plane keeps it or halves it,
      so a plane is never larger than the image.  Non-planar formats never
      change the extent. */
  lemma PlaneExtentsNeverGrow(fmt: ImageFormat, plane: uint32, width: uint32, height: uint32)
    ensures PlaneWidth(fmt, 0, width) == width && PlaneHeight(fmt, 0, height) == height
    ensures PlaneWidth(fmt, plane, width) in {width, width / 2}
    ensures PlaneHeight(fmt, plane, height) in {height, height / 2}
    ensures PlaneWidth(fmt, plane, width) <= width && PlaneHeight(fmt, plane, height) <= height
    ensures !IsPlanar(fmt) ==> PlaneWidth(fmt, plane, width) == width && PlaneHeight(fmt, plane, height) == height
  {
  }

  /** Every block-compressed format has blocks of at least 4x4 texels;
      every other format has a block height of 1. */
  lemma CompressedBlocksAtLeastFourByFour(fmt: ImageFormat)
    ensures IsCompressed(fmt) ==> WidthOfBlock(fmt) >= 4 && HeightOfBlock(fmt) >= 4
    ensures !IsCompressed(fmt) ==> HeightOfBlock(fmt) == 1
  {
  }

  /** Undefined has no bits, no channels and a 1x1 block, and belongs to no class. */
  lemma UndefinedIsEmpty()
    ensures BitSizeOfBlock(Undefined) == 0 && ChannelCount(Undefined) == 0
    ensures WidthOfBlock(Undefined) == 1 && HeightOfBlock(Undefined) == 1
    ensures !HasStencil(Undefined) && !IsDepthOnly(Undefined) && !IsCompressed(Undefined) && !IsPlanar(Undefined)
    ensures forall fmt: ImageFormat :: fmt != Undefined ==> BitSizeOfBlock(fmt) > 0 && ChannelCount(fmt) > 0
  {
  }

  /** Outside the planar formats every plane lookup gives the plain answer. */
  lemma NonPlanarIsPlain(fmt: ImageFormat, plane: uint32, width: uint32, height: uint32)
    requires !IsPlanar(fmt)
    ensures PlaneSizeOfBlock(fmt, plane) == 1 && NumOfPlanes(fmt) == 1
    ensures PlaneWidth(fmt, plane, width) == width && PlaneHeight(fmt, plane, height) == height
    ensures ChromaSubsampling(fmt) == NotSubsampled
  {
  }

  /** A two-plane format stores twice the luma bytes per texel in its interleaved chroma plane. */
  lemma TwoPlaneChromaDoubles(fmt: ImageFormat, plane: uint32)
    requires IsPlanar(fmt)
    ensures NumOfPlanes(fmt) == 2 && plane != 0 ==> PlaneSizeOfBlock(fmt, plane) as int == 2 * PlaneSizeOfBlock(fmt, 0) as int
  {
    match fmt
    case G8_B8R8_2PLANE_420_UNORM =>
    case G8_B8R8_2PLANE_422_UNORM =>
    case G8_B8_R8_3PLANE_420_UNORM =>
    case G8_B8_R8_3PLANE_422_UNORM =>
    case G8_B8_R8_3PLANE_444_UNORM =>
    case G16_B16R16_2PLANE_420_UNORM =>
    case G16_B16R16_2PLANE_422_UNORM =>
    case G16_B16_R16_3PLANE_420_UNORM =>
    case G16_B16_R16_3PLANE_422_UNORM =>
    case G16_B16_R16_3PLANE_444_UNORM =>
    case G10X6_B10X6R10X6_2PLANE_420_UNORM_3PACK16 =>
    case G10X6_B10X6R10X6_2PLANE_422_UNORM_3PACK16 =>
    case G12X4_B12X4R12X4_2PLANE_420_UNORM_3PACK16 =>
    case G12X4_B12X4R12X4_2PLANE_422_UNORM_3PACK16 =>
    case G12X4_B12X4_R12X4_3PLANE_420_UNORM_3PACK16 =>
    case G12X4_B12X4_R12X4_3PLANE_422_UNORM_3PACK16 =>
    case G12X4_B12X4_R12X4_3PLANE_444_UNORM_3PACK16 =>
    case G10X6_B10X6_R10X6_3PLANE_420_UNORM_3PACK16 =>
    case G10X6_B10X6_R10X6_3PLANE_422_UNORM_3PACK16 =>
    case G10X6_B10X6_R10X6_3PLANE_444_UNORM_3PACK16 =>
    case _ => assert false;
  }

  /** A three-plane format uses the same bytes per texel in every plane. */
  lemma ThreePlaneSizesAgree(fmt: ImageFormat, plane: uint32)
    requires IsPlanar(fmt)
    ensures NumOfPlanes(fmt) == 3 ==> PlaneSizeOfBlock(fmt, plane) == PlaneSizeOfBlock(fmt, 0)
  {
    match fmt
    case G8_B8R8_2PLANE_420_UNORM =>
    case G8_B8R8_2PLANE_422_UNORM =>
    case G8_B8_R8_3PLANE_420_UNORM =>
    case G8_B8_R8_3PLANE_422_UNORM =>
    case G8_B8_R8_3PLANE_444_UNORM =>
    case G16_B16R16_2PLANE_420_UNORM =>
    case G16_B16R16_2PLANE_422_UNORM =>
    case G16_B16_R16_3PLANE_420_UNORM =>
    case G16_B16_R16_3PLANE_422_UNORM =>
    case G16_B16_R16_3PLANE_444_UNORM =>
    case G10X6_B10X6R10X6_2PLANE_420_UNORM_3PACK16 =>
    case G10X6_B10X6R10X6_2PLANE_422_UNORM_3PACK16 =>
    case G12X4_B12X4R12X4_2PLANE_420_UNORM_3PACK16 =>
    case G12X4_B12X4R12X4_2PLANE_422_UNORM_3PACK16 =>
    case G12X4_B12X4_R12X4_3PLANE_420_UNORM_3PACK16 =>
    case G12X4_B12X4_R12X4_3PLANE_422_UNORM_3PACK16 =>
    case G12X4_B12X4_R12X4_3PLANE_444_UNORM_3PACK16 =>
    case G10X6_B10X6_R10X6_3PLANE_420_UNORM_3PACK16 =>
    case G10X6_B10X6_R10X6_3PLANE_422_UNORM_3PACK16 =>
    case G10X6_B10X6_R10X6_3PLANE_444_UNORM_3PACK16 =>
    case _ => assert false;
  }

  /** The luma plane of a planar format holds one or two bytes per texel, one for the 8-bit formats. */
  lemma LumaPlaneSize(fmt: ImageFormat, plane: uint32)
    requires IsPlanar(fmt)
    ensures PlaneSizeOfBlock(fmt, 0) == 1 || PlaneSizeOfBlock(fmt, 0) == 2
    ensures fmt == G8_B8R8_2PLANE_420_UNORM || fmt == G8_B8R8_2PLANE_422_UNORM ==>
              PlaneSizeOfBlock(fmt, 0) == 1 && (plane != 0 ==> PlaneSizeOfBlock(fmt, plane) == 2)
    ensures fmt == G8_B8_R8_3PLANE_420_UNORM || fmt == G8_B8_R8_3PLANE_422_UNORM || fmt == G8_B8_R8_3PLANE_444_UNORM ==>
              PlaneSizeOfBlock(fmt, plane) == 1
  {
    match fmt
    case G8_B8R8_2PLANE_420_UNORM =>
    case G8_B8R8_2PLANE_422_UNORM =>
    case G8_B8_R8_3PLANE_420_UNORM =>
    case G8_B8_R8_3PLANE_422_UNORM =>
    case G8_B8_R8_3PLANE_444_UNORM =>
    case G16_B16R16_2PLANE_420_UNORM =>
    case G16_B16R16_2PLANE_422_UNORM =>
    case G16_B16_R16_3PLANE_420_UNORM =>
    case G16_B16_R16_3PLANE_422_UNORM =>
    case G16_B16_R16_3PLANE_444_UNORM =>
    case G10X6_B10X6R10X6_2PLANE_420_UNORM_3PACK16 =>
    case G10X6_B10X6R10X6_2PLANE_422_UNORM_3PACK16 =>
    case G12X4_B12X4R12X4_2PLANE_420_UNORM_3PACK16 =>
    case G12X4_B12X4R12X4_2PLANE_422_UNORM_3PACK16 =>
    case G12X4_B12X4_R12X4_3PLANE_420_UNORM_3PACK16 =>
    case G12X4_B12X4_R12X4_3PLANE_422_UNORM_3PACK16 =>
    case G12X4_B12X4_R12X4_3PLANE_444_UNORM_3PACK16 =>
    case G10X6_B10X6_R10X6_3PLANE_420_UNORM_3PACK16 =>
    case G10X6_B10X6_R10X6_3PLANE_422_UNORM_3PACK16 =>
    case G10X6_B10X6_R10X6_3PLANE_444_UNORM_3PACK16 =>
    case _ => assert false;
  }

  /** A 16-bit unsigned-or-signed-integer-or-normalised format spends 16 bits per channel. */
  lemma U16BitsPerChannel(fmt: ImageFormat)
    ensures IsU16(fmt) ==> BitSizeOfBlock(fmt) == 16 * ChannelCount(fmt)
    ensures IsU16(fmt) ==> !IsFloat(fmt) && !IsCompressed(fmt)
  {
  }

  // ---------------------------------------------------------------------------
  // Chroma subsampling, read off the format names (_420_, _422_, _444_)
  // ---------------------------------------------------------------------------

  /** How a multi-planar format subsamples its chroma planes. */
  datatype Subsampling = Sub420 | Sub422 | Sub444 | NotSubsampled

  /** Reference definition taken from each format's name: 4:2:0 halves both
      chroma dimensions, 4:2:2 only the width, 4:4:4 neither. */
  function ChromaSubsampling(fmt: ImageFormat): Subsampling
  {
    match fmt
    case G8_B8_R8_3PLANE_420_UNORM | G8_B8R8_2PLANE_420_UNORM => Sub420
    case G8_B8_R8_3PLANE_422_UNORM | G8_B8R8_2PLANE_422_UNORM => Sub422
    case G8_B8_R8_3PLANE_444_UNORM => Sub444
    case G10X6_B10X6_R10X6_3PLANE_420_UNORM_3PACK16 => Sub420
    case G10X6_B10X6_R10X6_3PLANE_422_UNORM_3PACK16 => Sub422
    case G10X6_B10X6_R10X6_3PLANE_444_UNORM_3PACK16 => Sub444
    case G10X6_B10X6R10X6_2PLANE_420_UNORM_3PACK16 => Sub420
    case G10X6_B10X6R10X6_2PLANE_422_UNORM_3PACK16 => Sub422
    case G12X4_B12X4_R12X4_3PLANE_420_UNORM_3PACK16 => Sub420
    case G12X4_B12X4_R12X4_3PLANE_422_UNORM_3PACK16 => Sub422
    case G12X4_B12X4_R12X4_3PLANE_444_UNORM_3PACK16 => Sub444
    case G12X4_B12X4R12X4_2PLANE_420_UNORM_3PACK16 => Sub420
    case G12X4_B12X4R12X4_2PLANE_422_UNORM_3PACK16 => Sub422
    case G16_B16_R16_3PLANE_420_UNORM => Sub420
    case G16_B16_R16_3PLANE_422_UNORM => Sub422
    case G16_B16_R16_3PLANE_444_UNORM => Sub444
    case G16_B16R16_2PLANE_420_UNORM => Sub420
    case G16_B16R16_2PLANE_422_UNORM => Sub422
    case _ => NotSubsampled
  }

  /** Exactly the planar formats are subsampled. */
  lemma SubsampledIffPlanar(fmt: ImageFormat)
    ensures ChromaSubsampling(fmt) != NotSubsampled <==> IsPlanar(fmt)
  {
  }

  /** PlaneHeight halves the chroma planes exactly of the 4:2:0 formats. */
  lemma PlaneHeightFollowsSubsampling(fmt: ImageFormat, plane: uint32, height: uint32)
    requires plane != 0
    ensures PlaneHeight(fmt, plane, height) == if ChromaSubsampling(fmt) == Sub420 then height / 2 else height
  {
  }

  /** PlaneWidth halves the chroma planes of the 4:2:0 and 4:2:2 formats,
      with one exception: G10X6_B10X6R10X6_2PLANE_420_UNORM_3PACK16. */
  lemma PlaneWidthFollowsSubsamplingExceptOne(fmt: ImageFormat, plane: uint32, width: uint32)
    requires plane != 0 && fmt != G10X6_B10X6R10X6_2PLANE_420_UNORM_3PACK16
    ensures PlaneWidth(fmt, plane, width) ==
              if ChromaSubsampling(fmt) in {Sub420, Sub422} then width / 2 else width
  {
    if !IsPlanar(fmt) {
      NonPlanarIsPlain(fmt, plane, width, 0);
    } else {
      match fmt
      case G8_B8R8_2PLANE_420_UNORM =>
      case G8_B8R8_2PLANE_422_UNORM =>
      case G8_B8_R8_3PLANE_420_UNORM =>
      case G8_B8_R8_3PLANE_422_UNORM =>
      case G8_B8_R8_3PLANE_444_UNORM =>
      case G16_B16R16_2PLANE_420_UNORM =>
      case G16_B16R16_2PLANE_422_UNORM =>
      case G16_B16_R16_3PLANE_420_UNORM =>
      case G16_B16_R16_3PLANE_422_UNORM =>
      case G16_B16_R16_3PLANE_444_UNORM =>
      case G10X6_B10X6R10X6_2PLANE_420_UNORM_3PACK16 =>
      case G10X6_B10X6R10X6_2PLANE_422_UNORM_3PACK16 =>
      case G12X4_B12X4R12X4_2PLANE_420_UNORM_3PACK16 =>
      case G12X4_B12X4R12X4_2PLANE_422_UNORM_3PACK16 =>
      case G12X4_B12X4_R12X4_3PLANE_420_UNORM_3PACK16 =>
      case G12X4_B12X4_R12X4_3PLANE_422_UNORM_3PACK16 =>
      case G12X4_B12X4_R12X4_3PLANE_444_UNORM_3PACK16 =>
      case G10X6_B10X6_R10X6_3PLANE_420_UNORM_3PACK16 =>
      case G10X6_B10X6_R10X6_3PLANE_422_UNORM_3PACK16 =>
      case G10X6_B10X6_R10X6_3PLANE_444_UNORM_3PACK16 =>
      case _ => assert false;
    }
  }

  /** As written, the chroma plane of G10X6_B10X6R10X6_2PLANE_420_UNORM_3PACK16
      is given half the height but the full width of a 2x2 image. */
  lemma PlaneWidthMissesOne420Format()
    ensures ChromaSubsampling(G10X6_B10X6R10X6_2PLANE_420_UNORM_3PACK16) == Sub420
    ensures PlaneHeight(G10X6_B10X6R10X6_2PLANE_420_UNORM_3PACK16, 1, 2) == 1
    ensures PlaneWidth(G10X6_B10X6R10X6_2PLANE_420_UNORM_3PACK16, 1, 2) == 2
  {
  }

  /** PlaneWidth with the missing 4:2:0 format added to the halving list. */
  function PlaneWidthCorrected(fmt: ImageFormat, plane: uint32, width: uint32): (w: uint32)
    ensures plane == 0 ==> w == width
    ensures plane != 0 ==> w == if ChromaSubsampling(fmt) in {Sub420, Sub422} then width / 2 else width
  {
    if plane == 0 then width
    else if fmt == G10X6_B10X6R10X6_2PLANE_420_UNORM_3PACK16 then width / 2
    else
      PlaneWidthFollowsSubsamplingExceptOne(fmt, plane, width);
      PlaneWidth(fmt, plane, width)
  }
}
