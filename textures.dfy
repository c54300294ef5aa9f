/**
 * Texture registration of src/texture.rs: check that the pixel buffer is exactly
 * width * height * bytes-per-pixel long, then ask the backend for a texture.
 */
module Textures {
  import opened Primitives
  import opened Wrappers

  datatype TextureFormat = RGBA8 | RGB8

  /** The `TextureParams` fields registration sets; the rest stay at the backend's defaults. */
  datatype TextureParams = TextureParams(width: U32, height: U32, format: TextureFormat)

  /** A texture the backend holds: its pixel data and parameters. */
  datatype Texture = Texture(data: seq<U8>, params: TextureParams)

  /** The backend's handle for a texture: here, its position in creation order. */
  datatype TextureId = TextureId(slot: nat)

  /** Stands for the failed `assert_eq!`: the length expected and the one given. */
  datatype SizeMismatch = SizeMismatch(expected: USize, actual: nat)

  function BytesPerPixel(format: TextureFormat): (n: nat)
  {
    match format
    case RGBA8 => 4
    case RGB8 => 3
  }

  /** Largest product of two `u16` values and four bytes per pixel. */
  const MaxExpectedLen: int := 0xFFFF * 0xFFFF * 4

  /** The byte count of a `u16` by `u16` image is bounded, far below `usize::MAX` on 64-bit targets. */
  lemma ExpectedLenBounded(width: U16, height: U16, format: TextureFormat)
    ensures 0 <= width as int * height as int * BytesPerPixel(format) <= MaxExpectedLen
    ensures MaxExpectedLen < 0x1_0000_0000_0000_0000
  {
    var w, h, b := width as int, height as int, BytesPerPixel(format);
    MulMonotone(w, 0xFFFF, h);
    MulMonotone(h, 0xFFFF, 0xFFFF);
    MulMonotone(w * h, 0xFFFF * 0xFFFF, b);
    MulMonotone(b, 4, 0xFFFF * 0xFFFF);
  }

  lemma MulMonotone(a: int, b: int, c: int)
    requires 0 <= a <= b && 0 <= c
    ensures 0 <= a * c <= b * c
  {
  }

  /**
   * `width as usize * height as usize * bpp`: each factor is widened before the
   * multiplication, so the `usize` product never overflows.
   */
  function ExpectedLen(width: U16, height: U16, format: TextureFormat): (n: USize)
    ensures n as int == width as int * height as int * BytesPerPixel(format)
    ensures n as int <= MaxExpectedLen
  {
    ExpectedLenBounded(width, height, format);
    var w, h := width as USize, height as USize;
    MulMonotone(width as int, 0xFFFF, height as int);
    MulMonotone(height as int, 0xFFFF, 0xFFFF);
    w * h * BytesPerPixel(format) as USize
  }

  /** The registration guard. */
  predicate SizeMatches(width: U16, height: U16, format: TextureFormat, len: nat)
    ensures SizeMatches(width, height, format, len) <==> len == width as int * height as int * BytesPerPixel(format)
  {
    ExpectedLen(width, height, format) as int == len
  }

  /** An image with no rows or no columns is accepted exactly when its buffer is empty. */
  lemma ZeroSizedTexture(width: U16, height: U16, format: TextureFormat, len: nat)
    requires width == 0 || height == 0
    ensures SizeMatches(width, height, format, len) <==> len == 0
  {
  }

  /** A 2 by 2 RGBA image takes 16 bytes: 16 are accepted and 10 refused. */
  lemma TwoByTwoRgba()
    ensures SizeMatches(2, 2, RGBA8, 16)
    ensures !SizeMatches(2, 2, RGBA8, 10)
    ensures !SizeMatches(2, 2, RGB8, 16) && SizeMatches(2, 2, RGB8, 12)
  {
  }

  /**
   * The rendering backend, reduced to texture creation: a counter of issued
   * textures and, as ghost state, the textures themselves in creation order.
   */
  class Backend {
    var textureCount: nat
    ghost var textures: seq<Texture>

    ghost predicate Valid()
      reads this
    {
      textureCount == |textures|
    }

    constructor ()
      ensures Valid() && textures == []
    {
      textureCount := 0;
      textures := [];
    }

    /** `new_texture_from_data_and_format`: one new texture, named by the id returned. */
    method NewTextureFromDataAndFormat(data: seq<U8>, params: TextureParams) returns (id: TextureId)
      requires Valid()
      modifies this
      ensures Valid()
      ensures textures == old(textures) + [Texture(data, params)]
      ensures id == TextureId(|old(textures)|)
    {
      id := TextureId(textureCount);
      textureCount := textureCount + 1;
      textures := textures + [Texture(data, params)];
    }
  }

  /** `TextureContext`: the registration surface over the shared backend. */
  class TextureContext {
    const backend: Backend

    constructor (backend: Backend)
      ensures this.backend == backend
    {
      this.backend := backend;
    }

    /**
     * The body shared by both registration calls: on a length mismatch nothing
     * reaches the backend; otherwise exactly one texture with the given
     * dimensions, widened to `u32`, and format is created, and its id returned.
     */
    method Register(width: U16, height: U16, format: TextureFormat, buffer: seq<U8>)
      returns (r: Result<TextureId, SizeMismatch>)
      requires backend.Valid()
      modifies backend
      ensures backend.Valid()
      ensures r.Success? <==> SizeMatches(width, height, format, |buffer|)
      ensures r.Success? <==> |buffer| == width as int * height as int * BytesPerPixel(format)
      ensures r.Failure? ==> unchanged(backend)
      ensures r.Failure? ==> r.error == SizeMismatch(ExpectedLen(width, height, format), |buffer|)
      ensures r.Success? ==>
        backend.textures == old(backend.textures) + [Texture(buffer, TextureParams(width as U32, height as U32, format))]
      ensures r.Success? ==> r.value == TextureId(|old(backend.textures)|)
    {
      if !SizeMatches(width, height, format, |buffer|) {
        return Failure(SizeMismatch(ExpectedLen(width, height, format), |buffer|));
      }
      var id := backend.NewTextureFromDataAndFormat(buffer, TextureParams(width as U32, height as U32, format));
      r := Success(id);
    }

    /** `register_texture_rgba8`: four bytes per pixel. */
    method RegisterTextureRgba8(width: U16, height: U16, buffer: seq<U8>) returns (r: Result<TextureId, SizeMismatch>)
      requires backend.Valid()
      modifies backend
      ensures backend.Valid()
      ensures r.Success? <==> SizeMatches(width, height, RGBA8, |buffer|)
      ensures r.Success? <==> |buffer| == width as int * height as int * 4
      ensures r.Failure? ==> unchanged(backend)
      ensures r.Success? ==>
        backend.textures == old(backend.textures) + [Texture(buffer, TextureParams(width as U32, height as U32, RGBA8))]
      ensures r.Success? ==> r.value == TextureId(|old(backend.textures)|)
    {
      r := Register(width, height, RGBA8, buffer);
    }

    /** `register_texture_rgb8`: three bytes per pixel. */
    method RegisterTextureRgb8(width: U16, height: U16, buffer: seq<U8>) returns (r: Result<TextureId, SizeMismatch>)
      requires backend.Valid()
      modifies backend
      ensures backend.Valid()
      ensures r.Success? <==> SizeMatches(width, height, RGB8, |buffer|)
      ensures r.Success? <==> |buffer| == width as int * height as int * 3
      ensures r.Failure? ==> unchanged(backend)
      ensures r.Success? ==>
        backend.textures == old(backend.textures) + [Texture(buffer, TextureParams(width as U32, height as U32, RGB8))]
      ensures r.Success? ==> r.value == TextureId(|old(backend.textures)|)
    {
      r := Register(width, height, RGB8, buffer);
    }
  }
}
