/**
 * The texture resource of script/code/Texture.js.
 *
 * Construction binds a new handle and fills it with a single opaque white
 * pixel; the image's `onload` event later rebinds the same handle, uploads the
 * decoded image, and either generates mipmaps (both sides a power of two) or
 * switches to clamp-to-edge wrapping and linear minification. The handle
 * itself is a parameter: allocating it is the context's business.
 */
module Texture {
  import opened Optional
  import opened Gl

  const Level: int := 0
  const InternalFormat: PixelFormat := RgbaFormat
  const PlaceholderWidth: int := 1
  const PlaceholderHeight: int := 1
  const Border: int := 0
  const SourceFormat: PixelFormat := RgbaFormat
  const SourceType: PixelType := UnsignedByte
  /** One opaque white RGBA pixel. */
  const WhitePixel: seq<int> := [255, 255, 255, 255]

  /** Placeholder until the image arrives, then the image's size. Nothing
      reports a failed load, so there is no failed state. */
  datatype LoadState = Placeholder | Loaded(width: int, height: int)

  datatype TextureResource = TextureResource(src: string, handle: nat, state: LoadState)

  // ---------------------------------------------------------------------------
  // The power-of-two test
  // ---------------------------------------------------------------------------

  /** JavaScript's ToUint32: the low 32 bits of an integer, as a non-negative
      number. `&` reads both operands this way (ToInt32 has the same bits). */
  function ToUint32(n: int): (r: nat)
    ensures r < 0x1_0000_0000
    ensures 0 <= n < 0x1_0000_0000 ==> r == n
  {
    n % 0x1_0000_0000
  }

  /** Bitwise AND of two non-negative integers, one bit at a time from the least
      significant end. */
  function BitAnd(a: nat, b: nat): (r: nat)
    ensures r <= a && r <= b
    decreases a
  {
    if a == 0 || b == 0 then 0
    else 2 * BitAnd(a / 2, b / 2) + (if a % 2 == 1 && b % 2 == 1 then 1 else 0)
  }

  /** `isPowerOf2(value)`: `(value & (value - 1)) === 0` on 32-bit operands. */
  predicate IsPowerOf2(value: int)
  {
    BitAnd(ToUint32(value), ToUint32(value - 1)) == 0
  }

  /** 2 to the power k. */
  function Pow2(k: nat): (r: nat)
    ensures r >= 1
  {
    if k == 0 then 1 else 2 * Pow2(k - 1)
  }

  lemma {:induction false} BitAndSelf(a: nat)
    ensures BitAnd(a, a) == a
    decreases a
  {
    if a != 0 {
      BitAndSelf(a / 2);
    }
  }

  /** Every power of two above 1 is even. */
  lemma {:induction false} Pow2Even(k: nat)
    requires k >= 1
    ensures Pow2(k) % 2 == 0
  {
  }

  /** An even n >= 2 shares a bit with n - 1 exactly when n / 2 shares one with n / 2 - 1. */
  lemma BitAndEven(n: nat)
    requires n >= 2 && n % 2 == 0
    ensures BitAnd(n, n - 1) == 2 * BitAnd(n / 2, n / 2 - 1)
  {
    assert (n - 1) / 2 == n / 2 - 1;
  }

  /** An odd n >= 3 always shares a bit with n - 1. */
  lemma BitAndOdd(n: nat)
    requires n >= 3 && n % 2 == 1
    ensures BitAnd(n, n - 1) != 0
  {
    assert (n - 1) / 2 == n / 2;
    assert (n - 1) % 2 == 0;
    assert BitAnd(n, n - 1) == 2 * BitAnd(n / 2, n / 2);
    BitAndSelf(n / 2);
  }

  /** No odd number above 1 is a power of two. */
  lemma OddIsNoPower(n: nat)
    requires n >= 3 && n % 2 == 1
    ensures forall k: nat :: n != Pow2(k)
  {
    forall k: nat
      ensures n != Pow2(k)
    {
      if k >= 1 {
        Pow2Even(k);
      }
    }
  }

  /** The bit trick on a positive number: n and n - 1 share no bit exactly when
      n is a power of two. */
  lemma {:induction false} BitTrick(n: nat)
    requires n >= 1
    ensures BitAnd(n, n - 1) == 0 <==> exists k: nat :: n == Pow2(k)
    decreases n
  {
    if n == 1 {
      assert n == Pow2(0);
    } else if n % 2 == 0 {
      var m := n / 2;
      BitAndEven(n);
      BitTrick(m);
      if BitAnd(n, n - 1) == 0 {
        var k: nat :| m == Pow2(k);
        assert n == Pow2(k + 1);
      }
      if exists k: nat :: n == Pow2(k) {
        var k: nat :| n == Pow2(k);
        assert k != 0;
        assert m == Pow2(k - 1);
        assert exists j: nat :: m == Pow2(j);
      }
    } else {
      BitAndOdd(n);
      OddIsNoPower(n);
    }
  }

  /** For every image side the test can meet without wrapping (0 < v < 2^32),
      `isPowerOf2(v)` holds exactly when v is 2^k for some k. */
  lemma PowerOf2Exact(v: int)
    requires 0 < v < 0x1_0000_0000
    ensures IsPowerOf2(v) <==> exists k: nat :: v == Pow2(k)
  {
    BitTrick(v);
  }

  /** The test also accepts 0, which is no power of two: 0 & -1 is 0. */
  lemma PowerOf2AcceptsZero()
    ensures IsPowerOf2(0)
    ensures forall k: nat :: Pow2(k) != 0
  {
  }

  // ---------------------------------------------------------------------------
  // Construction and loading
  // ---------------------------------------------------------------------------

  /** The call that fills the bound handle with the placeholder pixel. */
  function PlaceholderUpload(): Command
  {
    TexImagePixels(Level, InternalFormat, PlaceholderWidth, PlaceholderHeight,
                   Border, SourceFormat, SourceType, WhitePixel)
  }

  /** `new Texture(src)` on a freshly allocated `handle`: bind it, upload the
      placeholder, and start loading (the load itself is the `OnLoad` event). */
  function Create(src: string, handle: nat): (r: Emitted<TextureResource>)
    ensures r.next.src == src && r.next.handle == handle && r.next.state == Placeholder
    ensures |r.trace| == 2 && r.trace[0] == BindTexture(handle)
    ensures r.trace[1].TexImagePixels? && r.trace[1].width == 1 && r.trace[1].height == 1
    ensures r.trace[1].pixels == [255, 255, 255, 255]
    ensures r.trace[1].level == 0 && r.trace[1].border == 0
  {
    Emitted(TextureResource(src, handle, Placeholder), [BindTexture(handle), PlaceholderUpload()])
  }

  /** Whether a sized image may have mipmaps generated for it. */
  predicate MipmapCapable(width: int, height: int)
  {
    IsPowerOf2(width) && IsPowerOf2(height)
  }

  /** The `image.onload` callback that `Load` installs, fired with the decoded
      image's width and height. */
  function OnLoad(t: TextureResource, width: int, height: int): (r: Emitted<TextureResource>)
    ensures r.next.handle == t.handle && r.next.src == t.src
    ensures r.next.state == Loaded(width, height)
    ensures |r.trace| >= 3 && r.trace[0] == BindTexture(t.handle)
    ensures r.trace[1].TexImageSource? && r.trace[1].width == width && r.trace[1].height == height
    ensures GenerateMipmap in r.trace <==> MipmapCapable(width, height)
    ensures TexParameter(WrapS, ClampToEdge) in r.trace <==> !MipmapCapable(width, height)
    ensures TexParameter(WrapT, ClampToEdge) in r.trace <==> !MipmapCapable(width, height)
    ensures TexParameter(MinFilter, Linear) in r.trace <==> !MipmapCapable(width, height)
    ensures !(GenerateMipmap in r.trace && exists i :: 0 <= i < |r.trace| && r.trace[i].TexParameter?)
  {
    var upload := ImageUpload(t, width, height);
    var setup := SamplingSetup(width, height);
    assert forall c :: c in upload + setup <==> c in upload || c in setup;
    Emitted(t.(state := Loaded(width, height)), ImageUpload(t, width, height) + SamplingSetup(width, height))
  }

  /** The first half of the load: rebind the handle and upload the image. */
  function ImageUpload(t: TextureResource, width: int, height: int): (r: seq<Command>)
    ensures |r| == 2 && r[0] == BindTexture(t.handle)
    ensures r[1].TexImageSource? && r[1].width == width && r[1].height == height
    ensures r[1].level == 0 && r[1].internalFormat == RgbaFormat
            && r[1].format == RgbaFormat && r[1].pixelType == UnsignedByte
  {
    [BindTexture(t.handle), TexImageSource(Level, InternalFormat, SourceFormat, SourceType, width, height)]
  }

  /** The second half of the load: mipmaps, or clamping and linear filtering. */
  function SamplingSetup(width: int, height: int): (r: seq<Command>)
    ensures |r| == (if MipmapCapable(width, height) then 1 else 3)
    ensures MipmapCapable(width, height) ==> r[0] == GenerateMipmap
    ensures !MipmapCapable(width, height) ==>
              r[0] == TexParameter(WrapT, ClampToEdge)
              && r[1] == TexParameter(WrapS, ClampToEdge)
              && r[2] == TexParameter(MinFilter, Linear)
    ensures GenerateMipmap in r <==> MipmapCapable(width, height)
    ensures TexParameter(WrapS, ClampToEdge) in r <==> !MipmapCapable(width, height)
    ensures TexParameter(WrapT, ClampToEdge) in r <==> !MipmapCapable(width, height)
    ensures TexParameter(MinFilter, Linear) in r <==> !MipmapCapable(width, height)
    ensures !(GenerateMipmap in r && exists i :: 0 <= i < |r| && r[i].TexParameter?)
    ensures forall i :: 0 <= i < |r| ==> !TouchesTextures(r[i])
  {
    if MipmapCapable(width, height) then
      [GenerateMipmap]
    else
      [TexParameter(WrapT, ClampToEdge), TexParameter(WrapS, ClampToEdge), TexParameter(MinFilter, Linear)]
  }

  /** Whatever was bound before, construction leaves the new handle bound and
      holding the 1x1 white pixel. */
  lemma CreateUploadsPlaceholder(s: TextureState, src: string, handle: nat)
    ensures Run(s, Create(src, handle).trace).bound == Some(handle)
    ensures handle in Run(s, Create(src, handle).trace).images
    ensures Run(s, Create(src, handle).trace).images[handle] == PixelImage(1, 1, WhitePixel)
  {
    var trace := Create(src, handle).trace;
    var s1 := Step(s, trace[0]);
    assert trace[1..] == [trace[1]];
    assert s1.bound == Some(handle);
    assert Step(s1, trace[1]).images == s1.images[handle := PixelImage(1, 1, WhitePixel)];
    assert Run(s1, trace[1..]) == Run(Step(s1, trace[1]), []);
  }

  /** Whatever was bound before (a draw may have bound another texture), the
      load rebinds the handle allocated at construction and fills it with the
      decoded image; no other handle changes. */
  lemma OnLoadFillsSameHandle(s: TextureState, t: TextureResource, width: int, height: int)
    ensures Run(s, OnLoad(t, width, height).trace).bound == Some(t.handle)
    ensures Run(s, OnLoad(t, width, height).trace).images
            == s.images[t.handle := SourceImage(width, height)]
  {
    var upload := ImageUpload(t, width, height);
    var setup := SamplingSetup(width, height);
    RunAppend(s, upload, setup);
    var s1 := Step(s, upload[0]);
    var s2 := Step(s1, upload[1]);
    assert upload[1..] == [upload[1]];
    assert Run(s1, [upload[1]]) == Run(s2, []);
    RunWithoutTextureCalls(s2, setup);
  }

  /** The exact calls of the load: the image upload at mip level 0 as RGBA
      unsigned bytes, then either the mipmap generation alone or WRAP_T, WRAP_S
      and MIN_FILTER in that order. */
  lemma OnLoadCallOrder(t: TextureResource, width: int, height: int)
    ensures var r := OnLoad(t, width, height).trace;
            r[1].TexImageSource? && r[1].level == 0 && r[1].internalFormat == RgbaFormat
            && r[1].format == RgbaFormat && r[1].pixelType == UnsignedByte
    ensures |OnLoad(t, width, height).trace| == (if MipmapCapable(width, height) then 3 else 5)
    ensures MipmapCapable(width, height) ==> OnLoad(t, width, height).trace[2..] == [GenerateMipmap]
    ensures !MipmapCapable(width, height) ==>
              OnLoad(t, width, height).trace[2..]
              == [TexParameter(WrapT, ClampToEdge), TexParameter(WrapS, ClampToEdge), TexParameter(MinFilter, Linear)]
  {
    assert OnLoad(t, width, height).trace[2..] == SamplingSetup(width, height);
  }

  /** A 256x256 image gets mipmaps; a 300x200 image gets clamp-to-edge and
      linear filtering and no mipmaps. */
  lemma LoadExamples(t: TextureResource)
    ensures GenerateMipmap in OnLoad(t, 256, 256).trace
    ensures GenerateMipmap !in OnLoad(t, 300, 200).trace
    ensures TexParameter(WrapS, ClampToEdge) in OnLoad(t, 300, 200).trace
  {
    PowerOf2Exact(256);
    assert 256 == Pow2(8);
    assert BitAnd(300, 299) != 0;
  }
}
