/**
 * The graphics calls of the engine, as data.
 *
 * Every operation of the model returns the list of calls it would make on the
 * mesh (`BufferData`, `AddAttribute`, `BindBuffer`) or on the WebGL context
 * (draws, texture calls, uniforms) instead of making them. Shader location
 * queries are functions carried by a `Shader` value. A small interpreter,
 * `Run`, gives the texture calls their meaning: which texture is bound and
 * which image each texture handle holds.
 */
module Gl {
  import opened Optional

  /** How a flat buffer is read as one vertex attribute: shader slot, byte offset,
      component count and attribute name. */
  datatype AttributeInfo = AttributeInfo(location: int, offset: int, size: int, name: string)

  datatype PrimitiveMode = Triangles | TriangleStrip
  datatype IndexType = UnsignedShort
  datatype PixelFormat = RgbaFormat
  datatype PixelType = UnsignedByte
  datatype TexParam = WrapS | WrapT | MinFilter
  datatype TexParamValue = ClampToEdge | Linear

  /** The contents of a buffer upload: vertex data or element indices. */
  datatype Payload = Floats(floats: seq<real>) | Elements(elements: seq<nat>)

  /** One call on the mesh or on the context. Every texture call targets TEXTURE_2D. */
  datatype Command =
    | BufferData(name: string, data: Payload)
    | AddAttribute(info: AttributeInfo)
    | BindBuffer(name: string)
    | DrawArrays(mode: PrimitiveMode, first: int, count: int)
    | DrawElements(mode: PrimitiveMode, count: int, indexType: IndexType, offset: int)
    | ActiveTexture(textureUnit: nat)
    | BindTexture(handle: nat)
    | TexImagePixels(level: int, internalFormat: PixelFormat, width: int, height: int,
                     border: int, format: PixelFormat, pixelType: PixelType, pixels: seq<int>)
    | TexImageSource(level: int, internalFormat: PixelFormat, format: PixelFormat,
                     pixelType: PixelType, width: int, height: int)
    | GenerateMipmap
    | TexParameter(param: TexParam, paramValue: TexParamValue)
    | Uniform1i(uniform: Option<nat>, unitIndex: int)

  /** A linked shader program, seen only through its two location queries.
      An attribute the program does not declare is at location -1; a uniform
      it does not declare has no location. */
  datatype Shader = Shader(attributeLocation: string -> int, uniformLocation: string -> Option<nat>)

  /** The new state of an object together with the calls made to get there. */
  datatype Emitted<S> = Emitted(next: S, trace: seq<Command>)

  /** What a texture handle holds: a pixel array, or a decoded image of known size. */
  datatype Image = PixelImage(width: int, height: int, pixels: seq<int>) | SourceImage(width: int, height: int)

  /** The texture state the calls act on: the handle bound to TEXTURE_2D (only
      texture unit 0 is ever used) and the last image specified for each handle.
      Only mip level 0 is ever specified, so levels are not tracked. */
  datatype TextureState = TextureState(bound: Option<nat>, images: map<nat, Image>)

  /** The effect of one call on the texture state. */
  function Step(s: TextureState, c: Command): TextureState
  {
    match c
    case BindTexture(h) => s.(bound := Some(h))
    case TexImagePixels(_, _, w, h, _, _, _, px) =>
      if s.bound.Some? then s.(images := s.images[s.bound.value := PixelImage(w, h, px)]) else s
    case TexImageSource(_, _, _, _, w, h) =>
      if s.bound.Some? then s.(images := s.images[s.bound.value := SourceImage(w, h)]) else s
    case _ => s
  }

  /** The effect of a whole trace, first call first. */
  function Run(s: TextureState, trace: seq<Command>): TextureState
    decreases |trace|
  {
    if trace == [] then s else Run(Step(s, trace[0]), trace[1..])
  }

  /** Whether a call touches the texture state at all. */
  predicate TouchesTextures(c: Command)
  {
    c.BindTexture? || c.TexImagePixels? || c.TexImageSource?
  }

  /** Running two traces one after the other is running their concatenation. */
  lemma {:induction false} RunAppend(s: TextureState, a: seq<Command>, b: seq<Command>)
    ensures Run(s, a + b) == Run(Run(s, a), b)
    decreases |a|
  {
    if a == [] {
      assert a + b == b;
    } else {
      assert (a + b)[1..] == a[1..] + b;
      RunAppend(Step(s, a[0]), a[1..], b);
    }
  }

  /** A trace that makes no texture call leaves the texture state as it was. */
  lemma {:induction false} RunWithoutTextureCalls(s: TextureState, trace: seq<Command>)
    requires forall i :: 0 <= i < |trace| ==> !TouchesTextures(trace[i])
    ensures Run(s, trace) == s
    decreases |trace|
  {
    if trace != [] {
      assert Step(s, trace[0]) == s;
      RunWithoutTextureCalls(s, trace[1..]);
    }
  }
}
