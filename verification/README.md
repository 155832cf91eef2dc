# Cube, texture and material bookkeeping of a small WebGL engine

This project models the CPU-side part of a minimal WebGL engine. That part decides
what data is uploaded to the GPU and which calls a draw makes. It covers three
classes:

- **BoxGeometry** (`box_geometry.dfy`). The fixed cube has 24 vertices, four per
  face, and 36 indices, two triangles per face. The class also holds positions,
  normals, texture coordinates, a per-face colour table and the flat 96-entry
  colour array built from that table. A texture passed to the constructor selects
  the textured shader pair. `Bind` repaints every face in the material's colour.
  `SetLocations` caches the three transform uniforms. `AddAttributeInfo`,
  `BufferAllData` and `Draw` are the calls the cube makes on its mesh and on the
  context.
- **Texture** (`texture.dfy`). Construction binds a new handle and uploads one
  opaque white pixel. The image's `onload` event rebinds the same handle and
  uploads the image. It then either generates mipmaps (both sides pass
  `isPowerOf2`) or sets clamp-to-edge wrapping and linear minification.
- **BasicMaterial** (`basic_material.dfy`). A material has a colour and a binding
  mode. `SetTypeIfTexture` can only move the mode from `attribute` to `texture`.
  `Bind` changes nothing.

Nothing calls WebGL directly. Each operation is a pure function that returns the
new state of its object, the list of calls it makes, or both (`Gl.Command`,
in `gl.dfy`). Examples are `BufferData(name, data)`, `AddAttribute(info)`,
`BindBuffer(name)`, `DrawArrays`, `DrawElements`, `BindTexture(handle)`,
`GenerateMipmap` and `TexParameter`. A linked shader is a `Gl.Shader` value that
holds its two location queries. `Gl.Run` is a small interpreter for the texture
calls. It tracks the bound handle and the image each handle holds, and so gives
meaning to statements such as "a draw before the load samples the placeholder"
(`lifecycle.dfy`). `optional.dfy` defines `Option`, whose `None` stands for an absent value. Each
use says which JavaScript values count as absent: an omitted (`undefined`) colour
argument, a falsy texture, or a `null` uniform location.

The model follows the code in these places:

- `AddAttributeInfo` registers every attribute at whatever location the shader
  reports, and it does not skip location -1.
- A texture has no failed state. Nothing handles a failed load, so the
  placeholder simply stays.
- The default palette is modelled with the values the code writes. The source's
  comments name other colours: for example, "green" is written as (1, 1, 0, 1).

The non-indexed `drawArrays(TRIANGLE_STRIP, 0, 36)` asks for 36 vertices, but the
buffers hold 24. The model keeps the count as written, and
`StripDrawExceedsVertices` states the gap.

## Model

| member | source | states |
|---|---|---|
| Texture.PowerOf2Exact | script/code/Texture.js:61-63 | states the meaning of `Texture.IsPowerOf2`, the model of `isPowerOf2`: for 0 < v < 2^32, the bitwise AND of v and v - 1 on 32-bit operands is 0 exactly when v = 2^k for some k |
| Texture.BitTrick | script/code/Texture.js:61-63 | for every n >= 1, n and n - 1 share no set bit if and only if n is a power of two (inductive proof) |
| Texture.PowerOf2AcceptsZero | script/code/Texture.js:61-63 | the test also accepts 0, which is no power of two |
| Texture.Create | script/code/Texture.js:3-36 | construction binds the given handle, uploads a 1x1 pixel [255, 255, 255, 255] at level 0 with border 0 and leaves the resource in the placeholder state with that handle |
| Texture.CreateUploadsPlaceholder | script/code/Texture.js:16-30 | from any prior texture state, after construction the new handle is bound and holds the 1x1 white pixel |
| Texture.OnLoad | script/code/Texture.js:38-58 | the load event keeps handle and source, records the image size, rebinds the handle and uploads the image; it generates mipmaps if and only if both sides pass the power-of-two test, sets both wraps to clamp-to-edge and the min filter to linear if and only if they do not, and never does both |
| Texture.OnLoadCallOrder | script/code/Texture.js:38-58 | the load makes exactly 3 calls with mipmaps and 5 without: bind, the image upload at mip level 0 with RGBA internal and source format and unsigned-byte type, then either the mipmap generation alone or WRAP_T and WRAP_S clamp-to-edge and MIN_FILTER linear, in that order |
| Texture.OnLoadFillsSameHandle | script/code/Texture.js:38-48 | from any prior texture state (another texture may be bound), the load leaves the constructor's handle bound and holding the decoded image, and no other handle changes |
| Texture.LoadExamples | script/code/Texture.js:50-56 | a 256x256 image gets mipmaps; a 300x200 image gets clamp-to-edge and no mipmaps |
| BasicMaterial.New | script/material/BasicMaterial.js:8-13 | a new material has the given colour or (100, 0, 0, 255) when none is passed, mode `attribute`, and `lastType` equal to the initial mode |
| BasicMaterial.SetTypeIfTexture | script/material/BasicMaterial.js:15-19 | a present texture sets the mode to `texture`; an absent one leaves the material unchanged; colour and `lastType` never change |
| BasicMaterial.Bind | script/material/BasicMaterial.js:24-35 | binding changes no material state in either mode and makes no call |
| BasicMaterial.ModeAfterCalls | script/material/BasicMaterial.js:15-35 | after any series of `SetTypeIfTexture`/`Bind` calls, the mode is `texture` if and only if it was `texture` before or some call passed a texture |
| BasicMaterial.Ratchet | script/material/BasicMaterial.js:15-19 | once the mode is `texture`, no series of calls returns it to `attribute` |
| BasicMaterial.CallsKeepColorAndLastType | script/material/BasicMaterial.js:15-35 | no series of calls changes the colour or `lastType` |
| BasicMaterial.LastTypeNeverUpdated | script/material/BasicMaterial.js:8-35 | from construction on, `lastType` stays `attribute` whatever the calls |
| BoxGeometry.FlattenFaceColors | script/geometry/BoxGeometry.js:224-229 | the colour loop yields 16 entries per face, and entry i is channel i mod 4 of face i / 16's colour |
| BoxGeometry.FaceChunks | script/geometry/BoxGeometry.js:226-229 | entries 16f to 16f + 15 of the flat array are face f's colour repeated for its four vertices |
| BoxGeometry.Construct | script/geometry/BoxGeometry.js:99-236 | the textured shader pair is chosen if and only if a texture is passed; the colour array has 96 entries following the default palette face by face; the uniform locations start as null; the box is well-formed |
| BoxGeometry.ReWriteColors | script/geometry/BoxGeometry.js:290-299 | the colour array is rebuilt from the current face colours (16 entries per face, channel by channel), nothing else changes |
| BoxGeometry.Bind | script/geometry/BoxGeometry.js:242-260 | after binding, the colour array has 96 entries and each of its 24 four-entry chunks is the material colour's (r, g, b, a) floats; texture, variant and locations are unchanged |
| BoxGeometry.BindOverwrites | script/geometry/BoxGeometry.js:250-259 | binding a first then a second material gives exactly what binding the second alone gives; the 96 entries are all channels of the second colour |
| BoxGeometry.SetLocations | script/geometry/BoxGeometry.js:265-274 | the three cached locations are the shader's answers for the projection, model-view and normal matrices; the data arrays are unchanged |
| BoxGeometry.ValidThroughLifecycle | script/geometry/BoxGeometry.js:103-113 | construction yields a well-formed box (variant follows texture, six faces, colours built from them); `Bind` and `SetLocations` keep it well-formed; `SetLocations` twice equals once |
| BoxGeometry.AddAttributeInfo | script/geometry/BoxGeometry.js:304-325 | registers position (3), normal (3) and colour (4), plus the texture coordinate (2) only with a texture, all at offset 0 and at the location the shader reports, -1 included |
| BoxGeometry.BufferAllData | script/geometry/BoxGeometry.js:279-288 | uploads positions, indices, normals and colours in this order, then texture coordinates only with a texture; each upload carries the box's array of that name and nothing else is uploaded |
| BoxGeometry.Draw | script/geometry/BoxGeometry.js:330-349 | binds the position buffer, draws a 36-vertex strip, binds the index buffer, draws 36 indexed triangles; only with a texture it then activates unit 0, binds the texture's handle and sets the sampler to unit 0 |
| BoxGeometry.CubeArraySizes | script/geometry/BoxGeometry.js:116-211 | 36 indices, 72 position and 72 normal coordinates (3 per vertex), 48 texture coordinates (2 per vertex) |
| BoxGeometry.IndicesInRange | script/geometry/BoxGeometry.js:153-190 | every index is below 24 |
| BoxGeometry.IndicesByFace | script/geometry/BoxGeometry.js:153-190 | face f's six indices are 4f + (0, 1, 2, 0, 2, 3), faces in order |
| BoxGeometry.TextureDecidesVariant | script/geometry/BoxGeometry.js:106-113 | on a well-formed box the textured shader pair, the registered texture-coordinate attribute, its upload and the sampler set by `Draw` all come together, each if and only if the others do |
| BoxGeometry.AttributesMatchBuffers | script/geometry/BoxGeometry.js:279-325 | the uploaded buffer names are exactly the registered attribute names plus `indices`; each registered attribute's buffer holds `size` numbers for each of the 24 vertices |
| BoxGeometry.UploadBeforeBind | script/geometry/BoxGeometry.js:279-335 | in uploading followed by drawing, every buffer bind comes after an upload of that buffer |
| BoxGeometry.IndexedDrawInBounds | script/geometry/BoxGeometry.js:330-335 | the indexed draw covers exactly the 36 uploaded indices, and each names an uploaded vertex |
| BoxGeometry.StripDrawExceedsVertices | script/geometry/BoxGeometry.js:330-332 | the non-indexed strip draw asks for more vertices (36) than the position buffer holds (24) |
| BoxGeometry.DrawTextureEffect | script/geometry/BoxGeometry.js:337-348 | on the texture state, a draw only binds the box's texture handle, and only when there is a texture |
| Lifecycle.DrawIgnoresLoadState | script/geometry/BoxGeometry.js:337-348 | a draw makes the same calls whether the texture's image has arrived or not |
| Lifecycle.DrawBeforeLoadSamplesPlaceholder | script/code/Texture.js:13-36 | a draw after construction and before the load binds the new handle, which holds the 1x1 white pixel |
| Lifecycle.DrawAfterLoadSamplesImage | script/code/Texture.js:38-58 | a draw after the load binds the same handle, which holds the decoded image |

## Left out

- The GLSL sources of the two shader pairs are left out. They are GPU floating-point code, so they appear only as the tokens `Plain` and `Textured`.
- `Mesh`, `Shader`, `Engine` and the `gl` context are not part of this model. Their effects appear as command-list entries, and the location queries appear as functions inside a `Shader` value.
- The `Color` class and its byte-to-float conversion are not part of this model. A material colour holds four byte channels, and `BoxGeometry.Bind` receives the float view as a parameter `floatOf`.
- `Image` and the asynchronous fetch and decode are left out. Only the `onload` event is modelled, as `Texture.OnLoad` with the image's width and height. `Load` itself only installs that callback. A failed load is unhandled in the source, so it is not modelled.
- BasicMaterial.New: an explicit `null` colour is not modelled. The source's default parameter applies only to `undefined`, so `null` would be kept and `BoxGeometry.Bind` would later throw on it. `None` stands only for an omitted colour.
- BoxGeometry.Construct: a call with no argument object is not modelled. The source destructures `{ texture }` from a parameter without a default, so it throws a TypeError. `Construct(None)` stands for `{}` or a falsy `texture`.
- Texture handle allocation (`gl.createTexture()`) is a parameter of `Texture.Create`.
- JavaScript truthiness is modelled as `Option`: a texture argument is either present or absent. Falsy non-object values such as `0` or `""` are not modelled.
- The texture interpreter `Gl.Run` tracks a single binding point, because only texture unit 0 and `TEXTURE_2D` are used. It tracks level 0 only and does not track texture parameters. The parameter calls are stated on the emitted list instead.
- The `mesh` argument of `BoxGeometry.Bind` is unused in the source, so it is omitted.
- Matrix, camera and render-loop code is out of scope, so it is left out. This includes the order in which the engine calls the geometry's operations.
- The power-of-two test `Texture.IsPowerOf2` models JavaScript's `&` on ToUint32 operands as a bit-by-bit AND on integers, not as a `bv32` operation. The bit pattern and the zero test are the same. `Texture.PowerOf2Exact` states the meaning for 0 < v < 2^32. For integers below 2^53, inputs of 2^32 or more wrap as in the source.
- Texture.IsPowerOf2: does not model float64 rounding of `value - 1`. From 2^53 upward JavaScript may round `value - 1` back to `value` (for 2^53 + 4 the source answers false and the model true), because the model computes on exact integers. Image sides are unsigned longs below 2^32, so the load branch is unaffected.
