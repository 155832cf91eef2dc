/**
 * The cube of script/geometry/BoxGeometry.js.
 *
 * A box holds the fixed cube topology (24 vertices, four per face, and 36
 * indices, two triangles per face), the per-face colour table and the flat
 * colour array built from it, the optional texture, the shader variant chosen
 * from it, and the cached uniform locations. `Bind` repaints every face in the
 * material's colour; `AddAttributeInfo`, `BufferAllData` and `Draw` are the
 * call sequences the box makes on its mesh and on the context.
 */
module BoxGeometry {
  import opened Optional
  import opened Gl
  import Texture
  import BasicMaterial

  /** The two shader pairs; their sources are not modelled. The textured pair
      adds the `aTextureCoord` attribute and the `uSampler` uniform. */
  datatype ShaderVariant = Plain | Textured

  /** A colour as four floating-point channels, as the shaders read it. */
  datatype Rgba = Rgba(r: real, g: real, b: real, a: real)

  /** The cached uniform locations; each is `null` until `SetLocations`. */
  datatype Locations = Locations(projection: Option<nat>, modelView: Option<nat>, normal: Option<nat>)

  datatype Box = Box(
    texture: Option<Texture.TextureResource>,
    variant: ShaderVariant,
    faceColors: seq<Rgba>,
    colors: seq<real>,
    locations: Locations)

  const VertexName: string := "aVertexPosition"
  const IndicesName: string := "indices"
  const NormalsName: string := "aVertexNormal"
  const ColorsName: string := "aVertexColor"
  const TextureName: string := "aTextureCoord"

  const ProjectionUniform: string := "uProjectionMatrix"
  const ModelViewUniform: string := "uModelViewMatrix"
  const NormalUniform: string := "uNormalMatrix"
  const SamplerUniform: string := "uSampler"

  /** Four vertices for each of the six faces. */
  const FaceCount: nat := 6
  const VertexCount: nat := 24
  /** The number of indices every draw covers. */
  const DrawCount: nat := 36

  /** Per vertex (u, v); every face maps its four corners the same way. */
  const TextureCoordinates: seq<real> := [
    0.0, 0.0, 1.0, 0.0, 1.0, 1.0, 0.0, 1.0, // front
    0.0, 0.0, 1.0, 0.0, 1.0, 1.0, 0.0, 1.0, // back
    0.0, 0.0, 1.0, 0.0, 1.0, 1.0, 0.0, 1.0, // top
    0.0, 0.0, 1.0, 0.0, 1.0, 1.0, 0.0, 1.0, // bottom
    0.0, 0.0, 1.0, 0.0, 1.0, 1.0, 0.0, 1.0, // right
    0.0, 0.0, 1.0, 0.0, 1.0, 1.0, 0.0, 1.0  // left
  ]

  /** Per vertex (x, y, z). */
  const VertexPositionData: seq<real> := [
    -1.0, -1.0, 1.0, 1.0, -1.0, 1.0, 1.0, 1.0, 1.0, -1.0, 1.0, 1.0,         // front
    -1.0, -1.0, -1.0, -1.0, 1.0, -1.0, 1.0, 1.0, -1.0, 1.0, -1.0, -1.0,     // back
    -1.0, 1.0, -1.0, -1.0, 1.0, 1.0, 1.0, 1.0, 1.0, 1.0, 1.0, -1.0,         // top
    -1.0, -1.0, -1.0, 1.0, -1.0, -1.0, 1.0, -1.0, 1.0, -1.0, -1.0, 1.0,     // bottom
    1.0, -1.0, -1.0, 1.0, 1.0, -1.0, 1.0, 1.0, 1.0, 1.0, -1.0, 1.0,         // right
    -1.0, -1.0, -1.0, -1.0, -1.0, 1.0, -1.0, 1.0, 1.0, -1.0, 1.0, -1.0      // left
  ]

  /** Two triangles per face, (0, 1, 2) and (0, 2, 3) on the face's four vertices. */
  const Indices: seq<nat> := [
    0, 1, 2, 0, 2, 3,       // front
    4, 5, 6, 4, 6, 7,       // back
    8, 9, 10, 8, 10, 11,    // top
    12, 13, 14, 12, 14, 15, // bottom
    16, 17, 18, 16, 18, 19, // right
    20, 21, 22, 20, 22, 23  // left
  ]

  /** Per vertex (x, y, z), the outward normal of the vertex's face. */
  const Normals: seq<real> := [
    0.0, 0.0, 1.0, 0.0, 0.0, 1.0, 0.0, 0.0, 1.0, 0.0, 0.0, 1.0,             // front
    0.0, 0.0, -1.0, 0.0, 0.0, -1.0, 0.0, 0.0, -1.0, 0.0, 0.0, -1.0,         // back
    0.0, 1.0, 0.0, 0.0, 1.0, 0.0, 0.0, 1.0, 0.0, 0.0, 1.0, 0.0,             // top
    0.0, -1.0, 0.0, 0.0, -1.0, 0.0, 0.0, -1.0, 0.0, 0.0, -1.0, 0.0,         // bottom
    1.0, 0.0, 0.0, 1.0, 0.0, 0.0, 1.0, 0.0, 0.0, 1.0, 0.0, 0.0,             // right
    -1.0, 0.0, 0.0, -1.0, 0.0, 0.0, -1.0, 0.0, 0.0, -1.0, 0.0, 0.0          // left
  ]

  /** The palette a new box starts with, face by face, with the values as the
      source writes them. */
  const DefaultFaceColors: seq<Rgba> := [
    Rgba(1.0, 1.0, 1.0, 1.0), // front
    Rgba(1.0, 0.0, 0.0, 1.0), // back
    Rgba(1.0, 1.0, 0.0, 1.0), // top
    Rgba(1.0, 0.0, 1.0, 1.0), // bottom
    Rgba(1.0, 1.0, 0.0, 1.0), // right
    Rgba(1.0, 0.0, 1.0, 1.0)  // left
  ]

  /** Channel k (0 = red, 1 = green, 2 = blue, 3 = alpha) of a colour. */
  function Channel(c: Rgba, k: int): real
    requires 0 <= k < 4
  {
    if k == 0 then c.r else if k == 1 then c.g else if k == 2 then c.b else c.a
  }

  // ---------------------------------------------------------------------------
  // Colours
  // ---------------------------------------------------------------------------

  /** `concat(c, c, c, c)`: one face's colour once for each of its four vertices. */
  function FaceBlock(c: Rgba): (block: seq<real>)
    ensures |block| == 16
    ensures forall j :: 0 <= j < 16 ==> block[j] == Channel(c, j % 4)
  {
    [c.r, c.g, c.b, c.a, c.r, c.g, c.b, c.a, c.r, c.g, c.b, c.a, c.r, c.g, c.b, c.a]
  }

  /** Entry i of the block that starts at 16 * (n - 1) belongs to face n - 1
      and has the channel of its offset in the block. */
  lemma LastBlockIndex(i: int, n: int)
    requires 16 * (n - 1) <= i < 16 * n
    ensures i / 16 == n - 1
    ensures (i - 16 * (n - 1)) % 4 == i % 4
  {
    QuotientBySixteen(i, n - 1, i - 16 * (n - 1));
    ShiftKeepsChannel(i, n - 1);
  }

  lemma ShiftKeepsChannel(i: int, q: int)
    ensures (i - 16 * q) % 4 == i % 4
  {
    var k := i - 16 * q;
    assert k == i + 4 * (-4 * q);
  }

  lemma QuotientBySixteen(i: int, q: int, r: int)
    requires i == 16 * q + r && 0 <= r < 16
    ensures i / 16 == q
  {
  }

  /** The colour loop: starting from the empty array, append each face's block
      in face order. */
  function FlattenFaceColors(faces: seq<Rgba>): (colors: seq<real>)
    ensures |colors| == 16 * |faces|
    ensures forall i :: 0 <= i < |colors| ==> colors[i] == Channel(faces[i / 16], i % 4)
    decreases |faces|
  {
    if faces == [] then []
    else
      var n := |faces|;
      var prefix := FlattenFaceColors(faces[..n - 1]);
      var colors := prefix + FaceBlock(faces[n - 1]);
      assert forall i :: 0 <= i < 16 * (n - 1) ==> colors[i] == Channel(faces[i / 16], i % 4) by {
        forall i | 0 <= i < 16 * (n - 1)
          ensures colors[i] == Channel(faces[i / 16], i % 4)
        {
          assert colors[i] == prefix[i];
          assert faces[..n - 1][i / 16] == faces[i / 16];
        }
      }
      assert forall i :: 16 * (n - 1) <= i < 16 * n ==> colors[i] == Channel(faces[i / 16], i % 4) by {
        forall i | 16 * (n - 1) <= i < 16 * n
          ensures colors[i] == Channel(faces[i / 16], i % 4)
        {
          var j := i - 16 * (n - 1);
          assert colors[i] == FaceBlock(faces[n - 1])[j];
          LastBlockIndex(i, n);
        }
      }
      colors
  }

  /** Face f's sixteen entries are its colour repeated for its four vertices. */
  lemma FaceChunks(faces: seq<Rgba>)
    ensures forall f :: 0 <= f < |faces| ==>
      16 * f + 16 <= |FlattenFaceColors(faces)| &&
      FlattenFaceColors(faces)[16 * f .. 16 * f + 16] == FaceBlock(faces[f])
  {
    forall f | 0 <= f < |faces|
      ensures 16 * f + 16 <= |FlattenFaceColors(faces)|
      ensures FlattenFaceColors(faces)[16 * f .. 16 * f + 16] == FaceBlock(faces[f])
    {
      FaceChunk(faces, f);
    }
  }

  lemma FaceChunk(faces: seq<Rgba>, f: nat)
    requires f < |faces|
    ensures 16 * f + 16 <= |FlattenFaceColors(faces)|
    ensures FlattenFaceColors(faces)[16 * f .. 16 * f + 16] == FaceBlock(faces[f])
  {
    var colors := FlattenFaceColors(faces);
    var chunk := colors[16 * f .. 16 * f + 16];
    forall j | 0 <= j < 16
      ensures chunk[j] == FaceBlock(faces[f])[j]
    {
      var i := 16 * f + j;
      assert chunk[j] == colors[i];
      LastBlockIndex(i, f + 1);
    }
  }

  /** The well-formed boxes: the variant follows the texture, there are six
      face colours and the flat colour array is built from them. */
  predicate Valid(g: Box)
  {
    && (g.variant == Textured <==> g.texture.Some?)
    && |g.faceColors| == FaceCount
    && g.colors == FlattenFaceColors(g.faceColors)
  }

  // ---------------------------------------------------------------------------
  // Construction, Bind, ReWriteColors, SetLocations
  // ---------------------------------------------------------------------------

  /** `new BoxGeometry({ texture })`; `None` is an absent (falsy) texture. */
  function Construct(texture: Option<Texture.TextureResource>): (g: Box)
    ensures g.variant == Textured <==> texture.Some?
    ensures g.texture == texture
    ensures |g.colors| == 96
    ensures forall i :: 0 <= i < |g.colors| ==> g.colors[i] == Channel(DefaultFaceColors[i / 16], i % 4)
    ensures g.locations == Locations(None, None, None)
    ensures Valid(g)
  {
    var variant := if texture.Some? then Textured else Plain;
    Box(texture, variant, DefaultFaceColors, FlattenFaceColors(DefaultFaceColors), Locations(None, None, None))
  }

  /** `ReWriteColors()`: rebuild the flat colour array from the face colours. */
  function ReWriteColors(g: Box): (r: Box)
    ensures |r.colors| == 16 * |g.faceColors|
    ensures forall i :: 0 <= i < |r.colors| ==> r.colors[i] == Channel(g.faceColors[i / 16], i % 4)
    ensures r.faceColors == g.faceColors && r.texture == g.texture
    ensures r.variant == g.variant && r.locations == g.locations
  {
    g.(colors := FlattenFaceColors(g.faceColors))
  }

  /** `Bind(mesh, material)`: paint all six faces in the material's colour, as
      `floatOf` reads it, and rewrite the colour array. The mesh is not used. */
  function Bind(g: Box, material: BasicMaterial.Material, floatOf: BasicMaterial.Color -> Rgba): (r: Box)
    ensures |r.colors| == 4 * VertexCount
    ensures forall i :: 0 <= i < |r.colors| ==> r.colors[i] == Channel(floatOf(material.color), i % 4)
    ensures |r.faceColors| == FaceCount
    ensures r.texture == g.texture && r.variant == g.variant && r.locations == g.locations
  {
    var c := floatOf(material.color);
    ReWriteColors(g.(faceColors := [c, c, c, c, c, c]))
  }

  /** `SetLocations(mesh)`: look up and cache the three transform uniforms. */
  function SetLocations(g: Box, shader: Shader): (r: Box)
    ensures r.locations.projection == shader.uniformLocation("uProjectionMatrix")
    ensures r.locations.modelView == shader.uniformLocation("uModelViewMatrix")
    ensures r.locations.normal == shader.uniformLocation("uNormalMatrix")
    ensures r.texture == g.texture && r.variant == g.variant
    ensures r.faceColors == g.faceColors && r.colors == g.colors
  {
    g.(locations := Locations(
      shader.uniformLocation(ProjectionUniform),
      shader.uniformLocation(ModelViewUniform),
      shader.uniformLocation(NormalUniform)))
  }

  // ---------------------------------------------------------------------------
  // Calls on the mesh and the context
  // ---------------------------------------------------------------------------

  /** The names of the attributes the box declares, in registration order. */
  function AttributeNames(g: Box): seq<string>
  {
    [VertexName, NormalsName, ColorsName] + (if g.texture.Some? then [TextureName] else [])
  }

  /** The names of the buffers the box fills, in upload order. */
  function BufferNames(g: Box): seq<string>
  {
    [VertexName, IndicesName, NormalsName, ColorsName] + (if g.texture.Some? then [TextureName] else [])
  }

  /** The array the box keeps under each of its buffer names. */
  function DataFor(g: Box, name: string): Payload
  {
    if name == VertexName then Floats(VertexPositionData)
    else if name == IndicesName then Elements(Indices)
    else if name == NormalsName then Floats(Normals)
    else if name == ColorsName then Floats(g.colors)
    else Floats(TextureCoordinates)
  }

  /** `AddAttributeInfo(mesh)`: register position (3 components), normal (3)
      and colour (4), and the texture coordinate (2) only when there is a
      texture; each at offset 0 and at whatever location the shader reports,
      -1 included. */
  function AddAttributeInfo(g: Box, shader: Shader): (r: seq<Command>)
    ensures |r| == |AttributeNames(g)|
    ensures forall i :: 0 <= i < |r| ==>
      && r[i].AddAttribute?
      && r[i].info.name == AttributeNames(g)[i]
      && r[i].info.location == shader.attributeLocation(AttributeNames(g)[i])
      && r[i].info.offset == 0
    ensures |r| >= 3 && r[0].info.size == 3 && r[1].info.size == 3 && r[2].info.size == 4
    ensures |r| == 4 ==> r[3].info.size == 2
  {
    var vertexLocation := shader.attributeLocation(VertexName);
    var normalsLocation := shader.attributeLocation(NormalsName);
    var colorLocation := shader.attributeLocation(ColorsName);
    var always := [
      AddAttribute(AttributeInfo(vertexLocation, 0, 3, VertexName)),
      AddAttribute(AttributeInfo(normalsLocation, 0, 3, NormalsName)),
      AddAttribute(AttributeInfo(colorLocation, 0, 4, ColorsName))];
    if g.texture.Some? then
      var textureLocation := shader.attributeLocation(TextureName);
      always + [AddAttribute(AttributeInfo(textureLocation, 0, 2, TextureName))]
    else
      always
  }

  /** `BufferAllData(mesh)`: upload positions, indices, normals and colours,
      and the texture coordinates only when there is a texture. */
  function BufferAllData(g: Box): (r: seq<Command>)
    ensures |r| == |BufferNames(g)|
    ensures forall i :: 0 <= i < |r| ==>
      && r[i].BufferData?
      && r[i].name == BufferNames(g)[i]
      && r[i].data == DataFor(g, BufferNames(g)[i])
  {
    var always := [
      BufferData(VertexName, Floats(VertexPositionData)),
      BufferData(IndicesName, Elements(Indices)),
      BufferData(NormalsName, Floats(Normals)),
      BufferData(ColorsName, Floats(g.colors))];
    if g.texture.Some? then
      always + [BufferData(TextureName, Floats(TextureCoordinates))]
    else
      always
  }

  /** `Draw(mesh)`: a non-indexed strip over 36 vertices from the position
      buffer, then the indexed triangle draw; with a texture, unit 0 gets the
      texture's handle, whatever its load state, and the sampler is pointed at it. */
  function Draw(g: Box, shader: Shader): (r: seq<Command>)
    ensures |r| == (if g.texture.Some? then 7 else 4)
    ensures r[0] == BindBuffer("aVertexPosition") && r[1] == DrawArrays(TriangleStrip, 0, 36)
    ensures r[2] == BindBuffer("indices") && r[3] == DrawElements(Triangles, 36, UnsignedShort, 0)
    ensures g.texture.Some? ==>
      && r[4] == ActiveTexture(0)
      && r[5] == BindTexture(g.texture.value.handle)
      && r[6] == Uniform1i(shader.uniformLocation("uSampler"), 0)
  {
    var geometry := [
      BindBuffer(VertexName), DrawArrays(TriangleStrip, 0, DrawCount),
      BindBuffer(IndicesName), DrawElements(Triangles, DrawCount, UnsignedShort, 0)];
    if g.texture.Some? then
      var sampler := shader.uniformLocation(SamplerUniform);
      geometry + [ActiveTexture(0), BindTexture(g.texture.value.handle), Uniform1i(sampler, 0)]
    else
      geometry
  }

  // ---------------------------------------------------------------------------
  // Properties
  // ---------------------------------------------------------------------------

  /** The six indices of face f: triangles (0, 1, 2) and (0, 2, 3) on its
      vertices 4f .. 4f + 3. */
  function FaceIndices(f: nat): seq<nat>
  {
    [4 * f, 4 * f + 1, 4 * f + 2, 4 * f, 4 * f + 2, 4 * f + 3]
  }

  /** The fixed array sizes: three coordinates per vertex for positions and
      normals, two for texture coordinates, and 36 indices. */
  lemma CubeArraySizes()
    ensures |Indices| == DrawCount
    ensures |VertexPositionData| == 3 * VertexCount && |Normals| == 3 * VertexCount
    ensures |TextureCoordinates| == 2 * VertexCount
  {
  }

  /** Every index names one of the 24 vertices. */
  lemma IndicesInRange()
    ensures forall i :: 0 <= i < |Indices| ==> Indices[i] < VertexCount
  {
  }

  /** The index array is the six faces' triangles in face order. */
  lemma IndicesByFace()
    ensures Indices == FaceIndices(0) + FaceIndices(1) + FaceIndices(2)
                     + FaceIndices(3) + FaceIndices(4) + FaceIndices(5)
  {
  }

  /** Repainting forgets the earlier paint: binding a second material gives
      exactly what binding it alone gives, and every colour entry is a channel
      of the second colour. */
  lemma BindOverwrites(g: Box, first: BasicMaterial.Material, second: BasicMaterial.Material,
                       floatOf: BasicMaterial.Color -> Rgba)
    ensures Bind(Bind(g, first, floatOf), second, floatOf) == Bind(g, second, floatOf)
    ensures |Bind(Bind(g, first, floatOf), second, floatOf).colors| == 96
    ensures forall i :: 0 <= i < 96 ==>
      Bind(Bind(g, first, floatOf), second, floatOf).colors[i] == Channel(floatOf(second.color), i % 4)
  {
  }

  /** Construction makes a well-formed box; `Bind` and `SetLocations` keep it
      well-formed, and `SetLocations` twice is `SetLocations` once. */
  lemma ValidThroughLifecycle(texture: Option<Texture.TextureResource>, material: BasicMaterial.Material,
                              floatOf: BasicMaterial.Color -> Rgba, shader: Shader, g: Box)
    ensures Valid(Construct(texture))
    ensures Valid(g) ==> Valid(Bind(g, material, floatOf))
    ensures Valid(g) ==> Valid(SetLocations(g, shader))
    ensures SetLocations(SetLocations(g, shader), shader) == SetLocations(g, shader)
  {
  }

  /** The texture decides everything texture-related together: the textured
      shader pair, the texture-coordinate attribute, its upload, and the
      sampler set up by `Draw`. */
  lemma TextureDecidesVariant(g: Box, shader: Shader)
    requires Valid(g)
    ensures g.variant == Textured <==> exists i :: 0 <= i < |AddAttributeInfo(g, shader)| && AddAttributeInfo(g, shader)[i].info.name == TextureName
    ensures g.variant == Textured <==> exists i :: 0 <= i < |BufferAllData(g)| && BufferAllData(g)[i].name == TextureName
    ensures g.variant == Textured <==> exists i :: 0 <= i < |Draw(g, shader)| && Draw(g, shader)[i].Uniform1i?
  {
    if g.variant == Textured {
      assert AddAttributeInfo(g, shader)[3].info.name == TextureName;
      assert BufferAllData(g)[4].name == TextureName;
      assert Draw(g, shader)[6].Uniform1i?;
    }
  }

  /** The attributes registered and the buffers uploaded agree: the uploaded
      names are the registered ones plus the index buffer, and each registered
      attribute's buffer holds `size` numbers for each of the 24 vertices. */
  lemma AttributesMatchBuffers(g: Box, shader: Shader)
    requires Valid(g)
    ensures (set c | c in BufferAllData(g) :: c.name)
            == (set c | c in AddAttributeInfo(g, shader) :: c.info.name) + {IndicesName}
    ensures IndicesName !in (set c | c in AddAttributeInfo(g, shader) :: c.info.name)
    ensures forall i, j :: 0 <= i < |AddAttributeInfo(g, shader)| && 0 <= j < |BufferAllData(g)|
              && BufferAllData(g)[j].BufferData? && BufferAllData(g)[j].name == AddAttributeInfo(g, shader)[i].info.name
              ==> BufferAllData(g)[j].data.Floats?
                  && |BufferAllData(g)[j].data.floats| == AddAttributeInfo(g, shader)[i].info.size * VertexCount
  {
  }

  /** Uploading then drawing never binds a buffer before it was uploaded. */
  lemma UploadBeforeBind(g: Box, shader: Shader)
    ensures var t := BufferAllData(g) + Draw(g, shader);
      forall i :: 0 <= i < |t| && t[i].BindBuffer? ==>
        exists j :: 0 <= j < i && t[j].BufferData? && t[j].name == t[i].name
  {
    var uploads := BufferAllData(g);
    var t := uploads + Draw(g, shader);
    forall i | 0 <= i < |t| && t[i].BindBuffer?
      ensures exists j :: 0 <= j < i && t[j].BufferData? && t[j].name == t[i].name
    {
      if i == |uploads| {
        assert t[0].name == VertexName;
      } else {
        assert i == |uploads| + 2;
        assert t[1].name == IndicesName;
      }
    }
  }

  /** The indexed draw reads exactly the uploaded indices, and each names an
      uploaded vertex. */
  lemma IndexedDrawInBounds(g: Box, shader: Shader)
    ensures Draw(g, shader)[3].DrawElements?
    ensures Draw(g, shader)[3].count == |Indices|
    ensures forall i :: 0 <= i < |Indices| ==> Indices[i] < |VertexPositionData| / 3
  {
  }

  /** The non-indexed strip draw asks for 36 vertices while the position buffer
      holds 24. */
  lemma StripDrawExceedsVertices(g: Box, shader: Shader)
    ensures Draw(g, shader)[1].DrawArrays?
    ensures Draw(g, shader)[1].first + Draw(g, shader)[1].count > |VertexPositionData| / 3
  {
  }

  /** On the texture state a draw only binds the box's texture handle, and only
      when there is a texture. */
  lemma DrawTextureEffect(s: TextureState, g: Box, shader: Shader)
    ensures g.texture.Some? ==> Run(s, Draw(g, shader)) == s.(bound := Some(g.texture.value.handle))
    ensures g.texture.None? ==> Run(s, Draw(g, shader)) == s
  {
    var trace := Draw(g, shader);
    var geometry := trace[..4];
    assert trace == geometry + trace[4..];
    RunWithoutTextureCalls(s, geometry);
    RunAppend(s, geometry, trace[4..]);
    if g.texture.Some? {
      var rest := trace[4..];
      var s1 := Step(s, rest[0]);
      var s2 := Step(s1, rest[1]);
      assert s2 == s.(bound := Some(g.texture.value.handle));
      assert rest[1..] == [rest[1]] + [rest[2]];
      RunAppend(s1, [rest[1]], [rest[2]]);
      assert Run(s1, [rest[1]]) == Run(s2, []);
      RunWithoutTextureCalls(s2, [rest[2]]);
    } else {
      assert trace[4..] == [];
    }
  }
}
