/**
 * The material of script/material/BasicMaterial.js: a colour and a binding
 * mode that can move from `attribute` to `texture` and never back.
 */
module BasicMaterial {
  import opened Optional
  import opened Gl

  /** A colour as four 0-255 channels. Its floating-point view belongs to the
      Color class, which is not part of this model. */
  datatype Color = Color(r: int, g: int, b: int, a: int)

  /** `BindingColorTypes.attribute` and `BindingColorTypes.texture`. */
  datatype BindingColorType = AttributeColor | TextureColor

  datatype Material = Material(color: Color, bindingType: BindingColorType, lastType: BindingColorType)

  /** The colour a material gets when none is passed. */
  const DefaultColor: Color := Color(100, 0, 0, 255)

  /** `new BasicMaterial(color)`; `None` is an omitted (undefined) argument. */
  function New(color: Option<Color>): (m: Material)
    ensures m.bindingType == AttributeColor
    ensures m.lastType == m.bindingType
    ensures color.Some? ==> m.color == color.value
    ensures color.None? ==> m.color == Color(100, 0, 0, 255)
  {
    var c := if color.Some? then color.value else DefaultColor;
    var initial := AttributeColor;
    Material(c, initial, initial)
  }

  /** `SetTypeIfTexture(texture)`: a present texture switches to texture
      colouring; an absent one changes nothing. */
  function SetTypeIfTexture<T>(m: Material, texture: Option<T>): (r: Material)
    ensures texture.Some? ==> r.bindingType == TextureColor
    ensures texture.None? ==> r == m
    ensures r.color == m.color && r.lastType == m.lastType
  {
    if texture.Some? then m.(bindingType := TextureColor) else m
  }

  /** `Bind(mesh)`: both modes are empty cases of the dispatch (the texture
      case is a stub), so the material is returned as it was and no call is made. */
  function Bind(m: Material): (r: Emitted<Material>)
    ensures r.next == m
    ensures r.trace == []
  {
    match m.bindingType
    case AttributeColor => Emitted(m, [])
    case TextureColor => Emitted(m, [])
  }

  /** A call a client makes on a material. */
  datatype Call<T> = SetType(texture: Option<T>) | BindMesh

  /** The material after one call. */
  function Perform<T>(m: Material, call: Call<T>): Material
  {
    match call
    case SetType(t) => SetTypeIfTexture(m, t)
    case BindMesh => Bind(m).next
  }

  /** The material after a series of calls, first call first. */
  function Apply<T>(m: Material, calls: seq<Call<T>>): Material
    decreases |calls|
  {
    if calls == [] then m
    else Apply(Perform(m, calls[0]), calls[1..])
  }

  /** Whether some call in the series passes a present texture. */
  predicate PassesTexture<T>(calls: seq<Call<T>>)
  {
    exists i :: 0 <= i < |calls| && calls[i].SetType? && calls[i].texture.Some?
  }

  /** The ratchet: after any series of calls the mode is `texture` exactly when
      it was `texture` before or some call passed a texture. In particular
      nothing ever returns it from `texture` to `attribute`. */
  lemma {:induction false} ModeAfterCalls<T>(m: Material, calls: seq<Call<T>>)
    ensures Apply(m, calls).bindingType == TextureColor
            <==> m.bindingType == TextureColor || PassesTexture(calls)
    decreases |calls|
  {
    if calls != [] {
      var m' := Perform(m, calls[0]);
      ModeAfterCalls(m', calls[1..]);
      if PassesTexture(calls[1..]) {
        var i :| 0 <= i < |calls[1..]| && calls[1..][i].SetType? && calls[1..][i].texture.Some?;
        assert calls[i + 1] == calls[1..][i];
      }
      if PassesTexture(calls) {
        var i :| 0 <= i < |calls| && calls[i].SetType? && calls[i].texture.Some?;
        if i > 0 {
          assert calls[1..][i - 1] == calls[i];
        }
      }
    }
  }

  /** Once in texture mode, no series of calls leaves it. */
  lemma {:induction false} Ratchet<T>(m: Material, calls: seq<Call<T>>)
    requires m.bindingType == TextureColor
    ensures Apply(m, calls).bindingType == TextureColor
  {
    ModeAfterCalls(m, calls);
  }

  /** No call changes the colour or `lastType`: a new material keeps its colour
      and `lastType` stays `attribute` forever. */
  lemma {:induction false} CallsKeepColorAndLastType<T>(m: Material, calls: seq<Call<T>>)
    ensures Apply(m, calls).color == m.color
    ensures Apply(m, calls).lastType == m.lastType
    decreases |calls|
  {
    if calls != [] {
      var m' := Perform(m, calls[0]);
      CallsKeepColorAndLastType(m', calls[1..]);
    }
  }

  /** From construction on, `lastType` is `attribute` whatever the calls. */
  lemma {:induction false} LastTypeNeverUpdated<T>(color: Option<Color>, calls: seq<Call<T>>)
    ensures Apply(New(color), calls).lastType == AttributeColor
  {
    CallsKeepColorAndLastType(New(color), calls);
  }
}
