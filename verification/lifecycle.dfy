/**
 * How a textured box and its texture meet at draw time. The draw never waits
 * for the image: it binds the texture's handle as it stands, so a frame drawn
 * before the load samples the white placeholder and a frame drawn after it
 * samples the image.
 */
module Lifecycle {
  import opened Optional
  import opened Gl
  import Texture
  import BoxGeometry

  /** The calls of a draw do not depend on whether the image has arrived. */
  lemma DrawIgnoresLoadState(t: Texture.TextureResource, width: int, height: int, shader: Shader)
    ensures BoxGeometry.Draw(BoxGeometry.Construct(Some(t)), shader)
            == BoxGeometry.Draw(BoxGeometry.Construct(Some(Texture.OnLoad(t, width, height).next)), shader)
  {
  }

  /** Construct a texture, then draw a box that uses it before any load event:
      the bound texture is the new handle and it holds the 1x1 white pixel. */
  lemma DrawBeforeLoadSamplesPlaceholder(s: TextureState, src: string, handle: nat, shader: Shader)
    ensures var created := Texture.Create(src, handle);
            var box := BoxGeometry.Construct(Some(created.next));
            var after := Run(s, created.trace + BoxGeometry.Draw(box, shader));
            && after.bound == Some(handle)
            && handle in after.images
            && after.images[handle] == PixelImage(1, 1, [255, 255, 255, 255])
  {
    var created := Texture.Create(src, handle);
    var box := BoxGeometry.Construct(Some(created.next));
    Texture.CreateUploadsPlaceholder(s, src, handle);
    RunAppend(s, created.trace, BoxGeometry.Draw(box, shader));
    BoxGeometry.DrawTextureEffect(Run(s, created.trace), box, shader);
  }

  /** Whatever happened before (other draws, other textures), once the load
      event has run a draw binds the same handle and it holds the decoded image. */
  lemma DrawAfterLoadSamplesImage(s: TextureState, t: Texture.TextureResource, width: int, height: int, shader: Shader)
    ensures var loaded := Texture.OnLoad(t, width, height);
            var box := BoxGeometry.Construct(Some(loaded.next));
            var after := Run(s, loaded.trace + BoxGeometry.Draw(box, shader));
            && after.bound == Some(t.handle)
            && t.handle in after.images
            && after.images[t.handle] == SourceImage(width, height)
  {
    var loaded := Texture.OnLoad(t, width, height);
    var box := BoxGeometry.Construct(Some(loaded.next));
    Texture.OnLoadFillsSameHandle(s, t, width, height);
    RunAppend(s, loaded.trace, BoxGeometry.Draw(box, shader));
    BoxGeometry.DrawTextureEffect(Run(s, loaded.trace), box, shader);
  }
}
