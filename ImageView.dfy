/** The image view of `src/view/image.rs`. Two flags drive its GPU element:
    `textureUpdated`, raised whenever the texture is replaced and never lowered,
    makes every prepare pass build a fresh element around the current texture;
    `boundsUpdated`, raised by `apply_bounds`, makes the next prepare pass write
    the bounds into the element's model-view transform. */
module ImageViews {
  import opened Wrappers
  import opened Floats
  import opened Rect

  /** A GPU texture: which upload it is, and the pixel size of its image. */
  datatype Texture = Texture(id: nat, size: RectSize)

  /** The GPU image element: the texture it samples, the canvas whose projection
      it was last given and the bounds its model-view transform was last set to
      (`None` for the identity transforms it is created with). */
  datatype ImageElement = ImageElement(texture: Texture, projection: Option<RectSize>, modelView: Option<Bounds>)

  /** `ImageRenderer::create_image`: identity projection and model view. */
  function CreateImage(texture: Texture): (e: ImageElement)
    ensures e.texture == texture && e.projection.None? && e.modelView.None?
  {
    ImageElement(texture, None, None)
  }

  class ImageView {
    var size: RectSize
    var bounds: Bounds
    var boundsUpdated: bool
    var texture: Option<Texture>
    var textureUpdated: bool
    var raw: Option<ImageElement>
    /** How many GPU elements this view has asked the renderer for. */
    var elementsCreated: nat

    /** A texture is only ever installed through `texture_mut`, which raises the
        flag for good; an element only ever comes from the renderer. */
    ghost predicate Valid()
      reads this
    {
      && (texture.Some? ==> textureUpdated)
      && (raw.Some? ==> textureUpdated && elementsCreated > 0)
    }

    /** `ImageView::new`: default bounds, both flags clear, no texture, no element. */
    constructor (size: RectSize)
      ensures Valid()
      ensures this.size == size && bounds == DefaultBounds
      ensures !boundsUpdated && texture.None? && !textureUpdated && raw.None? && elementsCreated == 0
    {
      this.size := size;
      bounds := DefaultBounds;
      boundsUpdated := false;
      texture := None;
      textureUpdated := false;
      raw := None;
      elementsCreated := 0;
    }

    /** `set_size`: the preferred size only; no flag is involved. */
    method SetSize(s: RectSize)
      requires Valid()
      modifies this`size
      ensures Valid() && size == s
    {
      size := s;
    }

    /** `set_texture` (through `texture_mut`): replaces the texture, `None`
        included, and raises the texture flag. The element is left as it is. */
    method SetTexture(t: Option<Texture>)
      requires Valid()
      modifies this`texture, this`textureUpdated
      ensures Valid() && texture == t && textureUpdated
    {
      textureUpdated := true;
      texture := t;
    }

    /** `resize_to_fit`: the preferred size becomes the texture's size, when there
        is a texture. */
    method ResizeToFit()
      requires Valid()
      modifies this`size
      ensures Valid()
      ensures texture.Some? ==> size == texture.value.size
      ensures texture.None? ==> size == old(size)
    {
      if texture.Some? {
        SetSize(texture.value.size);
      }
    }

    /** `preferred_size`: the size it was given or fitted to. */
    method PreferredSize() returns (s: RectSize)
      ensures s == size
    {
      s := size;
    }

    /** `apply_bounds` */
    method ApplyBounds(b: Bounds)
      requires Valid()
      modifies this`bounds, this`boundsUpdated
      ensures Valid() && bounds == b && boundsUpdated
    {
      bounds := b;
      boundsUpdated := true;
    }

    /** `prepare_for_drawing`: builds a new element around the texture when the
        texture flag is raised or there is no element yet (and there is a
        texture); then, when there is an element, gives it the canvas projection
        and, if the bounds flag is raised, the bounds (lowering the flag). With a
        texture, the element afterwards samples exactly that texture; a new
        element that missed the bounds keeps its identity model view. */
    method PrepareForDrawing(canvas: RectSize)
      requires Valid()
      modifies this`raw, this`boundsUpdated, this`elementsCreated
      ensures Valid()
      ensures elementsCreated == old(elementsCreated) + (if texture.Some? then 1 else 0)
      ensures texture.Some? ==>
                raw == Some(ImageElement(texture.value, Some(canvas),
                                         if old(boundsUpdated) then Some(bounds) else None))
      ensures texture.None? && old(raw).Some? ==>
                raw == Some(old(raw).value.(projection := Some(canvas),
                                            modelView := if old(boundsUpdated) then Some(bounds)
                                                         else old(raw).value.modelView))
      ensures texture.None? && old(raw).None? ==> raw.None?
      ensures boundsUpdated == (old(boundsUpdated) && raw.None?)
    {
      if (textureUpdated || raw.None?) && texture.Some? {
        raw := Some(CreateImage(texture.value));
        elementsCreated := elementsCreated + 1;
      }
      if raw.Some? {
        var element := raw.value.(projection := Some(canvas));
        if boundsUpdated {
          boundsUpdated := false;
          element := element.(modelView := Some(bounds));
        }
        raw := Some(element);
      }
    }

    /** `draw`: draws the element when there is one. */
    method Draw() returns (drawn: Option<ImageElement>)
      ensures drawn == raw
    {
      drawn := raw;
    }

    /** One frame as the UI context runs it for the root view: the preferred size
        is asked for, the bounds the layout chose are applied, and the view is
        prepared. With a texture, what is then drawn is that texture, on that
        canvas, at those bounds. */
    method Frame(b: Bounds, canvas: RectSize) returns (preferred: RectSize, drawn: Option<ImageElement>)
      requires Valid()
      modifies this`bounds, this`boundsUpdated, this`raw, this`elementsCreated
      ensures Valid() && preferred == size && bounds == b && !boundsUpdated == raw.Some?
      ensures texture.Some? ==> drawn == Some(ImageElement(texture.value, Some(canvas), Some(b)))
      ensures texture.None? ==> drawn == if old(raw).Some? then Some(old(raw).value.(projection := Some(canvas), modelView := Some(b))) else None
    {
      preferred := PreferredSize();
      ApplyBounds(b);
      PrepareForDrawing(canvas);
      drawn := Draw();
    }
  }
}
