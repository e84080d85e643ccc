/** The layered canvas both the editor and the preview draw: a base image
    under a filter, an optional frame, and an optional overlay text. Class
    names are opaque tokens; only their choice is modelled. */
module Canvas {

  import opened Wrappers
  import opened Types

  /** One entry of a frame table: the decoration classes a frame adds. */
  datatype FrameStyle = FrameStyle(
    name: string,
    cls: Option<string>,
    overlay: Option<string>,
    badge: Option<string>,
    icon: Option<string>)

  /** One drawn layer. A frame layer carries `frame.class || ''`, its overlay
      and badge, and whether the quote icon is shown; a text layer is centred
      at `(left%, top%)` and scaled by `scale`. */
  datatype Layer =
    | BaseImage(url: string, filter: string)
    | FrameLayer(cls: string, overlay: Option<string>, badge: Option<string>, quoteIcon: bool)
    | TextLayer(text: string, left: real, top: real, scale: real, color: string, background: string, shadow: string)

  /** The layer a frame style draws. */
  function DrawFrame(f: FrameStyle): (l: Layer)
    ensures l.FrameLayer? && l.overlay == f.overlay && l.badge == f.badge
    ensures l.quoteIcon <==> f.icon == Some("quote")
    ensures f.cls.Some? && f.cls.value != "" ==> l.cls == f.cls.value
    ensures f.cls.None? ==> l.cls == ""
  {
    FrameLayer(if f.cls.Some? then f.cls.value else "", f.overlay, f.badge, f.icon == Some("quote"))
  }

  /** The shadow under the overlay text: a drop shadow for white text on a
      transparent background, a box shadow otherwise. */
  function ShadowClass(color: string, background: string): (r: string)
    ensures r == "drop-shadow-lg" || r == "shadow-lg"
  {
    if background == "bg-transparent" && color == "text-white" then "drop-shadow-lg" else "shadow-lg"
  }

  lemma ShadowClassRule(color: string, background: string)
    ensures ShadowClass(color, background) == "drop-shadow-lg" <==>
              background == "bg-transparent" && color == "text-white"
    ensures ShadowClass(color, background) != "drop-shadow-lg" ==> ShadowClass(color, background) == "shadow-lg"
  {
    assert "shadow-lg"[0] != "drop-shadow-lg"[0];
  }

  /** `textSize / 100`. */
  function Scale(textSize: int): real
  {
    textSize as real / 100.0
  }

  /** The overlay text of a design, when it has one. */
  function DrawText(d: DesignState): (r: Option<Layer>)
    ensures r.Some? <==> d.overlayText != ""
    ensures r.Some? ==> (r.value.TextLayer? && r.value.text == d.overlayText
                         && r.value.left == d.textPos.x && r.value.top == d.textPos.y
                         && r.value.scale * 100.0 == d.textSize as real
                         && r.value.color == d.overlayColor && r.value.background == d.overlayBg
                         && r.value.shadow == ShadowClass(d.overlayColor, d.overlayBg))
  {
    if d.overlayText == "" then None
    else Some(TextLayer(d.overlayText, d.textPos.x, d.textPos.y, Scale(d.textSize),
                        d.overlayColor, d.overlayBg, ShadowClass(d.overlayColor, d.overlayBg)))
  }

  /** Base image, then the frame, then the text, leaving out what is absent. */
  function Stack(url: string, filter: string, frame: Option<Layer>, text: Option<Layer>): (r: seq<Layer>)
    requires frame.Some? ==> frame.value.FrameLayer?
    requires text.Some? ==> text.value.TextLayer?
    ensures |r| >= 1 && r[0] == BaseImage(url, filter)
    ensures forall i :: 0 <= i < |r| ==> (r[i].TextLayer? <==> text.Some? && i == |r| - 1)
    ensures forall i :: 0 <= i < |r| ==> (r[i].FrameLayer? <==> frame.Some? && i == 1)
    ensures |r| == 1 + (if frame.Some? then 1 else 0) + (if text.Some? then 1 else 0)
    ensures frame.Some? ==> r[1] == frame.value
    ensures text.Some? ==> r[|r| - 1] == text.value
  {
    [BaseImage(url, filter)]
    + (if frame.Some? then [frame.value] else [])
    + (if text.Some? then [text.value] else [])
  }
}
