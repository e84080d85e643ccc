/** The creative mixer: the editor state a user changes by picking visuals,
    captions, filters, overlay text, frames, aspect ratio and platform,
    the sync step applied when the generation envelope arrives late, and the
    bundle handed on at Next, of which only the design survives a remount. */
module CreativeMixer {

  import opened Wrappers
  import opened Types
  import opened Canvas

  // ---------------------------------------------------------------------
  // Defaults and restore

  /** The design of a fresh session. */
  const FreshDesign: DesignState :=
    DesignState("filter-none", "", "text-white", "bg-black/50", TextPos(50.0, 50.0), 100, None, "aspect-square")

  /** `a || b` on strings: the empty string is falsy. */
  function OrString(a: string, b: string): string
  {
    if a != "" then a else b
  }

  /** A design that restore gives back unchanged: every field read with
      `|| default` is truthy (a non-empty class name, a non-zero size, and a
      frame that is `null` or a non-empty name). */
  predicate Restorable(d: DesignState)
  {
    d.filter != "" && d.overlayColor != "" && d.overlayBg != "" && d.aspectRatio != ""
    && d.textSize != 0 && d.activeFrame != Some("")
  }

  /** The design slots at mount: each field of the saved design, or its
      default when the saved field is falsy or no design was saved. The
      result can always be restored again unchanged. */
  function RestoredDesign(init: Option<DesignState>): (r: DesignState)
    ensures Restorable(r)
    ensures init.None? ==> r == FreshDesign
    ensures init.Some? ==> r.overlayText == init.value.overlayText && r.textPos == init.value.textPos
  {
    match init
    case None => FreshDesign
    case Some(d) =>
      DesignState(
        OrString(d.filter, "filter-none"),
        d.overlayText,
        OrString(d.overlayColor, "text-white"),
        OrString(d.overlayBg, "bg-black/50"),
        d.textPos,
        if d.textSize != 0 then d.textSize else 100,
        if d.activeFrame == Some("") then None else d.activeFrame,
        OrString(d.aspectRatio, "aspect-square"))
  }

  /** Restore returns a saved design unchanged exactly when it is
      restorable; otherwise each falsy field goes back to its default. */
  lemma RestoreFixedPointIff(d: DesignState)
    ensures RestoredDesign(Some(d)) == d <==> Restorable(d)
    ensures d.filter == "" ==> RestoredDesign(Some(d)).filter == FreshDesign.filter
    ensures d.overlayColor == "" ==> RestoredDesign(Some(d)).overlayColor == FreshDesign.overlayColor
    ensures d.overlayBg == "" ==> RestoredDesign(Some(d)).overlayBg == FreshDesign.overlayBg
    ensures d.textSize == 0 ==> RestoredDesign(Some(d)).textSize == FreshDesign.textSize
    ensures d.activeFrame == Some("") ==> RestoredDesign(Some(d)).activeFrame == None
    ensures d.aspectRatio == "" ==> RestoredDesign(Some(d)).aspectRatio == FreshDesign.aspectRatio
    ensures d.filter != "" ==> RestoredDesign(Some(d)).filter == d.filter
    ensures d.overlayColor != "" ==> RestoredDesign(Some(d)).overlayColor == d.overlayColor
    ensures d.overlayBg != "" ==> RestoredDesign(Some(d)).overlayBg == d.overlayBg
    ensures d.textSize != 0 ==> RestoredDesign(Some(d)).textSize == d.textSize
    ensures d.activeFrame != Some("") ==> RestoredDesign(Some(d)).activeFrame == d.activeFrame
    ensures d.aspectRatio != "" ==> RestoredDesign(Some(d)).aspectRatio == d.aspectRatio
  {
  }

  /** Restoring twice is restoring once. */
  lemma RestoreIdempotent(init: Option<DesignState>)
    ensures RestoredDesign(Some(RestoredDesign(init))) == RestoredDesign(init)
  {
    RestoreFixedPointIff(RestoredDesign(init));
  }

  // ---------------------------------------------------------------------
  // Controls

  /** The filter presets. */
  const FilterPresets: map<string, string> := map[
    "Original" := "filter-none",
    "Vivid" := "contrast-125 saturate-150",
    "Moody" := "brightness-75 contrast-125 sepia-[.3]",
    "Soft" := "brightness-110 contrast-90 saturate-50",
    "B&W" := "grayscale"]

  /** The frame table of the editor. */
  const Frames: map<string, FrameStyle> := map[
    "Polaroid" := FrameStyle("Polaroid", Some("border-[12px] border-b-[40px] border-white shadow-inner box-border"), None, None, None),
    "Cinematic" := FrameStyle("Cinematic", None, Some("bg-gradient-to-t from-black/90 via-black/20 to-transparent"), None, None),
    "Promo" := FrameStyle("Promo", Some("border-[8px] border-brand-orange box-border"), None, Some("LIMITED OFFER"), None),
    "Elegant" := FrameStyle("Elegant", Some("border-[1px] border-white m-3 outline outline-1 outline-white outline-offset-4"), None, None, None),
    "News" := FrameStyle("News", None, Some("bg-white h-16 absolute bottom-0 left-0 right-0"), None, None),
    "Quote" := FrameStyle("Quote", None, Some("bg-black/40"), None, Some("quote"))]

  const TextColors: seq<string> := ["text-white", "text-black", "text-brand-purple", "text-brand-orange"]

  const TextBackgrounds: seq<string> := ["bg-transparent", "bg-black/50", "bg-brand-purple"]

  const AspectRatios: seq<string> := ["aspect-square", "aspect-[9/16]", "aspect-[4/5]"]

  const EmptyVisual: Visual := Visual("", "", "")

  /** The caption shown until one arrives. */
  const DraftingCaption: Caption := Caption("", "Drafting caption...", "...")

  const DefaultImagePrompt: string := "High quality aesthetic social media image"

  /** `Math.max(0, Math.min(100, v))`. */
  function Clamp(v: real): (r: real)
    ensures 0.0 <= r <= 100.0
    ensures 0.0 <= v <= 100.0 ==> r == v
    ensures v < 0.0 ==> r == 0.0
    ensures v > 100.0 ==> r == 100.0
  {
    if v < 0.0 then 0.0 else if v > 100.0 then 100.0 else v
  }

  /** Clamping twice is clamping once, and clamping keeps the order. */
  lemma ClampIdempotentMonotone(v: real, w: real)
    ensures Clamp(Clamp(v)) == Clamp(v)
    ensures v <= w ==> Clamp(v) <= Clamp(w)
  {
  }

  /** The ratio chosen once visuals are present on a fresh session. */
  function FormatRatio(f: Format): (r: string)
    ensures r in AspectRatios
  {
    if f == Story || f == Reel then "aspect-[9/16]" else "aspect-square"
  }

  /** `isVertical`: the two tall ratios. */
  predicate IsVertical(ratio: string)
    ensures IsVertical(ratio) ==> ratio in AspectRatios && ratio != FreshDesign.aspectRatio
  {
    ratio == "aspect-[9/16]" || ratio == "aspect-[4/5]"
  }

  /** Stories and reels get a vertical canvas, posts a square one; the fresh
      default is square. */
  lemma FormatRatioVertical(f: Format)
    ensures IsVertical(FormatRatio(f)) <==> f != Post
    ensures !IsVertical(FreshDesign.aspectRatio)
  {
    assert "aspect-square"[7] != "aspect-[9/16]"[7];
    assert "aspect-square"[7] != "aspect-[4/5]"[7];
  }

  // ---------------------------------------------------------------------
  // The canvas

  /** What `renderActiveFrame` of the editor gives: nothing for a `null` or
      empty frame name, the table's frame for a known one; an unknown
      non-empty name makes the editor fail (it reads a field of
      `undefined`). */
  datatype FrameOutcome = NoFrame | Drawn(layer: Layer) | Crash

  function EditorFrame(frame: Option<string>): (r: FrameOutcome)
    ensures (frame.None? || frame == Some("")) <==> r == NoFrame
    ensures r.Drawn? <==> frame.Some? && frame.value in Frames
    ensures r.Drawn? ==> r.layer == DrawFrame(Frames[frame.value])
  {
    if frame.None? || frame.value == "" then NoFrame
    else if frame.value in Frames then Drawn(DrawFrame(Frames[frame.value]))
    else Crash
  }

  /** The preview area: a skeleton while loading with nothing to show, the
      layered canvas otherwise, or a failure from an unknown frame. */
  datatype PreviewArea = Skeleton | CanvasView(layers: seq<Layer>, ratio: string, vertical: bool) | RenderFailure

  /** The layers the editor draws for an image and a design. */
  function EditorLayers(url: string, d: DesignState): (r: Option<seq<Layer>>)
    ensures r.None? <==> EditorFrame(d.activeFrame).Crash?
    ensures r.Some? ==> |r.value| > 0 && r.value[0] == BaseImage(url, d.filter)
    ensures r.Some? ==> (r.value[|r.value| - 1].TextLayer? <==> d.overlayText != "")
    ensures r.Some? ==> (r.value[|r.value| - 1].TextLayer? ==> Some(r.value[|r.value| - 1]) == DrawText(d))
  {
    var text := DrawText(d);
    match EditorFrame(d.activeFrame)
    case Crash => None
    case NoFrame => Some(Stack(url, d.filter, None, text))
    case Drawn(l) => Some(Stack(url, d.filter, Some(l), text))
  }

  /** A design the editor draws as intended: the frame is `null` or a name
      of the table, and the text sits inside the canvas. Every handler keeps
      this once it holds. */
  predicate DrawableDesign(d: DesignState)
  {
    (d.activeFrame.None? || d.activeFrame.value in Frames)
    && 0.0 <= d.textPos.x <= 100.0 && 0.0 <= d.textPos.y <= 100.0
  }

  // ---------------------------------------------------------------------
  // The editor

  class Mixer {
    /** The envelope the editor was given, and the saved design it mounted with. */
    var data: MixerData
    const initialDesign: Option<DesignState>

    var visuals: seq<Visual>
    var selectedVisual: Visual
    var selectedCaption: Caption
    var captionText: string
    /** The eight design slots, held together. */
    var design: DesignState
    var platform: Platform
    var isGeneratingImg: bool
    /** Whether the overlay text is being dragged. */
    var dragging: bool

    /** Every design slot holds a value that restore gives back unchanged. */
    predicate Valid()
      reads this
    {
      Restorable(design)
    }

    /** The frame and the text position are ones the editor can draw. */
    predicate Drawable()
      reads this
    {
      DrawableDesign(design)
    }

    /** Mounting the editor on an envelope and an optional saved design: the
        initial slots, then the sync effect's first run. */
    constructor(d: MixerData, init: Option<DesignState>)
      ensures Valid()
      ensures data == d && initialDesign == init && visuals == d.visuals
      ensures selectedVisual == (if |d.visuals| > 0 then d.visuals[0] else EmptyVisual)
      ensures selectedCaption == (if |d.captions| > 0 then d.captions[0] else DraftingCaption)
      ensures var mounted := if init.Some? && init.value.overlayText != "" then selectedCaption.text else "";
              captionText == if |d.captions| > 0 && d.captions[0].text == DraftingCaption.text && mounted == ""
                             then d.captions[0].text else mounted
      ensures design == if init.None? && !d.Loading() && |d.visuals| > 0
                        then FreshDesign.(aspectRatio := FormatRatio(d.format)) else RestoredDesign(init)
      ensures (init.None? || DrawableDesign(init.value)) ==> Drawable()
      ensures platform == Instagram && !isGeneratingImg && !dragging
    {
      data := d;
      initialDesign := init;
      visuals := d.visuals;
      selectedVisual := if |d.visuals| > 0 then d.visuals[0] else EmptyVisual;
      var caption := if |d.captions| > 0 then d.captions[0] else DraftingCaption;
      selectedCaption := caption;
      captionText := if init.Some? && init.value.overlayText != "" then caption.text else "";
      design := RestoredDesign(init);
      platform := Instagram;
      isGeneratingImg := false;
      dragging := false;
      new;
      RunEffect();
    }

    /** Next is disabled while loading with no visuals in the envelope. */
    predicate NextDisabled()
      reads this
      ensures !data.Loading() || |data.visuals| > 0 ==> !NextDisabled()
    {
      data.Loading() && |data.visuals| == 0
    }

    /** `handleNext`: the bundle handed to the preview holds the selected
        picture, the caption text, the platform and the eight design slots. */
    method Next() returns (out: FeedPreviewData)
      ensures out.platform == platform && out.image == selectedVisual.url && out.caption == captionText
      ensures out.design == design
      ensures Valid() ==> RestoredDesign(Some(out.design)) == out.design
    {
      out := FeedPreviewData(platform, selectedVisual.url, captionText, design);
      RestoreFixedPointIff(design);
    }

    /** The sync effect, as one step over the state before it: late visuals
        replace a shorter local list (the first is selected when the list
        was empty); the first caption replaces the placeholder, and its text
        fills an empty caption; a fresh session takes the ratio of its
        format once it has visuals. */
    method Sync()
      modifies this`visuals, this`selectedVisual, this`selectedCaption, this`captionText, this`design
      requires Valid()
      ensures Valid()
      ensures visuals == if |data.visuals| > |old(visuals)| then data.visuals else old(visuals)
      ensures selectedVisual == if |data.visuals| > 0 && |old(visuals)| == 0 then data.visuals[0] else old(selectedVisual)
      ensures selectedCaption ==
                if |data.captions| > 0 && old(selectedCaption).text == DraftingCaption.text then data.captions[0]
                else old(selectedCaption)
      ensures captionText ==
                if |data.captions| > 0 && old(selectedCaption).text == DraftingCaption.text && old(captionText) == ""
                then data.captions[0].text else old(captionText)
      ensures design == if initialDesign.None? && !data.Loading() && |old(visuals)| > 0
                        then old(design).(aspectRatio := FormatRatio(data.format)) else old(design)
      ensures initialDesign.Some? ==> design == old(design)
    {
      var before := |visuals|;
      if |data.visuals| > 0 && before == 0 {
        visuals := data.visuals;
        selectedVisual := data.visuals[0];
      } else if |data.visuals| > before {
        visuals := data.visuals;
      }
      if |data.captions| > 0 {
        if selectedCaption.text == DraftingCaption.text {
          selectedCaption := data.captions[0];
          if captionText == "" {
            captionText := data.captions[0].text;
          }
        }
      }
      if initialDesign.None? && !data.Loading() && before > 0 {
        design := design.(aspectRatio := FormatRatio(data.format));
      }
    }

    /** The sync effect until it settles. Its dependencies include the
        length of the local list, so a run that changes the length is
        followed by one more run, which changes no visual. The ratio rule
        then sees the list after the first run: a fresh session that is not
        loading takes its format's ratio whenever the list is non-empty. */
    method RunEffect()
      modifies this`visuals, this`selectedVisual, this`selectedCaption, this`captionText, this`design
      requires Valid()
      ensures Valid()
      ensures old(Drawable()) ==> Drawable()
      ensures visuals == if |data.visuals| > |old(visuals)| then data.visuals else old(visuals)
      ensures selectedVisual == if |data.visuals| > 0 && |old(visuals)| == 0 then data.visuals[0] else old(selectedVisual)
      ensures selectedCaption ==
                if |data.captions| > 0 && old(selectedCaption).text == DraftingCaption.text then data.captions[0]
                else old(selectedCaption)
      ensures captionText ==
                if |data.captions| > 0 && old(selectedCaption).text == DraftingCaption.text && old(captionText) == ""
                then data.captions[0].text else old(captionText)
      ensures design == if initialDesign.None? && !data.Loading() && |visuals| > 0
                        then old(design).(aspectRatio := FormatRatio(data.format)) else old(design)
    {
      var before := |visuals|;
      Sync();
      if |visuals| != before {
        Sync();
      }
    }

    /** A new envelope arrives from the parent, and the sync effect runs
        until it settles. A caption the user typed is kept. */
    method Receive(d: MixerData)
      modifies this`data, this`visuals, this`selectedVisual, this`selectedCaption, this`captionText, this`design
      requires Valid()
      ensures Valid()
      ensures old(Drawable()) ==> Drawable()
      ensures data == d
      ensures visuals == if |d.visuals| > |old(visuals)| then d.visuals else old(visuals)
      ensures selectedVisual == if |d.visuals| > 0 && |old(visuals)| == 0 then d.visuals[0] else old(selectedVisual)
      ensures selectedCaption ==
                if |d.captions| > 0 && old(selectedCaption).text == DraftingCaption.text then d.captions[0]
                else old(selectedCaption)
      ensures captionText ==
                if |d.captions| > 0 && old(selectedCaption).text == DraftingCaption.text && old(captionText) == ""
                then d.captions[0].text else old(captionText)
      ensures design == if initialDesign.None? && !d.Loading() && |visuals| > 0
                        then old(design).(aspectRatio := FormatRatio(d.format)) else old(design)
    {
      data := d;
      RunEffect();
    }

    /** `handlePointerDown` and `handlePointerUp`. */
    method PointerDown()
      modifies this`dragging
      ensures dragging
    {
      dragging := true;
    }

    method PointerUp()
      modifies this`dragging
      ensures !dragging
    {
      dragging := false;
    }

    /** `handlePointerMove` for a pointer at `(x%, y%)` of the canvas: the
        clamped position while dragging, nothing otherwise. */
    method PointerMove(x: real, y: real)
      modifies this`design
      requires Valid()
      ensures Valid()
      ensures old(Drawable()) ==> Drawable()
      ensures dragging ==> design == old(design).(textPos := TextPos(Clamp(x), Clamp(y)))
      ensures !dragging ==> design == old(design)
      ensures dragging ==> 0.0 <= design.textPos.x <= 100.0 && 0.0 <= design.textPos.y <= 100.0
    {
      if dragging {
        design := design.(textPos := TextPos(Clamp(x), Clamp(y)));
      }
    }

    /** `handleFileUpload` once the reader delivers a data URL: the upload
        goes first and is selected, and since the list grew the sync effect
        runs: an envelope list longer than the new list replaces it, and a
        fresh session that is not loading takes its format's ratio again. An
        empty result changes nothing. */
    method FileUpload(result: string, stamp: string)
      modifies this`visuals, this`selectedVisual, this`selectedCaption, this`captionText, this`design
      requires Valid()
      ensures Valid()
      ensures old(Drawable()) ==> Drawable()
      ensures result == "" ==> visuals == old(visuals) && selectedVisual == old(selectedVisual)
                               && selectedCaption == old(selectedCaption) && captionText == old(captionText)
                               && design == old(design)
      ensures result != "" ==>
                var v := Visual("user-" + stamp, "User Upload", result);
                selectedVisual == v
                && visuals == (if |data.visuals| > 1 + |old(visuals)| then data.visuals else [v] + old(visuals))
                && design == (if initialDesign.None? && !data.Loading()
                              then old(design).(aspectRatio := FormatRatio(data.format)) else old(design))
      ensures result != "" ==>
                selectedCaption == (if |data.captions| > 0 && old(selectedCaption).text == DraftingCaption.text
                                    then data.captions[0] else old(selectedCaption))
                && captionText == (if |data.captions| > 0 && old(selectedCaption).text == DraftingCaption.text
                                      && old(captionText) == ""
                                   then data.captions[0].text else old(captionText))
    {
      if result != "" {
        var v := Visual("user-" + stamp, "User Upload", result);
        visuals := [v] + visuals;
        selectedVisual := v;
        RunEffect();
      }
    }

    /** The first half of `handleGenerateGeminiImage`: nothing while a
        generation is in flight; otherwise the flag is set and the prompt
        is the selected picture's prompt or a stock prompt. */
    method BeginGenerateImage() returns (started: bool, prompt: string)
      modifies this`isGeneratingImg
      ensures started <==> !old(isGeneratingImg)
      ensures isGeneratingImg
      ensures started ==> prompt == OrString(selectedVisual.prompt, DefaultImagePrompt) && prompt != ""
    {
      if isGeneratingImg {
        return false, "";
      }
      isGeneratingImg := true;
      started := true;
      prompt := OrString(selectedVisual.prompt, DefaultImagePrompt);
    }

    /** The second half, once the image service answered with `url`: the
        generated picture goes first and is selected, the flag clears, and
        the sync effect runs as after an upload. */
    method FinishGenerateImage(prompt: string, url: string, stamp: string)
      modifies this`visuals, this`selectedVisual, this`isGeneratingImg, this`selectedCaption, this`captionText, this`design
      requires Valid()
      ensures Valid()
      ensures old(Drawable()) ==> Drawable()
      ensures !isGeneratingImg
      ensures var v := Visual("gemini-" + stamp, prompt, url);
              selectedVisual == v
              && visuals == (if |data.visuals| > 1 + |old(visuals)| then data.visuals else [v] + old(visuals))
              && design == (if initialDesign.None? && !data.Loading()
                            then old(design).(aspectRatio := FormatRatio(data.format)) else old(design))
      ensures selectedCaption == (if |data.captions| > 0 && old(selectedCaption).text == DraftingCaption.text
                                  then data.captions[0] else old(selectedCaption))
              && captionText == (if |data.captions| > 0 && old(selectedCaption).text == DraftingCaption.text
                                    && old(captionText) == ""
                                 then data.captions[0].text else old(captionText))
    {
      var v := Visual("gemini-" + stamp, prompt, url);
      visuals := [v] + visuals;
      selectedVisual := v;
      isGeneratingImg := false;
      RunEffect();
    }

    /** `handleCaptionSelect`: the suggestion is selected and its text
        replaces the caption. */
    method CaptionSelect(c: Caption)
      modifies this`selectedCaption, this`captionText
      ensures selectedCaption == c && captionText == c.text
    {
      selectedCaption := c;
      captionText := c.text;
    }

    method EditCaption(t: string)
      modifies this`captionText
      ensures captionText == t
    {
      captionText := t;
    }

    method SelectVisual(v: Visual)
      modifies this`selectedVisual
      ensures selectedVisual == v
    {
      selectedVisual := v;
    }

    method SelectPlatform(p: Platform)
      modifies this`platform
      ensures platform == p
    {
      platform := p;
    }

    /** A tap on a filter preset. */
    method ChooseFilter(name: string)
      modifies this`design
      requires Valid() && name in FilterPresets
      ensures Valid()
      ensures old(Drawable()) ==> Drawable()
      ensures design == old(design).(filter := FilterPresets[name])
    {
      design := design.(filter := FilterPresets[name]);
    }

    method SetOverlayText(t: string)
      modifies this`design
      requires Valid()
      ensures Valid()
      ensures old(Drawable()) ==> Drawable()
      ensures design == old(design).(overlayText := t)
    {
      design := design.(overlayText := t);
    }

    /** "Remove Text": the overlay text is emptied, so no text layer is drawn. */
    method RemoveText()
      modifies this`design
      requires Valid()
      ensures Valid()
      ensures old(Drawable()) ==> Drawable()
      ensures design == old(design).(overlayText := "")
      ensures DrawText(design).None?
    {
      design := design.(overlayText := "");
    }

    /** The size slider, which offers 50 to 250 percent. */
    method SetTextSize(n: int)
      modifies this`design
      requires Valid() && 50 <= n <= 250
      ensures Valid()
      ensures old(Drawable()) ==> Drawable()
      ensures design == old(design).(textSize := n)
    {
      design := design.(textSize := n);
    }

    method SetOverlayColor(c: string)
      modifies this`design
      requires Valid() && c in TextColors
      ensures Valid()
      ensures old(Drawable()) ==> Drawable()
      ensures design == old(design).(overlayColor := c)
    {
      design := design.(overlayColor := c);
    }

    method SetOverlayBg(b: string)
      modifies this`design
      requires Valid() && b in TextBackgrounds
      ensures Valid()
      ensures old(Drawable()) ==> Drawable()
      ensures design == old(design).(overlayBg := b)
    {
      design := design.(overlayBg := b);
    }

    /** "None" or one of the frame table's names. */
    method SetFrame(f: Option<string>)
      modifies this`design
      requires Valid() && (f.None? || f.value in Frames)
      ensures Valid()
      ensures design == old(design).(activeFrame := f)
      ensures EditorFrame(design.activeFrame) != Crash
      ensures old(Drawable()) ==> Drawable()
    {
      design := design.(activeFrame := f);
    }

    method SetAspectRatio(a: string)
      modifies this`design
      requires Valid() && a in AspectRatios
      ensures Valid()
      ensures old(Drawable()) ==> Drawable()
      ensures design == old(design).(aspectRatio := a)
    {
      design := design.(aspectRatio := a);
    }

    /** The preview area of the editor. */
    function Preview(): (r: PreviewArea)
      reads this
      ensures r.Skeleton? <==> NextDisabled()
      ensures r.CanvasView? ==> r.ratio == design.aspectRatio && (r.vertical <==> IsVertical(design.aspectRatio))
      ensures r.CanvasView? ==> Some(r.layers) == EditorLayers(selectedVisual.url, design)
      ensures Drawable() ==> !r.RenderFailure?
    {
      if NextDisabled() then Skeleton
      else
        match EditorLayers(selectedVisual.url, design)
        case None => RenderFailure
        case Some(ls) => CanvasView(ls, design.aspectRatio, IsVertical(design.aspectRatio))
    }
  }

  /** The text flow of a fresh session: the editor mounts on a loading
      envelope without visuals, then the generated envelope arrives. The
      effect's second run, caused by the list growing, gives the design its
      format's ratio, so a story or reel ends up tall. */
  method FreshSessionTakesFormatRatio(placeholderIntent: string, d: MixerData) returns (m: Mixer)
    requires !d.Loading() && |d.visuals| > 0
    ensures fresh(m) && m.Valid() && m.data == d && m.visuals == d.visuals && m.selectedVisual == d.visuals[0]
    ensures m.design == FreshDesign.(aspectRatio := FormatRatio(d.format))
    ensures IsVertical(m.design.aspectRatio) <==> d.format != Post
  {
    m := new Mixer(MixerData(placeholderIntent, d.format, [], [], Some(true)), None);
    m.Receive(d);
    FormatRatioVertical(d.format);
  }

  /** Back from the preview: the shell mounts a new editor on the same
      envelope and the design handed on at Next. The design comes back
      unchanged, so a second Next hands on the same design; the platform,
      the list, the selected picture and the caption text start again from
      the envelope, so an upload, a generated picture, a picked platform and
      an edited caption are not carried over. */
  method RemountAfterPreview(m: Mixer) returns (out1: FeedPreviewData, m2: Mixer, out2: FeedPreviewData)
    requires m.Valid()
    ensures out1.platform == m.platform && out1.image == m.selectedVisual.url && out1.caption == m.captionText
    ensures out1.design == m.design
    ensures fresh(m2) && m2.Valid() && m2.data == m.data && m2.initialDesign == Some(out1.design)
    ensures m2.design == out1.design && out2.design == out1.design
    ensures m2.platform == Instagram && out2.platform == Instagram
    ensures m2.visuals == m.data.visuals
    ensures m2.selectedVisual == (if |m.data.visuals| > 0 then m.data.visuals[0] else EmptyVisual)
    ensures out2.image == m2.selectedVisual.url
    ensures var first := if |m.data.captions| > 0 then m.data.captions[0] else DraftingCaption;
            var mounted := if out1.design.overlayText != "" then first.text else "";
            out2.caption == m2.captionText
            && m2.captionText == if |m.data.captions| > 0 && first.text == DraftingCaption.text && mounted == ""
                                 then first.text else mounted
  {
    out1 := m.Next();
    m2 := new Mixer(m.data, Some(out1.design));
    out2 := m2.Next();
  }

  /** A drawable design never fails to draw. */
  lemma ValidEditorDraws(d: DesignState, url: string)
    requires DrawableDesign(d)
    ensures EditorLayers(url, d).Some?
  {
  }
}
