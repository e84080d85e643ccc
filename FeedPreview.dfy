/** The feed preview: the finished post drawn inside a mock of the chosen
    platform's feed, and the publish and schedule controls. */
module Feed {

  import opened Wrappers
  import opened Text
  import opened Types
  import opened Canvas
  import CreativeMixer

  /** The frame table of the preview. */
  const Frames: map<string, FrameStyle> := map[
    "Polaroid" := FrameStyle("Polaroid", Some("border-[12px] border-b-[40px] border-white shadow-inner box-border"), None, None, None),
    "Cinematic" := FrameStyle("Cinematic", None, Some("bg-gradient-to-t from-black/90 via-black/20 to-transparent"), None, None),
    "Promo" := FrameStyle("Promo", Some("border-[8px] border-brand-orange box-border"), None, Some("LIMITED OFFER"), None),
    "Elegant" := FrameStyle("Elegant", Some("border-[1px] border-white m-3 outline outline-1 outline-white outline-offset-4"), None, None, None),
    "News" := FrameStyle("News", None, Some("bg-white h-16 absolute bottom-0 left-0 right-0"), None, None),
    "Quote" := FrameStyle("Quote", None, Some("bg-black/40"), None, Some("quote"))]

  /** The preview's table is the editor's table. */
  lemma FrameTablesAgree()
    ensures Frames == CreativeMixer.Frames
  {
  }

  /** `renderActiveFrame` of the preview: no frame for `null`, the empty
      name, or a name the table does not know. */
  function PreviewFrame(d: DesignState): (r: Option<Layer>)
    ensures r.Some? <==> d.activeFrame.Some? && d.activeFrame.value in Frames
    ensures r.Some? ==> r.value == DrawFrame(Frames[d.activeFrame.value])
  {
    if d.activeFrame.None? || d.activeFrame.value == "" || d.activeFrame.value !in Frames then None
    else Some(DrawFrame(Frames[d.activeFrame.value]))
  }

  /** `LayeredCanvas`: the picture under the design's filter, then the
      frame, then the overlay text. */
  function Layers(p: FeedPreviewData): (r: seq<Layer>)
    ensures |r| > 0 && r[0] == BaseImage(p.image, p.design.filter)
    ensures (r[|r| - 1].TextLayer? <==> p.design.overlayText != "")
    ensures r[|r| - 1].TextLayer? ==> Some(r[|r| - 1]) == DrawText(p.design)
    ensures (exists i :: 0 <= i < |r| && r[i].FrameLayer?) <==> PreviewFrame(p.design).Some?
  {
    var r := Stack(p.image, p.design.filter, PreviewFrame(p.design), DrawText(p.design));
    assert PreviewFrame(p.design).Some? ==> r[1].FrameLayer?;
    r
  }

  /** The editor and the preview draw the same layers for the same design,
      except for a frame name neither table knows: the editor fails there,
      the preview leaves the frame out. */
  lemma EditorAndPreviewAgree(p: FeedPreviewData)
    ensures !CreativeMixer.EditorFrame(p.design.activeFrame).Crash? ==>
              CreativeMixer.EditorLayers(p.image, p.design) == Some(Layers(p))
    ensures CreativeMixer.EditorFrame(p.design.activeFrame).Crash? ==>
              PreviewFrame(p.design).None? && CreativeMixer.EditorLayers(p.image, p.design).None?
  {
    FrameTablesAgree();
  }

  /** The handle shown on the TikTok mock: "@", then the business name with
      every whitespace run replaced by "_", lower-cased. */
  function TikTokHandle(businessName: string): (r: string)
    ensures |r| >= 1 && r[0] == '@'
    ensures |r| <= |businessName| + 1
  {
    ReplaceWhitespaceRunsFacts(businessName);
    "@" + ToLower(ReplaceWhitespaceRuns(businessName))
  }

  /** The handle holds no whitespace and no upper-case letter, and a name
      that is already a lower-case word is kept as it is. */
  lemma TikTokHandleFacts(businessName: string)
    ensures forall c :: c in TikTokHandle(businessName) ==> !IsWhitespace(c) && !IsUpper(c)
    ensures (forall c :: c in businessName ==> !IsWhitespace(c) && !IsUpper(c)) ==>
              TikTokHandle(businessName) == "@" + businessName
  {
    var s := ReplaceWhitespaceRuns(businessName);
    ReplaceWhitespaceRunsFacts(businessName);
    var h := TikTokHandle(businessName);
    forall i | 0 <= i < |h| ensures !IsWhitespace(h[i]) && !IsUpper(h[i]) {
      if i > 0 {
        assert h[i] == LowerChar(s[i - 1]) && s[i - 1] in s;
      }
    }
    if forall c :: c in businessName ==> !IsWhitespace(c) && !IsUpper(c) {
      ToLowerOfLower(businessName);
    }
  }

  /** The handle of a name that starts with a word followed by a whitespace
      run: the lower-cased word, one `_`, then the handle of the rest. With
      `TikTokHandleFacts` for a name without whitespace this determines the
      handle of every name. */
  lemma TikTokHandleSplit(a: string, w: string, t: string)
    requires forall c :: c in a ==> !IsWhitespace(c)
    requires |w| > 0 && forall c :: c in w ==> IsWhitespace(c)
    requires t == [] || !IsWhitespace(t[0])
    ensures TikTokHandle(a + w + t) == "@" + ToLower(a) + "_" + TikTokHandle(t)[1..]
  {
    ReplaceWhitespaceRunsSplit(a, w, t);
    ToLowerConcat(a + "_", ReplaceWhitespaceRuns(t));
    ToLowerConcat(a, "_");
  }

  /** The three feed mocks. */
  datatype Layout = InstagramLayout | FacebookLayout | TikTokLayout

  /** The layouts the preview renders for a platform: one test per
      platform, in the source's order. */
  function RenderedLayouts(p: Platform): (r: seq<Layout>)
    ensures |r| == 1
  {
    (if p == Instagram then [InstagramLayout] else [])
    + (if p == Facebook then [FacebookLayout] else [])
    + (if p == TikTok then [TikTokLayout] else [])
  }

  /** Exactly one layout is rendered, and it is the platform's own. */
  lemma ExactlyOneLayout(p: Platform)
    ensures |RenderedLayouts(p)| == 1
    ensures RenderedLayouts(p)[0] == match p
                                     case Instagram => InstagramLayout
                                     case Facebook => FacebookLayout
                                     case TikTok => TikTokLayout
  {
  }

  /** The extra canvas class of the TikTok mock: full height for a 9:16
      design. The other mocks add none. */
  function CanvasStyleClass(p: Platform, d: DesignState): (r: string)
    ensures r != "" <==> p == TikTok && d.aspectRatio == "aspect-[9/16]"
  {
    if p == TikTok && d.aspectRatio == "aspect-[9/16]" then "h-full object-cover" else ""
  }

  /** Publishing now, or later at a scheduled time. */
  datatype PublishType = Now | Later

  class FeedPreview {
    const data: FeedPreviewData
    var isPublishing: bool
    var showSchedule: bool
    var scheduleDate: string
    var scheduleTime: string
    var publishType: PublishType

    constructor(d: FeedPreviewData)
      ensures data == d && !isPublishing && !showSchedule
      ensures scheduleDate == "" && scheduleTime == "" && publishType == Now
    {
      data := d;
      isPublishing := false;
      showSchedule := false;
      scheduleDate := "";
      scheduleTime := "";
      publishType := Now;
    }

    /** `handlePublish`: publish now. The completion callback fires on a
        timer afterwards. */
    method Publish()
      modifies this`publishType, this`isPublishing
      ensures publishType == Now && isPublishing
      ensures Status() == Some("Posting to " + PlatformName(data.platform) + "...") && ScheduleLine() == None
    {
      publishType := Now;
      isPublishing := true;
    }

    method OpenSchedule()
      modifies this`showSchedule
      ensures showSchedule
    {
      showSchedule := true;
    }

    method CancelSchedule()
      modifies this`showSchedule
      ensures !showSchedule
    {
      showSchedule := false;
    }

    method SetScheduleDate(t: string)
      modifies this`scheduleDate
      ensures scheduleDate == t
    {
      scheduleDate := t;
    }

    method SetScheduleTime(t: string)
      modifies this`scheduleTime
      ensures scheduleTime == t
    {
      scheduleTime := t;
    }

    /** `handleScheduleConfirm`: nothing unless a date and a time are
        filled in; then the dialog closes and a later publication starts. */
    method ScheduleConfirm() returns (confirmed: bool)
      modifies this`showSchedule, this`publishType, this`isPublishing
      ensures confirmed <==> scheduleDate != "" && scheduleTime != ""
      ensures !confirmed ==> showSchedule == old(showSchedule) && publishType == old(publishType)
                             && isPublishing == old(isPublishing)
      ensures confirmed ==> !showSchedule && publishType == Later && isPublishing
      ensures confirmed ==> Status() == Some("Scheduling...")
                            && ScheduleLine() == Some(scheduleDate + " at " + scheduleTime)
    {
      if scheduleDate == "" || scheduleTime == "" {
        return false;
      }
      showSchedule := false;
      publishType := Later;
      isPublishing := true;
      confirmed := true;
    }

    /** The status line of the publishing overlay, when it is shown. */
    function Status(): (r: Option<string>)
      reads this
      ensures r.Some? <==> isPublishing
      ensures r.Some? && publishType == Now ==> r.value == "Posting to " + PlatformName(data.platform) + "..."
      ensures r.Some? && publishType == Later ==> r.value == "Scheduling..."
    {
      if !isPublishing then None
      else if publishType == Now then Some("Posting to " + PlatformName(data.platform) + "...")
      else Some("Scheduling...")
    }

    /** The line under the heading of the overlay for a later publication:
        the chosen date and time. */
    function ScheduleLine(): (r: Option<string>)
      reads this
      ensures r.Some? <==> isPublishing && publishType == Later
      ensures r.Some? ==> r.value == scheduleDate + " at " + scheduleTime
    {
      if isPublishing && publishType == Later then Some(scheduleDate + " at " + scheduleTime) else None
    }
  }
}
