/** The shared data of the application: screens, platforms, the generation
    envelope handed to the editor, the design snapshot and the finished
    preview bundle. */
module Types {

  import opened Wrappers

  /** The ten screens of the application. */
  datatype ViewState =
    | Home | Processing | FormatPicker | Mixer | PreviewFeed
    | Success | Manage | Ads | Profile | GuidedCreation

  /** The three social platforms a post can be previewed on. */
  datatype Platform = Instagram | Facebook | TikTok

  /** The content shape the user picks. */
  datatype Format = Post | Reel | Story

  /** One candidate image or video: a stock picture, a generated image or an
      upload (a data URL). Stock images have the same three fields. */
  datatype Visual = Visual(id: string, prompt: string, url: string)

  /** One caption suggestion. */
  datatype Caption = Caption(id: string, text: string, tone: string)

  /** The overlay position, in percent of the canvas width and height. */
  datatype TextPos = TextPos(x: real, y: real)

  /** The eight fields of a design snapshot. `activeFrame` is `None` for
      JavaScript's `null`; the class names are opaque tokens. */
  datatype DesignState = DesignState(
    filter: string,
    overlayText: string,
    overlayColor: string,
    overlayBg: string,
    textPos: TextPos,
    textSize: int,
    activeFrame: Option<string>,
    aspectRatio: string)

  /** The generation envelope. `isLoading` is optional. */
  datatype MixerData = MixerData(
    intent: string,
    format: Format,
    visuals: seq<Visual>,
    captions: seq<Caption>,
    isLoading: Option<bool>)
  {
    /** `data.isLoading || false`: an absent flag reads as false. */
    predicate Loading()
      ensures Loading() ==> isLoading.Some?
      ensures isLoading == Some(false) ==> !Loading()
    {
      isLoading == Some(true)
    }
  }

  /** The finished bundle handed from the editor to the preview. */
  datatype FeedPreviewData = FeedPreviewData(
    platform: Platform,
    image: string,
    caption: string,
    design: DesignState)

  /** The display names of the platforms, as the enumeration spells them. */
  function PlatformName(p: Platform): (r: string)
    ensures |r| > 0
  {
    match p
    case Instagram => "Instagram"
    case Facebook => "Facebook"
    case TikTok => "TikTok"
  }

  const AllViews: seq<ViewState> :=
    [Home, Processing, FormatPicker, Mixer, PreviewFeed, Success, Manage, Ads, Profile, GuidedCreation]

  const AllPlatforms: seq<Platform> := [Instagram, Facebook, TikTok]

  /** The enumerations have exactly ten and exactly three values; the
      platform names are pairwise different. */
  lemma EnumerationsComplete()
    ensures forall v: ViewState :: v in AllViews
    ensures |AllViews| == 10
    ensures forall i, j :: 0 <= i < j < |AllViews| ==> AllViews[i] != AllViews[j]
    ensures forall p: Platform :: p in AllPlatforms
    ensures |AllPlatforms| == 3
    ensures forall p, q: Platform :: p != q ==> PlatformName(p) != PlatformName(q)
  {
    forall i, j | 0 <= i < j < |AllViews| ensures AllViews[i] != AllViews[j] {
      assert i == 0 || i == 1 || i == 2 || i == 3 || i == 4 || i == 5 || i == 6 || i == 7 || i == 8;
    }
    forall v: ViewState ensures v in AllViews {
      match v
      case Home => assert AllViews[0] == v;
      case Processing => assert AllViews[1] == v;
      case FormatPicker => assert AllViews[2] == v;
      case Mixer => assert AllViews[3] == v;
      case PreviewFeed => assert AllViews[4] == v;
      case Success => assert AllViews[5] == v;
      case Manage => assert AllViews[6] == v;
      case Ads => assert AllViews[7] == v;
      case Profile => assert AllViews[8] == v;
      case GuidedCreation => assert AllViews[9] == v;
    }
    forall p: Platform ensures p in AllPlatforms {
      match p
      case Instagram => assert AllPlatforms[0] == p;
      case Facebook => assert AllPlatforms[1] == p;
      case TikTok => assert AllPlatforms[2] == p;
    }
    assert PlatformName(Instagram)[0] == 'I';
    assert PlatformName(Facebook)[0] == 'F';
    assert PlatformName(TikTok)[0] == 'T';
  }

  /** An absent loading flag and an explicit `false` are read alike, and only
      an explicit `true` means loading. */
  lemma LoadingFlagReading(d: MixerData)
    ensures d.isLoading == None ==> !d.Loading()
    ensures d.(isLoading := None).Loading() == d.(isLoading := Some(false)).Loading()
  {
  }
}
