/** The application shell: five state slots changed by the screens'
    callbacks, and the screen each view shows. The generation calls are
    requests the shell hands out; their answers come back through
    `ReceiveMixerData`. */
module AppShell {

  import opened Wrappers
  import opened Types
  import Navbar

  /** A captured voice or text input waiting for a format. */
  datatype PendingInput = PendingInput(text: string, isAudio: bool, mimeType: Option<string>)

  /** The background generation a flow starts. */
  datatype GenerationRequest =
    | PostIngredients(input: string, isAudio: bool, format: Format, mimeType: Option<string>)
    | CaptionsFromImage(image: string, format: Format)

  /** What `renderContent` shows. `Blank` is the `null` of a data screen
      without its data. */
  datatype Screen =
    | ProcessingScreen
    | HomeWithFormatPicker
    | MixerScreen(data: MixerData, initialDesign: Option<DesignState>)
    | PreviewScreen(preview: FeedPreviewData)
    | Blank
    | SuccessScreen
    | ManageScreen
    | AdsScreen
    | ProfileScreen
    | GuidedScreen
    | HomeScreen

  /** The placeholder the editor shows while a text or voice generation runs. */
  function DraftPlaceholder(format: Format): (d: MixerData)
    ensures d.Loading() && d.visuals == [] && d.captions == [] && d.format == format
  {
    MixerData("Drafting content...", format, [], [], Some(true))
  }

  /** The placeholder of the photo flow: the photo at once, captions to come. */
  function PhotoPlaceholder(image: string, format: Format): (d: MixerData)
    ensures d.Loading() && d.captions == [] && d.format == format
    ensures d.visuals == [Visual("user-upload", "User Photo", image)]
  {
    MixerData("Analyzing image...", format, [Visual("user-upload", "User Photo", image)], [], Some(true))
  }

  class App {
    var view: ViewState
    var tempInput: Option<PendingInput>
    var mixerData: Option<MixerData>
    var previewData: Option<FeedPreviewData>
    var savedDesign: Option<DesignState>

    /** A saved design is always the design of the bundle being previewed,
        and a bundle is only previewed while the editor's envelope is kept. */
    predicate Valid()
      reads this
    {
      && (savedDesign.Some? ==> previewData.Some? && previewData.value.design == savedDesign.value)
      && (previewData.Some? ==> mixerData.Some?)
    }

    constructor()
      ensures Valid()
      ensures view == Home && tempInput == None && mixerData == None && previewData == None && savedDesign == None
    {
      view := Home;
      tempInput := None;
      mixerData := None;
      previewData := None;
      savedDesign := None;
    }

    /** `renderContent`. */
    function Content(): (r: Screen)
      reads this
      ensures r.MixerScreen? <==> view == Mixer && mixerData.Some?
      ensures r.MixerScreen? ==> r.data == mixerData.value && r.initialDesign == savedDesign
      ensures r.PreviewScreen? <==> view == PreviewFeed && previewData.Some?
      ensures r.PreviewScreen? ==> r.preview == previewData.value
      ensures r.Blank? <==> (view == Mixer && mixerData.None?) || (view == PreviewFeed && previewData.None?)
    {
      match view
      case Processing => ProcessingScreen
      case FormatPicker => HomeWithFormatPicker
      case Mixer => if mixerData.Some? then MixerScreen(mixerData.value, savedDesign) else Blank
      case PreviewFeed => if previewData.Some? then PreviewScreen(previewData.value) else Blank
      case Success => SuccessScreen
      case Manage => ManageScreen
      case Ads => AdsScreen
      case Profile => ProfileScreen
      case GuidedCreation => GuidedScreen
      case Home => HomeScreen
    }

    /** Whether the navigation bar is shown below the content. */
    predicate ShowsNavbar()
      reads this
    {
      !Navbar.IsHidden(view)
    }

    /** `handleInputCaptured`: the input waits for a format. */
    method InputCaptured(text: string, isAudio: bool, mimeType: Option<string>)
      modifies this`tempInput, this`view
      requires Valid()
      ensures Valid()
      ensures tempInput == Some(PendingInput(text, isAudio, mimeType)) && view == FormatPicker
    {
      tempInput := Some(PendingInput(text, isAudio, mimeType));
      view := FormatPicker;
    }

    /** `runMixerFlow` up to its `await`: the saved design is dropped, the
        editor opens on the draft placeholder, and the generation starts. */
    method RunMixerFlow(text: string, isAudio: bool, format: Format, mimeType: Option<string>)
      returns (req: GenerationRequest)
      modifies this`savedDesign, this`mixerData, this`view
      requires Valid()
      ensures Valid()
      ensures savedDesign == None && mixerData == Some(DraftPlaceholder(format)) && view == Mixer
      ensures req == PostIngredients(text, isAudio, format, mimeType)
      ensures Content() == MixerScreen(DraftPlaceholder(format), None)
    {
      savedDesign := None;
      mixerData := Some(DraftPlaceholder(format));
      view := Mixer;
      req := PostIngredients(text, isAudio, format, mimeType);
    }

    /** A generation answered: its envelope replaces the placeholder. */
    method ReceiveMixerData(d: MixerData)
      modifies this`mixerData
      requires Valid()
      ensures Valid()
      ensures mixerData == Some(d)
    {
      mixerData := Some(d);
    }

    /** `handlePhotoInput` up to its `await`: the editor opens on the photo. */
    method PhotoInput(image: string, format: Format) returns (req: GenerationRequest)
      modifies this`savedDesign, this`mixerData, this`view
      requires Valid()
      ensures Valid()
      ensures savedDesign == None && mixerData == Some(PhotoPlaceholder(image, format)) && view == Mixer
      ensures req == CaptionsFromImage(image, format)
    {
      savedDesign := None;
      mixerData := Some(PhotoPlaceholder(image, format));
      view := Mixer;
      req := CaptionsFromImage(image, format);
    }

    /** `handleFormatSelected`: without a pending input nothing happens;
        otherwise the pending input runs the mixer flow. */
    method FormatSelected(format: Format) returns (req: Option<GenerationRequest>)
      modifies this`savedDesign, this`mixerData, this`view
      requires Valid()
      ensures Valid()
      ensures old(tempInput).None? ==> req == None && view == old(view) && mixerData == old(mixerData)
                                       && savedDesign == old(savedDesign)
      ensures old(tempInput).Some? ==>
                req == Some(PostIngredients(tempInput.value.text, tempInput.value.isAudio, format, tempInput.value.mimeType))
                && view == Mixer && mixerData == Some(DraftPlaceholder(format)) && savedDesign == None
    {
      if tempInput.None? {
        return None;
      }
      var r := RunMixerFlow(tempInput.value.text, tempInput.value.isAudio, format, tempInput.value.mimeType);
      req := Some(r);
    }

    /** `handleGuidedSubmit`: a typed brief runs the mixer flow as text. */
    method GuidedSubmit(text: string, format: Format) returns (req: GenerationRequest)
      modifies this`savedDesign, this`mixerData, this`view
      requires Valid()
      ensures Valid()
      ensures req == PostIngredients(text, false, format, None)
      ensures view == Mixer && mixerData == Some(DraftPlaceholder(format)) && savedDesign == None
    {
      req := RunMixerFlow(text, false, format, None);
    }

    /** `handleMixerNext`, offered only by the editor screen: the bundle is
        kept for the preview and its design is saved. */
    method MixerNext(d: FeedPreviewData)
      modifies this`savedDesign, this`previewData, this`view
      requires Valid() && Content().MixerScreen?
      ensures Valid()
      ensures savedDesign == Some(d.design) && previewData == Some(d) && view == PreviewFeed
      ensures Content() == PreviewScreen(d)
    {
      savedDesign := Some(d.design);
      previewData := Some(d);
      view := PreviewFeed;
    }

    /** The editor's back button: home, with everything kept. */
    method MixerBack()
      modifies this`view
      requires Valid() && Content().MixerScreen?
      ensures Valid()
      ensures view == Home
    {
      view := Home;
    }

    /** The preview's back button: the editor again, mounted on the saved
        design. */
    method PreviewBack()
      modifies this`view
      requires Valid() && Content().PreviewScreen?
      ensures Valid()
      ensures view == Mixer
      ensures mixerData.Some? && Content() == MixerScreen(mixerData.value, savedDesign)
      ensures savedDesign.Some? ==> savedDesign.value == previewData.value.design
    {
      view := Mixer;
    }

    /** `handlePostComplete`. The preview schedules it two seconds after a
        publication and never cancels it, so it also fires when a navigation
        bar tap has left the preview in between. */
    method PostComplete()
      modifies this`view
      requires Valid()
      ensures Valid()
      ensures view == Success && Content() == SuccessScreen
    {
      view := Success;
    }

    /** The timer two seconds after a completed post: home, with every data
        slot cleared. */
    method PostCompleteTimer()
      modifies this
      requires Valid()
      ensures Valid()
      ensures view == Home && mixerData == None && tempInput == None && previewData == None && savedDesign == None
    {
      view := Home;
      mixerData := None;
      tempInput := None;
      previewData := None;
      savedDesign := None;
    }

    /** `setView`, as the navigation bar and the other screens call it. */
    method Navigate(v: ViewState)
      modifies this`view
      requires Valid()
      ensures Valid()
      ensures view == v
    {
      view := v;
    }

    /** A tap on item `i` of the navigation bar, which is shown. */
    method NavbarClick(i: nat)
      modifies this`view
      requires Valid() && ShowsNavbar() && i < |Navbar.Items|
      ensures Valid()
      ensures view == Navbar.Items[i].view && ShowsNavbar()
    {
      Navbar.HighlightFacts(view);
      view := Navbar.Items[i].view;
    }
  }
}
