/** The deterministic part of the generation service: the demo envelope, the
    caption re-numbering, the data-URL split, the image-part scan, the image
    selection with its deep-search backup, and the way a model reply (or its
    absence, failure or lateness) becomes a generation envelope. The SDK, the
    JSON parser, the clock and the random seeds are parameters. */
module GeminiService {

  import opened Wrappers
  import opened Text
  import opened Types
  import opened StockData
  import StockExamples

  // ---------------------------------------------------------------------
  // The demo envelope

  const DemoIntent: string := "Promote New Service (Demo Mode)"

  const DemoCaptions: seq<Caption> := [
    Caption("1", "Glow up season is here! \U{2728} Book now.", "Exciting"),
    Caption("2", "The secret to perfect skin? It's in the details. \U{1F33F}", "Educational"),
    Caption("3", "Limited slots available this week! Link in bio.", "Urgent")]

  /** `getFallbackMixerData`: the SPA pictures, three fixed captions with ids
      "1", "2", "3", and the demo intent. */
  function FallbackMixerData(format: Format): (r: MixerData)
    ensures r.format == format && r.intent == DemoIntent && r.isLoading == None
    ensures r.visuals == Library(Spa)
    ensures |r.captions| == 3
    ensures r.captions[0].id == "1" && r.captions[1].id == "2" && r.captions[2].id == "3"
  {
    StockExamples.SpaIsSpa();
    MixerData(DemoIntent, format, SmartImages("spa"), DemoCaptions, None)
  }

  // ---------------------------------------------------------------------
  // Caption ids

  /** `captions.map((c, index) => ({...c, id: index.toString()}))`. */
  function Reid(cs: seq<Caption>): (r: seq<Caption>)
    ensures |r| == |cs|
    ensures forall i :: 0 <= i < |cs| ==>
              r[i].text == cs[i].text && r[i].tone == cs[i].tone && r[i].id == NatToString(i)
  {
    seq(|cs|, i requires 0 <= i < |cs| => cs[i].(id := NatToString(i)))
  }

  /** After re-numbering, the ids are pairwise different, and re-numbering
      again changes nothing. */
  lemma ReidIdsDistinct(cs: seq<Caption>)
    ensures forall i, j :: 0 <= i < j < |cs| ==> Reid(cs)[i].id != Reid(cs)[j].id
    ensures Reid(Reid(cs)) == Reid(cs)
  {
    forall i, j | 0 <= i < j < |cs| ensures Reid(cs)[i].id != Reid(cs)[j].id {
      NatToStringInjective(i, j);
    }
  }

  /** Re-numbering only touches the ids: two caption lists with the same
      texts and tones in the same order re-number to the same list. */
  lemma ReidForgetsIds(cs: seq<Caption>, ds: seq<Caption>)
    requires |cs| == |ds|
    requires forall i :: 0 <= i < |cs| ==> cs[i].text == ds[i].text && cs[i].tone == ds[i].tone
    ensures Reid(cs) == Reid(ds)
  {
  }

  // ---------------------------------------------------------------------
  // The data-URL split of `generateCaptionsFromImage`

  const Base64Marker: string := ";base64,"

  /** The split of an upload into a media type and a payload. */
  datatype MediaParts = MediaParts(mimeType: string, data: string)

  /** The largest `p <= i` with `p >= 6` at which the marker stands and leaves
      at least one character after it: where the greedy first group of
      `^data:(.+);base64,(.+)$` ends. */
  function LastMarkerAtOrBelow(s: string, i: int): (r: Option<nat>)
    ensures r.Some? ==> 6 <= r.value <= i && r.value + 8 < |s| && SliceAt(s, Base64Marker, r.value)
    ensures r.Some? ==> forall q :: r.value < q <= i && q + 8 < |s| ==> !SliceAt(s, Base64Marker, q)
    ensures r.None? ==> forall q :: 6 <= q <= i && q + 8 < |s| ==> !SliceAt(s, Base64Marker, q)
    decreases i
  {
    if i < 6 then None
    else if i + 8 < |s| && SliceAt(s, Base64Marker, i) then Some(i)
    else LastMarkerAtOrBelow(s, i - 1)
  }

  /** `s` has no line terminator from index `i` on. */
  predicate NoLineTerminatorFrom(s: string, i: nat)
  {
    forall j :: i <= j < |s| ==> !IsLineTerminator(s[j])
  }

  /** The regular expression matches: a `data:` prefix, no line terminator,
      and a marker with a non-empty group on each side. The shortest text it
      accepts, `data:x;base64,y`, has 15 characters. */
  predicate DataUrlMatches(s: string)
    ensures DataUrlMatches(s) ==> StartsWith(s, "data:") && |s| >= 15
  {
    StartsWith(s, "data:") && NoLineTerminatorFrom(s, 5) && LastMarkerAtOrBelow(s, |s| - 9).Some?
  }

  /** The media type and payload sent with an upload: the two groups of the
      regular expression when it matches; otherwise "image/jpeg" and the
      field after the first comma, or the whole string when that field is
      missing or empty. */
  function ParseDataUrl(s: string): (r: MediaParts)
    ensures DataUrlMatches(s) ==>
              s == "data:" + r.mimeType + Base64Marker + r.data && |r.mimeType| > 0 && |r.data| > 0
    ensures !DataUrlMatches(s) ==> r.mimeType == "image/jpeg"
    ensures !DataUrlMatches(s) && ',' !in s ==> r.data == s
    ensures !DataUrlMatches(s) && ',' in s ==>
              r.data == if SecondCommaField(s).value != "" then SecondCommaField(s).value else s
  {
    if DataUrlMatches(s) then
      var p := LastMarkerAtOrBelow(s, |s| - 9).value;
      assert s == s[..5] + s[5..p] + s[p..p + 8] + s[p + 8..];
      MediaParts(s[5..p], s[p + 8..])
    else
      var field := SecondCommaField(s);
      MediaParts("image/jpeg", if field.Some? && field.value != "" then field.value else s)
  }

  /** A data URL built from a non-empty media type and a non-empty payload
      without ';' (as base64 is), neither holding a line terminator, splits
      back into exactly that media type and payload. The media type may
      itself contain the marker: the greedy group takes the last one. */
  lemma DataUrlRoundTrip(m: string, d: string)
    requires |m| > 0 && |d| > 0 && ';' !in d
    requires forall c :: c in m + d ==> !IsLineTerminator(c)
    ensures ParseDataUrl("data:" + m + Base64Marker + d) == MediaParts(m, d)
  {
    var s := "data:" + m + Base64Marker + d;
    var p := 5 + |m|;
    assert s[..5] == "data:";
    assert s[p..p + 8] == Base64Marker;
    assert s[p + 8..] == d;
    assert s[5..p] == m;
    assert SliceAt(s, Base64Marker, p);
    forall j | 5 <= j < |s| ensures !IsLineTerminator(s[j]) {
      if j < p {
        assert s[j] == m[j - 5] && m[j - 5] in m + d;
      } else if j >= p + 8 {
        assert s[j] == d[j - p - 8] && d[j - p - 8] in m + d;
      }
    }
    forall q | p < q <= |s| - 9 ensures !SliceAt(s, Base64Marker, q) {
      assert s[q..q + 8][0] == s[q];
      if q < p + 8 {
        assert s[q] == Base64Marker[q - p];
      } else {
        assert s[q] == d[q - p - 8];
      }
    }
    var r := LastMarkerAtOrBelow(s, |s| - 9);
    assert r.Some? && r.value >= p;
  }

  /** Text the regular expression rejects is sent as "image/jpeg", with the
      second comma field as payload when that field is non-empty and the
      whole text otherwise. */
  lemma NonDataUrlIsJpeg(s: string)
    requires !DataUrlMatches(s)
    ensures ParseDataUrl(s).mimeType == "image/jpeg"
    ensures ',' in s && SecondCommaField(s).value != "" ==> ParseDataUrl(s).data == SecondCommaField(s).value
    ensures (',' !in s || SecondCommaField(s).value == "") ==> ParseDataUrl(s).data == s
  {
  }

  /** A `data:` text with an empty media type is rejected by the regular
      expression and falls back to the second comma field. */
  lemma EmptyMediaTypeFallsBack()
    ensures ParseDataUrl("data:;base64,AAAA") == MediaParts("image/jpeg", "AAAA")
  {
    var s := "data:;base64,AAAA";
    assert s[6..14][0] == 'b' && s[7..15][0] == 'a' && s[8..16][0] == 's';
    assert LastMarkerAtOrBelow(s, |s| - 9).None?;
    assert s == "data:;base64" + "," + "AAAA";
    SecondCommaFieldOf("data:;base64", "AAAA");
  }

  /** A `data:` text not marked base64 is rejected too, and its payload is
      the second comma field. */
  lemma PlainDataUrlFallsBack()
    ensures ParseDataUrl("data:text/plain,hi") == MediaParts("image/jpeg", "hi")
  {
    var t := "data:text/plain,hi";
    assert t[6..14][0] == 'e' && t[7..15][0] == 'x' && t[8..16][0] == 't' && t[9..17][0] == '/';
    assert LastMarkerAtOrBelow(t, |t| - 9).None?;
    assert t == "data:text/plain" + "," + "hi";
    SecondCommaFieldOf("data:text/plain", "hi");
  }

  // ---------------------------------------------------------------------
  // `generateImage`: the first response part that carries image data

  datatype InlineData = InlineData(mimeType: Option<string>, data: Option<string>)

  datatype Part = Part(inlineData: Option<InlineData>)

  /** What the image SDK call delivers: an error, or the parts of the first
      candidate (an absent list is the empty list). */
  datatype ImageReply = ImageSdkError | ImageParts(parts: seq<Part>)

  /** `part.inlineData && part.inlineData.data`: the data is present and not
      the empty string. */
  predicate CarriesImage(p: Part)
  {
    p.inlineData.Some? && p.inlineData.value.data.Some? && p.inlineData.value.data.value != ""
  }

  /** The index of the first part that carries image data. */
  function FirstImagePart(parts: seq<Part>): (r: Option<nat>)
    ensures r.Some? ==> r.value < |parts| && CarriesImage(parts[r.value])
    ensures r.Some? ==> forall j :: 0 <= j < r.value ==> !CarriesImage(parts[j])
    ensures r.None? <==> forall j :: 0 <= j < |parts| ==> !CarriesImage(parts[j])
  {
    if parts == [] then None
    else if CarriesImage(parts[0]) then Some(0)
    else
      var r := FirstImagePart(parts[1..]);
      if r.Some? then Some(r.value + 1) else None
  }

  /** A template literal prints an absent media type as "undefined". */
  function MimeText(m: Option<string>): (r: string)
    ensures m.Some? ==> r == m.value
  {
    if m.Some? then m.value else "undefined"
  }

  /** The data URL of an inline image part. */
  function InlineDataUrl(d: InlineData): (r: string)
    ensures StartsWith(r, "data:")
  {
    "data:" + MimeText(d.mimeType) + Base64Marker + (if d.data.Some? then d.data.value else "")
  }

  /** `generateImage`: without a client, on an SDK error, or when no part
      carries image data, the prompt's fallback url; otherwise the data URL of
      the first part that does. */
  method GenerateImage(hasClient: bool, reply: ImageReply, fallbackUrl: string) returns (url: string)
    ensures !hasClient || reply.ImageSdkError? ==> url == fallbackUrl
    ensures hasClient && reply.ImageParts? && FirstImagePart(reply.parts).None? ==> url == fallbackUrl
    ensures hasClient && reply.ImageParts? && FirstImagePart(reply.parts).Some? ==>
              url == InlineDataUrl(reply.parts[FirstImagePart(reply.parts).value].inlineData.value)
  {
    if !hasClient || reply.ImageSdkError? {
      return fallbackUrl;
    }
    var parts := reply.parts;
    var i := 0;
    while i < |parts|
      invariant 0 <= i <= |parts|
      invariant forall j :: 0 <= j < i ==> !CarriesImage(parts[j])
    {
      if CarriesImage(parts[i]) {
        FirstImageIsFirst(parts, i);
        return InlineDataUrl(parts[i].inlineData.value);
      }
      i := i + 1;
    }
    return fallbackUrl;
  }

  lemma FirstImageIsFirst(parts: seq<Part>, i: nat)
    requires i < |parts| && CarriesImage(parts[i])
    requires forall j :: 0 <= j < i ==> !CarriesImage(parts[j])
    ensures FirstImagePart(parts) == Some(i)
  {
    var r := FirstImagePart(parts);
    assert r.Some?;
  }

  /** A generated image with a media type and a base64 payload is read back
      by the upload split as that media type and payload. */
  lemma GeneratedImageSplitsBack(d: InlineData)
    requires d.mimeType.Some? && |d.mimeType.value| > 0
    requires d.data.Some? && |d.data.value| > 0 && ';' !in d.data.value
    requires forall c :: c in d.mimeType.value + d.data.value ==> !IsLineTerminator(c)
    ensures ParseDataUrl(InlineDataUrl(d)) == MediaParts(d.mimeType.value, d.data.value)
  {
    DataUrlRoundTrip(d.mimeType.value, d.data.value);
  }

  // ---------------------------------------------------------------------
  // Replies of the text model

  /** What `JSON.parse` made of a non-empty reply text: it threw; it gave a
      value that is not an object (no `intent` or `captions` can be read off
      it, or reading them throws); or an object with optional string `intent`
      and optional caption array `captions`. */
  datatype JsonOutcome =
    | Unparseable
    | NonObject
    | Object(intent: Option<string>, captions: Option<seq<Caption>>)

  /** What the generation SDK call delivers: an error or the reply text (the
      empty string also stands for an absent text). */
  datatype ModelReply = SdkFailure | ReplyText(text: string)

  /** Which promise of the race settles first. */
  datatype RaceWinner = Generation | Timer

  /** The opaque parts of the dynamic visuals: the two clock readings used in
      their ids (the clock is read once per visual) and the three pollinations
      urls (which hold random seeds). */
  datatype Entropy = Entropy(now1: string, now2: string, textUrl1: string, textUrl2: string, aiUrl: string)

  const SalvageCaption: Caption := Caption("1", "Check out our latest update!", "General")

  /** `data.intent || "Content Creation"`. */
  function IntentOrDefault(intent: Option<string>): (r: string)
    ensures |r| > 0
    ensures intent.Some? && intent.value != "" ==> r == intent.value
    ensures intent.None? || intent.value == "" ==> r == "Content Creation"
  {
    if intent.Some? && intent.value != "" then intent.value else "Content Creation"
  }

  /** `data.captions?.[0]?.text || ""`. */
  function FirstCaptionText(captions: Option<seq<Caption>>): (r: string)
    ensures r != "" ==> captions.Some? && |captions.value| > 0 && r == captions.value[0].text
  {
    if captions.Some? && |captions.value| > 0 then captions.value[0].text else ""
  }

  // ---------------------------------------------------------------------
  // Image selection after a reply

  const AiPromptSuffix: string := " high quality photography"

  /** The single dynamic visual built from a query: the first comma field,
      trimmed, as its subject. */
  function AiVisual(query: string, url: string): (v: Visual)
    ensures v.id == "dyn-ai-1" && v.url == url
    ensures v.prompt == Trim(BeforeComma(query)) + AiPromptSuffix
  {
    Visual("dyn-ai-1", Trim(BeforeComma(query)) + AiPromptSuffix, url)
  }

  /** The intended selection, stated on categories: the query's collection
      followed by the dynamic visual when the query is longer than two
      characters, except that a GENERAL query with a non-empty first caption
      of a specific category takes that category's collection alone. */
  function VisualSelection(query: string, firstCaption: string, aiUrl: string): seq<Visual>
  {
    var qc := Categorize(ToLower(query));
    var cc := Categorize(ToLower(firstCaption));
    if qc == General && firstCaption != "" && cc != General then Library(cc)
    else Library(qc) + (if |query| > 2 then [AiVisual(query, aiUrl)] else [])
  }

  /** Steps 3 and the deep-search backup of `generatePostIngredients`, on the
      id strings as the source tests them. */
  method SelectVisuals(query: string, firstCaption: string, aiUrl: string) returns (visuals: seq<Visual>)
    ensures visuals == VisualSelection(query, firstCaption, aiUrl)
  {
    visuals := SmartImages(query);
    SmartImagesGenericIffGeneral(query);
    if query != "" && |query| > 2 {
      visuals := visuals + [AiVisual(query, aiUrl)];
    }
    if StartsWith(visuals[0].id, "g") && firstCaption != "" {
      var improved := SmartImages(firstCaption);
      SmartImagesGenericIffGeneral(firstCaption);
      if !StartsWith(improved[0].id, "g") {
        visuals := improved;
      }
    }
  }

  /** The selection is never empty; it is generic exactly when the query is
      GENERAL and the caption is empty or GENERAL too; the dynamic visual
      survives exactly when the backup does not fire. */
  lemma VisualSelectionFacts(query: string, firstCaption: string, aiUrl: string)
    ensures |VisualSelection(query, firstCaption, aiUrl)| > 0
    ensures IsGenericList(VisualSelection(query, firstCaption, aiUrl)) <==>
              Categorize(ToLower(query)) == General
              && (firstCaption == "" || Categorize(ToLower(firstCaption)) == General)
    ensures Categorize(ToLower(query)) != General ==>
              VisualSelection(query, firstCaption, aiUrl)
              == SmartImages(query) + (if |query| > 2 then [AiVisual(query, aiUrl)] else [])
  {
    var qc := Categorize(ToLower(query));
    var cc := Categorize(ToLower(firstCaption));
    GenericExactlyGeneral(qc);
    GenericExactlyGeneral(cc);
    var r := VisualSelection(query, firstCaption, aiUrl);
    assert r[0] == Library(if qc == General && firstCaption != "" && cc != General then cc else qc)[0];
  }

  // ---------------------------------------------------------------------
  // The envelopes of `generatePostIngredients`

  /** The error and timeout fallback: the demo envelope, with the text's own
      collection as visuals for text input. */
  function SafeFallback(input: string, isAudio: bool, format: Format): (r: MixerData)
    ensures r == FallbackMixerData(format).(visuals := r.visuals)
    ensures r.visuals == if isAudio then Library(Spa) else SmartImages(input)
  {
    var fb := FallbackMixerData(format);
    if isAudio then fb else fb.(visuals := SmartImages(input))
  }

  /** The visuals offered for a text input without a client. */
  function TextVisuals(input: string, e: Entropy): (r: seq<Visual>)
    ensures |input| <= 2 ==> r == SmartImages(input)
    ensures |input| > 2 ==> |r| == |SmartImages(input)| + 2 && r[..|SmartImages(input)|] == SmartImages(input)
    ensures |input| > 2 ==> StartsWith(r[|r| - 2].prompt, input) && StartsWith(r[|r| - 1].prompt, input)
                            && r[|r| - 2].url == e.textUrl1 && r[|r| - 1].url == e.textUrl2
  {
    SmartImages(input)
    + if |input| > 2 then
        [Visual("dyn-" + e.now1 + "-1", input + " aesthetic high quality", e.textUrl1),
         Visual("dyn-" + e.now2 + "-2", input + " professional photography", e.textUrl2)]
      else []
  }

  /** What the source makes of a reply text once the model has answered:
      the demo envelope for an empty text; the error fallback when the parsed
      value is no object or lacks what is read off it; the salvage envelope
      for an unparseable text; otherwise the reply's intent (or "Content
      Creation"), its re-numbered captions and the selected visuals. */
  ghost predicate ReplyHandled(input: string, isAudio: bool, format: Format, text: string,
                               parsed: JsonOutcome, aiUrl: string, r: MixerData)
  {
    && (text == "" ==> r == FallbackMixerData(format))
    && (text != "" && (parsed.NonObject? || (parsed.Object? && (parsed.captions.None? || (isAudio && parsed.intent.None?))))
        ==> r == SafeFallback(input, isAudio, format))
    && (text != "" && parsed.Unparseable? ==>
          r == MixerData(Prefix(text, 100), format,
                         VisualSelection(if isAudio then Prefix(text, 100) else input, SalvageCaption.text, aiUrl),
                         [SalvageCaption.(id := "0")], None))
    && (text != "" && parsed.Object? && parsed.captions.Some? && (!isAudio || parsed.intent.Some?) ==>
          r == MixerData(IntentOrDefault(parsed.intent), format,
                         VisualSelection(if isAudio then parsed.intent.value else input,
                                         FirstCaptionText(parsed.captions), aiUrl),
                         Reid(parsed.captions.value), None))
  }

  /** The part of `generatePostIngredients` after the model call: the reply
      text, what the parser made of it, image selection, re-numbering, and
      the catch block for what throws on the way. */
  method UseReply(input: string, isAudio: bool, format: Format, text: string, parsed: JsonOutcome, aiUrl: string)
    returns (r: MixerData)
    ensures ReplyHandled(input, isAudio, format, text, parsed, aiUrl, r)
  {
    if text == "" {
      return FallbackMixerData(format);
    }
    var intent: Option<string>;
    var captions: Option<seq<Caption>>;
    match parsed {
      case Unparseable =>
        intent := Some(Prefix(text, 100));
        captions := Some([SalvageCaption]);
      case NonObject =>
        return SafeFallback(input, isAudio, format);
      case Object(i, c) =>
        intent := i;
        captions := c;
    }
    if isAudio && intent.None? {
      return SafeFallback(input, isAudio, format);
    }
    var query := if isAudio then intent.value else input;
    var visuals := SelectVisuals(query, FirstCaptionText(captions), aiUrl);
    if captions.None? {
      return SafeFallback(input, isAudio, format);
    }
    r := MixerData(IntentOrDefault(intent), format, visuals, Reid(captions.value), None);
  }

  /** `generatePostIngredients` with the SDK reply, the parser's verdict, the
      race and the opaque values as inputs; what happens once a reply text
      is in hand is `UseReply`. */
  method GeneratePostIngredients(
    input: string, isAudio: bool, format: Format, hasClient: bool,
    reply: ModelReply, parsed: JsonOutcome, winner: RaceWinner, e: Entropy)
    returns (r: MixerData)
    // the timer wins the race
    ensures hasClient && winner == Timer ==> r == SafeFallback(input, isAudio, format)
    // no client: demo envelope, for text with the text's visuals and intent
    ensures !hasClient && !isAudio ==>
              r == FallbackMixerData(format).(visuals := TextVisuals(input, e), intent := input)
    ensures !hasClient && isAudio ==> r == FallbackMixerData(format)
    // the model call fails
    ensures hasClient && winner == Generation && reply.SdkFailure? ==> r == SafeFallback(input, isAudio, format)
    // the model answers in time
    ensures hasClient && winner == Generation && reply.ReplyText? ==>
              ReplyHandled(input, isAudio, format, reply.text, parsed, e.aiUrl, r)
  {
    if hasClient && winner == Timer {
      return SafeFallback(input, isAudio, format);
    }
    if !isAudio {
      var smartVisuals := TextVisuals(input, e);
      if !hasClient {
        r := FallbackMixerData(format);
        r := r.(visuals := smartVisuals);
        r := r.(intent := input);
        return;
      }
    }
    if !hasClient {
      return FallbackMixerData(format);
    }
    if reply.SdkFailure? {
      return SafeFallback(input, isAudio, format);
    }
    r := UseReply(input, isAudio, format, reply.text, parsed, e.aiUrl);
  }

  /** The two fallbacks of the source (the catch block and the timer) build
      the same envelope; for audio it is the plain demo envelope. */
  lemma SafeFallbackShape(input: string, format: Format)
    ensures SafeFallback(input, true, format) == FallbackMixerData(format)
    ensures SafeFallback(input, false, format).visuals == SmartImages(input)
    ensures SafeFallback(input, false, format).captions == DemoCaptions
  {
  }

  /** The salvaged reply keeps at most 100 characters of the text as its
      intent and offers one caption, whose id the re-numbering turns into
      "0". */
  lemma SalvageFacts(text: string)
    requires text != ""
    ensures IntentOrDefault(Some(Prefix(text, 100))) == Prefix(text, 100)
    ensures |Prefix(text, 100)| <= 100 && StartsWith(text, Prefix(text, 100))
    ensures Reid([SalvageCaption]) == [SalvageCaption.(id := "0")]
  {
    assert Reid([SalvageCaption])[0].id == NatToString(0);
  }

  // ---------------------------------------------------------------------
  // `generateCaptionsFromImage`

  /** An upload as a visual; `stamp` is the clock reading. */
  function UserVisual(upload: string, stamp: string): (v: Visual)
    ensures v.url == upload && StartsWith(v.id, "user-")
  {
    Visual("user-" + stamp, "User Media", upload)
  }

  /** `generateCaptionsFromImage`: the upload is the only visual; without a
      client, on any failure, or when the reply lacks captions, the demo
      captions and intent; otherwise the reply's intent and its re-numbered
      captions. `stamp` and `errorStamp` are the two clock readings. */
  function GenerateCaptionsFromImage(
    upload: string, format: Format, hasClient: bool, reply: ModelReply,
    parsed: JsonOutcome, stamp: string, errorStamp: string): (r: MixerData)
    ensures r.format == format && r.isLoading == None && |r.visuals| == 1 && r.visuals[0].url == upload
    ensures !hasClient ==> r == FallbackMixerData(format).(visuals := [UserVisual(upload, stamp)])
    ensures hasClient && (reply.SdkFailure? || reply == ReplyText("") || !parsed.Object?
                          || parsed.captions.None?) ==>
              r == FallbackMixerData(format).(visuals := [UserVisual(upload, errorStamp)])
    ensures hasClient && reply.ReplyText? && reply.text != "" && parsed.Object? && parsed.captions.Some? ==>
              r.captions == Reid(parsed.captions.value) && r.visuals == [UserVisual(upload, stamp)]
              && (parsed.intent.Some? ==> r.intent == parsed.intent.value)
  {
    var fb := FallbackMixerData(format);
    if !hasClient then fb.(visuals := [UserVisual(upload, stamp)])
    else if reply.SdkFailure? || reply.text == "" || !parsed.Object? || parsed.captions.None? then
      fb.(visuals := [UserVisual(upload, errorStamp)])
    else
      MixerData(if parsed.intent.Some? then parsed.intent.value else "", format,
                [UserVisual(upload, stamp)], Reid(parsed.captions.value), None)
  }
}
