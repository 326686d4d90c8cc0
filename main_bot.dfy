/**
 * main.py's handlers: the per-user preset and chroma-key dictionaries that the
 * text buttons update, and `handle_media`, which converts an uploaded video to
 * a WebM sticker with the user's filter chain and then runs the size ladder.
 */
module MainBot {
  import opened Wrappers
  import opened Engine
  import opened Strs
  import opened FilterChain
  import opened SizeLadder

  const PresetsButton: string := "🎛 Пресеты"
  const ChromaMenuButton: string := "🧹 Удалить фон (хрома)"
  const GreenButton: string := "Зелёный (00FF00)"
  const BlueButton: string := "Синий (0000FF)"
  const PurpleButton: string := "Фиолетовый (FF00FF)"
  const ChromaOffButton: string := "Отключить хрома"
  const UploadButton: string := "📤 Загрузить видео"
  const HelpButton: string := "ℹ Помощь"

  /** The chroma keyboard, top to bottom. */
  const ChromaButtons: seq<string> := [GreenButton, BlueButton, PurpleButton, ChromaOffButton]

  /** The colours the chroma buttons store: green, blue, purple. */
  const ChromaColours: seq<string> := ["00FF00", "0000FF", "FF00FF"]

  /** `CommandStart()`: the `/start` command, alone or followed by a deep-link argument. */
  predicate IsStart(text: string) {
    text == "/start" || StartsWith(text, "/start ")
  }

  /** The text handler a message reaches, trying the handlers in registration order. */
  datatype Route =
    | Start
    | ShowPresets
    | SelectPreset(key: string)
    | ShowChromaMenu
    | SetChroma(hex: string)
    | ClearChroma
    | UploadPrompt
    | Help
    | Unhandled

  function RouteText(text: string): Route {
    if IsStart(text) then Start
    else if text == PresetsButton then ShowPresets
    else if text in Presets then SelectPreset(text)
    else if text == ChromaMenuButton then ShowChromaMenu
    else if text == GreenButton then SetChroma(ChromaColours[0])
    else if text == BlueButton then SetChroma(ChromaColours[1])
    else if text == PurpleButton then SetChroma(ChromaColours[2])
    else if text == ChromaOffButton then ClearChroma
    else if text == UploadButton then UploadPrompt
    else if text == HelpButton then Help
    else Unhandled
  }

  /** The two dictionaries `user_preset` and `user_chroma` as one value. */
  datatype Prefs = Prefs(preset: map<UserId, string>, chroma: map<UserId, string>)

  /** What a routed text does to the dictionaries of user `uid`. */
  function ApplyRoute(p: Prefs, uid: UserId, r: Route): Prefs {
    match r
    case Start => Prefs(p.preset[uid := DefaultPreset], p.chroma - {uid})
    case SelectPreset(key) => p.(preset := p.preset[uid := key])
    case SetChroma(hex) => p.(chroma := p.chroma[uid := hex])
    case ClearChroma => p.(chroma := p.chroma - {uid})
    case _ => p
  }

  /** Every stored preset is a key of `PRESETS` and every stored chroma colour is a button colour. */
  predicate ValidPrefs(p: Prefs) {
    (forall u :: u in p.preset ==> p.preset[u] in Presets)
    && (forall u :: u in p.chroma ==> p.chroma[u] in ChromaColours)
  }

  /** A text that does not begin with '/' is not a command. */
  lemma NotStart(text: string)
    requires |text| > 0 && text[0] != '/'
    ensures !IsStart(text)
  {
    if |text| >= 7 {
      assert text[..7][0] == text[0];
    }
  }

  /** Each preset key typed (or pressed on the preset keyboard) selects exactly that preset. */
  lemma PresetKeysSelect(key: string)
    requires key in Presets
    ensures RouteText(key) == SelectPreset(key)
  {
    NotStart(key);
  }

  /** The chroma keyboard: the three colours in order, then the off button. */
  lemma ChromaButtonsRoute()
    ensures forall i :: 0 <= i < 3 ==> RouteText(ChromaButtons[i]) == SetChroma(ChromaColours[i])
    ensures RouteText(ChromaButtons[3]) == ClearChroma
  {
    NotStart(GreenButton);
    NotStart(BlueButton);
    NotStart(PurpleButton);
    NotStart(ChromaOffButton);
  }

  /** `/start` leaves the user with the clean filter and no chroma key. */
  lemma StartResets(p: Prefs, uid: UserId)
    ensures var q := ApplyRoute(p, uid, Start);
      && PresetFilterFor(q.preset, uid) == Presets[DefaultPreset]
      && ChromaFor(q.chroma, uid) == None
  {
  }

  /** After "Отключить хрома" the user has no chroma key, whatever was stored before. */
  lemma ChromaOffClears(p: Prefs, uid: UserId)
    ensures ChromaFor(ApplyRoute(p, uid, RouteText(ChromaOffButton)).chroma, uid) == None
  {
    ChromaButtonsRoute();
  }

  /** A text from one user never changes another user's entries. */
  lemma OtherUsersUntouched(p: Prefs, uid: UserId, other: UserId, r: Route)
    requires other != uid
    ensures var q := ApplyRoute(p, uid, r);
      && (other in q.preset <==> other in p.preset)
      && (other in q.preset ==> q.preset[other] == p.preset[other])
      && (other in q.chroma <==> other in p.chroma)
      && (other in q.chroma ==> q.chroma[other] == p.chroma[other])
  {
  }

  /** The handlers only ever store preset keys and button colours. */
  lemma {:induction false} TextKeepsValid(p: Prefs, uid: UserId, text: string)
    requires ValidPrefs(p)
    ensures ValidPrefs(ApplyRoute(p, uid, RouteText(text)))
  {
    var q := ApplyRoute(p, uid, RouteText(text));
    forall u | u in q.chroma
      ensures q.chroma[u] in ChromaColours
    {
      if u != uid || RouteText(text) != SetChroma(q.chroma[u]) {
        assert u in p.chroma;
      }
    }
  }

  /**
   * With valid dictionaries the `PRESETS["clean"]` fallback of `handle_media`
   * is taken only for a user who never chose a preset.
   */
  lemma FallbackOnlyWhenUnset(p: Prefs, uid: UserId)
    requires ValidPrefs(p)
    ensures uid in p.preset ==> PresetFilterFor(p.preset, uid) == Presets[p.preset[uid]]
    ensures uid !in p.preset ==> PresetFilterFor(p.preset, uid) == Presets[DefaultPreset]
  {
  }

  /** The attachments of an incoming message that `handle_media` looks at. */
  datatype Document = Document(mime: Option<string>)
  datatype Message = Message(uid: UserId, video: bool, animation: bool, document: Option<Document>)

  /** Which attachment is downloaded. */
  datatype Attachment = VideoFile | AnimationFile | DocumentFile

  /** A document whose MIME type is present and starts with "video". */
  predicate VideoDocument(m: Message) {
    m.document.Some? && m.document.value.mime.Some? && StartsWith(m.document.value.mime.value, "video")
  }

  /** The filter the handler is registered with: video, animation, or a video document. */
  predicate MediaFilter(m: Message) {
    m.video || m.animation || VideoDocument(m)
  }

  /** The `if msg.video / elif msg.animation / elif document` choice of what to download. */
  function PickAttachment(m: Message): (a: Option<Attachment>)
    ensures a.None? <==> !MediaFilter(m)
    ensures a == Some(VideoFile) <==> m.video
    ensures a == Some(AnimationFile) <==> !m.video && m.animation
    ensures a == Some(DocumentFile) <==> !m.video && !m.animation && VideoDocument(m)
  {
    if m.video then Some(VideoFile)
    else if m.animation then Some(AnimationFile)
    else if VideoDocument(m) then Some(DocumentFile)
    else None
  }

  /** The first conversion: `-t 3 -an -vf <chain> -c:v libvpx-vp9 -pix_fmt yuva420p -b:v 220k`. */
  datatype Convert = Convert(input: seq<byte>, seconds: nat, vf: string, bitrate: string)

  const FirstPassSeconds: nat := 3
  const FirstPassBitrate: string := "220k"

  /** How a media message ends, by the reply the user gets. */
  datatype Outcome =
    | NoFfmpeg
    | Unrecognised
    | DownloadFailed
    | FirstPassFailed(code: int)
    | CompressFailed
    | SendFailed
    | Delivered(sticker: seq<byte>, sizeKb: nat)

  /**
   * Reference definition of `handle_media`, given whether ffmpeg is on the
   * PATH, what each download yields (None when it raises), the two ffmpeg
   * oracles and whether Telegram accepts the document.
   */
  function MediaOutcome(p: Prefs, m: Message, ffmpegFound: bool, fetch: Attachment -> Option<seq<byte>>,
                        convert: Convert -> Run, encode: Encoder, sendOk: bool): Outcome
  {
    if !ffmpegFound then NoFfmpeg
    else
      var pick := PickAttachment(m);
      if pick.None? then Unrecognised
      else
        var input := fetch(pick.value);
        if input.None? then DownloadFailed
        else
          var vf := BuildFilterChain(PresetFilterFor(p.preset, m.uid), ChromaFor(p.chroma, m.uid));
          var run := convert(Convert(input.value, FirstPassSeconds, vf, FirstPassBitrate));
          if run.code != 0 then FirstPassFailed(run.code)
          else if run.output.None? then CompressFailed
          else
            var final := Ladder(run.output.value, StickerLimit, encode, Steps()).0;
            if sendOk then Delivered(final, |final| / 1024) else SendFailed
  }

  /** Messages that pass the handler's filter never reach the "unrecognised format" reply. */
  lemma FilteredMediaRecognised(p: Prefs, m: Message, ffmpegFound: bool, fetch: Attachment -> Option<seq<byte>>,
                                convert: Convert -> Run, encode: Encoder, sendOk: bool)
    requires MediaFilter(m)
    ensures MediaOutcome(p, m, ffmpegFound, fetch, convert, encode, sendOk) != Unrecognised
  {
  }

  /**
   * A failed first conversion aborts: the outcome is the same whatever the
   * re-encoder would do, so no compression attempt is made.
   */
  lemma FirstPassFailureAborts(p: Prefs, m: Message, fetch: Attachment -> Option<seq<byte>>,
                               convert: Convert -> Run, encode1: Encoder, encode2: Encoder, sendOk: bool)
    requires MediaFilter(m) && fetch(PickAttachment(m).value).Some?
    requires var vf := BuildFilterChain(PresetFilterFor(p.preset, m.uid), ChromaFor(p.chroma, m.uid));
      convert(Convert(fetch(PickAttachment(m).value).value, FirstPassSeconds, vf, FirstPassBitrate)).code != 0
    ensures MediaOutcome(p, m, true, fetch, convert, encode1, sendOk).FirstPassFailed?
    ensures MediaOutcome(p, m, true, fetch, convert, encode1, sendOk)
         == MediaOutcome(p, m, true, fetch, convert, encode2, sendOk)
  {
  }

  /**
   * A delivered sticker is the ladder's result: no larger than the first
   * conversion, within 256 KiB unless all 20 steps were tried, and reported
   * in whole KiB rounded down.
   */
  lemma {:induction false} DeliveredSticker(p: Prefs, m: Message, ffmpegFound: bool, fetch: Attachment -> Option<seq<byte>>,
                                            convert: Convert -> Run, encode: Encoder, sendOk: bool)
    requires MediaOutcome(p, m, ffmpegFound, fetch, convert, encode, sendOk).Delivered?
    ensures var o := MediaOutcome(p, m, ffmpegFound, fetch, convert, encode, sendOk);
      var vf := BuildFilterChain(PresetFilterFor(p.preset, m.uid), ChromaFor(p.chroma, m.uid));
      var first := convert(Convert(fetch(PickAttachment(m).value).value, FirstPassSeconds, vf, FirstPassBitrate));
      && first.code == 0 && first.output.Some?
      && |o.sticker| <= |first.output.value|
      && (|o.sticker| > StickerLimit ==> Ladder(first.output.value, StickerLimit, encode, Steps()).1 == Steps())
      && o.sizeKb * 1024 <= |o.sticker| < (o.sizeKb + 1) * 1024
  {
    var vf := BuildFilterChain(PresetFilterFor(p.preset, m.uid), ChromaFor(p.chroma, m.uid));
    var first := convert(Convert(fetch(PickAttachment(m).value).value, FirstPassSeconds, vf, FirstPassBitrate));
    LadderShrinksInOrder(first.output.value, StickerLimit, encode, Steps());
    if |Ladder(first.output.value, StickerLimit, encode, Steps()).0| > StickerLimit {
      OversizeMeansExhausted(first.output.value, StickerLimit, encode, Steps());
    }
  }

  /** The bot's per-user settings: main.py's two module-level dictionaries. */
  class Settings {
    var userPreset: map<UserId, string>
    var userChroma: map<UserId, string>

    function Current(): Prefs
      reads this
    {
      Prefs(userPreset, userChroma)
    }

    constructor ()
      ensures userPreset == map[] && userChroma == map[]
      ensures ValidPrefs(Current())
    {
      userPreset, userChroma := map[], map[];
    }

    /** `cmd_start`: preset back to "clean", chroma entry popped. */
    method CmdStart(uid: UserId)
      modifies this
      ensures userPreset == old(userPreset)[uid := DefaultPreset]
      ensures userChroma == old(userChroma) - {uid}
    {
      userPreset := userPreset[uid := DefaultPreset];
      userChroma := userChroma - {uid};
    }

    /** `on_select_preset`: the text itself is stored as the key. */
    method OnSelectPreset(uid: UserId, key: string)
      modifies this
      ensures userPreset == old(userPreset)[uid := key]
      ensures userChroma == old(userChroma)
    {
      userPreset := userPreset[uid := key];
    }

    /** `on_chroma_green` / `on_chroma_blue` / `on_chroma_purple`. */
    method OnChroma(uid: UserId, hex: string)
      modifies this
      ensures userChroma == old(userChroma)[uid := hex]
      ensures userPreset == old(userPreset)
    {
      userChroma := userChroma[uid := hex];
    }

    /** `on_chroma_off`: `pop(uid, None)`, so a user without an entry is fine. */
    method OnChromaOff(uid: UserId)
      modifies this
      ensures userChroma == old(userChroma) - {uid}
      ensures userPreset == old(userPreset)
    {
      userChroma := userChroma - {uid};
    }

    /** The dispatcher for a text message: route it, then run that handler. */
    method OnText(uid: UserId, text: string) returns (route: Route)
      modifies this
      ensures route == RouteText(text)
      ensures Current() == ApplyRoute(old(Current()), uid, route)
      ensures ValidPrefs(old(Current())) ==> ValidPrefs(Current())
    {
      if ValidPrefs(Current()) {
        TextKeepsValid(Current(), uid, text);
      }
      route := RouteText(text);
      match route {
        case Start => CmdStart(uid);
        case SelectPreset(key) => OnSelectPreset(uid, key);
        case SetChroma(hex) => OnChroma(uid, hex);
        case ClearChroma => OnChromaOff(uid);
        case _ =>
      }
    }

    /** `handle_media`: the early exits in source order, then the ladder. */
    method HandleMedia(m: Message, ffmpegFound: bool, fetch: Attachment -> Option<seq<byte>>,
                       convert: Convert -> Run, encode: Encoder, sendOk: bool)
      returns (outcome: Outcome)
      ensures outcome == MediaOutcome(Current(), m, ffmpegFound, fetch, convert, encode, sendOk)
    {
      if !ffmpegFound {
        return NoFfmpeg;
      }
      var input: seq<byte>;
      if m.video {
        var got := fetch(VideoFile);
        if got.None? { return DownloadFailed; }
        input := got.value;
      } else if m.animation {
        var got := fetch(AnimationFile);
        if got.None? { return DownloadFailed; }
        input := got.value;
      } else if m.document.Some? && m.document.value.mime.Some? && StartsWith(m.document.value.mime.value, "video") {
        var got := fetch(DocumentFile);
        if got.None? { return DownloadFailed; }
        input := got.value;
      } else {
        return Unrecognised;
      }
      var presetFilter := PresetFilterFor(userPreset, m.uid);
      var chroma := ChromaFor(userChroma, m.uid);
      var vf := BuildFilterChain(presetFilter, chroma);
      var run := convert(Convert(input, FirstPassSeconds, vf, FirstPassBitrate));
      if run.code != 0 {
        return FirstPassFailed(run.code);
      }
      if run.output.None? {
        return CompressFailed;
      }
      var final, tried := CompressUntilSize(run.output.value, StickerLimit, encode);
      var sizeKb := |final| / 1024;
      if !sendOk {
        return SendFailed;
      }
      outcome := Delivered(final, sizeKb);
    }
  }
}
