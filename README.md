# Video and photo sticker bot, modelled in Dafny

This project models the core of a Telegram bot that turns users' videos
and photos into stickers. The repository holds three generations of the
bot, and each is modelled in its own modules:

- `main.py`, the aiogram 3 converter. The user picks a preset and an
  optional chroma key from a reply keyboard. A video, an animation or a
  video document is passed once through ffmpeg with the filter chain
  `build_filter_chain` assembles (`FilterChain`). `compress_until_size`
  then re-encodes the result along a ladder of bitrates and frame rates
  until it fits 256 KiB (`SizeLadder`). The per-user dictionaries, the
  text routing and the media handler are in `MainBot`.
- `bot.py`, the python-telegram-bot converter, in `StickerBot`. It covers:
  - the effects catalogue and its inline keyboard;
  - the `effect:<id>` callback;
  - the chunked download with its 20 MB cap;
  - `convert_to_sticker` and `compress_sticker`;
  - `handle_video` with its set of busy users.

  `ffmpeg_processor.py`'s `VideoProcessor` class is in `VideoProcessing`.
  The temporary files both of them create and delete are in `Storage`
  and `TempFiles`.
- The aiogram 2 handlers under `bot/`:
  - the photo dialogue `PhotoState` (`PhotoHandler`), with the image
    effects and caption layout (`ImageEffects`);
  - the video dialogue `VideoState` (`VideoHandler`), with the
    frame-by-frame video effects (`VideoEffects`).

  Both dialogues run in one finite-state context per user. That context,
  and the dispatcher's choice of handler for an update, are in `Fsm`.

ffmpeg, OpenCV, PIL, HTTP and Telegram cannot be seen from Dafny, so they
become parameters:
- an encoder function from a command to an exit code and an output file;
- a decoder from bytes to frames;
- a probe saying which ffmpeg path answers;
- a flag saying whether a send succeeded.

Pixels are symbolic: a frame is a term that records which resizes and
effects were applied to which decoded frame. That is enough to state which
frames are written and what is done to each.

## Model

| member | source | states |
|---|---|---|
| FilterChain.StagesOrder | main.py:77-91 | The stages are the colour key and `format=rgba` first when a chroma is set, then the preset filter when it is non-empty, then exactly the three geometry stages, and nothing else |
| FilterChain.ChainText | main.py:77-91 | The chain is the stages joined with commas: with the chroma key, then the preset, then scale, pad and yuva420p, for each of the four on/off combinations |
| FilterChain.ChainStartsWithChromaKey | main.py:80-82 | With a chroma set, the chain starts with `colorkey=0x<hex>:0.25:0.08,format=rgba,` |
| FilterChain.ChainEndsWithGeometry | main.py:87-91 | Every chain ends with the scale-decrease, centred pad and yuva420p stages |
| FilterChain.ChainWithoutOptions | main.py:77-91 | With no preset filter and no chroma, the chain is just the three geometry stages |
| FilterChain.PresetFilterFor | main.py:205-206 | The filter is always one of the presets' filters: the user's preset when it is a known key, otherwise the "clean" preset |
| FilterChain.ChromaFor | main.py:207 | The chroma is set exactly when the user has one stored, and is that value |
| FilterChain.PresetsNonEmpty | main.py:26-37 | Every preset's filter text is non-empty, so the preset stage is always present |
| SizeLadder.Bitrates | main.py:94 | Five bitrates are tried |
| SizeLadder.Framerates | main.py:95 | Four frame rates are tried per bitrate |
| SizeLadder.RowsFromBitrateMajor | main.py:97-98 | In the nested loops, step 4·(b−c)+f from bitrate c on is bitrate b with frame rate f |
| SizeLadder.RowsFromLength | main.py:97-98 | The steps from bitrate c on number 4·(5−c) |
| SizeLadder.StepsBitrateMajor | main.py:97-98 | The ladder has 20 steps, and step 4b+f is bitrate b with frame rate f |
| SizeLadder.LadderShrinksInOrder | main.py:93-115 | The result is the input or strictly smaller, and the steps tried are a prefix of the ladder in order |
| SizeLadder.SmallFileUntouched | main.py:99-100 | A file already within the limit is returned unchanged and nothing is re-encoded |
| SizeLadder.OversizeMeansExhausted | main.py:93-115 | A result still over the limit means that every step of the ladder was tried |
| SizeLadder.NoShrinkNoChange | main.py:108-113 | When no attempt produces a smaller file, the original file is kept |
| SizeLadder.Attempt | main.py:101-113 | One attempt replaces the file only when ffmpeg exits 0, writes the temporary file and makes it strictly smaller; otherwise the file is kept |
| SizeLadder.TryBitrate | main.py:98-113 | The inner loop over frame rates agrees with the ladder specification on its row. It stops early only once the file fits |
| SizeLadder.CompressUntilSize | main.py:93-115 | The nested loops return the file and the steps tried exactly as the ladder specification does |
| MainBot.NotStart | main.py:118 | A text that does not start with `/` is never the start command |
| MainBot.PresetKeysSelect | main.py:132-136 | Every preset key typed as text selects that preset |
| MainBot.ChromaButtonsRoute | main.py:142-160 | The three colour buttons set 00FF00, 0000FF and FF00FF; the off button clears the chroma |
| MainBot.StartResets | main.py:118-121 | After /start the user's filter is the "clean" preset and no chroma is set |
| MainBot.ChromaOffClears | main.py:157-160 | After the off button the user has no chroma |
| MainBot.OtherUsersUntouched | main.py:118-160 | A text from one user never changes another user's preset or chroma |
| MainBot.TextKeepsValid | main.py:118-160 | Any text keeps every stored preset a known key and every stored chroma one of the three colours |
| MainBot.FallbackOnlyWhenUnset | main.py:205-206 | With the stored preferences valid, the "clean" fallback is used only for a user who never chose a preset |
| MainBot.PickAttachment | main.py:190-199 | An attachment is picked exactly when the media filter admits the message. The video comes first, then the animation, then a document whose MIME type starts with "video" |
| MainBot.FilteredMediaRecognised | main.py:177-199 | A message the handler's filter admits never reaches the "format not recognised" branch |
| MainBot.FirstPassFailureAborts | main.py:210-226 | A non-zero exit of the first ffmpeg pass ends the handler before any compression or send, whatever the encoder does later |
| MainBot.DeliveredSticker | main.py:210-241 | A delivered sticker came from a successful first pass. It is no larger than that output. It is over 256 KiB only if the whole ladder was tried. Its size in KB is rounded down |
| MainBot.Settings.constructor | main.py:39-40 | Both dictionaries start empty, which is valid |
| MainBot.Settings.CmdStart | main.py:118-121 | /start stores "clean" for the user and removes their chroma |
| MainBot.Settings.OnSelectPreset | main.py:132-136 | A preset key is stored for the user; the chroma is kept |
| MainBot.Settings.OnChroma | main.py:142-155 | A colour button stores its hex for the user; the preset is kept |
| MainBot.Settings.OnChromaOff | main.py:157-160 | The off button removes the user's chroma; the preset is kept |
| MainBot.Settings.OnText | main.py:118-167 | A text takes the route of its handler. The new dictionaries are the route applied to the old ones, and validity is preserved |
| MainBot.Settings.HandleMedia | main.py:177-241 | The media handler's outcome is the one the specification gives for the current preferences |
| StickerBot.Effects | bot.py:38-48 | The catalogue lists six effects |
| StickerBot.FindEffect | bot.py:268-269 | The lookup returns the catalogue entry with the id when there is one, otherwise the first entry |
| StickerBot.FirstWithId | bot.py:125 | `next(...)` returns the entry at the first index whose id matches, and the default only when none matches |
| StickerBot.GetFilterByEffect | bot.py:229-240 | Every filter ends with the scale-and-crop stage. An unknown id gets the "original" filter, which is that stage alone |
| StickerBot.FilterIsStageThenGeometry | bot.py:229-240 | A known id's filter is its colour stage followed by scale-and-crop |
| StickerBot.EveryEffectHasFilter | bot.py:38-240 | The catalogue's ids and the filter table's keys are the same set |
| StickerBot.EffectsKeyboard | bot.py:97-117 | One button per catalogue entry, in order, one per row |
| StickerBot.EffectIdOf | bot.py:124 | `split(":")[1]` exists exactly when the data holds a colon |
| StickerBot.CallbackRoundTrip | bot.py:106-124 | An id without a colon comes back from `effect:<id>`, whatever follows a further colon |
| StickerBot.KeyboardCallbacksParse | bot.py:97-134 | Every keyboard button's callback parses back to its own effect id |
| StickerBot.DownloadVideo | bot.py:152-168 | A non-200 status fails at once. Otherwise the result is every chunk when the total fits the cap, and the only error is too-big. On that error, the chunks read are exactly those up to the first prefix over the cap |
| StickerBot.FailedCompressionIsEmpty | bot.py:335-376 | When the recompression writes no output file, the result is empty bytes, because the exit code is ignored |
| StickerBot.ConversionChecksExitCode | bot.py:212-219 | The conversion succeeds exactly when ffmpeg exits 0, and then returns the output file |
| StickerBot.ConvertToSticker | bot.py:170-227 | The result is the conversion's, and both temporary files are gone afterwards |
| StickerBot.CompressSticker | bot.py:335-376 | The result is the recompression's, and both temporary files are gone afterwards |
| StickerBot.MakeSticker | bot.py:290-297 | The sticker is the conversion, recompressed exactly when it is over 256 KiB, and the disk ends as it began |
| StickerBot.OneCompressionPass | bot.py:290-297 | A converted file over the note limit is recompressed exactly once; one within it is sent as converted |
| StickerBot.Bot.constructor | bot.py:35 | No user is busy at the start |
| StickerBot.Bot.EffectCallback | bot.py:119-134 | A callback with a colon stores its id for the user and shows that effect's name. Without a colon nothing changes. The busy set is never touched |
| StickerBot.Bot.HandleVideo | bot.py:242-333 | A user already busy is refused. Otherwise the outcome is the specified one, the user is no longer busy afterwards, and the disk is as before |
| StickerBot.Bot.Process | bot.py:254-330 | The body inside the `try` gives the specified outcome for the effect the user chose, and leaves no temporary file |
| VideoProcessing.Duration | ffmpeg_processor.py:72 | `min(max_duration, 10)`: never above 10, and the requested value when it is at most 10 |
| VideoProcessing.Prefix100 | ffmpeg_processor.py:98 | `error_msg[:100]` is a prefix: the whole text when it has at most 100 characters, otherwise exactly its first 100 |
| VideoProcessing.FailureMessage | ffmpeg_processor.py:95-98 | The error is "FFmpeg processing failed: " followed by "Unknown error" for empty stderr, by the whole stderr when it is at most 100 characters, and otherwise by its first 100 |
| VideoProcessing.StickerFilter | ffmpeg_processor.py:123-130 | Every sticker filter ends with the scale-and-crop stage; an unknown effect gets the "original" filter |
| VideoProcessing.StickerFilterKeys | ffmpeg_processor.py:123-130 | The filter table knows "original", "bw", "contrast" and "vintage" only, so "bright" and "sepia" fall back to "original" |
| VideoProcessing.StickerDuration | ffmpeg_processor.py:135 | Sticker processing asks for 3 seconds |
| VideoProcessing.VideoProcessor.constructor | ffmpeg_processor.py:11-35 | The count starts at 0. The path is the first candidate, in list order, that answers the probe, or "ffmpeg" when none answers |
| VideoProcessing.VideoProcessor.FindFfmpeg | ffmpeg_processor.py:15-35 | The first candidate that answers is returned; "ffmpeg" is returned when none answers |
| VideoProcessing.VideoProcessor.ProcessVideo | ffmpeg_processor.py:50-115 | Success exactly on exit code 0, returning the output file. A failure carries the truncated message. The count goes up only on success, and both temporary files are removed |
| VideoProcessing.VideoProcessor.ProcessVideoForSticker | ffmpeg_processor.py:117-136 | Processing with the effect's sticker filter and 3 seconds |
| VideoProcessing.VideoProcessor.GetStats | ffmpeg_processor.py:138-140 | The number of successful runs |
| Storage.Disk.Write | ffmpeg_processor.py:65 | Writing a path stores the bytes under it and changes nothing else |
| Storage.Disk.Remove | ffmpeg_processor.py:111-115 | Removing succeeds exactly when the file exists, and the path is gone afterwards |
| TempFiles.RunWithTempFiles | ffmpeg_processor.py:57-115 | The output file is read back after the run, and both temporary files are removed, leaving the disk as before |
| TempFiles.Stage | ffmpeg_processor.py:57-66 | Both temporary files exist afterwards: the input holds the video, and the output holds what ffmpeg wrote or stays empty |
| TempFiles.Cleanup | ffmpeg_processor.py:109-115 | Exactly the two temporary files are removed, and every other file is untouched |
| Fsm.Context.constructor | bot/handlers/photo.py:10-12 | A fresh context has no state and no data |
| Fsm.Context.SetState | bot/handlers/photo.py:28 | Setting a state keeps the data |
| Fsm.Context.UpdateData | bot/handlers/photo.py:27 | `update_data` merges one key and keeps the state |
| Fsm.Context.Finish | bot/handlers/photo.py:47 | `finish` resets both the state and the data |
| Fsm.RouteStates | bot/handlers/photo.py:16-57 | Each handler fires in one state only: photo and video starts only with no state, the caption handlers only at the caption step, and the effect callbacks only with their prefix and state. Every text at the caption step goes to `with_caption` |
| ImageEffects.NonBlank | bot/effects/image.py:13 | The lines kept are all non-blank, and none are kept exactly when every line is blank |
| ImageEffects.NonBlankSingle | bot/effects/image.py:13 | One line is kept exactly when it is not blank |
| ImageEffects.NonBlankAppend | bot/effects/image.py:13 | The filter goes line by line in order: filtering a concatenation concatenates the filtered parts. With `NonBlankSingle` this fixes the kept lines exactly |
| ImageEffects.TakeTwo | bot/effects/image.py:13 | `[:2]` is the first two lines, or all when fewer |
| ImageEffects.CaptionLines | bot/effects/image.py:13 | At most two lines are drawn, none of them blank |
| ImageEffects.FirstTwoLinesDrawn | bot/effects/image.py:13 | With two non-blank first lines, exactly those two are drawn, upper-cased and in order, whatever follows |
| ImageEffects.BlankLineSkipped | bot/effects/image.py:13 | A blank line between two non-blank lines is skipped, and the two are drawn in order |
| ImageEffects.CaptionLinesEmptyIffBlank | bot/effects/image.py:10-13 | No line survives exactly when the whole text is blank |
| ImageEffects.AddCaption | bot/effects/image.py:9-20 | A blank text draws nothing. Otherwise each line is drawn once per palette colour, horizontally centred, 140 apart, with a black stroke of 12 |
| ImageEffects.EffectCaption | bot/effects/image.py:22-42 | `caption or NAME`: the caption when non-empty, otherwise the effect's name, which is not blank |
| ImageEffects.DefaultCaption | bot/effects/image.py:22-42 | Each effect's default caption is one non-blank line that upper-casing leaves unchanged, so it is drawn exactly as named |
| ImageEffects.BlankCaptionDrawsNothing | bot/effects/image.py:10-26 | A non-empty blank caption replaces the default and draws nothing |
| ImageEffects.EmptyCaptionDrawsName | bot/effects/image.py:22-42 | The empty caption draws the effect's name as its one line |
| ImageEffects.EffectNamed | bot/handlers/photo.py:14 | The dispatch table knows exactly "fire", "neon" and "glitch", and each name selects its own effect |
| ImageEffects.EffectAsWritten | bot/effects/image.py:29-34 | As written, neon fails with a `NameError` for `ImageFilter`, and only neon does |
| ImageEffects.Effect | bot/effects/image.py:22-42 | With `ImageFilter` imported, each effect keeps the photo. It draws the caption's lines when the caption is non-empty, and none when the caption is blank. It draws the effect's name as the one line when the caption is empty. At most two lines are drawn |
| ImageEffects.NeonNeedsImageFilter | bot/effects/image.py:32 | As written, neon always fails, and the other two agree with the corrected effect |
| ImageEffects.Roll | bot/effects/image.py:39 | `np.roll` by k moves the element at c−k (mod width) to c |
| ImageEffects.RollInverse | bot/effects/image.py:39 | Rolling by k and then by −k restores the row |
| ImageEffects.GlitchRows | bot/effects/image.py:36-42 | Every eighth row is rolled right by 40, and the other rows are unchanged |
| ImageEffects.RollRow | bot/effects/image.py:39 | One row is rolled right by 40, and every other row is unchanged |
| VideoEffects.Transform | bot/effects/video.py:26-94 | Glitch leaves the frame as it is exactly when the count mod 6 is at least 2, and invert exactly when the count mod 10 is at least 5. Boomerang, slowmo and unknown names never change it. Every other listed effect always transforms it, and a changed frame is that effect at that count |
| VideoEffects.Capture.Read | bot/effects/video.py:21-22 | Each read yields the next frame and advances, or nothing at the end |
| VideoEffects.Writer.Write | bot/effects/video.py:97 | A write appends the frame |
| VideoEffects.ApplyVideoEffect | bot/effects/video.py:11-102 | The loop writes exactly what the specification gives. The output is `/tmp/<id>.webm` at 30 fps and 512×512, and both capture and writer are released |
| VideoEffects.Turn | bot/effects/video.py:21-98 | One pass of the loop: a dry capture stops it, and otherwise exactly one frame is consumed. What is written plus what the rest of the loop writes stays equal to `Written` from the starting position |
| VideoEffects.WrittenBound | bot/effects/video.py:20-98 | From count c on, at most (180 − c) / 2 frames are written |
| VideoEffects.AtMostNinety | bot/effects/video.py:18-98 | At most 90 frames are written |
| VideoEffects.SkipIsFinal | bot/effects/video.py:42-46 | Once a frame is skipped with `continue`, the count never advances again, so nothing more is written |
| VideoEffects.SlowmoWritesOneFrame | bot/effects/video.py:45-46 | Slowmo writes only the first frame, resized, and nothing for an empty clip |
| VideoEffects.BoomerangStopsAtFirstSkip | bot/effects/video.py:42-43 | Boomerang writes nothing more after its first skip |
| VideoEffects.PlainEffectSchedule | bot/effects/video.py:20-98 | Any effect but slowmo and boomerang writes the even-indexed frames among the first 180, each resized and transformed at its count |
| VideoEffects.GlitchEveryThird | bot/effects/video.py:39-96 | Glitch alters written frame i exactly when i is a multiple of 3 |
| VideoEffects.GlitchAt | bot/effects/video.py:38-40 | At count 2i the glitch branch alters a frame exactly when i is a multiple of 3 |
| VideoEffects.InvertThreeOfFive | bot/effects/video.py:70-96 | Invert alters written frame i exactly when i mod 5 is below 3 |
| VideoEffects.InvertAt | bot/effects/video.py:70-71 | At count 2i the invert branch alters a frame exactly when i mod 5 is below 3 |
| VideoEffects.UnknownEffectOnlyResizes | bot/effects/video.py:23-96 | An effect outside the list writes the even frames, only resized |
| VideoHandler.BuildRow | bot/handlers/video.py:26-30 | The inner loop makes at most three buttons, starting at index i |
| VideoHandler.BuildKeyboard | bot/handlers/video.py:20-30 | Five full rows, with button k in row k/3 and column k%3, carrying label k and `vfx_` plus effect k |
| VideoHandler.EffectOfCallback | bot/handlers/video.py:37 | `data[4:]` gives back what follows `vfx_`, and is empty for data shorter than 4 |
| VideoHandler.ButtonCallbackRoundTrip | bot/handlers/video.py:28-37 | Every button reaches `apply_effect`, only in the waiting state, and yields its own effect |
| VideoHandler.InputNeverOutput | bot/handlers/video.py:15 | The upload path and a rendered path never coincide for a uuid without underscores |
| VideoHandler.VideoStart | bot/handlers/video.py:13-33 | The clip is saved and its path stored, the keyboard is offered, and the dialogue waits |
| VideoHandler.ApplyEffect | bot/handlers/video.py:35-47 | A missing path raises at once. A failed send leaves both files. A missing upload raises after the send and leaves the render. Success removes the upload and the render, finishes, and answers `<EFFECT> готов!` |
| PhotoHandler.PhotoPath | bot/handlers/photo.py:25 | `/tmp/photo_<id>.jpg` |
| PhotoHandler.PhotoPathInjective | bot/handlers/photo.py:25 | Two users never share a photo path |
| PhotoHandler.EffectField | bot/handlers/photo.py:32 | `split("_")[1]` exists exactly when the data has an underscore, and it holds none |
| PhotoHandler.EffectFieldAfterPrefix | bot/handlers/photo.py:30-32 | For `eff_<name>` the field is the name up to its first underscore |
| PhotoHandler.KeyboardEffectsDispatch | bot/handlers/photo.py:14-32 | Each of the three buttons passes the filter and names an effect of the table |
| PhotoHandler.ButtonDispatches | bot/handlers/photo.py:14-32 | The data `eff_<name>` of each button passes the filter, splits back to the name, and finds it in the table |
| PhotoHandler.RenderOutcome | bot/handlers/photo.py:41-47 | Success exactly when the path, the file, the effect and a known name are all there and the send works. The sticker is then that effect on that photo |
| PhotoHandler.ButtonDialogueRenders | bot/handlers/photo.py:16-57 | Photo, button, caption renders the user's own photo with the caption, or the effect's name when the caption is empty |
| PhotoHandler.UnknownEffectFails | bot/handlers/photo.py:43 | A stored name outside the table always fails |
| PhotoHandler.PhotoStart | bot/handlers/photo.py:16-28 | The keyboard is offered, the photo saved, its path stored, and the effect step entered |
| PhotoHandler.ChooseEffect | bot/handlers/photo.py:30-37 | Data without `_` raises `IndexError` and changes nothing. Otherwise field 1 is stored and the caption step entered |
| PhotoHandler.Render | bot/handlers/photo.py:41-47 | The render's result is the specified outcome. It finishes the dialogue only on success |
| PhotoHandler.NoCaption | bot/handlers/photo.py:39-47 | With `Image` imported, and with the neon effect's `ImageFilter` import from the corrected `Effect`, `no_caption` renders with the empty caption, whose one line is the effect's name |
| PhotoHandler.WithCaption | bot/handlers/photo.py:49-57 | With `Image` imported, and with the neon effect's `ImageFilter` import from the corrected `Effect`, `with_caption` renders with the message text |
| PhotoHandler.NoCaptionAsWritten | bot/handlers/photo.py:42 | As written, `no_caption` always raises `NameError` for `Image` |
| PhotoHandler.WithCaptionAsWritten | bot/handlers/photo.py:52 | As written, `with_caption` always raises `NameError` for `Image` |
| PhotoHandler.CaptionStepTraps | bot/handlers/photo.py:16-49 | At the caption step no photo or video handler fires, and every text goes back to `with_caption` |
| Strs.Split | bot/handlers/photo.py:32 | `str.split(sep)` yields at least one piece |
| Strs.SplitJoin | bot/handlers/photo.py:32 | Joining the pieces with the separator gives back the text |
| Strs.SplitsInTwoExactlyWithSeparator | bot.py:124 | There are two pieces or more exactly when the separator occurs |
| Strs.NatToStringInjective | bot/handlers/photo.py:25 | Distinct ids print differently |
| Strs.Upper | bot/handlers/video.py:47 | `upper()` maps each character and keeps the length |

## Left out

- Telegram I/O: replies, keyboards sent as markup, file downloads from
  Telegram's servers, and `save_sticker` in `bot/db/models.py`. A send is
  a success flag; a download is a parameter.
- The aiogram 3 informational handlers `on_presets`, `on_chroma_menu`,
  `on_upload_prompt` and `on_help` (main.py:128-130, 138-140, 162-170).
  They only reply. Their buttons are routed, but the routes change no
  preference.
- bot.py's `start`, `help_command` and `status_command` (bot.py:50-95,
  136-150), which only reply. Also `handle_document` (bot.py:378-386),
  which assigns an attribute on an immutable PTB message before calling
  `handle_video`.
- The other aiogram 2 handlers (`start.py`, `my.py`, `random.py`,
  `stats.py`, `text.py`), the `api/` webhooks, and the JavaScript files.
  They are not part of this model.
- The web server, the self-ping loop and `main()` in main.py, and bot.py's
  `main()`.
- Concurrency: handlers run one at a time. bot.py's busy set is modelled
  for one update at a time, not for interleaved awaits.
- ffmpeg's, OpenCV's, rembg's and PIL's pixel work is symbolic: a frame is
  a term, and the encoder and decoder are parameters.
- Randomness in the video effects (shake, vhs), and the exact pixel
  transforms of each effect.
- `VideoEffects.Transform`: records a shake frame as transformed even in
  the 30% of cases where `random.random() < 0.7` fails and the frame is
  left as it is, because the random draw is not modelled.
- Float arithmetic:
  - The boomerang test `int(t*15) % 2 == 1` is a parameter of type
    `nat -> bool`.
  - `LineX` takes the measured text width as a real and floors it.
- Messages are not decoded as text. `stderr.decode()` is a string
  parameter.
- `/start@botname` is not recognised as the start command. Neither is
  `/start` followed by whitespace other than a space. Only `/start` alone,
  or followed by a space and an argument, is.
- `Strs.Upper`: upper-cases ASCII Latin letters (a to z) and basic
  Cyrillic letters only. It does not do the full Unicode case mapping:
  Python also maps é to É, and maps ß to "SS", which changes the length.
- `SizeLadder.CompressUntilSize`: the `.tmp.webm` file next to the output
  is not modelled as a separate file. An attempt's run is the encoder's
  answer for the current bytes and the step.
- `VideoEffects.ApplyVideoEffect`: does not model a capture that fails to
  open. A missing file is a capture that yields no frame, which is what
  OpenCV does.
- The aiogram 2 handlers registered without `state=` fire only when no
  state is set, so a photo or video sent mid-dialogue reaches no handler.
  This follows the dispatcher's code, not the description that a photo
  always starts a new dialogue.

## Findings

| source | as written | input that shows it | evidently intended | confidence | as-written member | corrected member |
|---|---|---|---|---|---|---|
| bot/handlers/photo.py:42-52 | `Image.open` is called but `Image` is never imported, so `no_caption` and `with_caption` raise `NameError` before rendering and never call `state.finish()` | any photo, any effect button, then "no_text" or any text | import `Image` from PIL and render the sticker | high (not executed) | PhotoHandler.NoCaptionAsWritten, PhotoHandler.WithCaptionAsWritten | PhotoHandler.NoCaption, PhotoHandler.WithCaption |
| bot/effects/image.py:32 | `ImageFilter.GaussianBlur` is used but `ImageFilter` is not imported (line 1 imports `Image`, `ImageDraw`, `ImageFont` and `ImageEnhance`), so the neon effect raises `NameError` | the NEON button (`eff_neon`) with any caption | import `ImageFilter` and blur the cut-out | high (not executed) | ImageEffects.EffectAsWritten | ImageEffects.Effect |
