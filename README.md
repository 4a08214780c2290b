# OdinSpecter display and capture controllers in Dafny

OdinSpecter drives a small LCD board that has a button, an RGB LED and a
sound card. Two scripts are modelled:

- `OdinSpecter.py`:
  - a render thread that shows either a full-screen image or a header strip with a battery gauge above a scrolling text body;
  - an RGB565 image loader;
  - a "restart" button controller: each press stops the recording, flashes the LED colours, plays the recording back and starts a new recording;
  - a sound-playing handler with a `playing` flag.
- `test2.py`:
  - the display-state update `update_display_data`;
  - a "toggle" button controller that alternates between starting a recording and stopping it (stop, status images, playback, description request, answer);
  - the ffmpeg command builder `get_ffmpeg_cmd`;
  - the file-checking RGB565 loader.

The model works as follows:

- Values become datatypes and pure functions:
  - the packing of a pixel, the battery geometry, the header layout;
  - the selection of the visible lines;
  - the line-cache update, the scroll step;
  - the display-record update, the ffmpeg arguments.
- Code that changes state becomes classes with `modifies` frames:
  - `Render.RenderThread` and `Render.Globals` (the cache, the scroll offset, the current image, the draws);
  - `DisplayState.DisplayGlobals`;
  - `RestartCapture.Recorder`, `RestartCapture.SoundPlayer`, `ToggleCapture.ToggleRecorder`.
- The source's loops stay loops:
  - the line selection in `Scroll.SelectVisible`;
  - the cache-key concatenation in `RenderMainText`;
  - the nested pixel loop in `PixelCodec.PackPixels`;
  - the feedback loops of the controllers.
- Effects on the outside world become events appended to a `trace` (module `Effects`). These are the board calls, `Popen`/`run`, `terminate`/`wait`, the mixer's `play`/`stop` and the description request.
- A capture process is a number. It is live while it is in the set `live`, which is what `poll() is None` tests.

Files:

- `common.dfy`: Option, `startswith`, `in` on strings, `lower`, `str` of an integer.
- `pixel_codec.dfy`: RGB565 packing and layout, the packing loops, the loader.
- `scroll.dfy`: visibility, the selection loop, the auto-scroll step.
- `header.dfy`: `render_header` and `render_battery`.
- `render.dfy`: the line cache, `render_main_text`, `render_frame`.
- `effects.dfy`: the event type, the feedback colours, the stop step.
- `restart_capture.dfy`: the controllers of `OdinSpecter.py`.
- `toggle_capture.dfy`: the toggle controller of `test2.py`.
- `display_state.dfy`: `update_display_data`.
- `ffmpeg.dfy`: `get_ffmpeg_cmd`.

What the code does at the points where a reader might expect otherwise:

- The scroll offset is not clamped (`OdinSpecter.py:169-170`). It grows by `scroll_speed` while it is below `(len(lines)+1)*h - area_height`, so it can end up to `speed - 1` pixels past that bound (`Scroll.ScrollAfterBounds`).
- The line cache is keyed by the concatenated text of the visible lines (`OdinSpecter.py:154-157`), not by their positions. A scroll that keeps the same concatenation reuses a tile built for another window (`Render.CacheKeyIgnoresPosition`).
- The cache starts with key `""` and no tile (`OdinSpecter.py:58-59`). A first non-empty text whose visible lines join to `""` builds no tile, and the paste at line 166 is given `None`, which raises. The exception leaves `render_frame` after the header is drawn, before the scroll step and the body draw, and ends the render thread's loop (lines 259-263). The model records this as `PasteRaised` and sets `crashed` (`Render.EmptyLineLeavesNoTile`, `Render.RenderThread.RenderFrame`).
- In `render_frame`, an image already held in `current_image` is drawn whatever the current image path is (`OdinSpecter.py:77-79`). It is not checked against the path.
- The loader in `OdinSpecter.py` (lines 306-341) has no missing-file check. The one in `test2.py` returns `None` for a missing file (lines 196-198). `test2.py` defines the loader twice (lines 194-226 and 241-273); the two copies are identical and the model has one.
- `render_header` draws the globals `current_status` and `current_emoji` (`OdinSpecter.py:189-196`), not its `status` and `emoji` arguments.
- `render_battery`'s `fill_color` defaults to the string `"black"` (`OdinSpecter.py:212-214`, tested at line 233), so the fill rectangle is skipped only for the tuple `(0, 0, 0)`.

## Model

| member | source | states |
|---|---|---|
| Scroll.SelectVisible | OdinSpecter.py:142-150 | the loop collects exactly the visible lines, in order, and `render_y` ends as `h` times the index of the first visible line (`len(lines)*h` when none is visible) |
| Scroll.FirstVisible | OdinSpecter.py:143-150 | the index of the first line satisfying the visibility test, with every earlier line hidden, or the line count when there is none |
| Scroll.IsVisible | OdinSpecter.py:146 | the visibility test of line `i`: its bottom edge is at or below the offset and its top edge at most `area_height` below it; its consequences are stated by `VisibleContiguous` and `VisibleLinesSlice` |
| Scroll.VisibleLines | OdinSpecter.py:142-147 | the lines appended to `display_lines`; stated by `VisiblePrefixMembers`, `VisiblePrefixSources` and `SelectVisible` |
| Scroll.Concat | OdinSpecter.py:153-155 | the concatenated `render_text` that keys the line cache; the loop in `RenderMainText` is proved to compute it, and `CacheStep` keys on it |
| Scroll.VisiblePrefixMembers | OdinSpecter.py:145-147 | every visible line is in the selection, at the position given by the number of visible lines before it |
| Scroll.VisiblePrefixSources | OdinSpecter.py:145-147 | every selected line is a visible input line, and selected lines keep their input order |
| Scroll.VisibleContiguous | OdinSpecter.py:146 | with `h > 0` an index between two visible indices is visible |
| Scroll.VisibleLinesSlice | OdinSpecter.py:142-150 | with `h > 0` the selection is the contiguous slice `lines[lo..hi]`, with `lo` the first visible index, and line `i` is selected iff `lo <= i < hi` |
| Scroll.NextScroll | OdinSpecter.py:169-170 | the offset grows by exactly `scroll_speed` iff the speed is positive and the offset is below `(len(lines)+1)*h - area_height`; otherwise it is unchanged; it never decreases; after a step it is below bound + speed |
| Scroll.ScrollAfterBounds | OdinSpecter.py:169-170 | over any number of frames the offset never drops below its start and stays below bound + speed |
| Scroll.ScrollMonotone | OdinSpecter.py:169-170 | the offset after more frames is never smaller |
| Scroll.ScrollStops | OdinSpecter.py:169-170 | once a frame leaves the offset unchanged, every later frame does too |
| Render.TileFor | OdinSpecter.py:158-162 | the new tile holds the visible lines from y = `h` × the first visible index, one line height apart, and is as tall as that offset plus the lines |
| Render.CacheStep | OdinSpecter.py:153-164 | after a call the key is the concatenation of the visible lines; the tile is replaced (by the tile for the window) exactly when the key changed, otherwise key and tile stay |
| Render.CacheStepConsistent | OdinSpecter.py:153-164 | the cached tile always shows text whose concatenation is the key, starting from the empty cache of the constructor |
| Render.NoTileAfterStep | OdinSpecter.py:153-166 | no tile is cached after an update iff none was cached before and the visible lines join to the old key; an update never drops a tile |
| Render.EmptyLineLeavesNoTile | OdinSpecter.py:58-59 | concrete case: from the start-up cache, a first window holding one empty line keeps key "" and no tile, so the paste at line 166 has nothing to paste |
| Render.CacheStepIdempotent | OdinSpecter.py:156-164 | rendering the same window twice leaves the cache as after the first call |
| Render.CacheKeyIgnoresPosition | OdinSpecter.py:153-164 | concrete case: scrolling by one line over three equal lines keeps the key, so the old tile stays although the window's own tile differs |
| Render.Globals.constructor | OdinSpecter.py:25-34 | the initial globals: status "Hello", the emoji literal as spelled in the file (four characters, the UTF-8 bytes of 😄 read as Windows-1252), the waiting text, battery 100 in #55FF00, offset 0, speed 6, no image path, no image, not in camera mode |
| Render.RenderThread.constructor | OdinSpecter.py:47-59 | the line cache starts with key "" and no tile, nothing has been drawn and the thread has not crashed |
| Render.RenderThread.RenderMainText | OdinSpecter.py:129-170 | empty text returns at once, with the cache and the offset unchanged; otherwise the cache takes one `CacheStep`; if no tile is cached then the paste raises and the offset is unchanged; otherwise the tile is pasted at `-scroll_top` and the offset takes one `NextScroll` step |
| Render.RenderThread.ShowImage | OdinSpecter.py:77-102 | a held image is drawn full-screen; otherwise a decoded file is kept and drawn; a missing or unreadable file draws nothing and keeps `current_image` empty |
| Render.RenderThread.DrawHeader | OdinSpecter.py:116-118 | one draw of the 98-pixel strip at the top, holding the header layout of the global status and emoji |
| Render.RenderThread.DrawBody | OdinSpecter.py:120-125 | after the `render_main_text` effects on the cache and the offset: when the paste raised, no draw and the thread is marked crashed; otherwise one draw of the body strip of height `LCD_HEIGHT - 98` at y = 98, blank for empty text and else holding the cached tile at `-scroll_top` |
| Render.RenderThread.ShowText | OdinSpecter.py:103-125 | `current_image` is cleared; the header is drawn; then the body is drawn, unless its paste raised, in which case the header is the only draw, the offset is unchanged and the thread is marked crashed |
| Render.RenderThread.RenderFrame | OdinSpecter.py:71-125 | for a thread that has not crashed (no frame runs after one raised): camera mode changes nothing; a non-empty image path takes the image branch and leaves the cache, the offset and the crash flag alone; an empty path clears the image and draws the header, then the body, except that a paste with no tile cached stops the frame after the header and marks the thread crashed |
| Header.LabelFor | OdinSpecter.py:251-256 | the label is black iff the fill luminance is strictly above 128 |
| Header.LabelExamples | OdinSpecter.py:251-256 | 200 gives black; 40 and exactly 128 give white |
| Header.RenderBattery | OdinSpecter.py:204-257 | the icon is at `width - 46`, `status_font_size // 2`; the fill defaults to "black" and is skipped only for the tuple (0,0,0); the arcs, edges and fill lie inside the outline; the head is at x+26, y+5, flush with the right edge and vertically centred; the label is `str(level)` in the 13-point battery font, centred to within a pixel |
| Header.RenderHeader | OdinSpecter.py:173-202 | the status is at (corner height, 0) and the emoji horizontally centred at y = 32; there is a gauge iff a level is known, and it is `render_battery` of that level and colour: placed as there, labelled `str(level)`, filled with the colour or "black", label black iff the luminance is above 128; the returned height is 84 |
| PixelCodec.Pack565 | OdinSpecter.py:338 | bits 15-11 of the word are the top 5 bits of red, bits 10-5 the top 6 of green, bits 4-0 the top 5 of blue |
| PixelCodec.Hi | OdinSpecter.py:339 | the high byte is the word divided by 256 |
| PixelCodec.Lo | OdinSpecter.py:339 | the low byte is the word modulo 256 |
| PixelCodec.PixelBytes | OdinSpecter.py:338-339 | the byte pair of one pixel, high byte first; its layout is stated by `PackedRowAt` and `BytePairBigEndian` |
| PixelCodec.PackedRow | OdinSpecter.py:336-339 | the bytes of one row, pixel by pixel; stated by `PackedRowLength` and `PackedRowAt` |
| PixelCodec.PackedImage | OdinSpecter.py:334-339 | the bytes of a whole image, row by row; stated by `PackedImageLength` and `PackedImageAt`, and computed by `PackPixels` |
| PixelCodec.PackKeepsHighBits | OdinSpecter.py:338 | decoding a packed pixel gives back the top 5, 6 and 5 bits of red, green and blue, with the low bits cleared |
| PixelCodec.PackExpand | OdinSpecter.py:338 | every 16-bit value is the packing of some pixel: packing after decoding is the identity |
| PixelCodec.BytePairBigEndian | OdinSpecter.py:339 | high byte shifted by 8, or-ed with the low byte, gives the 16-bit value back |
| PixelCodec.PrimaryColours | OdinSpecter.py:354-355 | (255,0,0), (0,255,0), (0,0,255) pack to 0xF800, 0x07E0, 0x001F |
| PixelCodec.PackedRowLength | OdinSpecter.py:336-339 | a row of `W` pixels gives `2*W` bytes |
| PixelCodec.PackedRowAt | OdinSpecter.py:336-339 | pixel `x` of a row is at bytes `2x` (high) and `2x+1` (low) |
| PixelCodec.PackedImageLength | OdinSpecter.py:334-339 | a `W` by `H` image gives `2*W*H` bytes |
| PixelCodec.LastRowAt | OdinSpecter.py:335-339 | the bytes of the last row follow those of all earlier rows |
| PixelCodec.PackedImageAt | OdinSpecter.py:334-339 | row-major layout: pixel (x, y) is at bytes `2(yW+x)` (high) and `2(yW+x)+1` (low) |
| PixelCodec.PackPixels | OdinSpecter.py:334-341 | the nested loops produce exactly the packed image, `2*W*H` bytes |
| PixelCodec.LoadJpgAsRgb565 | test2.py:194-226 | `None` exactly for a missing file; otherwise the packed bytes of the cropped image, `2*W*H` of them |
| Effects.FeedbackColoursPacked | OdinSpecter.py:354-355 | each feedback colour's screen constant is the RGB565 packing of its LED colour |
| Effects.StopEvents | OdinSpecter.py:349-351 | terminate then wait, only when the handle is set and still running; otherwise nothing |
| Effects.DrawIfLoaded | OdinSpecter.py:363-364 | one full-screen draw exactly when the image bytes are truthy (not `None` and not empty) |
| Effects.Aplay | OdinSpecter.py:367 | the `aplay` argv on the `plughw:wm8960soundcard` device with the file last, as both scripts spawn it |
| RestartCapture.FillFeedback | OdinSpecter.py:356-359 | two events per colour, each a screen fill or an LED colour |
| RestartCapture.FillFeedbackColours | OdinSpecter.py:392-403 | the feedback is red, green, blue, each a fill with 0xF800, 0x07E0, 0x001F followed by the LED colour |
| RestartCapture.StartRecordingEvents | OdinSpecter.py:292-304 | the recording image if loaded, then the `arecord` spawn; stated by `PressRecordOrder` and `Recorder.StartRecording` |
| RestartCapture.RecordFeedbackEvents | OdinSpecter.py:353-360 | the three fill/LED pairs then the LED off; its contents are given by `FillFeedbackColours` |
| RestartCapture.PressRecordEvents | OdinSpecter.py:343-370 | the record-press trace: stop step, the colour feedback and LED off, playback, new recording; its order is stated by `PressRecordOrder` |
| RestartCapture.PressRecordOrder | OdinSpecter.py:343-370 | terminate and wait come first and only for a running recorder; the colour steps lie between them and the playback of the recording; the press ends by spawning a new recorder, and only that event spawns |
| RestartCapture.Recorder.constructor | OdinSpecter.py:41-44 | no recorder handle, nothing running, no events |
| RestartCapture.Recorder.StartRecording | OdinSpecter.py:292-304 | the recording image if loaded, then a spawn of `arecord` with S24_LE at 16 kHz stereo; the new handle becomes current and live |
| RestartCapture.Recorder.StopRecording | OdinSpecter.py:348-351 | afterwards nothing runs, and the trace gains the stop step for the old state |
| RestartCapture.Recorder.ShowRecordFeedback | OdinSpecter.py:353-360 | the loop appends the three fill/LED pairs, then the LED off |
| RestartCapture.Recorder.PlayBack | OdinSpecter.py:362-367 | the playback image if loaded, then a blocking `aplay` of the recording |
| RestartCapture.Recorder.OnButtonPressedRecord | OdinSpecter.py:343-370 | from a `Valid` state (at most the current recorder live), the trace gains exactly the press events stated in `PressRecordOrder`; afterwards exactly one recorder runs, the new one, with the next handle number, and the counter moves past it |
| RestartCapture.Recorder.ProcessExits | OdinSpecter.py:349 | a recorder that ends on its own leaves the table; the invariant is kept |
| RestartCapture.PressPlayStopsFirst | OdinSpecter.py:379-389 | a stop is issued iff the sound is loaded and marked playing, and it comes right before the play; a play is issued iff the sound is loaded |
| RestartCapture.PressPlayEvents | OdinSpecter.py:374-414 | the play-press trace: sound restart, colour steps, stored image; its order is stated by `PressPlayStopsFirst` |
| RestartCapture.SoundEvents | OdinSpecter.py:380-389 | a play is issued iff the sound is loaded, and a stop iff it is loaded and marked playing |
| RestartCapture.ImageEvents | OdinSpecter.py:408-410 | a draw is issued iff the stored image is not `None` |
| RestartCapture.SoundPlayer.constructor | OdinSpecter.py:276-277 | not playing, no events |
| RestartCapture.SoundPlayer.RestartSound | OdinSpecter.py:380-389 | for a loaded sound: stop if playing, then play, and the flag is set; nothing otherwise |
| RestartCapture.SoundPlayer.FlashColours | OdinSpecter.py:391-404 | the three fill/LED pairs in order |
| RestartCapture.SoundPlayer.OnButtonPressedPlay | OdinSpecter.py:374-414 | sound part, colours, then the stored image if it is not `None`; afterwards the flag is set iff the sound is loaded or it was already set; `playing` implies a loaded sound |
| RestartCapture.SoundPlayer.PollMixer | OdinSpecter.py:463-464 | the flag stays set only while the mixer is busy |
| DisplayState.Apply | test2.py:176-192 | each argument given replaces its field and each `None` keeps it; a text that does not continue the current text sets the offset to 0 and clears the cache; otherwise both are kept |
| DisplayState.Restarts | test2.py:182 | the reset test: a text is given and does not start with the current text; its effect is stated by `Apply` and `ResetExamples` |
| DisplayState.ApplyIdempotent | test2.py:176-192 | repeating the same call changes nothing more |
| DisplayState.ApplyEmpty | test2.py:176-192 | a call without arguments changes nothing |
| DisplayState.ApplyTexts | test2.py:176-192 | after a stream of text-only calls the text is the last one |
| DisplayState.StreamKeepsScroll | test2.py:181-184 | a stream in which each text continues the previous one keeps the offset and never clears the cache |
| DisplayState.ResetExamples | test2.py:181-184 | "Hello" → "Hello there" keeps offset 40; "Goodbye" and "Hell" reset it to 0 |
| DisplayState.DisplayGlobals.ResetOnNewText | test2.py:181-184 | offset 0 and one more cache clear exactly for a new, non-continuing text |
| DisplayState.DisplayGlobals.UpdateDisplayData | test2.py:176-192 | the globals after the call are `Apply` of the globals before it |
| Common.Lower | test2.py:98 | `lower()` keeps the length, maps each ASCII capital to the letter 32 code points above it and keeps every other character |
| Common.StartsWith | test2.py:182 | `startswith`: the prefix is a prefix of the string |
| Common.Contains | test2.py:105-111 | `in` on strings: the substring occurs at some index; used by `TuningFor` |
| Common.IntToString | OdinSpecter.py:244 | `str` of an integer: never empty (see Left out) |
| ToggleCapture.AssetFeedback | test2.py:321-326 | two events per feedback step, each a status image or an LED colour |
| ToggleCapture.AssetFeedbackAt | test2.py:321-326 | step `k` is event `2k`, the status image picked for it, then event `2k+1`, the LED in step `k`'s colour |
| ToggleCapture.AssetFeedbackColours | test2.py:321-326 | the three steps are the picked images with the LED red, green and blue, in that order |
| ToggleCapture.StartPressEvents | test2.py:289-301 | the recording image if loaded, then the `arecord` spawn; stated by `StartPressOnlySpawns` |
| ToggleCapture.AnswerEvents | test2.py:335-341 | the answer is played iff the description call did not raise |
| ToggleCapture.StartPressOnlySpawns | test2.py:309-310 | a starting press draws at most the recording image, then spawns; it stops, plays and describes nothing |
| ToggleCapture.StopPressOrder | test2.py:312-342 | a stopping press never spawns; terminate and wait come first, only for a running recorder; status images, then playback of the recording, then the description; the answer is played, last, iff the description did not raise |
| ToggleCapture.StopPressAt | test2.py:312-342 | each event of a stopping press lies in the part it belongs to |
| ToggleCapture.StopPressEvents | test2.py:312-342 | the stopping-press trace: stop step, status feedback and LED off, playback, description, answer; its order is stated by `StopPressOrder` and `StopPressAt` |
| ToggleCapture.ToggleRecorder.constructor | test2.py:413 | the controller waits to start, nothing runs (see Left out: no press during start-up) |
| ToggleCapture.ToggleRecorder.StartRecording | test2.py:289-301 | the recording image if loaded, then a spawn of `arecord` with S16_LE at 16 kHz stereo, which becomes current and live |
| ToggleCapture.ToggleRecorder.StopRecording | test2.py:313-316 | afterwards nothing runs; the trace gains the stop step |
| ToggleCapture.ToggleRecorder.ShowStatusFeedback | test2.py:318-327 | the loop appends a status image and an LED colour per picked key, then the LED off |
| ToggleCapture.ToggleRecorder.PlayBack | test2.py:329-334 | the playback image if loaded, then a blocking `aplay` of the recording |
| ToggleCapture.ToggleRecorder.StopPress | test2.py:312-342 | nothing runs afterwards; the trace gains exactly the stopping-press events |
| ToggleCapture.ToggleRecorder.OnButtonPressed | test2.py:304-343 | the flag flips on every press and is true on even presses; a starting press spawns one recorder, numbered by the counter, which moves past it, and nothing else; a stopping press leaves nothing running and spawns nothing; `Valid` (at most the current recorder live) is kept |
| ToggleCapture.ToggleRecorder.ProcessExits | test2.py:314 | a recorder that ends on its own leaves the table; the invariant is kept |
| Ffmpeg.ModelName | test2.py:95-100 | the lower-cased model string, or "generic" when it cannot be read |
| Ffmpeg.TuningFor | test2.py:105-114 | multi-thread iff the name has "zero 2" or "raspberry pi 3"; else hardware decode iff it has "zero"; else high-performance iff it has "raspberry pi 4" or "raspberry pi 5"; else generic |
| Ffmpeg.ScaleFlag | test2.py:103-114 | bicubic exactly for the high-performance tuning, neighbor otherwise |
| Ffmpeg.InputArgs | test2.py:102-114 | no input arguments exactly for the generic tuning, otherwise two, starting with `-vcodec` exactly for the hardware decoder |
| Ffmpeg.ScaleFilter | test2.py:103 | the filter starts with `scale=` and is longer than its fixed text plus the flag |
| Ffmpeg.OutputArgs | test2.py:116-124 | the 13 arguments after the tuning; their pairs are stated by `OutputPairs` and `CommandShape` |
| Ffmpeg.Command | test2.py:116-124 | `ffmpeg` first, `-` last, 14 arguments plus the tuning's |
| Ffmpeg.GetFfmpegCmd | test2.py:94-124 | starts with `ffmpeg` and ends with `-` for any model string |
| Ffmpeg.OutputPairs | test2.py:116-124 | after any prefix, the input, filter, codec, pixel format, container and log level each follow their option |
| Ffmpeg.CommandShape | test2.py:116-124 | the tuning arguments follow `ffmpeg`; `-i` is followed by the path, `-vf` by the filter, `-pix_fmt` by `rgb565be`, and so on |
| Ffmpeg.NoHardwareDecoder | test2.py:116-124 | after a prefix without `-vcodec`, no `-vcodec` is followed by `h264_v4l2m2m` |
| Ffmpeg.MultiThreadCommand | test2.py:105-107 | the multi-thread command has `-threads 4` right after `ffmpeg`, the neighbor filter, and never `-vcodec h264_v4l2m2m`, whatever the path |
| Ffmpeg.ZeroTwoIsMultiThread | test2.py:105-110 | a model with "zero 2", which also contains "zero", gets threads and not the hardware decoder |
| Ffmpeg.ScaleFiltersDiffer | test2.py:103-114 | the bicubic and neighbor filters are different arguments |
| Ffmpeg.FilterPosition | test2.py:116-124 | behind a prefix with no argument starting with `s`, the only `-vf` followed by an argument starting with `s` is the filter option |
| Ffmpeg.BicubicOnlyHighPerformance | test2.py:111-114 | the command pairs `-vf` with the bicubic filter iff the tuning is high-performance |
| Ffmpeg.FallbackIsGeneric | test2.py:95-100 | an unreadable model matches none of the tests |
| Ffmpeg.GenericCommand | test2.py:95-124 | with an unreadable model the command is `ffmpeg` followed by the output arguments with the neighbor filter |
| Ffmpeg.ZeroTwoExample | test2.py:105-107 | "raspberry pi zero 2 w rev 1.0" gets the multi-thread tuning |
| Ffmpeg.ZeroWExample | test2.py:108-110 | "raspberry pi zero w rev 1.1" gets the hardware decoder |
| Ffmpeg.PiFourExample | test2.py:111-114 | "raspberry pi 4 model b rev 1.4" gets the high-performance tuning |

## Left out

- The description service (`gemini.py`: HTTP, configuration, JSON) is not part of this model. The call is an event whose only result is whether it raised. Only a `KeyError` or `IndexError` while parsing the generate response is swallowed (`gemini.py:70-74`). A `KeyError` from the upload response at `gemini.py:50`, like any other exception, leaves `upload_and_generate` and counts as raising: `test2.py:340` catches it and the answer is not played.
- These board, process and mixer calls are trace events, with no behaviour of their own: the board calls, `Popen`/`run` of `arecord`/`aplay`/`amixer`, `terminate`/`wait`, and the pygame mixer. `sleep` calls are dropped.
- `play_video` in `test2.py` is left out. It is pipe and process plumbing.
- Image decoding, the aspect-ratio crop and the resize (PIL, float ratios) are inputs. The loaders take the already cropped pixel rows, `render_frame` takes the decode outcome (`Missing`, `Unreadable`, `Decoded`), and rasters are opaque.
- These are inputs: the text wrapping, the drawing of text, the line height, the text extents, the fill luminance and the font metrics. `draw_mixed_text` becomes the contents of a `TextTile`, and `clean_line_image_cache` is counted in `cacheClears`.
- Button presses are handled one after another: a callback does not start while another is running. The driver's callback dispatch (`board.on_button_press` in `test2.py`, `whisplay.on_button_press` in `OdinSpecter.py`) is not part of this model. For overlapping callbacks `Valid` need not hold. For example, a press blocked in `aplay` that resumes after a second press has completed would orphan the second press's recorder.
- The render thread's run loop (other than its end when a frame raises, the `crashed` flag), the frame-rate sleep and the concurrency between the render thread and the handlers are left out.
- ToggleCapture.ToggleRecorder.constructor: the model assumes that no press arrives during start-up. In `test2.py` the button handler is registered at line 347, before the asset loading and the boot sound, and `to_record = True` is set only at line 413. A press in that window starts a recorder, and line 413 then makes the next press start a second one on the same file; the first is never stopped. `Valid` (at most the current recorder live) does not hold for such a run.
- RestartCapture.Recorder.constructor: the same assumption of no press during start-up. In `OdinSpecter.py` the handler is registered at line 421, but the first recording starts only at line 460. A press before then starts a recorder, and the `start_recording()` at line 460 replaces its handle without stopping it.
- `render_init_screen`, `set_wm8960_volume_stable`, argument parsing, the start-up asset loading and the start-up audio are left out, as is the shutdown `terminate` in `test2.py` (lines 421-423).
- The loaders do not model `Image.open` raising on an unreadable or corrupt file (`test2.py:200`, `OdinSpecter.py:307`): an existing file is taken to decode. `render_frame`'s own decode failure is modelled (`Unreadable`).
- The `random.choice` of status images is a parameter: the picked keys.
- The read of `/proc/device-tree/model` is a parameter (`None` when it fails). The `print` calls are dropped.
- Common.Lower: lower-cases only ASCII letters, not all of Unicode as Python's `lower()` does. Device model strings are ASCII.
- Common.IntToString: its contract states only that the result is non-empty. Its digits are used only as the battery label text and inside the scale filter.
