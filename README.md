# Remote-Switch controller data plane, in Dafny

Remote-Switch lets a browser drive a game console. A Python server captures an
HDMI capture card's video and audio and streams them to a web page. The page
reads a gamepad and sends its state back over Socket.IO. The server packs each
sample into a small binary datagram for a UDP receiver that emulates a
controller. The project ships two builds of the server:

- `main.py`: single player, 7-byte packet, DirectShow capture, 44100 Hz audio.
- `main_linux.py`: two players, 8-byte packet, V4L2 capture, 48000 Hz audio, a
  send throttle and a latest-wins frame slot.

The model covers the data plane both builds share. The enum `Common.Variant`
(`Windows` for `main.py`, `Linux` for `main_linux.py`) selects where they
differ. The modules are:

- `Common`: `Option`, the wire integer widths and the build enum.
- `ControlPacket`: the `handle_input` packers. This covers the JSON payload as
  the handler receives it, `struct.pack`'s argument rules, Python's `int()`,
  both byte layouts and their decoders.
- `Relay`: the handler with its drop-on-error rule, and the datagrams it sends.
- `Gamepad`: `normalizeAxis`, the 16-bit button word and the remap searches.
- `ClientPage`: the page's remap state machine, `updateLoop` and the throttle.
  It has a pure state model (`Mapper` and its transitions) and a class,
  `ControllerPage`, whose methods are proved against it.
- `VideoFeed`: the capture thread's frame holder in both builds, and the
  multipart framing of `generate_frames`.
- `AudioPlayback`: the page's `audio_data` handler. It decodes the 16-bit PCM,
  converts it to floats and schedules it with the `nextStartTime` cursor.

Foreign calls and the environment become parameters:

- The gamepad reading is a `Pad` value.
- A capture attempt is `Option<Bytes>`.
- `Date.now()` and the audio clock are a `now` argument.
- The outcome of `sock.sendto` is a `delivered` flag.
- The stored `localStorage` maps are `Option` values.

`normalizeAxis` and the audio times are computed over `real`. This idealises
IEEE-754 doubles. The PCM conversion needs no such idealisation, because every
`n / 32768` is exact in single precision.

A centred stick is sent as 127. `(0 + 1) * 127.5` floors to 127, which is what
both `normalizeAxis` bodies compute, even though 128 is the nominal midpoint
of 0..255 (`Gamepad.NormalizeDeadzone`).

## Model

| member | source | states |
|---|---|---|
| ControlPacket.PackArg | main_linux.py:444 | struct's `B`/`H` codes take an int within the width (a bool as 0/1) unchanged, and refuse any other int or type |
| ControlPacket.TruncToZero | main_linux.py:443 | `int()` of a float truncates toward zero: the result is within 1 of the value on the side of zero |
| ControlPacket.PackSingle | main.py:472-476 | whatever main.py's handler sends is exactly 7 bytes and parses as a packet; a payload that is not an object sends nothing |
| ControlPacket.PackTwoPlayer | main_linux.py:441-447 | whatever main_linux.py's handler sends is exactly 8 bytes and parses as a packet; a payload that is not an object sends nothing |
| ControlPacket.SingleRoundTrip | main.py:474 | `<HBBBBB` layout: buttons little-endian at 0-1, constant 8 at 2, lx ly rx ry at 3-6; decoding gives the controls back |
| ControlPacket.SingleDecodeEncode | main.py:474 | every well-formed 7-byte packet is the encoding of what it decodes to, so the layout is a bijection |
| ControlPacket.TwoPlayerRoundTrip | main_linux.py:444 | `<BHBBBBB` layout: player at 0, buttons little-endian at 1-2, constant 8 at 3, lx ly rx ry at 4-7; decoding gives player and controls back |
| ControlPacket.TwoPlayerDecodeEncode | main_linux.py:444 | every well-formed 8-byte packet is the encoding of what it decodes to |
| ControlPacket.SingleExample | main.py:474 | buttons 5, lx 128, ly 0, rx 255, ry 64 is sent as `05 00 08 80 00 FF 40` |
| ControlPacket.PackSingleCarriesFields | main.py:472-476 | a payload is sent iff it is an object whose five fields are present and fit their widths, and the packet carries exactly those fields |
| ControlPacket.ControlsOfRejects | main.py:472-476 | a missing key, or an integer outside its wire width, means neither build sends anything |
| ControlPacket.ControlsOfAccepts | main.py:474 | five in-range integer fields are always packed as given |
| ControlPacket.TwoPlayerPlayerRule | main_linux.py:442-447 | player defaults to 1 when absent; any id in 0..255 is sent as is, with no restriction to 1 or 2; an id outside 0..255 drops the sample |
| ControlPacket.PackTwoPlayerCarriesFields | main_linux.py:443-444 | a sent 8-byte packet decodes to `int(player)` and the five fields of the payload |
| Relay.ControlRelay.HandleInput | main_linux.py:440-447 | one `input_data` event appends its packet to the sent datagrams when packing and sending succeed, and nothing otherwise; no error escapes (main.py:471-476 alike) |
| Relay.EmittedEventsAlwaysPack | main_linux.py:347-360 | every event the page builds is packed by its build's handler, and the datagram decodes to the event's player, buttons and axes |
| Gamepad.IdentityBelow | main.py:256-257 | the default button map is defined exactly on bits 0..15 and maps each bit to itself |
| Gamepad.NormalizeAxis | main_linux.py:336-340 | the axis byte is always in 0..255 |
| Gamepad.NormalizeAxisStepwise | main.py:406-412 | main.py's form also always yields 0..255 |
| Gamepad.NormalizeFormsAgree | main.py:406-412 | main.py's and main_linux.py's formulas agree on every value |
| Gamepad.NormalizeDeadzone | main_linux.py:337 | every value with magnitude below 0.15 is sent as 127 |
| Gamepad.NormalizeFullScale | main_linux.py:338-339 | 1 is sent as 255 and -1 as 0 |
| Gamepad.RescaleMonotone | main_linux.py:337-338 | the deadzone rescaling never decreases |
| Gamepad.NormalizeMonotone | main_linux.py:336-340 | the axis byte never decreases as the raw value grows |
| Gamepad.ButtonsWordBits | main.py:436-442 | the button word is below 2^16, and bit b is set iff b < 16 and `buttonMap[b]` names an existing pressed button |
| Gamepad.ComputeButtonsWord | main_linux.py:348-351 | the `btns \|= 1 << i` loop computes that word: below 2^16, with exactly the mapped pressed bits set |
| Gamepad.FirstMatch | main.py:330-336 | the lowest index below n satisfying the test, and nothing iff none does |
| Gamepad.FirstNewPress | main_linux.py:399-404 | the lowest button pressed now and not at baseline (a missing baseline entry counts as released), or nothing iff none is |
| Gamepad.FirstMovedAxis | main_linux.py:406-411 | the lowest axis whose distance from its baseline (missing counts as 0) is strictly above 0.5, or nothing iff none is |
| Gamepad.RestingAxisNeverMoves | main.py:339-347 | an axis reading exactly its baseline, such as a pedal resting at -1, never binds |
| Gamepad.AxisThresholdExamples | main_linux.py:407 | a change of 0.6 binds, while a change of 0.3 or of exactly 0.5 binds nothing |
| Gamepad.NewPressExamples | main_linux.py:400 | a button held since the snapshot is skipped, and the first newly pressed one binds |
| ClientPage.Loaded | main.py:259-267 | on page load the maps are the stored ones when present, else the defaults, and no remap is active |
| ClientPage.AfterStartRemap | main.py:306-321 | startRemap listens for the target, snapshots the pad as the baseline, and leaves the maps and stored entries alone |
| ClientPage.ButtonRemapBindsFirstNewPress | main_linux.py:396-404 | a button remap binds the lowest newly pressed index, changes no other entry, persists both maps and goes idle; with no such index nothing changes |
| ClientPage.AxisRemapBindsFirstMovedAxis | main_linux.py:405-421 | an axis remap binds the lowest index moved by more than 0.5, changes nothing else, persists both maps and goes idle; with no such index nothing changes |
| ClientPage.UnchangedPadBindsNothing | main.py:323-350 | a pad reading exactly as at the snapshot binds nothing and keeps listening |
| ClientPage.NoPadRemapBaseline | main.py:313-316 | main.py starting a remap without a pad uses 10 zero axes and 20 released buttons |
| ClientPage.ResetRestoresDefaults | main.py:365-371 | resetDefaults restores {lx:0, ly:1, rx:2, ry:3} and the identity on 0..15, removes both stored entries, and leaves the remap mode alone |
| ClientPage.ResetAfterRemapKeepsBinding | main_linux.py:313-314 | as written, with nothing stored, remapping lx to axis 5 and then resetting leaves lx on axis 5, and likewise for a button |
| ClientPage.SampleEvent | main_linux.py:347-360 | an event's button word is below 2^16 with exactly the mapped pressed bits set, and its four axes are in 0..255 |
| ClientPage.TwoFrames | main_linux.py:342-366 | over two successive frames of the Linux loop: a frame that starts during a remap emits nothing, an emitting frame had a pad and no remap, and two emitted events are more than 16 ms apart |
| ClientPage.ControllerPage.constructor | main_linux.py:306-314 | the page starts idle, with the stored or default maps, no events and `lastSentTime` 0 |
| ClientPage.ControllerPage.StartRemap | main_linux.py:385-394 | the page state becomes that of startRemap; no pad keeps the old baseline on main_linux.py |
| ClientPage.ControllerPage.FinishRemap | main_linux.py:415-422 | both maps are persisted and the mode is idle |
| ClientPage.ControllerPage.CheckRemapInput | main.py:323-350 | the forEach scan leaves the page exactly as the first-match transition does |
| ClientPage.ControllerPage.ResetDefaults | main_linux.py:423-426 | the page state becomes the corrected reset: default maps, nothing stored |
| ClientPage.ControllerPage.UpdateLoop | main_linux.py:342-366 | one frame emits the sampled event exactly when a pad is present, no remap is active and the throttle is due (main.py: every frame); otherwise it checks the remap; main.py stops when the pad is gone |
| ClientPage.ControllerPage.EmitSample | main.py:424-453 | appends the event built from the current maps and leaves the remap state alone |
| VideoFeed.LatestAppend | main_linux.py:71-83 | two runs of the capture loop hold what one run over both attempts would |
| VideoFeed.LatestWins | main.py:50-55 | failed reads after a successful one never displace it: the holder keeps the last frame produced |
| VideoFeed.Publish | main_linux.py:77-80 | storing an encoding sets the frame and the event |
| VideoFeed.PublishAllLatest | main_linux.py:71-83 | after the capture loop `jpeg_frame` is the latest encoding, the event is set iff some attempt succeeded, and a set event always comes with a frame |
| VideoFeed.TakeAfterPublish | main_linux.py:85-90 | get_frame after a publish returns that frame, and an immediate second get_frame returns nothing |
| VideoFeed.TakeAfterCapture | main_linux.py:71-90 | get_frame after a run of attempts returns the last frame produced, whatever failures followed |
| VideoFeed.TakeValid | main_linux.py:85-90 | get_frame yields a frame iff the event was set, and always leaves it clear |
| VideoFeed.FrameSlot.Update | main_linux.py:71-83 | the update loop leaves the slot as the capture-loop function says |
| VideoFeed.FrameSlot.GetFrame | main_linux.py:85-90 | get_frame returns and leaves the slot as the read function says |
| VideoFeed.CameraFrame.Update | main.py:50-55 | `self.frame` ends as the last successful read, or as before when none succeeded |
| VideoFeed.CameraFrame.GetFrame | main.py:57-59 | returns the encoding of the held frame without consuming it; nothing when the first read failed, where imencode raises |
| VideoFeed.PartRoundTrip | main_linux.py:176-177 | a multipart part is `--frame`, the JPEG content-type header, a blank line, the JPEG and CRLF; the JPEG is read back from it |
| VideoFeed.PartDecodeEncode | main_linux.py:176-177 | every part that parses is exactly the framing of its JPEG |
| VideoFeed.LinuxStreamCarriesFrames | main_linux.py:171-181 | the Linux stream carries exactly the non-empty frames read, in order, one part each |
| VideoFeed.WindowsStreamStopsAtFailure | main.py:88-93 | the Windows stream yields one part per read until the first failed encoding ends it |
| VideoFeed.GenerateFramesLinux | main_linux.py:171-181 | the generator loop yields exactly the Linux stream's parts |
| VideoFeed.GenerateFramesWindows | main.py:88-93 | the generator loop yields exactly the Windows stream's parts |
| AudioPlayback.PcmRoundTrip | main_linux.py:278 | the `Int16Array` view of the little-endian bytes gives back every sample the server read |
| AudioPlayback.PcmToFloat | main_linux.py:279-282 | each float is in [-1, 1) and times 32768 gives its sample back |
| AudioPlayback.Duration | main_linux.py:285-301 | a buffer's duration is never negative, and positive for a non-empty buffer |
| AudioPlayback.StartOf | main_linux.py:293-298 | a chunk never starts before the clock or before the cursor, and starts at the cursor when that is not behind the clock |
| AudioPlayback.WindowsStartIsMax | main.py:393-395 | main.py starts each chunk at max(nextStartTime, currentTime) |
| AudioPlayback.LinuxUnderrunLead | main_linux.py:293-295 | after an underrun main_linux.py starts the chunk 20 ms after the clock |
| AudioPlayback.TimelineGapless | main_linux.py:293-301 | scheduled chunks never overlap and never start before they arrive, and a chunk arriving in time starts exactly where the previous one ends |
| AudioPlayback.AudioPlayer.StartAudio | main_linux.py:263-272 | the audio context exists afterwards, and the cursor and schedule are unchanged |
| AudioPlayback.AudioPlayer.OnAudioData | main_linux.py:274-302 | with a context and a non-empty even-length chunk, its samples are scheduled at the start rule's time and the cursor advances by its duration; otherwise nothing changes |

## Left out

- Capture, resizing and JPEG encoding (OpenCV), PyAudio streams, device discovery and the console prompts are foreign calls or console I/O. Frames and audio chunks enter the model as byte strings.
- Flask routes, Socket.IO transport and the UDP socket are network plumbing. An emitted event is appended to `emitted`, and a sent datagram to `sent`.
- Threads, the lock, `Event.wait`'s one-second timeout and every `time.sleep` are concurrency and timing. The frame slot is run sequentially, and a timed-out wait is a read while the event is clear.
- `AudioStreamer` only forwards each PyAudio chunk, so it has no logic of its own to model.
- IEEE-754 rounding in `normalizeAxis` and in the audio times is not modelled; both use real arithmetic.
- HTML, CSS and DOM updates (`renderSettings`, labels, tabs, the `vals` readout) are not modelled. The `localStorage` JSON parse and its fallback are reduced to an `Option` of a map.
- ControlPacket.PyInt: Python's `int()` of a string also accepts surrounding whitespace, underscores between digits and non-ASCII digits. The model accepts an optional sign and ASCII digits only.
- A JSON number with a fraction or an exponent becomes a Python float. The model holds it as an exact real, so float rounding is not modelled.
- ClientPage.ControllerPage.CheckRemapInput: when a second index also qualifies in the same frame, the source's `forEach` reads the cleared `remapMode` and throws a TypeError. This ends the animation loop in both builds. The model keeps the first binding, which has already been persisted, and does not model the exception or the stopped loop.
- ClientPage.ControllerPage.UpdateLoop: the loop that every further `gamepadconnected` event starts is not modelled; one loop is modelled.
- The player select box is modelled as the values 1 and 2. `parseInt` of any other value is not modelled.
- AudioPlayback.DecodePcm: typed arrays use the host's byte order, and the model assumes little-endian, as the server writes it.
- On main_linux.py, `startAudio` also resumes a suspended context. Suspension is not modelled.
- The Windows `VideoStreamer` constructor's camera settings, and the Linux one's MJPG, resolution and frame-rate settings, are device configuration.

## Findings

| source | as written | input that shows it | evidently intended | confidence | as-written member | corrected member |
|---|---|---|---|---|---|---|
| main_linux.py:313-314 | `JSON.parse(localStorage.getItem('axisMap')) \|\| defaultAxes` makes the live map the defaults object itself when nothing is stored. `axisMap[remapMode.key] = idx` (408, and 401 for buttons) then rewrites the defaults, and `resetDefaults` (424) copies the rewritten defaults back. | Fresh page with empty storage: remap lx to axis 5, then press Reset Defaults. lx stays on axis 5; likewise a remapped button bit. | Reset restores {lx:0, ly:1, rx:2, ry:3} and the identity button map, as main.py does by copying with `Object.assign` (259-260, 366-367). | not executed | ClientPage.ResetAfterRemapKeepsBinding | ClientPage.ResetRestoresDefaults |
