# dungeon-deck, modelled in Dafny

dungeon-deck turns a Stream Deck panel into a sound board. A TOML configuration lays out up to
four rows of eight button slots. Each slot may carry text or an image, a sound file or an m3u
playlist, a repeat flag, and an MQTT topic and payload. At startup the program does four things:

- it flattens the rows into one slot per key of the connected panel model;
- it builds the button table, preparing each key's base image and resolving each playlist;
- it writes the base images to the panel;
- it starts polling.

On every poll the first pressed key toggles playback on the single shared audio sink. A playing
key is stopped. An idle key starts its playlist, or else its sound. The key's image shows a stop
icon while it plays and a play icon otherwise. After a successful toggle the key's MQTT
notification is published. The loop treats errors as follows:

- no data from the panel is normal;
- any other device error ends the loop;
- a failed press is only logged;
- a Ctrl-C flag disconnects the broker and stops the sink.

The model has these modules:

- `Config`: the configuration types, the panel geometry (`Device.Rows`, `Device.Columns`), `Row.List` and `Buttons.List`.
- `Paths`: the parent and join operations on paths that playlist resolution relies on.
- `Images`: what `prepare_image` decides. Text wins over an image. The text is split into lines, each line sits at a rounded multiple of the line step, and an unreadable image fails. Pixels are not modelled.
- `Playlist`: `load_playlist`. Every entry must be a local path, which is joined onto the playlist's directory. A URL entry or an unreadable playlist fails the load.
- `Table`: `build_state`, which maps each slot index to its button entry. All entries start idle, and one bad slot fails the whole build.
- `Controller`: `pressed_idx` and `handle_press` with `set_playing`, as functions on a `World` value. The world holds the table, the command log of the audio sink, the log of frames written to the panel and the log of broker events.
- `Driver`: `display_buttons` and the polling loop with its error dispatch, as functions.
- `Runtime`: the class `Session`. Its methods update the table and the three logs in place, and each one is proved equal to the value-level function it implements.

What the outside world answers is passed in as data:

- which audio files decode;
- whether a panel write or a broker publish succeeds;
- which image files decode;
- the entries of each readable playlist;
- the iteration order of the table, which is a hash map in the program;
- the result of each poll and the state of the Ctrl-C flag.

In these places the model follows what the code does rather than what one might expect:

- Images are scaled with `resize`, which keeps the aspect ratio; they are not stretched to the key.
- A playlist that cannot be loaded aborts the whole startup. It is not skipped.
- At startup the play icon is drawn only over keys with a `sound`. A key that only has a playlist starts without the icon.
- Pressing key B while key A plays stops A's audio, because there is a single sink. A's `playing` flag stays set and its stop icon stays drawn. `Controller.SwitchingLeavesStaleFlag` states this behaviour.

## Model

| member | source | states |
|---|---|---|
| Wrappers.Take | src/main.rs:106-114 | the first `n` elements of `s` (all of `s` when it is shorter), a prefix of it (the `take(limit)` used by `Row::list`) |
| Paths.Parent | src/main.rs:325 | a path has no parent exactly when it has no components; otherwise the parent followed by the last component is the path |
| Paths.Join | src/main.rs:325 | joining an absolute path yields that path; joining a relative path appends its components to the base |
| Config.Row.Slots | src/main.rs:105-114 | the eight slots of a row, in order `one` .. `eight` |
| Config.Row.List | src/main.rs:105-114 | the first `limit` slots of the row (all eight when the limit is larger) |
| Config.Device.Rows | src/main.rs:146-153 | 2 rows for the Mini, 4 for the XL, 3 for every other model |
| Config.Device.Columns | src/main.rs:154-161 | 3 columns for the Mini, 8 for the XL, 5 for every other model |
| Config.RowEntries | src/main.rs:124-134 | exactly `cols` slots from one row; a missing row gives `cols` empty slots |
| Config.FlattenRowsAt | src/main.rs:124-134 | the flattened rows have `cols` slots per row, slot `i * cols + c` being slot `c` of row `i` |
| Config.Buttons.RowList | src/main.rs:124-134 | the four rows in order `first` .. `fourth` |
| Config.Buttons.List | src/main.rs:124-134 | one slot per key of the device, `Rows() * Columns()` of them, in row-major order over its first `Rows()` rows |
| Config.ListIndexIsRowMajor | src/main.rs:124-134 | key `k` holds slot `k % Columns()` of row `k / Columns()` |
| Images.Round | src/main.rs:376 | `f32::round`: the nearest integer, halves rounded away from zero |
| Images.LineStepExamples | src/main.rs:370-376 | with the 1.1 line height, a 20-point font advances 22 and the 15-point default advances 17 |
| Images.Lines | src/main.rs:374 | splitting text on newlines yields at least one line |
| Images.JoinSplitLines | src/main.rs:374 | joining the split lines with newlines gives back the text |
| Images.LinesShape | src/main.rs:374 | the text has one more line than it has newlines, and no line contains a newline |
| Images.Layout | src/main.rs:373-377 | one line drawn per text line, in order, line `i` at height `i * step` |
| Images.TextBeatsImage | src/main.rs:368-378 | a key with text gets a canvas of the key's size, one line per text line at height `i * Round(size * 1.1)`, with size 15 by default, whatever image is configured |
| Images.ImageWithoutText | src/main.rs:379-384 | without text, a readable image becomes a picture resized into the key's box; an unreadable one is an error naming the path |
| Images.BaseImage | src/main.rs:362-388 | preparing fails exactly when there is no text and the image cannot be read, with an error naming the image; there is no base image exactly when there is neither text nor image; a base image is a canvas exactly when there is text |
| Images.PrepareImage | src/main.rs:362-388 | the drawing loop advances `y` by the line step per line, and the result is the base image of the configuration |
| Playlist.LoadPlaylist | src/main.rs:309-331 | the load fails as unreadable exactly when the playlist cannot be read; a loaded playlist has as many files as entries |
| Playlist.ResolveEntry | src/main.rs:322-330 | a path entry resolves exactly when the playlist has a directory; a URL entry is rejected |
| Playlist.ResolveAll | src/main.rs:320-330 | all entries resolve, in order, or the result is the first entry's error |
| Playlist.LoadPlaylistSucceeds | src/main.rs:309-331 | a playlist loads exactly when it is readable, every entry is a path, and a non-empty list has a parent directory; file `i` is entry `i` joined onto that directory |
| Playlist.UrlEntryFailsLoad | src/main.rs:328 | one URL entry anywhere fails the whole load |
| Table.MakeButton | src/main.rs:341-356 | an empty slot gives the default button and cannot fail; a built entry is idle, keeps its slot's configuration, and has resolved contents exactly when it names a playlist |
| Table.MakeButtonCases | src/main.rs:340-357 | a configured slot keeps its configuration, starts idle and carries its base image and resolved playlist; an image error is reported before a playlist error; an empty slot is the default button |
| Table.BuildButtons | src/main.rs:337-359 | every slot builds, in order, or the result is the first failing slot's error |
| Table.BuildState | src/main.rs:333-360 | the table holds exactly one key per slot index, all idle, entry `k` built from slot `k`; it fails exactly when some slot fails, with the first error |
| Table.EmptySlotIsInert | src/main.rs:52-70 | an empty slot becomes the default button |
| Table.OneBadSlotFailsAll | src/main.rs:343-356 | one slot with a bad image or playlist fails the whole build |
| Table.TableMatchesGrid | src/main.rs:267-268 | the startup table has one entry per key of the panel, key `i * columns + c` built from slot `c` of row `i` |
| Controller.PressedIdx | src/main.rs:390-396 | the lowest index whose state is 1; none when no state is 1 |
| Controller.FirstUndecodable | src/main.rs:425-426 | the first file of the playlist that does not decode; none when all decode |
| Controller.StoppedFrame | src/main.rs:415-423 | the stopped frame shows the play icon, over the base image when there is one, except that it is the bare base image when the icon option is off |
| Controller.PlayingFrame | src/main.rs:474-478 | the playing frame always shows the stop icon, over the base image when there is one |
| Controller.Notify | src/main.rs:446-460 | only the broker log changes, by exactly one publish of the key's topic and payload, and only when there is a broker and both are set |
| Controller.StopPlaying | src/main.rs:412-423 | the sink gets one stop, the key's flag is cleared and the broker is untouched; the press succeeds exactly when the write does, and a failed write leaves the panel log as it was |
| Controller.StartPlaying | src/main.rs:427-433 | the sink gets a stop then the source, looped when the key repeats; the key is flagged playing; the press succeeds exactly when the write does |
| Controller.Toggle | src/main.rs:411-444 | the toggle never tells the broker anything, only appends to the sink and panel logs, keeps the keys, changes no other key, and a decode failure changes nothing |
| Controller.Press | src/main.rs:399-465 | a press never adds or removes keys |
| Controller.NoPressNoEffect | src/main.rs:461-463 | with no state at 1 nothing changes and the press succeeds |
| Controller.PressFrame | src/main.rs:399-465 | a press touches only the pressed key's entry and only that entry's `playing` flag |
| Controller.PressWhilePlaying | src/main.rs:412-423 | pressing a playing key stops the sink, clears its flag and redraws it with the play icon (bare when the option is off), whether or not it has a sound; the press succeeds when the write does and fails naming the key otherwise |
| Controller.StoppedFrameCases | src/main.rs:412-423 | the stopped frame is the play icon over the base image (bare when the option is off), or the play icon alone without a base image |
| Controller.PlayingFrameCases | src/main.rs:467-480 | the playing frame is the stop icon over the base image, or the stop icon alone |
| Controller.PressWhileIdle | src/main.rs:424-443 | pressing an idle key with decodable audio stops the sink, appends its source (looped when `repeat`), sets its flag and draws the stop icon |
| Controller.PlaylistBeatsSound | src/main.rs:424-443 | a key with both a playlist and a sound plays the playlist |
| Controller.DecodeFailureChangesNothing | src/main.rs:424-443 | when a file does not decode the press fails naming the first such file, and nothing else changes |
| Controller.IdleWithoutSource | src/main.rs:409-444 | pressing an idle key with nothing to play changes neither the table, the sink nor the panel, and the press succeeds |
| Controller.NotifyOnPress | src/main.rs:446-460 | after a successful toggle, a key with topic and payload publishes exactly one message when there is a broker, and nothing otherwise |
| Controller.PublishFailureIsSwallowed | src/main.rs:454-458 | a rejected publish does not fail the press |
| Controller.PressPreservesCoherence | src/main.rs:399-480 | a press keeps every playing key one that has something to play |
| Controller.PressOnlyAppends | src/main.rs:399-480 | a press only appends to the sink, panel and broker logs, and the broker only receives publishes |
| Controller.SwitchingLeavesStaleFlag | src/main.rs:424-443 | starting key B while key A plays stops the sink but leaves A flagged playing |
| Controller.PressTwiceToggles | src/main.rs:412-443 | pressing an idle sound-only key twice, with the file decoding and the writes succeeding, sends stop, append, stop to the sink, draws the playing frame then the stopped frame, and restores the table |
| Driver.StartupFrame | src/main.rs:200-205 | a key is drawn at startup exactly when it has a base image, over which only the play icon can appear, and only for a key with a sound when the option is on |
| Driver.StartupFrameCases | src/main.rs:192-210 | only keys with a base image are drawn at startup; the play icon goes over it only for a key with a sound when the option is on |
| Driver.DisplayWritesImages | src/main.rs:192-210 | over any order of keys of the table, every write carries a key's startup frame; display fails exactly when some key in the order with a base image cannot be written, and otherwise every such key in the order is written |
| Driver.Display | src/main.rs:192-210 | a failed display names a key whose write failed |
| Driver.DisplayCoversTable | src/main.rs:192-210 | over an iteration order visiting every key, display fails exactly when some key with a base image cannot be written, and otherwise every such key is written |
| Driver.Shutdown | src/main.rs:298-305 | the sink gets a final stop and, when there is a broker, the broker a final disconnect; the table and panel are untouched |
| Driver.RunScript | src/main.rs:278-306 | the loop never adds or removes keys of the table |
| Driver.RunEndsOnlyByFlagOrError | src/main.rs:278-306 | the loop stops in order only after a tick with the shutdown flag, and is still polling only when no tick carried a device error or the flag |
| Driver.NoDataIsInert | src/main.rs:292-294 | a poll with no data changes nothing |
| Driver.PressErrorsAreNotFatal | src/main.rs:288-291 | a failed press is only logged and the loop continues |
| Driver.FatalIff | src/main.rs:292-296 | the loop ends with a device error exactly when that error is polled before the shutdown flag is seen |
| Driver.ShutdownOnlyWhenStopped | src/main.rs:298-305 | an orderly stop ends with the sink stopped and, with a broker, the client disconnected; otherwise the broker only received publishes |
| Runtime.Session.constructor | src/main.rs:250-274 | the session starts from the startup table, with nothing sent to the sink, the panel or the broker |
| Runtime.Session.WriteImage | src/main.rs:212-220 | a successful write appends one frame for that key; a failed one appends nothing and reports the key |
| Runtime.Session.SetPlaying | src/main.rs:467-480 | the key is flagged playing and drawn with the stop icon; nothing else changes |
| Runtime.Session.ToggleKey | src/main.rs:411-445 | the new table, sink and writes are those of the toggle specification |
| Runtime.Session.HandlePress | src/main.rs:399-465 | the new state and the outcome are those of `Controller.Press`, and the session stays valid |
| Runtime.Session.DisplayButtons | src/main.rs:192-210 | the writes and the outcome are those of `Driver.Display` |
| Runtime.Session.Run | src/main.rs:278-306 | the final state and outcome are those of `Driver.RunScript`, and the session stays valid |

## Left out

- Pixel work is not modelled: text rasterisation, fonts, the Gaussian resize and compositing the icon files. A frame records which base image and which icon it shows.
- `f32` arithmetic is modelled with exact reals. The `as i32` cast of the line step is not modelled.
- Images.ImageWithoutText: the resized picture records the key's box, not the dimensions `resize` computes while keeping the aspect ratio.
- Audio decoding and playback are not modelled. A set of decodable paths stands in for `decode_file`, and the sink is a log of stop and append commands.
- Connecting to MQTT is not modelled, and neither are publish QoS and the panic of the `unwrap` on disconnect. The broker is a log of publishes, with an accepted flag, and of the disconnect.
- Finding and connecting to the panel is not modelled, and neither are its product id, the brightness setting (default 100) or the read timeout. Each poll's result is given as data.
- Parsing the TOML configuration and the m3u files is not modelled. An unopenable playlist and an unreadable entry are both the one `Unreadable` error.
- The Ctrl-C handler and its atomic flag, logging, the command line and reading the configuration file are not modelled. The flag is a boolean per tick.
- Runtime.Session.WriteImage: key indices are unbounded naturals. The `idx as u8` truncation is not modelled, since a panel has at most 32 keys.
- Paths.Join: paths are lists of components. `.` and `..` are not normalised, just as `PathBuf::join` does not normalise them.
- The hash map's iteration order is a parameter of `Driver.Display` and `Runtime.Session.DisplayButtons`.
- Controller.Press: the `unwrap` on the table lookup becomes a precondition that the pressed index is a key of the table.
- Whether a panel write succeeds is an oracle. Failed writes are not logged.
- The relative order of commands across the three logs is not modelled.
