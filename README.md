# Playback negotiation of jellyfin-mpv-shim, in Dafny

This project models the per-item playback negotiation of jellyfin-mpv-shim: the `Video`
object, and the queue navigation of the `Media` object, both in
`jellyfin_mpv_shim/media.py`.

For one item, `Video`:

- asks the server for the item's media sources;
- selects the source at position `src_seq`;
- numbers that source's audio and subtitle tracks (`map_streams`);
- adopts the source's default tracks into a still-unset selection;
- chooses between a direct stream and a transcode, and builds the URL;
- keeps a bitrate override, and reports whether a track change needs a restart;
- formats and caches a display title.

`Media` holds a queue of item ids and the position of the current item in it.

Files:

- `wrappers.dfy`: `Option`, which stands for Python's `None` or a present value.
- `format.dfy`: decimal numerals as `%d` and `%.2d` print them, with a proof that the
  numeral reads back as the number.
- `streams.dfy`: the records the server sends (`MediaSource`, `MediaStream`), and the two
  loops of `map_streams` as left folds over the stream list (`AudioScan`, `SubtitleScan`).
  Lemmas characterise what the folds compute: counters, slot numbering, external URLs,
  burn-in subtitles, and which stream wins when a key is written twice.
- `video.dfy`: `class Video`, whose methods update the same fields as the Python object.
  It also holds the pure pieces: the bitrate decision table, URL construction and the title.
- `media.dfy`: `class Media`: `has_next`/`has_prev`, `get_next`/`get_prev` and `get_from_key`.

The server is not called. The item record `get_item` returns is a constructor argument.
`get_play_info` is a parameter of `GetPlaybackUrl`: a function from the request (item id,
profile arguments, `aid`, `sid`) to the list of media sources. The request `close_transcode`
would send is recorded in the ghost flag `Video.closeRequested`.

`Video.Valid()` is the object invariant. It says that the six track maps always describe
the current media source, never an earlier one. It also says that a stored override always
forces a transcode, and that a cached title is the item's title.

In two places the code does not do what its structure suggests, and the model follows
the code.

- The fallback loop is commented "try all of them", but the code re-reads index
  `src_seq` on every turn of the loop (media.py:157), so no other source is ever tried.
  `GetPlaybackUrl` keeps that behaviour; the corrected negotiation is
  `NegotiateSourceTryingAll`. See Findings.
- External streams do not take a player slot, yet an external *audio* stream is mapped
  at the current counter (media.py:49-50). The next audio stream then overwrites that
  slot, because the counter did not advance (`Streams.ExternalAudioSlotReused`).

## Model

| member | source | states |
|---|---|---|
| `Format.NatToString` | jellyfin_mpv_shim/media.py:93 | `%d` of a natural: a non-empty digit string with no leading zero |
| `Format.NatToStringRoundTrip` | jellyfin_mpv_shim/media.py:93 | reading the `%d` numeral back gives the number |
| `Format.IntToString` | jellyfin_mpv_shim/media.py:93-97 | `%d` and `%s` of an int: a numeral that reads back as the number, after a `-` when it is negative |
| `Format.Pad2` | jellyfin_mpv_shim/media.py:93 | `%.2d`: at least two digits that read back as the number, after a `-` when it is negative |
| `Format.Pad2Digits` | jellyfin_mpv_shim/media.py:93 | `%.2d` of a natural is `%d` with one leading zero below 10, and `%d` itself from 10 upward |
| `Streams.ExternalSubtitleUrl` | jellyfin_mpv_shim/media.py:63-67 | an external subtitle URL is kept verbatim when `IsExternalUrl` is truthy; otherwise it is the server address followed by `DeliveryUrl` |
| `Streams.AudioStepRecords` | jellyfin_mpv_shim/media.py:45-53 | one turn of the audio loop: a non-audio stream changes nothing. An audio stream is recorded at the current counter in `audio_uid` and under its uid in `audio_seq`, no other slot changes, and the counter moves on only when `IsExternal` is false |
| `Streams.AudioScan` | jellyfin_mpv_shim/media.py:44-53 | the audio loop over a whole list: the counter starts at 1 and grows by at most one per stream |
| `Streams.AudioSlotsInRange` | jellyfin_mpv_shim/media.py:44-53 | every slot `audio_uid` holds, and every slot `audio_seq` names, lies between 1 and the final counter |
| `Streams.AudioCounter` | jellyfin_mpv_shim/media.py:44-53 | the audio counter ends at 1 plus the number of audio streams whose `IsExternal` is exactly false |
| `Streams.AudioIgnoresOtherTypes` | jellyfin_mpv_shim/media.py:45-47 | the audio maps are the same whether or not non-audio streams are in the list |
| `Streams.AudioNumbering` | jellyfin_mpv_shim/media.py:44-53 | when every audio stream is internal, `audio_uid` maps 1..N to the audio uids in list order and `audio_seq` has exactly those uids as keys; with distinct uids, `audio_seq` is the inverse of `audio_uid` |
| `Streams.ExternalAudioSlotReused` | jellyfin_mpv_shim/media.py:49-53 | for any list, an external audio stream is mapped at the current counter, the counter stays there, and the next audio stream overwrites that slot |
| `Streams.SubtitleStepRecords` | jellyfin_mpv_shim/media.py:56-72 | one turn of the subtitle loop: an "Embed" stream is recorded at the current counter and under its uid, an "External" one gets its resolved URL, an "Encode" one joins `subtitle_enc`, each other map is left alone, and the counter moves on only when `IsExternal` is false |
| `Streams.SubtitleScan` | jellyfin_mpv_shim/media.py:55-72 | the subtitle loop over a whole list: the counter starts at 1 and grows by at most one per stream |
| `Streams.SubtitleSlotsInRange` | jellyfin_mpv_shim/media.py:55-72 | every slot `subtitle_uid` holds, and every slot `subtitle_seq` names, lies between 1 and the final counter |
| `Streams.SubtitleCounter` | jellyfin_mpv_shim/media.py:55-72 | the subtitle counter ends at 1 plus the number of subtitle streams whose `IsExternal` is exactly false, whatever their delivery method |
| `Streams.SubtitleEncoded` | jellyfin_mpv_shim/media.py:68-69 | `subtitle_enc` is exactly the set of uids of the "Encode" subtitles |
| `Streams.SubtitleUrls` | jellyfin_mpv_shim/media.py:63-67 | `subtitle_url` has a key for exactly the "External" subtitle uids, holding the resolved URL of the last such stream with that uid |
| `Streams.SubtitleEmbeddedUids` | jellyfin_mpv_shim/media.py:60-62 | `subtitle_uid` has a key for exactly the counter values at "Embed" subtitles, holding the uid of the last stream at that value |
| `Streams.SubtitleEmbeddedSeqKeys` | jellyfin_mpv_shim/media.py:60-62 | `subtitle_seq` has a key for exactly the uids of "Embed" subtitles |
| `Streams.SubtitleEmbeddedSeqValues` | jellyfin_mpv_shim/media.py:60-62 | `subtitle_seq` maps an "Embed" uid to the counter value at the last stream with that uid |
| `Streams.EmbeddedSubtitleAtCounter` | jellyfin_mpv_shim/media.py:55-72 | when every subtitle is internal, each "Embed" subtitle keeps its own slot: `subtitle_uid` maps the counter at that stream to its uid |
| `Streams.LayoutOf` | jellyfin_mpv_shim/media.py:33-42 | the track maps are all empty when there is no source or its protocol is not "File" |
| `Streams.Adopt` | jellyfin_mpv_shim/media.py:74-81 | a set selection is never overwritten; an unset one takes the source's default |
| `Streams.AdoptIdempotent` | jellyfin_mpv_shim/media.py:77-81 | adopting the same default twice gives the same selection as once |
| `Playback.Show` | jellyfin_mpv_shim/media.py:93-97 | `%s` of a value that may be `None`: a present string prints as itself, and the output is "None" exactly for a missing value or the string "None" |
| `Playback.ProperTitle` | jellyfin_mpv_shim/media.py:86-97 | items that are neither episodes nor movies, and movies without a year, keep the bare name |
| `Playback.EpisodeTitleExample` | jellyfin_mpv_shim/media.py:89-93 | episode 3 of season 1 of "Foo", named "Bar", is titled "Foo - s1e03 - Bar" |
| `Playback.MovieTitleExamples` | jellyfin_mpv_shim/media.py:94-97 | the movie "Baz" of 1999 is "Baz (1999)"; without a year it is "Baz" |
| `Playback.TranscodeBitrate` | jellyfin_mpv_shim/media.py:107-118 | "none" exactly when not transcoding. "max" exactly when transcoding and either forced without a bitrate or local with no override. No answer only for an unforced override without a bitrate |
| `Playback.BitrateAfterOverride` | jellyfin_mpv_shim/media.py:101-118 | after `set_trs_override(b, f)`: "none" when not transcoding; else the pinned b when forced; else "max" when forced or local; else `remote_kbps`. An unforced call forgets b |
| `Playback.DirectUrl` | jellyfin_mpv_shim/media.py:127-132 | the static-stream URL starts with the server address and ends with the token; `DirectUrlNamesSource` shows that it determines the source id |
| `Playback.DirectUrlNamesSource` | jellyfin_mpv_shim/media.py:127-132 | two direct URLs for the same server, item and token are equal only for the same source id |
| `Playback.Usable` | jellyfin_mpv_shim/media.py:125-133 | a source is playable when it allows a direct stream or a transcode; `SourceUrl` gives a URL for exactly these sources |
| `Playback.SourceUrl` | jellyfin_mpv_shim/media.py:124-135 | a URL exists exactly when the source allows a direct stream or a transcode. Direct stream wins, as the static-stream URL. Otherwise it is the server address followed by `TranscodingUrl` |
| `Playback.TranscodeAfter` | jellyfin_mpv_shim/media.py:125-135 | `is_transcode` becomes false for a direct stream and true for a transcode. It is unchanged when the source is unusable |
| `Playback.WrittenOutcome` | jellyfin_mpv_shim/media.py:149-163 | as written, the answer is an index error exactly when `src_seq` is out of range, and `None` exactly when the source at `src_seq` is unusable |
| `Playback.FirstUsableOther` | jellyfin_mpv_shim/media.py:154-161 | the first usable source from a position on, skipping one index; none means no such source exists |
| `Playback.IntendedOutcome` | jellyfin_mpv_shim/media.py:153-161 | with the fallback as intended, the answer is `None` exactly when no source at all is usable |
| `Playback.FallbackNeverMoves` | jellyfin_mpv_shim/media.py:154-161 | on an unusable source followed by a direct-stream one, the code as written gives `None` and the intended fallback gives source 1's direct URL |
| `Playback.Video.constructor` | jellyfin_mpv_shim/media.py:11-31 | a new `Video` keeps the given ids and selection, with empty maps, no override, no source, no cached title, and not transcoding |
| `Playback.Video.MapAudio` | jellyfin_mpv_shim/media.py:44-53 | the audio loop, run in place on `audio_uid` and `audio_seq`, leaves exactly the maps of `AudioScan` |
| `Playback.Video.MapSubtitles` | jellyfin_mpv_shim/media.py:55-72 | the subtitle loop, run in place on the four subtitle fields, leaves exactly the maps and set of `SubtitleScan` |
| `Playback.Video.MapStreams` | jellyfin_mpv_shim/media.py:33-81 | the six maps become those of the current source, with no stale entries. Defaults are adopted only into an unset `aid`/`sid`, and only for a "File" source |
| `Playback.Video.CurrentStreams` | jellyfin_mpv_shim/media.py:83-84 | returns the selected audio and subtitle uids |
| `Playback.Video.GetProperTitle` | jellyfin_mpv_shim/media.py:86-99 | returns the item's title and caches it; once cached, the cached value is what is returned |
| `Playback.Video.SetTrsOverride` | jellyfin_mpv_shim/media.py:101-105 | stores `(bitrate, force)` only when forcing a transcode, and clears the override otherwise |
| `Playback.Video.GetTranscodeBitrate` | jellyfin_mpv_shim/media.py:107-118 | on a valid `Video` there is always an answer, and it is "none" exactly when not transcoding |
| `Playback.Video.TerminateTranscode` | jellyfin_mpv_shim/media.py:120-122 | the server is asked to close a transcode exactly when one is running |
| `Playback.Video.UrlFromSource` | jellyfin_mpv_shim/media.py:124-135 | builds the URL of the current `media_source`, ignoring its argument, and updates `is_transcode` to match |
| `Playback.Video.SelectSource` | jellyfin_mpv_shim/media.py:149-151 | one attempt: the given source becomes `media_source`, the maps describe it, the URL is its `SourceUrl`, `is_transcode` follows `TranscodeAfter`, and defaults are adopted only for a "File" source |
| `Playback.Video.NegotiateSource` | jellyfin_mpv_shim/media.py:149-163 | the source at `src_seq` ends up selected and mapped, and the URL is that source's. The fallback loop changes nothing |
| `Playback.Video.NegotiateSourceTryingAll` | jellyfin_mpv_shim/media.py:153-161 | corrected fallback: its answer is the intended outcome. The maps describe the selected source, and `is_transcode` matches the URL built |
| `Playback.Video.GetPlaybackUrl` | jellyfin_mpv_shim/media.py:137-163 | first closes a running transcode. A stored override replaces the bitrate and force arguments. Asks the server with the current `aid`/`sid`. The answer is `WrittenOutcome` and the invariant is kept |
| `Playback.Video.SetStreams` | jellyfin_mpv_shim/media.py:173-186 | sets `aid`/`sid` to each non-None argument. Restart is needed exactly when audio changed while transcoding, or the subtitle changed to a burn-in one |
| `Queue.Media.constructor` | jellyfin_mpv_shim/media.py:189-199 | builds the `Video` of the item at `seq`, with `has_next` iff `seq < len(queue) - 1` and `has_prev` iff `seq > 0` |
| `Queue.Media.GetNext` | jellyfin_mpv_shim/media.py:201-203 | when there is a next item, a fresh queue at the next position, whose `Video` plays that item with no track selection and the same settings, server lookup and locality; otherwise `None` |
| `Queue.Media.GetPrev` | jellyfin_mpv_shim/media.py:205-207 | when there is a previous item, a fresh queue at the previous position, whose `Video` plays that item with no track selection and the same settings, server lookup and locality; otherwise `None` |
| `Queue.Media.GetFromKey` | jellyfin_mpv_shim/media.py:209-213 | the queue positioned at the first occurrence of the id, whose `Video` plays that id with no track selection and the same settings, server lookup and locality; `None` exactly when the id is not in the queue |

## Left out

- Server calls are not made: `get_item`, `get_play_info` and `close_transcode` are replaced by given values and a ghost flag. `set_played` (media.py:170-171) is only a call to the server's `item_played`, so it is not modelled.
- `get_profile` and `is_local_domain` are not part of this model. The profile is represented by the arguments passed to it, and `is_local` is a given boolean.
- Settings (`auth.server`, `auth.token`, `app.device_id`, `remote_kbps`) are constants of a `Config` value.
- `get_duration` (media.py:165-168) divides ticks in floating point, so it is not modelled.
- `Media.get_video` (media.py:215-222) refers to names that are not defined (`queue`, `video`), so its behaviour is not well defined. It is not modelled.
- Logging is not modelled.
- The `offset` and `force_bitrate` arguments of `get_playback_url` are unused by the code and are dropped.
- `DeliveryUrl` and `TranscodingUrl` are taken as present strings. When either is missing, the code raises `TypeError` at the concatenation, or stores `None` when `IsExternalUrl` is truthy.
- `IndexNumber` and `ParentIndexNumber` are taken as integers. The `int()` conversion, and the exception when either is missing, are not modelled.
- Keys the code reads with `[...]` (`Protocol`, `Index`, `MediaStreams`, `Id`, `SupportsDirectStream`, `SupportsTranscoding`) are always present. The `KeyError` raised when one is missing is not modelled.
- `IsExternal`, `IsExternalUrl` and `force_transcode` are booleans. Python's `0 == False` and the truthiness of other values are not modelled. Bitrates are integers.
- `src_seq` and `seq` are natural numbers, so Python's negative indexing is not modelled.
- Queue.Media.constructor: requires `seq < len(queue)`, so the `IndexError` that `queue[seq]` raises for a position past the end (media.py:195), such as an empty queue with the default `seq=0`, is not modelled. `get_next`, `get_prev` and `get_from_key` only ever pass positions inside the queue.
- `Media` computes `is_local_domain(client)` once per object. Here `is_local` is a value copied into each `Video`, rather than a read through the `parent` reference.
- Playback.Video.NegotiateSourceTryingAll: about `aid`/`sid` it states only that a selection already made is kept. Which tried source's default is adopted is not stated.

## Findings

| source | as written | input that shows it | evidently intended | confidence | as-written member | corrected member |
|---|---|---|---|---|---|---|
| jellyfin_mpv_shim/media.py:157 | every turn of the fallback loop selects `MediaSources[src_seq]` again, so no other source is ever tried | two sources, the first allowing neither direct stream nor transcoding and the second allowing direct stream, with `src_seq` 0: the result is `None` | select `MediaSources[i]` (the loop's own `media_source`), so the first usable other source is played | high; not executed | `Playback.Video.NegotiateSource`, `Playback.FallbackNeverMoves` | `Playback.Video.NegotiateSourceTryingAll` |
