# webtorrent-player, modelled in Dafny

webtorrent-player streams video out of BitTorrent swarms. The Go backend parses a magnet
link or a bare info hash, downloads the torrent, transcodes its largest video file to HLS
with ffmpeg and serves the playlists and segments over HTTP. The React front end searches
the Cinemeta catalogues, gathers and ranks torrents listed by Stremio add-ons, starts a
stream, polls its preparation status and plays the result with Shaka Player.

This project models the decision logic of that system and proves what it promises. Each
source file becomes one or more Dafny modules:

| module | file | models |
|---|---|---|
| `Common` | common.dfy | string helpers shared by both sides: Go and ECMAScript white space and trimming, ASCII case mapping, decimal text, parseInt, padStart, substring search |
| `TorrentInput` | torrent_input.dfy | `ParseInput` and `isHex` (backend/torrent/client.go) |
| `StreamRegistry` | stream_registry.dfy | the bounded stream map with its oldest-first eviction, `GetStream`, `StopStream` and the peer-speed sampler of `GetPeerStats` |
| `DownloadPolicy` | download_policy.dfy | the video-file choice, the initial piece count, the sliding priority window, the transcode-start thresholds and the download monitor's state |
| `HlsOutput` | hls_output.dfy | the quality ladder filter and `generateMasterPlaylist` as a sequence of lines written by its loops (RFC 8216, sections 4.3.1.1, 4.3.1.2, 4.3.4.1 and 4.3.4.2) |
| `FFmpegCommand` | ffmpeg_args.dfy | `buildFFmpegArgs`, with the hardware accelerator as a parameter, and a parser that reads the argument list back |
| `MetadataCache` | metadata_cache.dfy | `extractInfoHash`, `HashMagnetLink`, the cache class with `Get`, `Set`, `Cleanup` and `Stats`, `getLanguageName` and the track normalisation |
| `StreamHandlers` | stream_handlers.dfy | the HTTP handlers of backend/handlers/stream.go, their wait loops over a sequence of observations, and `waitForStableFile` |
| `ShakaPlayer` | shaka_player.dfy | the player component's initialisation guard and cleanup, the quality ladder, `changeQuality`, the media controls, the keyboard shortcuts and `formatTime` |
| `PlayerPage` | player_page.dfy | the status poller, `startStream`, `handleStop`, `formatSpeed`, `formatSize` and `getStatusInfo` |
| `HomePage` | home_page.dfy | the search sort and cap, the add-on stream filter, the ranking comparator, the IMDB id guard, `playStream` and the add-on toggle |

Code that updates state in place is modelled by classes whose methods state the whole new
state (the registry, the metadata cache, the download monitor, the player component, the
media element, the player page). Loops are `while` or `for` loops proved against
specification functions (`PlayStream` against `PlayLink`, `WaitForStableFile` against
`StableRun`, `RunPoller` against `Chain`, `FetchStreams` against `Gathered`). Everything
else is functions with lemmas about them.

Clocks, random ids, the file system, child processes, the torrent library and HTTP replies
become parameters. A loop that waits on the world takes a sequence of observations, one per
iteration. SHA-256 and `encodeURIComponent` are function parameters that the model never
looks inside.

Where the code and the written design of the system disagree, the model follows the code:

- A status poll answered with 404 stops polling (frontend/src/pages/PlayerPage.jsx:54). The design treats a 404 as "not ready yet".
- A poll that throws is retried after a fixed 3000 ms (frontend/src/pages/PlayerPage.jsx:71-73). The design describes a lengthening back-off.
- Polling stops only on an "error" status (frontend/src/pages/PlayerPage.jsx:70). After "ready" it goes on, and a later poll may record another status.
- A quality label is recorded even when no track has that height (frontend/src/components/player/ShakaVideoPlayer.jsx:316). The design leaves the label unchanged then.
- A label selects a track of exactly its height (frontend/src/components/player/ShakaVideoPlayer.jsx:325). The design speaks of the nearest match.
- The engine replaced by a new source is destroyed without waiting (frontend/src/components/player/ShakaVideoPlayer.jsx:170-183). The design asks that it be fully destroyed first.
- At most one live engine is promised, but a failed attach leaks one (see Findings).

## Model

| member | source | states |
|---|---|---|
| Common.Contains | frontend/src/pages/HomePage.jsx:178 | String.prototype.includes: true exactly when the text occurs at some position |
| Common.Lower | frontend/src/pages/HomePage.jsx:209 | toLowerCase on ASCII letters, character by character, keeping the length |
| Common.Trim | backend/torrent/client.go:174 | white space of the given class removed at both ends: the result is the piece of the input left between a leading and a trailing run of white space, and it neither starts nor ends with white space |
| Common.TrimIdempotent | frontend/src/pages/PlayerPage.jsx:80-89 | trimming an already trimmed text changes nothing, so the guard and the request body see the same input |
| Common.TrimBlank | frontend/src/pages/HomePage.jsx:77 | a text made only of white space trims to nothing |
| Common.NatToString | frontend/src/components/player/ShakaVideoPlayer.jsx:347 | the decimal text of a number: at least one digit, a leading zero only for zero |
| Common.ParseNatToString | frontend/src/components/player/ShakaVideoPlayer.jsx:347 | the decimal text reads back as the number |
| Common.NatToStringInjective | frontend/src/components/player/ShakaVideoPlayer.jsx:134 | different numbers have different decimal texts |
| Common.ScanNat | frontend/src/components/player/ShakaVideoPlayer.jsx:322 | parseInt: no number exactly when the text does not start with a digit |
| Common.ScanNatOfRendered | frontend/src/components/player/ShakaVideoPlayer.jsx:322 | parseInt of a number's text followed by a non-digit gives that number |
| Common.PadStart2 | frontend/src/components/player/ShakaVideoPlayer.jsx:347-349 | padStart(2, '0'): texts of two or more characters unchanged, shorter ones padded on the left with zeros to two |
| Common.ParsePad2 | frontend/src/components/player/ShakaVideoPlayer.jsx:347-349 | a two-digit padded field reads back as its number |
| TorrentInput.ParseInput | backend/torrent/client.go:173-197 | the input is trimmed with Go's white-space class; a trimmed input starting with "magnet:" is returned as is; a trimmed 40-digit hexadecimal hash becomes "magnet:?xt=urn:btih:" + hash + one "&tr=" parameter per tracker; anything else is returned trimmed |
| TorrentInput.MagnetIsNoHash | backend/torrent/client.go:177-182 | a text starting with "magnet:" is never a bare info-hash, so the two branches of ParseInput never overlap |
| TorrentInput.TrackerSuffixSpelledOut | backend/torrent/client.go:183-193 | the suffix added to a bare hash is exactly four "&tr=" parameters, for the four trackers in list order |
| TorrentInput.TrackerParamsLast | backend/torrent/client.go:191-193 | the appended parameters end in the last character of the last tracker |
| TorrentInput.HashMagnetLayout | backend/torrent/client.go:189 | the link built from a bare hash has the 20-character btih prefix and carries the hash at offsets 20 to 60 |
| TorrentInput.MagnetFixed | backend/torrent/client.go:174-180 | a magnet link without surrounding white space is returned unchanged |
| TorrentInput.HashLinkEnds | backend/torrent/client.go:190-194 | the link built from a bare hash starts with "magnet:" and does not end in white space |
| TorrentInput.ParseInputIdempotent | backend/torrent/client.go:173-197 | normalising an already normalised input changes nothing |
| TorrentInput.TrackerParams | backend/torrent/client.go:189-192 | the "&tr=" parameters are empty exactly when there are no trackers |
| TorrentInput.TrackerParamsShape | backend/torrent/client.go:189-192 | one "&tr=" parameter per tracker: at least four characters per tracker, starting with the first tracker's parameter |
| StreamRegistry.StatusNameInjective | backend/torrent/client.go:54 | the four status strings are pairwise distinct |
| StreamRegistry.NewStream | backend/torrent/client.go:216-223 | a new stream record has the given id, magnet link and creation time, status "downloading", progress 0 and every other reported field empty |
| StreamRegistry.OldestExists | backend/torrent/client.go:228-237 | a non-empty registry always has an entry created no later than any other, so eviction always finds a victim |
| StreamRegistry.Registry.constructor | backend/torrent/client.go:20 | the registry starts empty |
| StreamRegistry.Registry.StartStream | backend/torrent/client.go:208-288 | the link is first looked up in the metadata cache, a hit recording an access there; then below maxStreams the new record is added, and at or above it exactly one entry of earliest creation time is removed first; at most maxStreams entries remain, each under its own id |
| StreamRegistry.Registry.Insert | backend/torrent/client.go:225-288 | below maxStreams the record is added under its id; at or above it exactly one entry of earliest creation time is removed first and nothing else changes |
| StreamRegistry.Registry.GetStream | backend/torrent/client.go:1003-1008 | found exactly when the id is registered, returning the record stored under it |
| StreamRegistry.Registry.StopStream | backend/torrent/client.go:1010-1053 | an unknown id reports not found and leaves the registry unchanged; a known id is removed and nothing else |
| StreamRegistry.PeerSampler.constructor | backend/torrent/client.go:71-73 | a stream starts with no torrent, no speed sample and speed 0 |
| StreamRegistry.PeerSampler.AttachTorrent | backend/torrent/client.go:313 | the torrent is attached |
| StreamRegistry.PeerSampler.GetPeerStats | backend/torrent/client.go:78-103 | without a torrent everything is 0 and nothing changes; the first sample records a baseline; a later one recomputes the speed only when more than half a second has elapsed; the downloaded amount is bytes / 2^20 |
| StreamRegistry.SpeedMBps | backend/torrent/client.go:92-95 | the speed times the elapsed seconds is the byte difference in MiB; no bytes means speed 0 |
| DownloadPolicy.BestSkipsNonVideo | backend/torrent/client.go:333-339 | a file with none of the video extensions leaves the choice as it was |
| DownloadPolicy.BestTakesVideo | backend/torrent/client.go:335-337 | a video file replaces the choice when there is none or when it is strictly longer |
| DownloadPolicy.SelectVideoFile | backend/torrent/client.go:330-341 | no choice exactly when no lower-cased path ends in one of the six extensions; otherwise the choice is a video file of maximal length, and no earlier video file is as long (the first of the longest wins) |
| DownloadPolicy.BaseName | backend/torrent/client.go:349 | the file name is everything after the last slash of the path: a slash-free suffix with a slash just before it, the whole path when it has no slash |
| DownloadPolicy.ApplySelection | backend/torrent/client.go:343-352 | without a video file the stream is marked "error" with its message; otherwise the recorded file name is the part of the path after its last slash (the whole path without one) and the path under downloads/ is recorded |
| DownloadPolicy.GoDiv | backend/torrent/client.go:494 | Go's division truncates toward zero: a non-negative dividend gives the largest q with q × b not above it, a negative one the smallest q with q × b not below it, which is never positive |
| DownloadPolicy.InitialPieces | backend/torrent/client.go:372-378 | 60 MiB divided by the piece length, clamped to [10, 2000] |
| DownloadPolicy.FirstPieceIndex | backend/torrent/client.go:382 | the piece that holds the file's first byte |
| DownloadPolicy.LastPieceIndex | backend/torrent/client.go:494 | for a non-empty file the piece that holds its last byte, never before the first piece; an empty file at offset 0 gives piece 0, or -1 with one-byte pieces |
| DownloadPolicy.EmptyLastPiece | backend/torrent/client.go:494 | Go's division places byte -1 in piece 0 unless pieces are one byte long |
| DownloadPolicy.PiecesToPrioritise | backend/torrent/client.go:387-392 | the loop touches exactly the indices from the start up to the bound that are below the torrent's piece count, in increasing order |
| DownloadPolicy.HeadersComplete | backend/torrent/client.go:435-451 | true exactly when every existing piece of the head block is complete |
| DownloadPolicy.WindowPieces | backend/torrent/client.go:528-530 | 30 MiB worth of pieces, at least 5 |
| DownloadPolicy.PriorityWindow | backend/torrent/client.go:505-536 | no window exactly when every piece of the file's range is complete or missing; otherwise the window starts at the first incomplete piece and ends at min(start + window, last piece) |
| DownloadPolicy.TranscodeThreshold | backend/torrent/client.go:418-431 | 20 MiB or 1 percent; 15 MiB or 0.3 percent above 5 GiB; 10 MiB or 0.1 percent above 15 GiB |
| DownloadPolicy.ThresholdMonotone | backend/torrent/client.go:418-431 | a larger file never needs more bytes or a larger percentage |
| DownloadPolicy.MinFileSize | backend/torrent/client.go:456-459 | the on-disk size to exceed is 8 MiB or 10 MiB, the smaller exactly for files above 10 GiB |
| DownloadPolicy.MinFileSizeMonotone | backend/torrent/client.go:456-459 | a larger file never needs a larger file on disk |
| DownloadPolicy.MinFileSizeBelowMinBytes | backend/torrent/client.go:418-459 | for every file size the on-disk size to exceed is below the bytes-downloaded threshold |
| DownloadPolicy.Progress | backend/torrent/client.go:408 | undefined for a zero-length file, otherwise between 0 and 100, and 100 when complete |
| DownloadPolicy.DownloadMonitor.constructor | backend/torrent/client.go:398-399 | headers not ready, transcoding not started, status downloading |
| DownloadPolicy.DownloadMonitor.Fail | backend/torrent/client.go:298-304 | the stream is marked "error" |
| DownloadPolicy.DownloadMonitor.Tick | backend/torrent/client.go:405-480 | records the progress; latches headersReady once the head block is complete; starts transcoding, and sets "transcoding", exactly when the headers are ready, it has not started, the status is "downloading", enough data has arrived, the file on disk is large enough and readable; reports completion when every byte is in |
| HlsOutput.TableAscending | backend/torrent/client.go:40-49 | the quality table lists strictly increasing heights |
| HlsOutput.TableMinHeight | backend/torrent/client.go:40-49 | no table entry is shorter than its first entry, 240p |
| HlsOutput.FilterMembers | backend/torrent/client.go:578-583 | the height filter keeps exactly the table levels no taller than the source |
| HlsOutput.FilterAllTaller | backend/torrent/client.go:578-583 | on an ascending table whose first level is taller than the source, nothing is kept |
| HlsOutput.FilterAscendingIsPrefix | backend/torrent/client.go:578-583 | on an ascending table the filter keeps a prefix, so table order is kept |
| HlsOutput.AvailableQualities | backend/torrent/client.go:577-587 | never empty; only table levels; for a source of at least 240 lines exactly the levels no taller than it; below that, 240p alone |
| HlsOutput.AvailableIsPrefix | backend/torrent/client.go:577-587 | the ladder is a non-empty prefix of the table and starts with 240p, the quality that unblocks the player |
| HlsOutput.ResolutionOrDefault | backend/torrent/client.go:959-966 | a zero width or height is replaced by 1920x1080 |
| HlsOutput.TrimSuffix | backend/torrent/client.go:921 | removes the suffix exactly when it is present |
| HlsOutput.BandwidthOfKilobits | backend/torrent/client.go:921-924 | a bitrate written as n followed by "k" gives BANDWIDTH n × 1000 |
| HlsOutput.TrackName | backend/torrent/client.go:893-896 | a rendition's NAME is its title, or the language's name when untitled |
| HlsOutput.Texts | backend/torrent/client.go:879-935 | one text per playlist line |
| HlsOutput.TextsAt | backend/torrent/client.go:879-935 | text k is the rendering of line k |
| HlsOutput.TextsConcat | backend/torrent/client.go:879-935 | rendering distributes over concatenation |
| HlsOutput.MediaLinesAt | backend/torrent/client.go:886-913 | the i-th EXT-X-MEDIA line renders track i with index i |
| HlsOutput.MediaSection | backend/torrent/client.go:883-916 | no media block for at most one track; otherwise one line per track followed by a blank line |
| HlsOutput.QualitySection | backend/torrent/client.go:919-935 | two lines per quality |
| HlsOutput.QualitySectionAt | backend/torrent/client.go:919-935 | quality k writes its EXT-X-STREAM-INF line at 2k and its URI at 2k + 1 |
| HlsOutput.GenerateMasterPlaylist | backend/torrent/client.go:866-941 | the written lines are exactly the rendering of the master playlist: header, version, the media block for several tracks, then each quality, naming the audio group exactly when there is a media block |
| HlsOutput.WriteMediaLines | backend/torrent/client.go:883-913 | the EXT-X-MEDIA loop writes, in track order, a line with DEFAULT and AUTOSELECT set to YES for a default track or track 0, the track name and a CHANNELS attribute for a positive channel count |
| HlsOutput.MediaStep | backend/torrent/client.go:886-913 | one more track adds that track's EXT-X-MEDIA line |
| HlsOutput.VariantStep | backend/torrent/client.go:919-935 | one more quality adds its tag and its URI |
| HlsOutput.WriteVariants | backend/torrent/client.go:919-935 | the variant loop writes, per quality in order, its EXT-X-STREAM-INF tag (BANDWIDTH, RESOLUTION, NAME and the AUDIO group when there is one) and "name/playlist.m3u8" |
| HlsOutput.MasterPlaylistHeader | backend/torrent/client.go:879-880 | the playlist starts with #EXTM3U and #EXT-X-VERSION:4 and has 2 + (tracks + 1 when several) + 2 × qualities lines |
| HlsOutput.MasterPlaylistMedia | backend/torrent/client.go:883-916 | with several tracks, line 2 + i renders track i and a blank line closes the block |
| HlsOutput.MasterPlaylistVariant | backend/torrent/client.go:919-935 | after the header and media block, quality k takes two lines: its tag, naming the audio group exactly when there are several tracks, and its URI |
| HlsOutput.FirstTrackIsDefault | backend/torrent/client.go:887-890 | the first audio rendition always carries DEFAULT=YES and AUTOSELECT=YES |
| HlsOutput.MediaTagMarked | backend/torrent/client.go:911-912 | a rendition line carries its DEFAULT and AUTOSELECT attributes side by side |
| HlsOutput.StreamInfEnding | backend/torrent/client.go:927-933 | a quality's tag ends with AUDIO="audio" exactly when the playlist has an audio group, and with its quoted name otherwise |
| HlsOutput.VariantText | backend/torrent/client.go:927-934 | a quality's two lines render as its EXT-X-STREAM-INF tag, with the audio group when there is one, and "name/playlist.m3u8" |
| FFmpegCommand.HwAccelOf | backend/torrent/client.go:747-754 | "vaapi", "nvenc" and "qsv" each select their accelerator; any other name encodes in software |
| FFmpegCommand.FlagName | backend/torrent/client.go:734-860 | every flag is written as a dash followed by at least one character |
| FFmpegCommand.UnrenderRender | backend/torrent/client.go:734-860 | reading the rendered arguments back as flag/value pairs gives the options in order |
| FFmpegCommand.AudioMaps | backend/torrent/client.go:764-766 | one "-map 0:a:i" option for each audio stream i, in order |
| FFmpegCommand.BuildFFmpegArgs | backend/torrent/client.go:727-863 | the arguments are "-y", the option groups in the order the function appends them (input tuning, hardware decoding, input, maps, encoder, keyframes, audio codec, per-track metadata, HLS muxer), then the playlist path |
| FFmpegCommand.RenderOptions | backend/torrent/client.go:734-860 | rendering the options renders the nine groups one after the other |
| FFmpegCommand.AudioMapStep | backend/torrent/client.go:764-766 | one more audio map adds "-map" and "0:a:i" |
| FFmpegCommand.AudioMapArgs | backend/torrent/client.go:762-771 | with several tracks, one explicit map per track; otherwise the single optional map "0:a?" |
| FFmpegCommand.MetadataStep | backend/torrent/client.go:842-847 | one more track adds its language pair, then its title pair if it has a title |
| FFmpegCommand.MetadataArgs | backend/torrent/client.go:842-847 | the metadata loop gives each track's language, then its title when it has one |
| FFmpegCommand.ParseCommand | backend/torrent/client.go:734-860 | a parsed command starts with "-y" and ends with the output path |
| FFmpegCommand.ParseRendered | backend/torrent/client.go:734-860 | a rendered option list framed by "-y" and the output reads back as those options and that output |
| FFmpegCommand.CommandRoundTrip | backend/torrent/client.go:727-863 | the whole command line reads back as exactly the specified options and the playlist path |
| FFmpegCommand.ValuesOfOptions | backend/torrent/client.go:734-860 | the values of any flag split over the nine option groups |
| FFmpegCommand.MetadataFlags | backend/torrent/client.go:842-847 | every metadata option is the metadata flag of an existing track |
| FFmpegCommand.EncoderFlags | backend/torrent/client.go:774-824 | every option of the encoder group takes an encoder flag |
| FFmpegCommand.EncoderOnly | backend/torrent/client.go:774-824 | an encoder flag gets its values from the encoder group alone |
| FFmpegCommand.TuningFlags | backend/torrent/client.go:774-824 | the encoder's own options never name a codec, and the rate and profile options never take the encoder's quality flag |
| FFmpegCommand.TuningQuality | backend/torrent/client.go:780-818 | each encoder's tuning gives the quality once, under that encoder's flag |
| FFmpegCommand.HeadValues | backend/torrent/client.go:778-815 | the head of the encoder group names the codec and only the codec and the filter |
| FFmpegCommand.CodecInGroup | backend/torrent/client.go:774-824 | the encoder group names the accelerator's codec once |
| FFmpegCommand.QualityInGroup | backend/torrent/client.go:774-824 | the encoder group gives the quality once, under the encoder's flag |
| FFmpegCommand.EncoderSelected | backend/torrent/client.go:774-824 | the whole command names exactly one video encoder: h264_vaapi, h264_nvenc, h264_qsv or libx264 |
| FFmpegCommand.RateControlSet | backend/torrent/client.go:780-818 | the quality is set once, as -qp CRF + 5 for VAAPI, -cq for NVENC, -global_quality for QSV and -crf in software |
| FFmpegCommand.InputGivenOnce | backend/torrent/client.go:756 | the input file is given once |
| FFmpegCommand.ValuesOfAll | backend/torrent/client.go:764-766 | when every option takes the flag, its values are the options' values in order |
| FFmpegCommand.AudioMapValues | backend/torrent/client.go:764-766 | the explicit maps select audio streams 0, 1, ... in order |
| FFmpegCommand.InputValues | backend/torrent/client.go:756-759 | the input group gives the input file and the map of the first video stream |
| FFmpegCommand.EveryAudioStream | backend/torrent/client.go:768-771 | without several tracks, one optional map takes every audio stream |
| FFmpegCommand.MapsSplit | backend/torrent/client.go:756-771 | the maps come from the video map and the audio maps alone |
| FFmpegCommand.MapsInOrder | backend/torrent/client.go:756-771 | the maps are, in order, the first video stream, then audio stream i for each of several tracks, or every audio stream |
| FFmpegCommand.MetadataValues | backend/torrent/client.go:842-847 | track i's metadata is its language, then its title exactly when it has one |
| FFmpegCommand.TrackMetadataValues | backend/torrent/client.go:843-846 | a track's metadata options give its language and title to its own flag and nothing to another |
| FFmpegCommand.TrackLabelled | backend/torrent/client.go:842-847 | in the whole command each track's metadata flag carries its language and title only |
| MetadataCache.ExtractInfoHash | backend/torrent/cache.go:73-96 | no hash for a link shorter than 60 characters; otherwise characters 20 to 60 when all are hexadecimal, else no hash; a hash found is 40 hexadecimal characters |
| MetadataCache.HexByte | backend/torrent/cache.go:69 | a byte is written as two hexadecimal digits |
| MetadataCache.HexEncode | backend/torrent/cache.go:69 | the encoding has two hexadecimal digits per byte |
| MetadataCache.HexEncodeAt | backend/torrent/cache.go:69 | byte i is written at offsets 2i and 2i + 1, high nibble first |
| MetadataCache.HexEncodeInjective | backend/torrent/cache.go:69 | distinct byte strings have distinct encodings |
| MetadataCache.HashMagnetLink | backend/torrent/cache.go:60-70 | the extracted info-hash (40 characters) when there is one, otherwise the 32-character hex encoding of the first 16 bytes of the link's SHA-256 digest |
| MetadataCache.SameKeySameIdentity | backend/torrent/cache.go:60-70 | two links share a key only when both carry the same info-hash, or neither carries one and their digests share the first 16 bytes |
| MetadataCache.GetLanguageName | backend/torrent/cache.go:396-429 | a known code maps to its name from the table; any other code is returned upper-cased; a non-empty code never gives an empty name |
| MetadataCache.NormaliseTracks | backend/torrent/cache.go:330-393 | no tracks when ffprobe fails; otherwise one track per stream, in order, whose index is its position, whose empty language becomes "und", whose empty title becomes the language's name, and of which only the first is the default |
| MetadataCache.SumAccessRemove | backend/torrent/cache.go:235-237 | the sum of the access counters may be taken in any order |
| MetadataCache.CleanupStep | backend/torrent/cache.go:212-217 | visiting one key deletes it exactly when it has expired and leaves the other entries as they were |
| MetadataCache.Cache.constructor | backend/torrent/cache.go:50-53 | the cache starts empty |
| MetadataCache.Cache.Get | backend/torrent/cache.go:99-119 | a hit exactly when the link's key is present; a hit returns the entry and records the access (counter incremented, last access now); a miss changes nothing |
| MetadataCache.AfterLookup | backend/torrent/cache.go:99-119 | a lookup keeps the keys, leaves every other entry as it was, and for a present key adds one access and sets the last access to now |
| MetadataCache.Cache.Set | backend/torrent/cache.go:122-140 | the entry is stored under the link's key, with that key as its info-hash, last access now, and creation time now only when it had none |
| MetadataCache.Cache.Cleanup | backend/torrent/cache.go:205-225 | exactly the entries not accessed for more than maxAge are deleted, the others are untouched, and the count returned is the number deleted |
| MetadataCache.Cache.Stats | backend/torrent/cache.go:228-244 | total is the number of entries, hits the sum of their access counters, and the average hits / total, or 0 when empty |
| StreamHandlers.JoinPath | backend/handlers/stream.go:90 | joins a directory and a name with exactly one slash between them, or gives the name alone for an empty directory |
| StreamHandlers.StartStreamHandler | backend/handlers/stream.go:24-44 | a missing or empty input is refused with 400 and changes neither the registry nor the cache; otherwise the normalised link is looked up in the cache and registered under the new id as StartStream does (added below capacity, one entry of earliest creation evicted at capacity, nothing else changed) and 200 answers with that id |
| StreamHandlers.BlankInputStartsEmptyLink | backend/handlers/stream.go:26-32 | an input made only of white space passes the required-field check and is normalised to an empty link |
| StreamHandlers.StopStreamHandler | backend/handlers/stream.go:255-267 | answers 200 in both cases, with the message telling whether the stream existed, after which the id is gone |
| StreamHandlers.MasterRoute | backend/handlers/stream.go:70 | a route match gives a non-empty, slash-free id whose playlist URL is the path |
| StreamHandlers.MasterRouteOfHlsUrl | backend/handlers/stream.go:70 | the playlist URL routes back to its id exactly when the id is non-empty and has no slash |
| StreamHandlers.GetStreamStatus | backend/handlers/stream.go:47-72 | 404 exactly for an unknown id; otherwise 200 with the record's id and status name, the sampler's statistics, and hlsUrl "/api/stream/" + id + "/master.m3u8" whatever the status |
| StreamHandlers.StatusUrlLeadsBack | backend/handlers/stream.go:50-70 | for a registered stream the URL handed out routes back to the same stream, and the status reported names its status |
| StreamHandlers.GetPlaylist | backend/handlers/stream.go:75-100 | 404 exactly for an unknown id; 503 exactly when the stream is neither ready nor transcoding or the master playlist does not exist; otherwise the playlist is served as application/vnd.apple.mpegurl without caching |
| StreamHandlers.NewStreamNotServed | backend/handlers/stream.go:84-87 | a stream just started is still downloading, so its playlist is refused with 503 |
| StreamHandlers.QualityStep | backend/handlers/stream.go:120-139 | an existing playlist is served; otherwise a stream in error gives 503, a passed deadline 404, a cancelled request no reply, and anything else keeps waiting |
| StreamHandlers.QualityRun | backend/handlers/stream.go:120-140 | the first iteration that decides gives the reply, and no earlier iteration decided |
| StreamHandlers.WaitForQualityPlaylist | backend/handlers/stream.go:119-140 | the loop's answer is the first decision over the iterations |
| StreamHandlers.GetQualityPlaylist | backend/handlers/stream.go:103-145 | 404 for an unknown id; otherwise the wait loop's answer with a deadline 90 seconds after the request |
| StreamHandlers.QualityRunFirst | backend/handlers/stream.go:120-140 | when iteration k is the first that decides, the loop answers with its decision at k |
| StreamHandlers.ErrorAnswers503 | backend/handlers/stream.go:125-128 | while the playlist is missing, a stream that turned to error is answered with 503 at that iteration |
| StreamHandlers.QualityWaitEnds | backend/handlers/stream.go:119-139 | when iterations are at least 500 ms apart, the loop has answered by the first iteration past the 90-second deadline |
| StreamHandlers.StableStep | backend/handlers/stream.go:202-251 | a missing file past the deadline gives 404, a stat error 500, a present but unstable file past the deadline 504, a cancelled request no reply; every give-up matches the observation that caused it |
| StreamHandlers.StepSettles | backend/handlers/stream.go:228-235 | an iteration declares the file stable exactly when the size equals the one being timed, the timer is running and the window has elapsed |
| StreamHandlers.StepTracking | backend/handlers/stream.go:209-239 | a missing file leaves the tracker alone, a new size resets the timer, and a repeated size starts the timer if it was not running |
| StreamHandlers.StableRun | backend/handlers/stream.go:202-251 | a settled wait ends on an observed size; a wait that gives up does so for the cause its reply names |
| StreamHandlers.WaitForStableFile | backend/handlers/stream.go:197-252 | the loop's outcome is the run of its iterations from an untracked start |
| StreamHandlers.ServeSegment | backend/handlers/stream.go:148-193 | 404 for an unknown id; otherwise the segment is served as video/mp2t cached for an hour once it is stable, or the wait's reply when it gives up |
| StreamHandlers.SettledHistory | backend/handlers/stream.go:228-239 | a settled wait either kept a timer started earlier or started one at a repeat of the final size, with no other size in between |
| StreamHandlers.SettledAfterRepeats | backend/handlers/stream.go:228-239 | the file is declared stable only after the same size is seen at least three times with no other size in between, and the window has elapsed since the first repeat |
| StreamHandlers.StableRunBy | backend/handlers/stream.go:202-251 | the loop has stopped by any iteration that is cancelled, fails to stat or is past the deadline |
| StreamHandlers.StableWaitEnds | backend/handlers/stream.go:198-251 | when iterations are at least 100 ms apart, the wait has returned by the first iteration past its deadline |
| StreamHandlers.QualityRunBy | backend/handlers/stream.go:120-140 | the loop has answered by any iteration that decides |
| ShakaPlayer.ClockOfZero | frontend/src/components/player/ShakaVideoPlayer.jsx:342 | zero seconds is shown as "0:00" |
| ShakaPlayer.TimeFields | frontend/src/components/player/ShakaVideoPlayer.jsx:343-345 | for a positive time the floored hour, minute and second fields equal the integer quotient and remainders of the whole seconds |
| ShakaPlayer.FormatTimeWhole | frontend/src/components/player/ShakaVideoPlayer.jsx:341-350 | formatting a non-negative time equals the clock text of its whole seconds, so fractions of a second are dropped |
| ShakaPlayer.ClockRoundTrip | frontend/src/components/player/ShakaVideoPlayer.jsx:346-349 | reading the clock text back as h:mm:ss or m:ss gives the number of whole seconds it was made from |
| ShakaPlayer.FormatTimeRoundTrip | frontend/src/components/player/ShakaVideoPlayer.jsx:341-350 | the displayed time of any non-negative position reads back as its whole seconds |
| ShakaPlayer.Heights | frontend/src/components/player/ShakaVideoPlayer.jsx:133 | the height of each track, position by position |
| ShakaPlayer.InsertDescending | frontend/src/components/player/ShakaVideoPlayer.jsx:133 | inserting into a strictly descending list without duplicates keeps it so and adds exactly the new value |
| ShakaPlayer.DistinctDescending | frontend/src/components/player/ShakaVideoPlayer.jsx:133 | the set of heights deduplicated and sorted from tallest: strictly descending, with exactly the heights given |
| ShakaPlayer.DescendingUnique | frontend/src/components/player/ShakaVideoPlayer.jsx:133 | two strictly descending lists with the same elements are equal, so the deduplicated ladder does not depend on how it is computed |
| ShakaPlayer.Labels | frontend/src/components/player/ShakaVideoPlayer.jsx:134 | each height becomes its label with a 'p' suffix, position by position |
| ShakaPlayer.Ladder | frontend/src/components/player/ShakaVideoPlayer.jsx:133-134 | the quality menu is never empty and starts with 'auto' |
| ShakaPlayer.ParseHeightLabel | frontend/src/components/player/ShakaVideoPlayer.jsx:322 | parseInt reads a height label back as its height |
| ShakaPlayer.LadderHeights | frontend/src/components/player/ShakaVideoPlayer.jsx:133-134 | every label after 'auto' names a height some track has, the labels are strictly descending by height, and every track's height is offered |
| ShakaPlayer.LabelsReadBack | frontend/src/components/player/ShakaVideoPlayer.jsx:134 | every label reads back as the height it was made from |
| ShakaPlayer.LadderIndexes | frontend/src/components/player/ShakaVideoPlayer.jsx:134 | after 'auto' the menu lists the labels of the distinct heights in order |
| ShakaPlayer.FindFirst | frontend/src/components/player/ShakaVideoPlayer.jsx:124 | Array.prototype.find: the first position whose track satisfies the predicate, or none when no track does |
| ShakaPlayer.Chosen | frontend/src/components/player/ShakaVideoPlayer.jsx:322-325 | a label with a number chooses a track exactly when some track has that height, and then the first track of that height; a label without a number chooses nothing |
| ShakaPlayer.OfferedQualitySelectable | frontend/src/components/player/ShakaVideoPlayer.jsx:133-134 | every quality the menu offers besides 'auto' selects a track whose label is that quality |
| ShakaPlayer.PlayerComponent.constructor | frontend/src/components/player/ShakaVideoPlayer.jsx:17-32 | the component starts with no engine, no bound source, the quality 'auto', the menu closed and ABR on |
| ShakaPlayer.PlayerComponent.Bind | frontend/src/components/player/ShakaVideoPlayer.jsx:52-59 | an initialisation starts exactly when there is a source and a video element, none is in flight and the source differs from the bound one; starting sets the flag |
| ShakaPlayer.PlayerComponent.ReplaceEngine | frontend/src/components/player/ShakaVideoPlayer.jsx:73-84 | the previous engine is destroyed and a new one, numbered after all earlier ones, is created; ABR is back on and no track is selected |
| ShakaPlayer.PlayerComponent.Complete | frontend/src/components/player/ShakaVideoPlayer.jsx:61-165 | as written: an unsupported browser changes nothing; otherwise the old engine is replaced; a failed attach leaves the new engine alive but unreferenced; a failed load keeps the engine and unbinds the source; a load binds the source and builds the menu; the flag is cleared on every path |
| ShakaPlayer.PlayerComponent.CompleteReleasing | frontend/src/components/player/ShakaVideoPlayer.jsx:61-165 | as intended: the same outcomes, except that an engine whose attach fails is destroyed, so no engine is ever leaked |
| ShakaPlayer.PlayerComponent.Destroy | frontend/src/components/player/ShakaVideoPlayer.jsx:43-48 | the referenced engine, if any, is destroyed and the reference cleared; without leaks no engine is left alive |
| ShakaPlayer.PlayerComponent.Cleanup | frontend/src/components/player/ShakaVideoPlayer.jsx:170-183 | the effect's cleanup destroys the referenced engine and unbinds the source |
| ShakaPlayer.PlayerComponent.ChangeQuality | frontend/src/components/player/ShakaVideoPlayer.jsx:312-330 | without an engine nothing changes; otherwise the label becomes the current quality and the menu closes; 'auto' turns ABR on, any other label turns it off and selects the first track of the label's height when there is one |
| ShakaPlayer.PlayerComponent.OnTracksChanged | frontend/src/components/player/ShakaVideoPlayer.jsx:131-135 | the menu is rebuilt as the ladder of the engine's tracks |
| ShakaPlayer.PlayerComponent.OnAdaptation | frontend/src/components/player/ShakaVideoPlayer.jsx:122-129 | the current quality becomes the label of the first active track, and stays when no track is active |
| ShakaPlayer.AttachFailureLeaks | frontend/src/components/player/ShakaVideoPlayer.jsx:84-87 | a failed attach followed by a successful retry of the same source leaves two engines alive, the first one unreferenced |
| ShakaPlayer.AttachFailureReleased | frontend/src/components/player/ShakaVideoPlayer.jsx:84-87 | with the corrected step the same run leaves only the engine in use alive |
| ShakaPlayer.StaleSourceWins | frontend/src/components/player/ShakaVideoPlayer.jsx:56-57 | a source that arrives while another is initialising is dropped, and the earlier source ends up bound |
| ShakaPlayer.VideoElement.SetCurrentTime | frontend/src/components/player/ShakaVideoPlayer.jsx:41 | a finite position is taken; a non-finite one throws and changes nothing |
| ShakaPlayer.VideoElement.SetVolumeFromSlider | frontend/src/components/player/ShakaVideoPlayer.jsx:285-291 | a slider value in [0, 1] becomes the volume, muting exactly at 0; any other value throws and changes nothing |
| ShakaPlayer.VideoElement.Seek | frontend/src/components/player/ShakaVideoPlayer.jsx:293-299 | with no duration nothing happens; otherwise the position becomes the clicked fraction of the bar times the duration, and a non-finite product changes nothing |
| ShakaPlayer.VideoElement.TogglePlay | frontend/src/components/player/ShakaVideoPlayer.jsx:269-277 | a paused element plays and a playing one pauses |
| ShakaPlayer.VideoElement.ToggleMute | frontend/src/components/player/ShakaVideoPlayer.jsx:279-283 | the muted flag flips |
| ShakaPlayer.VideoElement.ToggleFullscreen | frontend/src/components/player/ShakaVideoPlayer.jsx:301-310 | full screen is entered when not in it and left when in it |
| ShakaPlayer.ActionFor | frontend/src/components/player/ShakaVideoPlayer.jsx:356-393 | keys typed into an INPUT do nothing; a seek to tenths comes only from a single digit key, that digit |
| ShakaPlayer.ActionCaseInsensitive | frontend/src/components/player/ShakaVideoPlayer.jsx:358 | a key and its lower-case form give the same action |
| ShakaPlayer.DigitKeySeeks | frontend/src/components/player/ShakaVideoPlayer.jsx:389-391 | outside an INPUT, digit d seeks to d tenths of the duration |
| ShakaPlayer.ArrowKeys | frontend/src/components/player/ShakaVideoPlayer.jsx:372-387 | the arrows seek by 10 seconds back and forward and move the volume up and down |
| ShakaPlayer.HandleKey | frontend/src/components/player/ShakaVideoPlayer.jsx:353-395 | the key is consumed exactly when there is a video element and the key has an action; that action alone changes the element, with volume clamped to [0, 1] and a digit seek taken only when finite |
| PlayerPage.PollStep | frontend/src/pages/PlayerPage.jsx:50-74 | a poll that is cancelled, answers 404 or throws changes nothing, and any other poll records the reply; polling stops exactly after a cancellation, a 404 or a reply in error, and otherwise comes back after 1000 ms, or 3000 ms after a throw; the playlist URL is set only once, from a ready reply; the peak speed never falls and rises only to a reported speed |
| PlayerPage.Chain | frontend/src/pages/PlayerPage.jsx:46-77 | a run of polls stops at the first terminal poll and not before; a run that never stops uses every event |
| PlayerPage.ChainStopsAtTerminal | frontend/src/pages/PlayerPage.jsx:51-70 | polling has stopped by the first event that is terminal |
| PlayerPage.ChainKeepsHlsUrl | frontend/src/pages/PlayerPage.jsx:69 | once the playlist URL is set, no later poll changes it |
| PlayerPage.ChainPeak | frontend/src/pages/PlayerPage.jsx:60-63 | after a run the peak speed is at least the earlier peak and every speed reported, and is one of them |
| PlayerPage.PlayerPageState.constructor | frontend/src/pages/PlayerPage.jsx:13-21 | the page starts with no stream, no status, not loading, no error, no playlist URL and zero speeds and size |
| PlayerPage.PlayerPageState.PollStatus | frontend/src/pages/PlayerPage.jsx:50-74 | one poll through the state setters updates the page as the poll step says and returns the delay it schedules |
| PlayerPage.PlayerPageState.RunPoller | frontend/src/pages/PlayerPage.jsx:46-77 | running the poller over a sequence of replies leaves the page in the state of the run of polls, with the same count and stop |
| PlayerPage.PlayerPageState.BeginStart | frontend/src/pages/PlayerPage.jsx:79-89 | a blank link changes nothing and sends nothing; otherwise the page is reset, the player's engine is destroyed and the trimmed link is the request body |
| PlayerPage.PlayerPageState.Reset | frontend/src/pages/PlayerPage.jsx:81-83 | loading is set, everything else is cleared, and the player's engine is destroyed |
| PlayerPage.PlayerPageState.FinishStart | frontend/src/pages/PlayerPage.jsx:91-98 | loading ends; an accepted start records the stream id; a refusal shows the server's error or the default message; a request that fails shows its message |
| PlayerPage.PlayerPageState.HandleStop | frontend/src/pages/PlayerPage.jsx:103-109 | without a stream nothing happens; otherwise the engine is destroyed and the stream, status and playlist URL are cleared |
| PlayerPage.ChainUnfold | frontend/src/pages/PlayerPage.jsx:70-72 | a run of polls is one poll followed by the run from its new state, unless that poll stopped |
| PlayerPage.FormatSpeed | frontend/src/pages/PlayerPage.jsx:111-116 | MB/s exactly from 1 MB/s up; otherwise KB/s below 1024; green, yellow, orange and gray tints exactly for the four bands; the amount is the speed in its unit, or 0 when gray |
| PlayerPage.SpeedTintMonotone | frontend/src/pages/PlayerPage.jsx:111-116 | a faster speed never gets a lower tint |
| PlayerPage.FormatSize | frontend/src/pages/PlayerPage.jsx:118-121 | GB exactly from 1024 MB up, then the amount times 1024 is the size and is at least 1; otherwise MB with the size itself |
| PlayerPage.GetStatusInfo | frontend/src/pages/PlayerPage.jsx:123-131 | an unknown status falls back to the hourglass, its own text as caption and the gray gradient |
| PlayerPage.BackendStatusesKnown | frontend/src/pages/PlayerPage.jsx:124-129 | every status the backend reports has its own entry and none falls back to the hourglass |
| PlayerPage.StatusLabelsDistinct | frontend/src/pages/PlayerPage.jsx:124-129 | two backend statuses with the same caption are the same status |
| HomePage.InsertBy | frontend/src/pages/HomePage.jsx:123 | inserting into a list sorted from the highest key keeps it sorted and adds exactly the new element |
| HomePage.SortBy | frontend/src/pages/HomePage.jsx:122-123 | the comparator sort: a permutation of its input, ordered from the highest key down |
| HomePage.Take | frontend/src/pages/HomePage.jsx:124 | slice(0, n): the first n elements, or all of them when there are fewer |
| HomePage.Search | frontend/src/pages/HomePage.jsx:75-137 | a blank query does nothing; a failed catalogue request shows the search error; two empty catalogues show "no results"; otherwise the first twenty (or all) titles of both catalogues ordered from the highest rating, each title left out rated no higher than every title shown |
| HomePage.TakeOfSorted | frontend/src/pages/HomePage.jsx:122-124 | the first n of a sorted list are still sorted and are drawn from the list, and are the whole list when it is no longer than n |
| HomePage.AddonStreams | frontend/src/pages/HomePage.jsx:159-194 | an unknown add-on or a failed request gives nothing; every stream kept was listed by the add-on, is tagged with it and has an info hash or a magnet URL; every such stream listed is kept |
| HomePage.AddonStreamsCount | frontend/src/pages/HomePage.jsx:159-194 | a known add-on's listing gives each playable stream exactly as often as it is listed and nothing else |
| HomePage.AddonStreamsConcat | frontend/src/pages/HomePage.jsx:177-184 | an add-on's streams keep the order of its listing |
| HomePage.Tagged | frontend/src/pages/HomePage.jsx:177-184 | every kept stream is a listed, playable one tagged with the add-on, and no more are kept than were listed; every playable listed stream is kept |
| HomePage.TaggedCount | frontend/src/pages/HomePage.jsx:177-184 | filter then map keeps each playable stream exactly as often as it is listed, and no unplayable one |
| HomePage.TaggedConcat | frontend/src/pages/HomePage.jsx:177-184 | filter then map keeps the listing order: a concatenated listing gives the concatenated results |
| HomePage.QualityRank | frontend/src/pages/HomePage.jsx:207-214 | 4 exactly when the text mentions 4k or 2160p, 3 for 1080p without those, 2 for 720p without the higher ones, 0 exactly when no known quality is mentioned |
| HomePage.CompareIsScoreOrder | frontend/src/pages/HomePage.jsx:201-216 | the comparator orders streams by a score that puts every Brazuca stream above every other and then ranks by quality: it is negative exactly when the first scores higher and zero exactly on equal scores |
| HomePage.Ranked | frontend/src/pages/HomePage.jsx:199-218 | the first thirty (or all) streams gathered, ordered by descending score, each stream left out scoring no higher than every stream kept |
| HomePage.BrazucaFirst | frontend/src/pages/HomePage.jsx:203-204 | no other add-on's stream comes before a Brazuca stream in the ranked list |
| HomePage.HigherRankFirst | frontend/src/pages/HomePage.jsx:207-215 | among streams on the same side of the Brazuca split, a higher quality comes first |
| HomePage.ImdbIdOf | frontend/src/pages/HomePage.jsx:147-148 | the title's IMDB id, falling back to its id, is accepted exactly when it starts with "tt" |
| HomePage.FetchStreams | frontend/src/pages/HomePage.jsx:139-228 | without an IMDB id nothing is fetched and the id error is shown; otherwise the streams of the active add-ons are gathered in order and either none were found or the ranked list is shown |
| HomePage.GatheredFromActive | frontend/src/pages/HomePage.jsx:159-197 | every gathered stream is playable and was listed in the reply of an active, known add-on whose id it carries |
| HomePage.Encoded | frontend/src/pages/HomePage.jsx:236-238 | each tracker source URI-encoded, position by position |
| HomePage.PlayStream | frontend/src/pages/HomePage.jsx:230-248 | navigation happens exactly when the link built is non-empty, to the player with the link encoded as the magnet parameter |
| HomePage.PlayLinkCarriesHash | frontend/src/pages/HomePage.jsx:233-239 | for a stream with a 40-digit hex info hash the link is a magnet link from which the backend extracts that same hash |
| HomePage.Toggle | frontend/src/pages/HomePage.jsx:358-362 | an inactive add-on is appended at the end of the list; an active one is removed, every other entry kept as often as it occurs |
| HomePage.Without | frontend/src/pages/HomePage.jsx:360 | every occurrence of the add-on is removed and every other entry is kept as often as it occurs; a list without it is unchanged |
| HomePage.WithoutConcat | frontend/src/pages/HomePage.jsx:360 | the filter keeps the order of the remaining entries |
| HomePage.ToggleTwiceSameSet | frontend/src/pages/HomePage.jsx:358-362 | toggling an add-on twice restores the set of active add-ons |
| HomePage.ToggleTwiceInactive | frontend/src/pages/HomePage.jsx:358-362 | toggling an inactive add-on twice restores the list exactly |
| HomePage.ToggleKeepsNoDuplicates | frontend/src/pages/HomePage.jsx:358-362 | toggling never creates a duplicate entry |
| HomePage.ToggleTwiceMovesToEnd | frontend/src/pages/HomePage.jsx:42 | from the initial list, toggling brazuca twice moves it to the end, so the order of requests changes |

## Left out

- I/O is not modelled. This covers the torrent library (anacrolix/torrent), ffmpeg and ffprobe processes, the file system (`MkdirAll`, `RemoveAll`, `Create`, `Walk`, `os.Stat`), HTTP and JSON. Each is a parameter or an observation.
- Concurrency is not modelled: goroutines, mutexes, channels, tickers, `time.Sleep` and `setTimeout`. Each observation is taken as atomic. Delays are returned values.
- Time is an integer clock: nanoseconds in the registry and cache, milliseconds in the handlers and the poller. Each loop iteration reads the clock once.
- main.go and App.jsx are routing and server start-up, and are not part of this model.
- `detectHardwareAcceleration`, `canReadVideoFile` and the ffprobe command of `getVideoResolution` run processes. The accelerator is a parameter; only the 1920x1080 fallback of `getVideoResolution` is modelled.
- The transcoding driver in client.go is left out as process plumbing: `transcodeQuality`, the ready monitor, `countSegmentsInDir`, `CleanupAll` and `GetStats`.
- The metadata cache's JSON load and save are file I/O and are left out.
- `MetadataCache.Cache.Get`: the access update runs in a goroutine in the source; it is modelled as happening before `Get` returns.
- `StreamRegistry.Registry.StartStream`: the registry holds stream records as values, so aliasing through `*StreamInfo` pointers shared with goroutines is not captured.
- `MetadataCache.ExtractInfoHash`: Go slices strings by byte and the model by character. The two agree on ASCII input only.
- `Common.Lower` and `Common.Upper`: they map ASCII letters only, where Go's `ToLower`/`ToUpper` and JavaScript's `toLowerCase` map all of Unicode.
- `DownloadPolicy.BaseName`: a path ending in a slash gives "" and the empty path gives "", where `filepath.Base` strips trailing slashes and answers ".". The paths a torrent lists never end in a slash and are never empty.
- `DownloadPolicy.ApplySelection`: the file name it records is `BaseName`'s, so for those two paths it differs from `filepath.Base` in the same way.
- `Common.ScanNat`: it reads digits from the first character on and accepts no sign, where JavaScript's `parseInt` and `Sscanf` with `%d` accept a leading `+` or `-`, and `Sscanf` also skips leading white space (`ShakaPlayer.ParseQuality` skips it before `ScanNat`, as `parseInt` does). Every text it is given here (quality labels the player builds, bitrates from the quality table) starts with a digit.
- `StreamHandlers.JoinPath`: it joins with one slash and does not clean `..` or repeated slashes as `filepath.Join` does.
- Speeds, sizes, times and volumes are `real`. Floating-point rounding, `toFixed` and ffmpeg's `%d` rendering of floats are not modelled.
- `PlayerPage.FormatSpeed` and `PlayerPage.FormatSize`: they return the amount as a number, not the `toFixed` text.
- `PlayerPage.GetStatusInfo`: only the four table keys are known; inherited `Object.prototype` keys such as "constructor" are not modelled.
- `PlayerPage.PollStep`: a `downloaded` field that is JSON null is treated like an absent field.
- `PlayerPage.PlayerPageState.RunPoller`: the effect restarts when `hlsUrl` or `peakSpeed` change, cancelling the pending poll and polling at once. The model runs one chain of polls and does not capture that restart.
- The page-unload DELETE (`sendBeacon`), the stream auto-start effect and the loading flags are plumbing around `startStream` and are not modelled.
- Shaka Player internals are left out: configuration values, error and buffering listeners, autoplay and `onReady`. Engines are abstract numbered handles.
- `ShakaPlayer.PlayerComponent.Cleanup`: the asynchronous destroy is modelled as completing at once.
- The time-update, duration and fullscreen-change listeners, the buffered percentage, the controls-visibility timer and `changePlaybackRate` only project element state onto the screen, and are not modelled.
- `ShakaPlayer.HandleKey`: the media element clamps `currentTime` to [0, duration]; the arrow seeks here add plus or minus 10 seconds without clamping.
- `HomePage.SortBy` and `HomePage.Ranked`: they do not state that equal keys keep their input order, which `Array.prototype.sort` guarantees.
- `HomePage.Search`: a rating that `parseFloat` reads as NaN counts as 0 in the comparator; the model takes ratings as already-read reals.
- The add-on request URL (movie or series), its 10-second timeout and the per-add-on loading flags are not modelled. A timeout counts as a failed reply.
- `parseStreamTitle` is regex-based display formatting, and `fetchTrending` only loads the start page. Neither is modelled.

## Findings

| source | as written | input that shows it | evidently intended | confidence | as-written member | corrected member |
|---|---|---|---|---|---|---|
| frontend/src/components/player/ShakaVideoPlayer.jsx:84-87 | the new engine is stored in `playerRef` only after `attach` succeeds, and the catch block at 158-164 does not destroy it | bind a source whose `attach` throws, then bind the same source again and load it: engine 0 is still alive, unreferenced, beside engine 1 | destroy an engine whose attach failed, so that at most one engine is ever alive | not executed | ShakaPlayer.PlayerComponent.Complete, ShakaPlayer.AttachFailureLeaks | ShakaPlayer.PlayerComponent.CompleteReleasing, ShakaPlayer.AttachFailureReleased |
