# musedash-ripper core, modelled in Dafny

musedash-ripper exports the soundtrack of the game Muse Dash. It reads the game's config
bundles, builds one `Song` per track, corrects the songs with a fixed table of remaps and
optionally writes `songs.csv`. It then prefixes every album name and sets the genre. Finally it
extracts each song's music and cover, tags the music and writes both under the output
directory. This project models that core, `src/musedash_ripper/core.py`, and proves what it
promises.

The modules follow the structure of `core.py`:

- `Outcomes` (outcomes.dfy): `Option`, and a `Result` whose `RipError` has one constructor per
  exception the code raises, plus `PayloadMismatch` (see "## Left out"). Python exceptions become
  `Err` values that `:-` propagates.
- `Strings` (strings.dfy): the Python string operations used. These are `str.replace`,
  `str.lstrip`, `str.lower`, `str.startswith`/`endswith`, `int()` and `str()` of an integer.
- `Bundles` (bundles.dfy): the game data as the ripper sees it. It covers `find_with_prefix`
  over a directory listing, `find_asset` over a bundle's objects, and `load_json`.
- `Songs` (songs.dfy): the `Song` dataclass as a class whose fields are updated in place, with
  `SongRecord` as its value. It holds `fix_songs` and `normalize_songs`, each as a loop method
  proved against a per-song function.
- `Ordering` (ordering.dfy): `sorted(..., key=(album_number, track_number))` as a stable
  insertion sort. It is proved sorted, a permutation, and order-preserving among equal keys.
- `Config` (config.dfy): `parse_config`. The nested loops are methods, proved equal to a
  specification built from `AlbumSongs`, `TrackSongs` and `MakeSong`, the sort and the
  progress reports. The properties of the parsed list are proved on that specification.
- `Export` (export.dfy): `normalize_path_segment`, the output path layout, the rows of
  `songs_to_csv` and the tags of `embed_metadata`. It also holds the asset lookups of
  `extract_music` and `extract_cover`, and the export of one song.
- `Ripper` (rip.dfy): `rip`, step by step over `Song` objects, proved equal to `RipSpec`. The
  lemmas fix the order of the passes: songs.csv comes from fixed, not yet normalized songs. They
  also give what is exported and when the loop stops.

The game installation is a value `GameData` with three parts:

- the file names of the `StreamingAssets/aa/StandaloneWindows64` directory;
- the objects UnityPy loads from each bundle (type name, name, payload);
- the records `json5.loads` yields for each text it accepts.

The stop flag is modelled as `stopAt`, the number of the first check at which it is seen set.
Check 0 is the check before the loop; check k is the one after song k.

## Behaviour of the code worth noting

- A localized per-album track list of another length than the base list is an assertion
  failure (`core.py:158`).
- The music bundle prefix is `"music_assets_" + music_name + "_"` (`core.py:192`).
- `normalize_songs` is not idempotent: it prefixes again on every run (`core.py:81`).
- `fix_songs` is not idempotent either: removing `_music` can create a new `_music`.

## Model

| member | source | states |
|---|---|---|
| Bundles.FindWithPrefixUnique | src/musedash_ripper/core.py:99-103 | when exactly one directory entry starts with the prefix, wherever it is, that entry is returned |
| Bundles.FindWithPrefixAmbiguous | src/musedash_ripper/core.py:99-103 | two entries starting with the prefix raise BundleNotUnique; the first match is never picked |
| Bundles.FindWithPrefixMissing | src/musedash_ripper/core.py:101-102 | no entry starting with the prefix raises BundleNotUnique |
| Bundles.FindWithPrefixSound | src/musedash_ripper/core.py:99-103 | a returned name is a directory entry that starts with the prefix, and no other entry does |
| Bundles.FirstAssetIndex | src/musedash_ripper/core.py:88-93 | the index found holds an object of the wanted type and name and no earlier one does; None exactly when no object matches |
| Bundles.FindAsset | src/musedash_ripper/core.py:87-96 | the scan returns the first object whose type and name match; with none it raises AssetNotFound when raise_on_not_found holds and returns None otherwise |
| Bundles.LoadJson | src/musedash_ripper/core.py:106-110 | an unreadable bundle is an error and a missing text asset is AssetNotFound; it succeeds exactly when the first TextAsset named asset_name holds text json5 accepts, and then returns that text's records |
| Bundles.ReadJson | src/musedash_ripper/core.py:106-110 | opening the bundle, find_asset with raising and parsing give what LoadJson specifies |
| Songs.Song.constructor | src/musedash_ripper/core.py:44-55 | a new Song holds exactly the given field values |
| Songs.FixSong | src/musedash_ripper/core.py:58-75 | the per-song correction changes only cover_name, asset_name and album_name |
| Songs.FixOne | src/musedash_ripper/core.py:60-75 | the loop body leaves the song with FixSong of its old value |
| Songs.FixSongs | src/musedash_ripper/core.py:58-75 | every Song of the list, in place and in list order, ends up with FixSong of its old value |
| Songs.FixSongChaosAsset | src/musedash_ripper/core.py:61-64 | the asset name chaos_glitch becomes chaos whatever the cover name is; the cover name is fixed on its own |
| Songs.FixSongChaosCover | src/musedash_ripper/core.py:61-62 | the cover name chaos_glitch_cover becomes chaos_cover for any asset name that is not fm_17314_sugar_radio and holds no _music, chaos_glitch included |
| Songs.FixSongEverything | src/musedash_ripper/core.py:66-67 | a trailing "Everyting" after a part without 'E' (as in "Cute is Everyting") is corrected to "Everything" |
| Songs.FixSongSugarRadio | src/musedash_ripper/core.py:69-75 | fm_17314_sugar_radio, with or without a trailing _music, takes qu_jianhai_de_rizi's asset and cover |
| Songs.StripTrailingMusic | src/musedash_ripper/core.py:70 | a trailing _music is dropped from a name in which no '_' is followed by 'm' |
| Songs.FixSongUnchanged | src/musedash_ripper/core.py:58-75 | a song outside the table, without "Everyting" and without "_music", is left unchanged |
| Songs.FixSongNotIdempotent | src/musedash_ripper/core.py:70 | asset "_mu_musicsic" becomes "_music" on the first pass and "" on a second pass |
| Songs.NormalizeSong | src/musedash_ripper/core.py:78-84 | album_name gets the "Muse Dash - " prefix and genre becomes "Video Games"; nothing else changes |
| Songs.NormalizeSongs | src/musedash_ripper/core.py:78-84 | every Song of the list, in place, ends up with NormalizeSong of its old value |
| Songs.NormalizeSongNotIdempotent | src/musedash_ripper/core.py:81 | normalizing twice differs from normalizing once |
| Ordering.Insert | src/musedash_ripper/core.py:187 | inserting a song adds exactly that song to the multiset |
| Ordering.InsertSorted | src/musedash_ripper/core.py:187 | inserting into a sorted list keeps it sorted by (album_number, track_number) |
| Ordering.SortByKeySorted | src/musedash_ripper/core.py:187 | the sort's result is ordered by (album_number, track_number) |
| Ordering.SortByKeyPermutation | src/musedash_ripper/core.py:187 | the sort's result is a permutation of its input |
| Ordering.WithKeyInsert | src/musedash_ripper/core.py:187 | insertion puts a song after every song with the same key |
| Ordering.SortByKeyStable | src/musedash_ripper/core.py:187 | for every key, the songs with that key keep their input order, as Python's stable sort does |
| Config.LanguageSuffix | src/musedash_ripper/core.py:34-41 | a suffix exists exactly for the five language names of the table, and it is the table's value |
| Config.Overlay | src/musedash_ripper/core.py:134 | after dict.update every localized key has the localized value and every other key its base value |
| Config.OverlayEmpty | src/musedash_ripper/core.py:128 | overlaying {} leaves the record unchanged |
| Config.EmptyOverlays | src/musedash_ripper/core.py:128 | [{}] * n is n empty records |
| Config.AlbumNumberOf | src/musedash_ripper/core.py:176 | any run of A/L/B/U/M characters before the digits is stripped, so the album number is the number that follows |
| Config.MakeSong | src/musedash_ripper/core.py:166-183 | a missing cover is a KeyError and a cover without _cover fails the assertion; a built song has asset_name + "_cover" == cover, the given track number and total, the parsed album number and the entry's fields |
| Config.MakeSongBuilds | src/musedash_ripper/core.py:166-183 | an entry with a cover ending in _cover, a name, an author and a music name, in an album with a title and a number int() accepts, always gives a Song |
| Config.MakeSongBadAlbumNumber | src/musedash_ripper/core.py:166-176 | once the cover, name and author are present, a jsonName that int() rejects after lstrip("ALBUM") is the error |
| Config.AlbumSongs | src/musedash_ripper/core.py:136-138 | an album without jsonName is a KeyError; an album is skipped exactly when its jsonName is empty |
| Config.TrackSongsShape | src/musedash_ripper/core.py:162-184 | an album gives one song per track, numbered 1.. with track_total = len(entry_json), each well formed and with the album's number |
| Config.TrackSongsOk | src/musedash_ripper/core.py:162-184 | when each of the first n tracks gives a Song on its own, the first n tracks give their songs |
| Config.TrackSongsBuild | src/musedash_ripper/core.py:162-184 | an album with a title and a parseable number whose overlaid track entries are all buildable gives one song per track |
| Config.GatherTrackSongs | src/musedash_ripper/core.py:162-184 | taking the tracks' own outcomes in order and stopping at the first error gives exactly the album's songs or its error |
| Config.LoadAlbumLists | src/musedash_ripper/core.py:118-128 | the album list and its overlays have equal length; with no language every overlay is {} |
| Config.LoadTrackLists | src/musedash_ripper/core.py:141-160 | an album's track list and its overlays have equal length; with no language every overlay is {} |
| Config.ReadAlbumLists | src/musedash_ripper/core.py:114-128 | the opening block gives what LoadAlbumLists specifies |
| Config.ReadTrackLists | src/musedash_ripper/core.py:141-160 | the per-album loading block gives what LoadTrackLists specifies |
| Config.BuildTrack | src/musedash_ripper/core.py:165-184 | the loop body overlays track j's entries and builds exactly that track's own outcome |
| Config.AppendTrackSongs | src/musedash_ripper/core.py:162-184 | the inner loop appends the tracks' songs in track order, or returns the error of the first track that fails |
| Config.AppendAlbumSongs | src/musedash_ripper/core.py:133-184 | one album iteration skips the album, appends its songs, or raises, as AlbumSongs says |
| Config.CollectAlbums | src/musedash_ripper/core.py:131-186 | the album loop accumulates exactly what Collect specifies |
| Config.ParseConfig | src/musedash_ripper/core.py:113-187 | parse_config's nested loops and sort return what ParseConfigSpec specifies |
| Config.AlbumSongsShape | src/musedash_ripper/core.py:136-184 | a kept album gives as many well-formed songs as its track list has entries; a skipped one gives none |
| Config.CollectSongs | src/musedash_ripper/core.py:131-184 | every accumulated song is well formed, and their number is the sum of the kept albums' track counts |
| Config.CollectReported | src/musedash_ripper/core.py:132-186 | progress is reported in increasing album order, once for each album that gave songs and for no other |
| Config.ParseConfigReported | src/musedash_ripper/core.py:132-186 | parse_config reports progress exactly for the albums with a non-empty jsonName, in increasing order |
| Config.ParseConfigResult | src/musedash_ripper/core.py:131-187 | the result is sorted by (album_number, track_number), is a stable permutation of the accumulated songs, is all well formed, and has as many songs as the kept albums have tracks |
| Config.NoLanguageNoOverlay | src/musedash_ripper/core.py:127-128 | with no language, or an unknown one, every album record is used as loaded |
| Config.AlbumListsLengthMismatch | src/musedash_ripper/core.py:126 | a localized album list of another length fails parse_config with the length assertion |
| Config.TrackListsLengthMismatch | src/musedash_ripper/core.py:158 | a localized track list of another length fails with the length assertion |
| Export.Sanitized | src/musedash_ripper/core.py:249-252 | the length is kept; each illegal character becomes '_' and every other character stays |
| Export.NormalizePathSegment | src/musedash_ripper/core.py:249-252 | the nine successive str.replace calls give Sanitized(path) |
| Export.SanitizedClean | src/musedash_ripper/core.py:28 | the result holds none of <>:"/\\\|?* |
| Export.SanitizedKeepsLegal | src/musedash_ripper/core.py:249-252 | a name without illegal characters is unchanged |
| Export.SanitizedIdempotent | src/musedash_ripper/core.py:249-252 | normalizing twice equals normalizing once |
| Export.SanitizedNotInjective | src/musedash_ripper/core.py:249-252 | "A:B" and "A_B" give the same segment |
| Export.MusicLayout | src/musedash_ripper/core.py:317-321 | the music file is out/album/title.ogg with album directories and out/title.ogg without them |
| Export.CoverLayout | src/musedash_ripper/core.py:324-331 | the cover file is out/covers/album/title.png with album directories and out/covers/title.png without them |
| Export.PathsCollide | src/musedash_ripper/core.py:312-321 | two songs of one album titled "A:B" and "A_B" are written to the same file |
| Export.CsvRow | src/musedash_ripper/core.py:259-265 | a row has one cell per header field |
| Export.CsvRowColumns | src/musedash_ripper/core.py:255-265 | the k-th cell of a row is the value dataclasses.asdict gives under the k-th header field, so every cell sits in its own column |
| Export.CsvRowRoundTrip | src/musedash_ripper/core.py:259-265 | reading a row back gives the song without its genre |
| Export.CsvTable | src/musedash_ripper/core.py:259-265 | the table is the genre-less header followed by one row per song, in order |
| Export.SongsToCsv | src/musedash_ripper/core.py:255-265 | the writer emits the BOM, the header, then each song's row in list order |
| Export.Tags | src/musedash_ripper/core.py:222-228 | title, artist, album, tracknumber and tracktotal are always set, and genre exactly when the song has one |
| Export.TagsRoundTrip | src/musedash_ripper/core.py:222-226 | the tags give back the title, artist, album and both track numbers |
| Export.EmbedMetadata | src/musedash_ripper/core.py:214-246 | tagging succeeds exactly when the cover is RGBA, and then sets Tags(song) |
| Export.MusicClip | src/musedash_ripper/core.py:190-202 | the music is the first AudioClip named music_name in the one bundle starting with music_assets_<music_name>_ and holds exactly one sample, and such a clip is always returned; no unique bundle, no such clip and another sample count raise BundleNotUnique, AssetNotFound and SampleCountNotOne |
| Export.CoverMode | src/musedash_ripper/core.py:205-211 | the mode is that of the first Texture2D named cover_name in the one bundle starting with song_<asset_name>_assets_all_; no unique bundle or no such texture raise BundleNotUnique and AssetNotFound |
| Export.ExtractMusic | src/musedash_ripper/core.py:190-202 | extract_music through find_asset gives what MusicClip specifies |
| Export.ExtractCover | src/musedash_ripper/core.py:205-211 | extract_cover through find_asset gives what CoverMode specifies |
| Export.ExportSongShape | src/musedash_ripper/core.py:312-333 | a song is exported exactly when its music, its cover and the RGBA check succeed; it then goes to its music (and cover) path with its own tags |
| Ripper.ExportPrefixShape | src/musedash_ripper/core.py:310-336 | songs are exported in list order; the loop ends at the first failing song and keeps the ones before it |
| Ripper.ExportPrefixAfterError | src/musedash_ripper/core.py:310-316 | once a song has failed, later songs change nothing |
| Ripper.Reached | src/musedash_ripper/core.py:307-308 | the loop reaches the stop check's number of songs, or all songs when the flag is never seen |
| Ripper.ExportStageShape | src/musedash_ripper/core.py:310-336 | the export stage writes each song it reaches to that song's paths with its tags; it reaches every song up to the stop unless one fails, and then that song's own error ends it |
| Ripper.CsvHoldsFixedSongs | src/musedash_ripper/core.py:295-301 | songs.csv has one row per parsed song, holding the song as fix_songs left it, before normalization |
| Ripper.ExportedAreNormalized | src/musedash_ripper/core.py:302-316 | every exported file is tagged with "Muse Dash - " + the fixed album name and with the genre "Video Games" |
| Ripper.NormalizedTags | src/musedash_ripper/core.py:302-316 | exporting normalized songs tags each file with "Muse Dash - " + the song's album name and with the genre "Video Games" |
| Ripper.RipExportsAll | src/musedash_ripper/core.py:310-338 | without a stop and without an error every parsed song is exported, in sorted order, to its normalized path |
| Ripper.RipStops | src/musedash_ripper/core.py:307-308 | a stop seen at check k ends the rip after at most k songs, and after exactly min(k, n) songs when nothing fails |
| Ripper.ExportOne | src/musedash_ripper/core.py:311-333 | the loop body for one song gives what ExportSong specifies |
| Ripper.ExportSongs | src/musedash_ripper/core.py:310-336 | the export loop with a stop check after each song gives ExportPrefix of the songs' outcomes |
| Ripper.ExportAll | src/musedash_ripper/core.py:307-336 | the stop check before the loop plus the loop give ExportStage |
| Ripper.NewSongs | src/musedash_ripper/core.py:172-184 | one fresh Song per parsed song, no object twice |
| Ripper.FixedSongs | src/musedash_ripper/core.py:295 | the fresh Songs hold the parsed songs as fix_songs leaves them |
| Ripper.PrepareSongs | src/musedash_ripper/core.py:295-302 | fix_songs, then songs.csv from the fixed songs when asked, then normalize_songs |
| Ripper.Rip | src/musedash_ripper/core.py:268-338 | rip checks for MuseDash.exe, parses, fixes, writes the CSV, normalizes and exports, as RipSpec specifies |

## Left out

- UnityPy, json5 and fsb5 are not modelled. A bundle is the list of objects UnityPy would load,
  and a text asset is the record list json5 would return. An AudioClip is the number of samples
  fsb5 finds. The Ogg rebuild and the audio bytes are not modelled.
- Export.EmbedMetadata: models the tag map and the RGBA assertion only. The PNG encoding, the
  METADATA_BLOCK_PICTURE block with its base64 text, and the image size and depth are not
  modelled.
- Bundles.FindWithPrefix: glob is modelled as a case-sensitive prefix match over the directory
  listing. Wildcard characters in the prefix, hidden files and Windows case-insensitivity are
  left out.
- Export.MusicPath: os.path.join is modelled with POSIX semantics. Windows drive letters and
  backslash separators are left out.
- Strings.ParseInt: accepts an optional sign and ASCII digits only. `int()` also accepts
  surrounding whitespace, underscores and non-ASCII digits, and those are left out.
- Strings.Lower: lowers ASCII letters only.
- Progress callbacks and their floating-point percentages are not modelled. Only the album
  numbers at which parse_config reports progress are kept.
- Logging, `os.makedirs` and every file write are left out. The model records the paths
  written, the CSV table and the tags.
- CSV quoting and escaping by csv.DictWriter are left out. A row is the list of its cells.
- Ripper.Rip: the stop flag is a parameter (`stopAt`) fixed before the rip, not a flag set by
  another thread.
- Ripper.Rip: the code builds Song objects inside parse_config. The model builds SongRecord
  values there and allocates one Song per value before fix_songs. Nothing else holds those
  objects in between, so the passes see the same list.
- Config.Overlay: `album_entry.update` also mutates the loaded JSON list in place. Nothing reads
  that list again, so the model overlays values.
- Every config field the ripper reads is assumed to be a string (`Record` maps names to
  strings). JSON numbers, lists and null are not represented, so a null `jsonName`, which
  core.py:136-138 would skip as falsy, cannot occur in the model.
- PayloadMismatch: an error of the model only. An object's type name and payload are separate
  fields, so a TextAsset, AudioClip or Texture2D may hold the wrong kind of payload, which
  UnityPy never yields. Reading such an object gives PayloadMismatch.
- num_albums (core.py:305) only feeds a log line, so it is left out.

