/**
 * parse_config: loads the base album list and the per-album track lists (and their localized
 * counterparts when a language is chosen), overlays localized records onto base records,
 * skips albums without a jsonName, builds one song per track and sorts the result by
 * (album_number, track_number).
 *
 * The spec functions (LoadAlbumLists, Collect, AlbumSongs, TrackSongs, MakeSong) describe the
 * result; the method ParseConfig runs the source's nested loops and is proved equal to them.
 */
module Config {
  import opened Outcomes
  import opened Strings
  import opened Bundles
  import opened Songs
  import opened Ordering

  /** LANGUAGES: the language names offered to the user and the suffix of their config bundles. */
  const Languages: map<string, string> := map[
    "Chinese Simplified" := "ChineseS",
    "Chinese Traditional" := "ChineseT",
    "English" := "English",
    "Japanese" := "Japanese",
    "Korean" := "Korean"]

  /** `LANGUAGES.get(language)`: no language, or a name not in the table, means no localization. */
  function LanguageSuffix(language: Option<string>): (r: Option<string>)
    ensures r.Some? <==> language.Some? && language.value in Languages
    ensures r.Some? ==> r.value == Languages[language.value]
  {
    match language
    case Some(name) => if name in Languages then Some(Languages[name]) else None
    case None => None
  }

  // ---------------------------------------------------------------- bundle names

  const AlbumsPrefix := "config_others_assets_albums_"

  function LocalizedAlbumsPrefix(suffix: string): string {
    "config_" + Lower(suffix) + "_assets_albums_" + Lower(suffix) + "_"
  }

  function EntryPrefix(jsonName: string): string {
    "config_others_assets_" + Lower(jsonName) + "_"
  }

  function LocalizedEntryPrefix(jsonName: string, suffix: string): string {
    "config_" + Lower(suffix) + "_assets_" + Lower(jsonName) + "_" + Lower(suffix) + "_"
  }

  // ---------------------------------------------------------------- records

  /** `base.update(localized)`: localized fields win, all other base fields stay. */
  function Overlay(base: Record, localized: Record): (r: Record)
    ensures r.Keys == base.Keys + localized.Keys
    ensures forall k :: k in localized ==> r[k] == localized[k]
    ensures forall k :: k in base && k !in localized ==> r[k] == base[k]
  {
    base + localized
  }

  /** With no language chosen the overlay is `{}` and the record is unchanged. */
  lemma OverlayEmpty(base: Record)
    ensures Overlay(base, map[]) == base
  {
  }

  /** `[{}] * n`: the overlays used when no language is chosen. */
  function EmptyOverlays(n: nat): (r: seq<Record>)
    ensures |r| == n && forall i :: 0 <= i < n ==> r[i] == map[]
  {
    seq(n, _ => map[])
  }

  // ---------------------------------------------------------------- one song

  /** `int(jsonName.lstrip("ALBUM"))`: strip leading A, L, B, U and M characters, then parse. */
  function AlbumNumber(jsonName: string): Result<int> {
    match ParseInt(LStrip(jsonName, "ALBUM"))
    case Some(n) => Ok(n)
    case None => Err(BadAlbumNumber(jsonName))
  }

  /**
   * Any run of A, L, B, U, M characters before the number is stripped, not only the prefix
   * "ALBUM": "ALBUM12", "MUBLA12" and "12" all give album 12.
   */
  lemma AlbumNumberOf(letters: string, n: nat)
    requires forall i :: 0 <= i < |letters| ==> letters[i] in "ALBUM"
    ensures AlbumNumber(letters + NatToString(n)) == Ok(n)
  {
    var d := NatToString(n);
    LStripPrefix(letters, d, "ALBUM");
    DigitsNotStripped(d);
    IntToStringRoundTrip(n);
    assert IntToString(n) == d;
  }

  /** A number's leading digit is none of A, L, B, U, M, so lstrip stops there. */
  lemma DigitsNotStripped(d: string)
    requires d != [] && IsDigit(d[0])
    ensures LStrip(d, "ALBUM") == d
  {
    assert d[0] !in "ALBUM";
  }

  /** A track entry with every key a Song is built from, and a cover name ending in "_cover". */
  predicate Buildable(entry: Record) {
    "cover" in entry && EndsWith(entry["cover"], "_cover") && "name" in entry && "author" in entry && "music" in entry
  }

  /**
   * The Song built for one (overlaid) track entry, evaluating the entry the way the source does:
   * cover first (KeyError, then the suffix assertion), then name, author, the album number,
   * the album title and music.
   */
  function MakeSong(album: Record, jsonName: string, entry: Record, trackNumber: nat, trackTotal: nat)
    : (r: Result<SongRecord>)
    ensures "cover" !in entry ==> r == Err(MissingKey("cover"))
    ensures "cover" in entry && !EndsWith(entry["cover"], "_cover") ==> r == Err(CoverSuffixMissing(entry["cover"]))
    ensures r.Ok? ==> r.value.assetName + "_cover" == r.value.coverName == entry["cover"]
    ensures r.Ok? ==> r.value.trackNumber == trackNumber && r.value.trackTotal == trackTotal
    ensures r.Ok? ==> AlbumNumber(jsonName) == Ok(r.value.albumNumber)
    ensures r.Ok? ==> "name" in entry && "author" in entry && "title" in album && "music" in entry
    ensures r.Ok? ==> r.value.title == entry["name"] && r.value.artist == entry["author"]
                      && r.value.albumName == album["title"] && r.value.musicName == entry["music"]
                      && r.value.genre == None
  {
    if "cover" !in entry then Err(MissingKey("cover"))
    else
      var cover := entry["cover"];
      if !EndsWith(cover, "_cover") then Err(CoverSuffixMissing(cover))
      else
        var assetName := cover[..|cover| - |"_cover"|];
        assert assetName + "_cover" == cover;
        if "name" !in entry then Err(MissingKey("name"))
        else if "author" !in entry then Err(MissingKey("author"))
        else
          var albumNumber :- AlbumNumber(jsonName);
          if "title" !in album then Err(MissingKey("title"))
          else if "music" !in entry then Err(MissingKey("music"))
          else Ok(SongRecord(entry["name"], entry["author"], albumNumber, album["title"],
                             trackNumber, trackTotal, assetName, entry["music"], cover, None))
  }

  /** A buildable entry of an album with a title and a parseable number always gives a Song. */
  lemma MakeSongBuilds(album: Record, jsonName: string, entry: Record, trackNumber: nat, trackTotal: nat)
    requires Buildable(entry) && "title" in album && AlbumNumber(jsonName).Ok?
    ensures MakeSong(album, jsonName, entry, trackNumber, trackTotal).Ok?
  {
  }

  /** Once the cover, name and author are present, an album number int() rejects is the error. */
  lemma MakeSongBadAlbumNumber(album: Record, jsonName: string, entry: Record, trackNumber: nat, trackTotal: nat)
    requires "cover" in entry && EndsWith(entry["cover"], "_cover") && "name" in entry && "author" in entry
    requires AlbumNumber(jsonName).Err?
    ensures MakeSong(album, jsonName, entry, trackNumber, trackTotal) == Err(BadAlbumNumber(jsonName))
  {
  }

  // ---------------------------------------------------------------- one album

  /** The songs of the first `n` tracks of an album, or the first error among them. */
  function TrackSongs(album: Record, jsonName: string, entries: seq<Record>, lEntries: seq<Record>, n: nat)
    : Result<seq<SongRecord>>
    requires n <= |entries| == |lEntries|
    decreases n
  {
    if n == 0 then Ok([])
    else
      var songs :- TrackSongs(album, jsonName, entries, lEntries, n - 1);
      var song :- MakeSong(album, jsonName, Overlay(entries[n - 1], lEntries[n - 1]), n, |entries|);
      Ok(songs + [song])
  }

  /** When every one of the first `n` tracks gives a Song, the album's first `n` songs are built. */
  lemma {:induction false} TrackSongsOk(album: Record, jsonName: string, entries: seq<Record>,
                                        lEntries: seq<Record>, n: nat)
    requires n <= |entries| == |lEntries|
    requires forall k :: 0 <= k < n ==> MakeSong(album, jsonName, Overlay(entries[k], lEntries[k]), k + 1, |entries|).Ok?
    ensures TrackSongs(album, jsonName, entries, lEntries, n).Ok?
    decreases n
  {
    if n > 0 {
      TrackSongsOk(album, jsonName, entries, lEntries, n - 1);
    }
  }

  /** An album with a title and a parseable number whose overlaid entries are all buildable gives its songs. */
  lemma TrackSongsBuild(album: Record, jsonName: string, entries: seq<Record>, lEntries: seq<Record>)
    requires |entries| == |lEntries|
    requires "title" in album && AlbumNumber(jsonName).Ok?
    requires forall k :: 0 <= k < |entries| ==> Buildable(Overlay(entries[k], lEntries[k]))
    ensures TrackSongs(album, jsonName, entries, lEntries, |entries|).Ok?
  {
    EntriesBuild(album, jsonName, entries, lEntries);
    TrackSongsOk(album, jsonName, entries, lEntries, |entries|);
  }

  /** Every buildable overlaid entry of such an album gives a Song. */
  lemma EntriesBuild(album: Record, jsonName: string, entries: seq<Record>, lEntries: seq<Record>)
    requires |entries| == |lEntries|
    requires "title" in album && AlbumNumber(jsonName).Ok?
    requires forall k :: 0 <= k < |entries| ==> Buildable(Overlay(entries[k], lEntries[k]))
    ensures forall k :: 0 <= k < |entries| ==> MakeSong(album, jsonName, Overlay(entries[k], lEntries[k]), k + 1, |entries|).Ok?
  {
    forall k | 0 <= k < |entries|
      ensures MakeSong(album, jsonName, Overlay(entries[k], lEntries[k]), k + 1, |entries|).Ok?
    {
      MakeSongBuilds(album, jsonName, Overlay(entries[k], lEntries[k]), k + 1, |entries|);
    }
  }

  /** What each track gives on its own: its Song, or the error building it raises. */
  function TrackOutcomes(album: Record, jsonName: string, entries: seq<Record>, lEntries: seq<Record>)
    : (r: seq<Result<SongRecord>>)
    requires |entries| == |lEntries|
    ensures |r| == |entries|
    ensures forall k {:trigger entries[k]} :: 0 <= k < |entries| ==>
              r[k] == MakeSong(album, jsonName, Overlay(entries[k], lEntries[k]), k + 1, |entries|)
  {
    seq(|entries|, k requires 0 <= k < |entries| => MakeSong(album, jsonName, Overlay(entries[k], lEntries[k]), k + 1, |entries|))
  }

  /** The songs of the first `n` track outcomes, or the first error among them. */
  function Gather(outcomes: seq<Result<SongRecord>>, n: nat): Result<seq<SongRecord>>
    requires n <= |outcomes|
    decreases n
  {
    if n == 0 then Ok([])
    else
      var songs :- Gather(outcomes, n - 1);
      var song :- outcomes[n - 1];
      Ok(songs + [song])
  }

  /** Gathering the tracks' own outcomes gives the album's songs. */
  lemma {:induction false} GatherTrackSongs(album: Record, jsonName: string, entries: seq<Record>,
                                            lEntries: seq<Record>, outcomes: seq<Result<SongRecord>>, n: nat)
    requires n <= |entries| == |lEntries| == |outcomes|
    requires forall k {:trigger entries[k]} :: 0 <= k < |entries| ==>
               outcomes[k] == MakeSong(album, jsonName, Overlay(entries[k], lEntries[k]), k + 1, |entries|)
    ensures Gather(outcomes, n) == TrackSongs(album, jsonName, entries, lEntries, n)
    decreases n
  {
    if n > 0 {
      GatherTrackSongs(album, jsonName, entries, lEntries, outcomes, n - 1);
      assert outcomes[n - 1] == MakeSong(album, jsonName, Overlay(entries[n - 1], lEntries[n - 1]), n, |entries|);
    }
  }

  /** The base track list of an album and its localized overlay (all `{}` without a language). */
  function LoadTrackLists(game: GameData, suffix: Option<string>, jsonName: string)
    : (r: Result<(seq<Record>, seq<Record>)>)
    ensures r.Ok? ==> |r.value.0| == |r.value.1|
    ensures r.Ok? && suffix.None? ==> r.value.1 == EmptyOverlays(|r.value.0|)
  {
    var path :- FindWithPrefix(game.files, EntryPrefix(jsonName));
    var entries :- LoadJson(game, path, jsonName);
    match suffix
    case None => Ok((entries, EmptyOverlays(|entries|)))
    case Some(l) =>
      var lPath :- FindWithPrefix(game.files, LocalizedEntryPrefix(jsonName, l));
      var lEntries :- LoadJson(game, lPath, jsonName + "_" + l);
      if |entries| != |lEntries| then Err(LengthMismatch) else Ok((entries, lEntries))
  }

  /** An album is kept when its overlaid record has a non-empty jsonName. */
  predicate Kept(album: Record) {
    "jsonName" in album && album["jsonName"] != ""
  }

  /** The songs of one overlaid album record: None for a skipped album. */
  function AlbumSongs(game: GameData, suffix: Option<string>, album: Record): (r: Result<Option<seq<SongRecord>>>)
    ensures "jsonName" !in album ==> r == Err(MissingKey("jsonName"))
    ensures r == Ok(None) <==> "jsonName" in album && album["jsonName"] == ""
    ensures r.Ok? ==> (r.value.Some? <==> Kept(album))
  {
    if "jsonName" !in album then Err(MissingKey("jsonName"))
    else
      var jsonName := album["jsonName"];
      if jsonName == "" then Ok(None)
      else
        var lists :- LoadTrackLists(game, suffix, jsonName);
        var songs :- TrackSongs(album, jsonName, lists.0, lists.1, |lists.0|);
        Ok(Some(songs))
  }

  // ---------------------------------------------------------------- all albums

  /** The songs accumulated so far and the album numbers for which progress was reported. */
  datatype Parsed = Parsed(songs: seq<SongRecord>, reported: seq<nat>)

  /** The base album list and its localized overlay (all `{}` without a language). */
  function LoadAlbumLists(game: GameData, suffix: Option<string>): (r: Result<(seq<Record>, seq<Record>)>)
    ensures r.Ok? ==> |r.value.0| == |r.value.1|
    ensures r.Ok? && suffix.None? ==> r.value.1 == EmptyOverlays(|r.value.0|)
  {
    var path :- FindWithPrefix(game.files, AlbumsPrefix);
    var albums :- LoadJson(game, path, "albums");
    match suffix
    case None => Ok((albums, EmptyOverlays(|albums|)))
    case Some(l) =>
      var lPath :- FindWithPrefix(game.files, LocalizedAlbumsPrefix(l));
      var lAlbums :- LoadJson(game, lPath, "albums_" + l);
      if |albums| != |lAlbums| then Err(LengthMismatch) else Ok((albums, lAlbums))
  }

  /** What each album of the list gives on its own, after the overlay: its songs, None, or an error. */
  function AlbumResults(game: GameData, suffix: Option<string>, albums: seq<Record>, lAlbums: seq<Record>)
    : (r: seq<Result<Option<seq<SongRecord>>>>)
    requires |albums| == |lAlbums|
    ensures |r| == |albums|
    ensures forall k :: 0 <= k < |albums| ==> r[k] == AlbumSongs(game, suffix, Overlay(albums[k], lAlbums[k]))
  {
    seq(|albums|, k requires 0 <= k < |albums| => AlbumSongs(game, suffix, Overlay(albums[k], lAlbums[k])))
  }

  /**
   * The album loop over the first `n` album results: songs appended and progress reported for
   * each kept album, stopping at the first error.
   */
  function Collect(results: seq<Result<Option<seq<SongRecord>>>>, n: nat): Result<Parsed>
    requires n <= |results|
    decreases n
  {
    if n == 0 then Ok(Parsed([], []))
    else
      var acc :- Collect(results, n - 1);
      var kept :- results[n - 1];
      match kept
      case None => Ok(acc)
      case Some(songs) => Ok(Parsed(acc.songs + songs, acc.reported + [n]))
  }

  /** What parse_config returns (with the progress reports it makes), or the error it raises. */
  function ParseConfigSpec(game: GameData, language: Option<string>): Result<Parsed> {
    var suffix := LanguageSuffix(language);
    var lists :- LoadAlbumLists(game, suffix);
    var acc :- Collect(AlbumResults(game, suffix, lists.0, lists.1), |lists.0|);
    Ok(Parsed(SortByKey(acc.songs), acc.reported))
  }

  // ---------------------------------------------------------------- the method

  lemma {:induction false} GatherErrPersists(outcomes: seq<Result<SongRecord>>, n: nat, m: nat)
    requires n <= m <= |outcomes|
    requires Gather(outcomes, n).Err?
    ensures Gather(outcomes, m) == Gather(outcomes, n)
    decreases m
  {
    if m > n {
      GatherErrPersists(outcomes, n, m - 1);
    }
  }

  lemma {:induction false} CollectErrPersists(results: seq<Result<Option<seq<SongRecord>>>>, n: nat, m: nat)
    requires n <= m <= |results|
    requires Collect(results, n).Err?
    ensures Collect(results, m) == Collect(results, n)
    decreases m
  {
    if m > n {
      CollectErrPersists(results, n, m - 1);
    }
  }

  /** parse_config: the album lists, the albums in order with the tracks of each, then the sort. */
  method ParseConfig(game: GameData, language: Option<string>) returns (r: Result<Parsed>)
    ensures r == ParseConfigSpec(game, language)
  {
    var suffix := LanguageSuffix(language);
    var lists := ReadAlbumLists(game, suffix);
    if lists.Err? {
      return Err(lists.error);
    }
    var albums, lAlbums := lists.value.0, lists.value.1;
    ghost var results := AlbumResults(game, suffix, albums, lAlbums);
    var collected := CollectAlbums(game, suffix, albums, lAlbums, results);
    if collected.Err? {
      return Err(collected.error);
    }
    return Ok(Parsed(SortByKey(collected.value.songs), collected.value.reported));
  }

  /**
   * The album loop of parse_config: overlay, skip or append the album's songs, report progress;
   * `results` holds what each album gives on its own.
   */
  method CollectAlbums(game: GameData, suffix: Option<string>, albums: seq<Record>, lAlbums: seq<Record>,
                       ghost results: seq<Result<Option<seq<SongRecord>>>>)
    returns (r: Result<Parsed>)
    requires |albums| == |lAlbums| == |results|
    requires forall k {:trigger albums[k]} :: 0 <= k < |albums| ==>
               results[k] == AlbumSongs(game, suffix, Overlay(albums[k], lAlbums[k]))
    ensures r == Collect(results, |albums|)
  {
    var songs: seq<SongRecord> := [];
    var reported: seq<nat> := [];
    var i := 0;
    while i < |albums|
      invariant 0 <= i <= |albums|
      invariant Collect(results, i) == Ok(Parsed(songs, reported))
    {
      var extended := AppendAlbumSongs(game, suffix, albums, lAlbums, i, songs, results);
      if extended.Err? {
        CollectErrPersists(results, i + 1, |albums|);
        return Err(extended.error);
      }
      if extended.value.Some? {
        songs := extended.value.value;
        reported := reported + [i + 1];
      }
      i := i + 1;
    }
    return Ok(Parsed(songs, reported));
  }

  /**
   * The body of parse_config's album loop for album `i`: overlay the localized record, then None
   * when the album is skipped, otherwise `songs` with the album's songs appended; `results`
   * holds what each album gives on its own.
   */
  method AppendAlbumSongs(game: GameData, suffix: Option<string>, albums: seq<Record>, lAlbums: seq<Record>,
                          i: nat, songs: seq<SongRecord>, ghost results: seq<Result<Option<seq<SongRecord>>>>)
    returns (r: Result<Option<seq<SongRecord>>>)
    requires i < |albums| == |lAlbums| == |results|
    requires forall k {:trigger albums[k]} :: 0 <= k < |albums| ==>
               results[k] == AlbumSongs(game, suffix, Overlay(albums[k], lAlbums[k]))
    ensures r == match results[i]
                 case Ok(None) => Ok(None)
                 case Ok(Some(added)) => Ok(Some(songs + added))
                 case Err(e) => Err(e)
  {
    // the localized album fields take precedence over the base ones
    var album := Overlay(albums[i], lAlbums[i]);
    if "jsonName" !in album {
      return Err(MissingKey("jsonName"));
    }
    var jsonName := album["jsonName"];
    if jsonName == "" {
      // an album listed without a jsonName has no songs
      return Ok(None);
    }
    var trackLists := ReadTrackLists(game, suffix, jsonName);
    if trackLists.Err? {
      return Err(trackLists.error);
    }
    var (entries, lEntries) := trackLists.value;
    ghost var outcomes := TrackOutcomes(album, jsonName, entries, lEntries);
    GatherTrackSongs(album, jsonName, entries, lEntries, outcomes, |entries|);
    var extended := AppendTrackSongs(songs, album, jsonName, entries, lEntries, outcomes);
    if extended.Err? {
      return Err(extended.error);
    }
    return Ok(Some(extended.value));
  }

  /** The opening block of parse_config: album list, localized album list, length check. */
  method ReadAlbumLists(game: GameData, suffix: Option<string>) returns (r: Result<(seq<Record>, seq<Record>)>)
    ensures r == LoadAlbumLists(game, suffix)
  {
    var albumsPath :- FindWithPrefix(game.files, AlbumsPrefix);
    var albums :- ReadJson(game, albumsPath, "albums");
    if suffix.Some? {
      var l := suffix.value;
      var lAlbumsPath :- FindWithPrefix(game.files, LocalizedAlbumsPrefix(l));
      var lAlbums :- ReadJson(game, lAlbumsPath, "albums_" + l);
      if |albums| != |lAlbums| {
        return Err(LengthMismatch);
      }
      return Ok((albums, lAlbums));
    }
    return Ok((albums, EmptyOverlays(|albums|)));
  }

  /** The per-album loading block of parse_config: track list, localized track list, length check. */
  method ReadTrackLists(game: GameData, suffix: Option<string>, jsonName: string)
    returns (r: Result<(seq<Record>, seq<Record>)>)
    ensures r == LoadTrackLists(game, suffix, jsonName)
  {
    var entryPath :- FindWithPrefix(game.files, EntryPrefix(jsonName));
    var entries :- ReadJson(game, entryPath, jsonName);
    if suffix.Some? {
      var l := suffix.value;
      var lEntryPath :- FindWithPrefix(game.files, LocalizedEntryPrefix(jsonName, l));
      var lEntries :- ReadJson(game, lEntryPath, jsonName + "_" + l);
      if |entries| != |lEntries| {
        return Err(LengthMismatch);
      }
      return Ok((entries, lEntries));
    }
    return Ok((entries, EmptyOverlays(|entries|)));
  }

  /**
   * The body of parse_config's track loop for track `j`: the Song built from the base entry
   * overlaid with the localized one; `outcomes` holds what each track gives on its own.
   */
  method BuildTrack(album: Record, jsonName: string, entries: seq<Record>, lEntries: seq<Record>,
                    j: nat, ghost outcomes: seq<Result<SongRecord>>)
    returns (song: Result<SongRecord>)
    requires j < |entries| == |lEntries| == |outcomes|
    requires forall k {:trigger entries[k]} :: 0 <= k < |entries| ==>
               outcomes[k] == MakeSong(album, jsonName, Overlay(entries[k], lEntries[k]), k + 1, |entries|)
    ensures song == outcomes[j]
  {
    // the localized track fields take precedence over the base ones
    var entry := Overlay(entries[j], lEntries[j]);
    song := MakeSong(album, jsonName, entry, j + 1, |entries|);
  }

  /**
   * The inner loop of parse_config: one song per track of an album, appended to `songs`;
   * `outcomes` holds what each track gives on its own.
   */
  method AppendTrackSongs(songs: seq<SongRecord>, album: Record, jsonName: string,
                          entries: seq<Record>, lEntries: seq<Record>, ghost outcomes: seq<Result<SongRecord>>)
    returns (r: Result<seq<SongRecord>>)
    requires |entries| == |lEntries| == |outcomes|
    requires forall k {:trigger entries[k]} :: 0 <= k < |entries| ==>
               outcomes[k] == MakeSong(album, jsonName, Overlay(entries[k], lEntries[k]), k + 1, |entries|)
    ensures r == match Gather(outcomes, |entries|)
                 case Ok(added) => Ok(songs + added)
                 case Err(e) => Err(e)
  {
    var result := songs;
    ghost var added: seq<SongRecord> := [];
    var j := 0;
    while j < |entries|
      invariant 0 <= j <= |entries|
      invariant result == songs + added
      invariant Gather(outcomes, j) == Ok(added)
    {
      var song := BuildTrack(album, jsonName, entries, lEntries, j, outcomes);
      if song.Err? {
        GatherErrPersists(outcomes, j + 1, |entries|);
        return Err(song.error);
      }
      added := added + [song.value];
      result := result + [song.value];
      j := j + 1;
    }
    return Ok(result);
  }

  // ---------------------------------------------------------------- properties

  /** What every constructed Song satisfies: numbered from 1 within its album, cover = asset + "_cover". */
  predicate WellFormed(s: SongRecord) {
    1 <= s.trackNumber <= s.trackTotal && s.assetName + "_cover" == s.coverName
  }

  /** The songs of an album: one per track, numbered 1.., with the album's size and number. */
  lemma {:induction false} TrackSongsShape(album: Record, jsonName: string, entries: seq<Record>,
                                           lEntries: seq<Record>, n: nat)
    requires n <= |entries| == |lEntries|
    requires TrackSongs(album, jsonName, entries, lEntries, n).Ok?
    ensures var t := TrackSongs(album, jsonName, entries, lEntries, n).value;
      |t| == n &&
      forall k :: 0 <= k < n ==>
        t[k].trackNumber == k + 1 && t[k].trackTotal == |entries| && WellFormed(t[k]) &&
        AlbumNumber(jsonName) == Ok(t[k].albumNumber)
    decreases n
  {
    if n > 0 {
      TrackSongsShape(album, jsonName, entries, lEntries, n - 1);
      var prev := TrackSongs(album, jsonName, entries, lEntries, n - 1).value;
      var song := MakeSong(album, jsonName, Overlay(entries[n - 1], lEntries[n - 1]), n, |entries|).value;
      assert TrackSongs(album, jsonName, entries, lEntries, n).value == prev + [song];
      NumberedAppend(prev, song, |entries|, AlbumNumber(jsonName));
    }
  }

  /** A song numbered one past a list numbered 1.. extends the numbering. */
  lemma NumberedAppend(prev: seq<SongRecord>, song: SongRecord, total: nat, albumNumber: Result<int>)
    requires forall k :: 0 <= k < |prev| ==>
               prev[k].trackNumber == k + 1 && prev[k].trackTotal == total && WellFormed(prev[k]) &&
               albumNumber == Ok(prev[k].albumNumber)
    requires song.trackNumber == |prev| + 1 <= total && song.trackTotal == total
    requires song.assetName + "_cover" == song.coverName && albumNumber == Ok(song.albumNumber)
    ensures var t := prev + [song];
      forall k :: 0 <= k < |t| ==>
        t[k].trackNumber == k + 1 && t[k].trackTotal == total && WellFormed(t[k]) &&
        albumNumber == Ok(t[k].albumNumber)
  {
  }

  /** Every song of the sequence is well formed. */
  predicate AllWellFormed(songs: seq<SongRecord>) {
    forall i :: 0 <= i < |songs| ==> WellFormed(songs[i])
  }

  /** The number of tracks of an album: the length of its track list when it is kept, else 0. */
  function TrackCount(game: GameData, suffix: Option<string>, album: Record): nat {
    if Kept(album) && LoadTrackLists(game, suffix, album["jsonName"]).Ok?
    then |LoadTrackLists(game, suffix, album["jsonName"]).value.0| else 0
  }

  /** The sum of the first `n` counts. */
  function Sum(counts: seq<nat>, n: nat): nat
    requires n <= |counts|
    decreases n
  {
    if n == 0 then 0 else Sum(counts, n - 1) + counts[n - 1]
  }

  /** The track count of each album of the list, after the overlay. */
  function TrackCounts(game: GameData, suffix: Option<string>, albums: seq<Record>, lAlbums: seq<Record>)
    : (r: seq<nat>)
    requires |albums| == |lAlbums|
    ensures |r| == |albums|
    ensures forall k :: 0 <= k < |albums| ==> r[k] == TrackCount(game, suffix, Overlay(albums[k], lAlbums[k]))
  {
    seq(|albums|, k requires 0 <= k < |albums| => TrackCount(game, suffix, Overlay(albums[k], lAlbums[k])))
  }

  /** The number of tracks of the kept albums of the list. */
  function KeptTrackCount(game: GameData, suffix: Option<string>, albums: seq<Record>, lAlbums: seq<Record>): nat
    requires |albums| == |lAlbums|
  {
    Sum(TrackCounts(game, suffix, albums, lAlbums), |albums|)
  }

  /** An album result agrees with a track count: as many well-formed songs, or none when skipped. */
  predicate Fits(result: Result<Option<seq<SongRecord>>>, count: nat) {
    match result
    case Ok(Some(t)) => |t| == count && AllWellFormed(t)
    case Ok(None) => count == 0
    case Err(_) => true
  }

  /** The songs of a kept album are well formed, one per track of its track list. */
  lemma AlbumSongsShape(game: GameData, suffix: Option<string>, album: Record)
    ensures Fits(AlbumSongs(game, suffix, album), TrackCount(game, suffix, album))
  {
    var r := AlbumSongs(game, suffix, album);
    if r.Ok? && r.value.Some? {
      var jsonName := album["jsonName"];
      var lists := LoadTrackLists(game, suffix, jsonName).value;
      TrackSongsShape(album, jsonName, lists.0, lists.1, |lists.0|);
    }
  }

  /**
   * Over the first `n` album results: every song is well formed and there are as many as the
   * counts the results fit add up to.
   */
  lemma {:induction false} CollectSongs(results: seq<Result<Option<seq<SongRecord>>>>, counts: seq<nat>, n: nat)
    requires n <= |results| == |counts|
    requires forall k :: 0 <= k < n ==> Fits(results[k], counts[k])
    requires Collect(results, n).Ok?
    ensures AllWellFormed(Collect(results, n).value.songs)
    ensures |Collect(results, n).value.songs| == Sum(counts, n)
    decreases n
  {
    if n > 0 {
      CollectSongs(results, counts, n - 1);
      var acc := Collect(results, n - 1).value;
      if results[n - 1].value.Some? {
        var t := results[n - 1].value.value;
        var all := acc.songs + t;
        forall i | 0 <= i < |all|
          ensures WellFormed(all[i])
        {
          if i >= |acc.songs| {
            assert all[i] == t[i - |acc.songs|];
          }
        }
      }
    }
  }

  /**
   * Over the first `n` album results: progress is reported in increasing order, once for each
   * album that gave songs and for no other.
   */
  lemma {:induction false} CollectReported(results: seq<Result<Option<seq<SongRecord>>>>, n: nat)
    requires n <= |results|
    requires Collect(results, n).Ok?
    ensures var reported := Collect(results, n).value.reported;
      (forall i, j :: 0 <= i < j < |reported| ==> reported[i] < reported[j]) &&
      (forall i :: 0 <= i < |reported| ==> 1 <= reported[i] <= n) &&
      (forall k :: 0 <= k < n ==> results[k].Ok? && (k + 1 in reported <==> results[k].value.Some?))
    decreases n
  {
    if n > 0 {
      CollectReported(results, n - 1);
    }
  }

  /**
   * parse_config reports progress in increasing album order, exactly for the albums whose overlaid
   * record has a non-empty jsonName.
   */
  lemma ParseConfigReported(game: GameData, language: Option<string>)
    requires ParseConfigSpec(game, language).Ok?
    ensures var lists := LoadAlbumLists(game, LanguageSuffix(language)).value;
      var reported := ParseConfigSpec(game, language).value.reported;
      (forall i, j :: 0 <= i < j < |reported| ==> reported[i] < reported[j]) &&
      (forall i :: 0 <= i < |reported| ==> 1 <= reported[i] <= |lists.0|) &&
      (forall k :: 0 <= k < |lists.0| ==> (k + 1 in reported <==> Kept(Overlay(lists.0[k], lists.1[k]))))
  {
    var lists := LoadAlbumLists(game, LanguageSuffix(language)).value;
    CollectReported(AlbumResults(game, LanguageSuffix(language), lists.0, lists.1), |lists.0|);
  }

  /**
   * parse_config's result: the accumulated songs sorted by (album_number, track_number), as a
   * permutation that keeps the order of songs with equal keys, all well formed, and as many as
   * the kept albums have tracks.
   */
  lemma ParseConfigResult(game: GameData, language: Option<string>)
    requires ParseConfigSpec(game, language).Ok?
    ensures var suffix := LanguageSuffix(language);
      var lists := LoadAlbumLists(game, suffix).value;
      var acc := Collect(AlbumResults(game, suffix, lists.0, lists.1), |lists.0|).value;
      var songs := ParseConfigSpec(game, language).value.songs;
      SortedByKey(songs) && multiset(songs) == multiset(acc.songs) &&
      (forall k :: WithKey(songs, k) == WithKey(acc.songs, k)) &&
      AllWellFormed(songs) && |songs| == KeptTrackCount(game, suffix, lists.0, lists.1)
  {
    var suffix := LanguageSuffix(language);
    var lists := LoadAlbumLists(game, suffix).value;
    var results := AlbumResults(game, suffix, lists.0, lists.1);
    var acc := Collect(results, |lists.0|).value;
    var songs := SortByKey(acc.songs);
    SortByKeySorted(acc.songs);
    SortByKeyPermutation(acc.songs);
    forall k {
      SortByKeyStable(acc.songs, k);
    }
    var counts := TrackCounts(game, suffix, lists.0, lists.1);
    forall k | 0 <= k < |lists.0|
      ensures Fits(results[k], counts[k])
    {
      AlbumSongsShape(game, suffix, Overlay(lists.0[k], lists.1[k]));
    }
    CollectSongs(results, counts, |lists.0|);
    forall i | 0 <= i < |songs|
      ensures WellFormed(songs[i])
    {
      assert songs[i] in multiset(acc.songs);
    }
    assert |songs| == |multiset(songs)| == |multiset(acc.songs)| == |acc.songs|;
  }

  /** Without a language no localized record is loaded and every overlay is the empty one. */
  lemma NoLanguageNoOverlay(game: GameData, language: Option<string>)
    requires language.None? || language.value !in Languages
    requires LoadAlbumLists(game, LanguageSuffix(language)).Ok?
    ensures var lists := LoadAlbumLists(game, LanguageSuffix(language)).value;
      forall k :: 0 <= k < |lists.0| ==> Overlay(lists.0[k], lists.1[k]) == lists.0[k]
  {
    var lists := LoadAlbumLists(game, LanguageSuffix(language)).value;
    forall k | 0 <= k < |lists.0|
      ensures Overlay(lists.0[k], lists.1[k]) == lists.0[k]
    {
      OverlayEmpty(lists.0[k]);
    }
  }

  /** A localized album list of another length than the base list is an assertion failure. */
  lemma AlbumListsLengthMismatch(game: GameData, language: Option<string>, path: string, lPath: string)
    requires LanguageSuffix(language).Some?
    requires FindWithPrefix(game.files, AlbumsPrefix) == Ok(path) && LoadJson(game, path, "albums").Ok?
    requires FindWithPrefix(game.files, LocalizedAlbumsPrefix(LanguageSuffix(language).value)) == Ok(lPath)
    requires LoadJson(game, lPath, "albums_" + LanguageSuffix(language).value).Ok?
    requires |LoadJson(game, path, "albums").value|
             != |LoadJson(game, lPath, "albums_" + LanguageSuffix(language).value).value|
    ensures ParseConfigSpec(game, language) == Err(LengthMismatch)
  {
  }

  /** A localized track list of another length than the album's base list is an assertion failure. */
  lemma TrackListsLengthMismatch(game: GameData, l: string, jsonName: string, path: string, lPath: string)
    requires FindWithPrefix(game.files, EntryPrefix(jsonName)) == Ok(path) && LoadJson(game, path, jsonName).Ok?
    requires FindWithPrefix(game.files, LocalizedEntryPrefix(jsonName, l)) == Ok(lPath)
    requires LoadJson(game, lPath, jsonName + "_" + l).Ok?
    requires |LoadJson(game, path, jsonName).value| != |LoadJson(game, lPath, jsonName + "_" + l).value|
    ensures LoadTrackLists(game, Some(l), jsonName) == Err(LengthMismatch)
  {
  }
}
