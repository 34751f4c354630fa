/**
 * rip: check the game folder, parse the config, fix the songs, write songs.csv if asked,
 * normalize the songs, then export them one by one, stopping when the stop flag is seen.
 *
 * The stop flag is checked once before the export loop and once after each exported song;
 * `stopAt` is the number of the first check at which it is seen set (0 for the check before
 * the loop), or None when it never is.
 */
module Ripper {
  import opened Outcomes
  import opened Bundles
  import opened Songs
  import opened Config
  import opened Export

  /** The songs an export loop wrote, and the error that ended it early, if any. */
  datatype ExportRun = ExportRun(done: seq<Exported>, error: Option<RipError>)

  /** What a rip leaves behind: songs.csv if written, the songs exported, the error that ended it. */
  datatype RipLog = RipLog(csv: Option<seq<seq<string>>>, exported: seq<Exported>, error: Option<RipError>)

  function FixAll(songs: seq<SongRecord>): (r: seq<SongRecord>)
    ensures |r| == |songs| && forall i :: 0 <= i < |songs| ==> r[i] == FixSong(songs[i])
  {
    seq(|songs|, i requires 0 <= i < |songs| => FixSong(songs[i]))
  }

  function NormalizeAll(songs: seq<SongRecord>): (r: seq<SongRecord>)
    ensures |r| == |songs| && forall i :: 0 <= i < |songs| ==> r[i] == NormalizeSong(songs[i])
  {
    seq(|songs|, i requires 0 <= i < |songs| => NormalizeSong(songs[i]))
  }

  /** The outcome of exporting each song on its own. */
  function SongOutcomes(game: GameData, outputDir: string, albumDirs: bool, saveCovers: bool,
                        songs: seq<SongRecord>): (r: seq<Result<Exported>>)
    ensures |r| == |songs|
    ensures forall i :: 0 <= i < |songs| ==> r[i] == ExportSong(game, outputDir, albumDirs, saveCovers, songs[i])
  {
    seq(|songs|, i requires 0 <= i < |songs| => ExportSong(game, outputDir, albumDirs, saveCovers, songs[i]))
  }

  /** The export loop over the first `n` outcomes: it stops at the first error. */
  function ExportPrefix(outcomes: seq<Result<Exported>>, n: nat): ExportRun
    requires n <= |outcomes|
    decreases n
  {
    if n == 0 then ExportRun([], None)
    else
      var run := ExportPrefix(outcomes, n - 1);
      if run.error.Some? then run
      else match outcomes[n - 1]
        case Ok(e) => ExportRun(run.done + [e], None)
        case Err(e) => ExportRun(run.done, Some(e))
  }

  /** How many songs the export loop gets to before the stop flag is seen. */
  function Reached(stopAt: Option<nat>, count: nat): (r: nat)
    ensures r <= count
    ensures stopAt.None? ==> r == count
    ensures stopAt.Some? ==> r == if stopAt.value < count then stopAt.value else count
  {
    match stopAt
    case None => count
    case Some(k) => if k < count then k else count
  }

  /** The export stage of rip, from the songs as fixed and normalized. */
  function ExportStage(game: GameData, outputDir: string, albumDirs: bool, saveCovers: bool,
                       songs: seq<SongRecord>, stopAt: Option<nat>): ExportRun
  {
    ExportPrefix(SongOutcomes(game, outputDir, albumDirs, saveCovers, songs), Reached(stopAt, |songs|))
  }

  /** What rip does, as a function of the game data and the options. */
  function RipSpec(game: GameData, exePresent: bool, outputDir: string, language: Option<string>,
                   albumDirs: bool, saveCovers: bool, saveSongsCsv: bool, stopAt: Option<nat>): RipLog
  {
    if !exePresent then RipLog(None, [], Some(GameExeMissing))
    else match ParseConfigSpec(game, language)
      case Err(e) => RipLog(None, [], Some(e))
      case Ok(parsed) =>
        var fixed := FixAll(parsed.songs);
        var csv := if saveSongsCsv then Some(CsvTable(fixed)) else None;
        var run := ExportStage(game, outputDir, albumDirs, saveCovers, NormalizeAll(fixed), stopAt);
        RipLog(csv, run.done, run.error)
  }

  // ---------------------------------------------------------------- properties

  /**
   * Songs are exported in list order: without an error every one of the first `n` is exported;
   * an error keeps exactly the songs before the failing one.
   */
  lemma {:induction false} ExportPrefixShape(outcomes: seq<Result<Exported>>, n: nat)
    requires n <= |outcomes|
    ensures var run := ExportPrefix(outcomes, n);
      |run.done| <= n &&
      (run.error.None? <==> |run.done| == n) &&
      (forall i :: 0 <= i < |run.done| ==> outcomes[i] == Ok(run.done[i])) &&
      (run.error.Some? ==> outcomes[|run.done|] == Err(run.error.value))
    decreases n
  {
    if n > 0 {
      ExportPrefixShape(outcomes, n - 1);
    }
  }

  lemma {:induction false} ExportPrefixAfterError(outcomes: seq<Result<Exported>>, n: nat, m: nat)
    requires n <= m <= |outcomes|
    requires ExportPrefix(outcomes, n).error.Some?
    ensures ExportPrefix(outcomes, m) == ExportPrefix(outcomes, n)
    decreases m
  {
    if m > n {
      ExportPrefixAfterError(outcomes, n, m - 1);
    }
  }

  /**
   * The export stage writes, in list order, each song it reaches to that song's music path (and
   * cover path), tagged with that song's fields; it reaches every song up to the stop unless a
   * song fails, and then that song's own error ends it.
   */
  lemma ExportStageShape(game: GameData, outputDir: string, albumDirs: bool, saveCovers: bool,
                         songs: seq<SongRecord>, stopAt: Option<nat>)
    ensures var run := ExportStage(game, outputDir, albumDirs, saveCovers, songs, stopAt);
      |run.done| <= Reached(stopAt, |songs|) &&
      (run.error.None? <==> |run.done| == Reached(stopAt, |songs|)) &&
      (run.error.Some? ==>
         ExportSong(game, outputDir, albumDirs, saveCovers, songs[|run.done|]) == Err(run.error.value))
    ensures var run := ExportStage(game, outputDir, albumDirs, saveCovers, songs, stopAt);
      forall i :: 0 <= i < |run.done| ==>
        run.done[i].musicPath == MusicPath(outputDir, albumDirs, songs[i]) &&
        run.done[i].tags == Tags(songs[i]) &&
        run.done[i].coverPath == if saveCovers then Some(CoverPath(outputDir, albumDirs, songs[i])) else None
  {
    var outcomes := SongOutcomes(game, outputDir, albumDirs, saveCovers, songs);
    ExportPrefixShape(outcomes, Reached(stopAt, |songs|));
    var run := ExportPrefix(outcomes, Reached(stopAt, |songs|));
    forall i | 0 <= i < |run.done|
      ensures run.done[i].musicPath == MusicPath(outputDir, albumDirs, songs[i])
      ensures run.done[i].tags == Tags(songs[i])
      ensures run.done[i].coverPath == if saveCovers then Some(CoverPath(outputDir, albumDirs, songs[i])) else None
    {
      ExportSongShape(game, outputDir, albumDirs, saveCovers, songs[i]);
    }
  }

  /** songs.csv is written from the fixed songs, before normalization: one row per parsed song. */
  lemma CsvHoldsFixedSongs(game: GameData, outputDir: string, language: Option<string>,
                           albumDirs: bool, saveCovers: bool, stopAt: Option<nat>)
    requires ParseConfigSpec(game, language).Ok?
    ensures var songs := ParseConfigSpec(game, language).value.songs;
      var log := RipSpec(game, true, outputDir, language, albumDirs, saveCovers, true, stopAt);
      log.csv.Some? && |log.csv.value| == |songs| + 1 &&
      forall i :: 0 <= i < |songs| ==>
        ParseRow(log.csv.value[i + 1]) == Some(FixSong(songs[i]).(genre := None)) &&
        log.csv.value[i + 1][3] == FixSong(songs[i]).albumName
  {
    var songs := ParseConfigSpec(game, language).value.songs;
    forall i | 0 <= i < |songs|
      ensures ParseRow(CsvRow(FixSong(songs[i]))) == Some(FixSong(songs[i]).(genre := None))
    {
      CsvRowRoundTrip(FixSong(songs[i]));
    }
  }

  /**
   * The exported files carry the normalized album name and the genre, applied once to the
   * fixed songs.
   */
  lemma ExportedAreNormalized(game: GameData, outputDir: string, language: Option<string>,
                              albumDirs: bool, saveCovers: bool, saveSongsCsv: bool, stopAt: Option<nat>)
    requires ParseConfigSpec(game, language).Ok?
    ensures var songs := ParseConfigSpec(game, language).value.songs;
      var log := RipSpec(game, true, outputDir, language, albumDirs, saveCovers, saveSongsCsv, stopAt);
      |log.exported| <= |songs| &&
      forall i :: 0 <= i < |log.exported| ==>
        "album" in log.exported[i].tags && "genre" in log.exported[i].tags &&
        log.exported[i].tags["album"] == AlbumPrefix + FixSong(songs[i]).albumName &&
        log.exported[i].tags["genre"] == Genre
  {
    var songs := ParseConfigSpec(game, language).value.songs;
    NormalizedTags(game, outputDir, albumDirs, saveCovers, FixAll(songs), stopAt);
  }

  /** Exporting normalized songs tags each file with the prefixed album name and the genre. */
  lemma NormalizedTags(game: GameData, outputDir: string, albumDirs: bool, saveCovers: bool,
                       fixed: seq<SongRecord>, stopAt: Option<nat>)
    ensures var run := ExportStage(game, outputDir, albumDirs, saveCovers, NormalizeAll(fixed), stopAt);
      |run.done| <= |fixed| &&
      forall i :: 0 <= i < |run.done| ==>
        "album" in run.done[i].tags && "genre" in run.done[i].tags &&
        run.done[i].tags["album"] == AlbumPrefix + fixed[i].albumName &&
        run.done[i].tags["genre"] == Genre
  {
    var normalized := NormalizeAll(fixed);
    ExportStageShape(game, outputDir, albumDirs, saveCovers, normalized, stopAt);
    var run := ExportStage(game, outputDir, albumDirs, saveCovers, normalized, stopAt);
    forall i | 0 <= i < |run.done|
      ensures "album" in run.done[i].tags && "genre" in run.done[i].tags
      ensures run.done[i].tags["album"] == AlbumPrefix + fixed[i].albumName
      ensures run.done[i].tags["genre"] == Genre
    {
      TagsRoundTrip(normalized[i]);
    }
  }

  /** Without a stop and without an error, every parsed song is exported, in the sorted order. */
  lemma RipExportsAll(game: GameData, outputDir: string, language: Option<string>,
                      albumDirs: bool, saveCovers: bool, saveSongsCsv: bool)
    requires ParseConfigSpec(game, language).Ok?
    ensures var songs := ParseConfigSpec(game, language).value.songs;
      var log := RipSpec(game, true, outputDir, language, albumDirs, saveCovers, saveSongsCsv, None);
      log.error.None? ==>
        |log.exported| == |songs| &&
        forall i :: 0 <= i < |songs| ==>
          log.exported[i].musicPath == MusicPath(outputDir, albumDirs, NormalizeSong(FixSong(songs[i])))
  {
    var songs := ParseConfigSpec(game, language).value.songs;
    ExportStageShape(game, outputDir, albumDirs, saveCovers, NormalizeAll(FixAll(songs)), None);
  }

  /** A stop seen at check `k` ends the rip after at most `k` songs (none when seen before the loop). */
  lemma RipStops(game: GameData, outputDir: string, language: Option<string>,
                 albumDirs: bool, saveCovers: bool, saveSongsCsv: bool, k: nat)
    requires ParseConfigSpec(game, language).Ok?
    ensures var songs := ParseConfigSpec(game, language).value.songs;
      var log := RipSpec(game, true, outputDir, language, albumDirs, saveCovers, saveSongsCsv, Some(k));
      |log.exported| <= k &&
      (log.error.None? ==> |log.exported| == if k < |songs| then k else |songs|)
  {
    var songs := ParseConfigSpec(game, language).value.songs;
    ExportStageShape(game, outputDir, albumDirs, saveCovers, NormalizeAll(FixAll(songs)), Some(k));
  }

  // ---------------------------------------------------------------- the methods

  /** The values of a list of Song objects, in list order. */
  function Values(songs: seq<Song>): (r: seq<SongRecord>)
    reads songs
    ensures |r| == |songs| && forall i :: 0 <= i < |songs| ==> r[i] == songs[i].Value()
  {
    seq(|songs|, i reads songs requires 0 <= i < |songs| => songs[i].Value())
  }

  /**
   * The body of rip's export loop for song `j`: sanitize the names, extract, tag, name the files;
   * `outcomes` holds what exporting each song on its own gives.
   */
  method ExportOne(game: GameData, outputDir: string, albumDirs: bool, saveCovers: bool,
                   songs: seq<Song>, j: nat, ghost outcomes: seq<Result<Exported>>)
    returns (r: Result<Exported>)
    requires j < |songs| == |outcomes|
    requires forall i {:trigger songs[i]} :: 0 <= i < |songs| ==>
               outcomes[i] == ExportSong(game, outputDir, albumDirs, saveCovers, songs[i].Value())
    ensures r == outcomes[j]
  {
    var song := songs[j];
    var albumDirname := NormalizePathSegment(song.albumName);
    var songFilestem := NormalizePathSegment(song.title);
    var music := ExtractMusic(game, song.Value());
    if music.Err? {
      return Err(music.error);
    }
    var cover := ExtractCover(game, song.Value());
    if cover.Err? {
      return Err(cover.error);
    }
    var tags := EmbedMetadata(cover.value, song.Value());
    if tags.Err? {
      return Err(tags.error);
    }
    var musicFilename := if albumDirs then Join(Join(outputDir, albumDirname), songFilestem + ".ogg")
                         else Join(outputDir, songFilestem + ".ogg");
    var coverFilename: Option<string> := None;
    if saveCovers {
      coverFilename := if albumDirs then Some(Join(Join(Join(outputDir, "covers"), albumDirname), songFilestem + ".png"))
                       else Some(Join(Join(outputDir, "covers"), songFilestem + ".png"));
    }
    return Ok(Exported(musicFilename, coverFilename, tags.value));
  }

  /**
   * rip's export loop over the normalized Song objects, checking the stop flag after each song;
   * `outcomes` holds what exporting each song on its own gives.
   */
  method ExportSongs(game: GameData, outputDir: string, albumDirs: bool, saveCovers: bool,
                     songs: seq<Song>, stopAt: Option<nat>, ghost outcomes: seq<Result<Exported>>)
    returns (run: ExportRun)
    requires stopAt != Some(0) && |outcomes| == |songs|
    requires forall i {:trigger songs[i]} :: 0 <= i < |songs| ==>
               outcomes[i] == ExportSong(game, outputDir, albumDirs, saveCovers, songs[i].Value())
    ensures run == ExportPrefix(outcomes, Reached(stopAt, |songs|))
  {
    ghost var n := Reached(stopAt, |songs|);
    var done: seq<Exported> := [];
    var j := 0;
    while j < |songs|
      invariant 0 <= j <= n && stopAt != Some(j)
      invariant ExportPrefix(outcomes, j) == ExportRun(done, None)
    {
      var exported := ExportOne(game, outputDir, albumDirs, saveCovers, songs, j, outcomes);
      if exported.Err? {
        ExportPrefixAfterError(outcomes, j + 1, n);
        return ExportRun(done, Some(exported.error));
      }
      done := done + [exported.value];
      j := j + 1;
      if stopAt == Some(j) {
        return ExportRun(done, None);
      }
    }
    return ExportRun(done, None);
  }

  /** One new Song object per record, in order, no object twice. */
  method NewSongs(records: seq<SongRecord>) returns (songs: seq<Song>)
    ensures Distinct(songs) && Values(songs) == records
    ensures forall i :: 0 <= i < |songs| ==> fresh(songs[i])
  {
    songs := [];
    for i := 0 to |records|
      invariant Distinct(songs) && |songs| == i
      invariant forall k :: 0 <= k < i ==> fresh(songs[k]) && songs[k].Value() == records[k]
    {
      var song := new Song(records[i]);
      songs := songs + [song];
    }
  }

  /** New Song objects for the parsed songs, corrected by fix_songs. */
  method FixedSongs(records: seq<SongRecord>) returns (songs: seq<Song>)
    ensures Distinct(songs) && Values(songs) == FixAll(records)
    ensures forall i :: 0 <= i < |songs| ==> fresh(songs[i])
  {
    songs := NewSongs(records);
    FixSongs(songs);
    assert Values(songs) == FixAll(records);
  }

  /**
   * The steps of rip between parsing and exporting: fix_songs on new Song objects, songs.csv
   * from the fixed songs if asked, then normalize_songs.
   */
  method PrepareSongs(records: seq<SongRecord>, saveSongsCsv: bool)
    returns (songs: seq<Song>, csv: Option<seq<seq<string>>>)
    ensures Distinct(songs) && Values(songs) == NormalizeAll(FixAll(records))
    ensures csv == if saveSongsCsv then Some(CsvTable(FixAll(records))) else None
  {
    songs := FixedSongs(records);
    ghost var fixed := Values(songs);
    csv := None;
    if saveSongsCsv {
      var bom, table := SongsToCsv(songs);
      CsvTableOf(table, fixed);
      csv := Some(table);
    }
    NormalizeSongs(songs);
    assert Values(songs) == NormalizeAll(fixed);
  }

  /** The export stage of rip: nothing when the stop is seen before the loop, else the loop. */
  method ExportAll(game: GameData, outputDir: string, albumDirs: bool, saveCovers: bool,
                   songs: seq<Song>, stopAt: Option<nat>)
    returns (run: ExportRun)
    ensures run == ExportStage(game, outputDir, albumDirs, saveCovers, Values(songs), stopAt)
  {
    ghost var values := Values(songs);
    ghost var outcomes := SongOutcomes(game, outputDir, albumDirs, saveCovers, values);
    if stopAt == Some(0) {
      assert Reached(stopAt, |values|) == 0;
      return ExportRun([], None);
    }
    run := ExportSongs(game, outputDir, albumDirs, saveCovers, songs, stopAt, outcomes);
  }

  /** rip, step by step, over Song objects that fix_songs and normalize_songs update in place. */
  method Rip(game: GameData, exePresent: bool, outputDir: string, language: Option<string>,
             albumDirs: bool, saveCovers: bool, saveSongsCsv: bool, stopAt: Option<nat>)
    returns (log: RipLog)
    ensures log == RipSpec(game, exePresent, outputDir, language, albumDirs, saveCovers, saveSongsCsv, stopAt)
  {
    // without MuseDash.exe the folder is not a game installation
    if !exePresent {
      return RipLog(None, [], Some(GameExeMissing));
    }
    var parsed := ParseConfig(game, language);
    if parsed.Err? {
      return RipLog(None, [], Some(parsed.error));
    }
    var songs, csv := PrepareSongs(parsed.value.songs, saveSongsCsv);
    var run := ExportAll(game, outputDir, albumDirs, saveCovers, songs, stopAt);
    return RipLog(csv, run.done, run.error);
  }
}
