/**
 * What rip writes for each song: file names made safe by normalize_path_segment, the
 * output-path layout, the rows songs_to_csv writes, the tags embed_metadata sets, and the
 * asset lookups of extract_music and extract_cover.
 */
module Export {
  import opened Outcomes
  import opened Strings
  import opened Bundles
  import opened Songs

  // ---------------------------------------------------------------- normalize_path_segment

  /** ILLEGAL_FILENAME_CHARS: the characters Windows refuses in a file name. */
  const IllegalFilenameChars := "<>:\"/\\|?*"

  function SanitizeChar(c: char): char {
    if c in IllegalFilenameChars then '_' else c
  }

  /** The file-name segment: every illegal character becomes '_', every other character stays. */
  function Sanitized(path: string): (r: string)
    ensures |r| == |path|
    ensures forall k :: 0 <= k < |path| ==> r[k] == SanitizeChar(path[k])
  {
    seq(|path|, k requires 0 <= k < |path| => SanitizeChar(path[k]))
  }

  /** normalize_path_segment: one str.replace(char, "_") per illegal character, in table order. */
  method NormalizePathSegment(path: string) returns (r: string)
    ensures r == Sanitized(path)
  {
    r := path;
    for i := 0 to |IllegalFilenameChars|
      invariant |r| == |path|
      invariant forall k :: 0 <= k < |path| ==>
        r[k] == if path[k] in IllegalFilenameChars[..i] then '_' else path[k]
    {
      var c := IllegalFilenameChars[i];
      assert IllegalFilenameChars[..i + 1] == IllegalFilenameChars[..i] + [c];
      ReplaceChar(r, c, '_');
      r := Replace(r, [c], "_");
    }
    assert IllegalFilenameChars[..|IllegalFilenameChars|] == IllegalFilenameChars;
  }

  /** The result holds no illegal character. */
  lemma SanitizedClean(path: string)
    ensures forall k :: 0 <= k < |path| ==> Sanitized(path)[k] !in IllegalFilenameChars
  {
    assert '_' !in IllegalFilenameChars;
  }

  /** A segment without illegal characters is kept as it is. */
  lemma SanitizedKeepsLegal(path: string)
    requires forall k :: 0 <= k < |path| ==> path[k] !in IllegalFilenameChars
    ensures Sanitized(path) == path
  {
  }

  /** Normalizing twice is normalizing once. */
  lemma SanitizedIdempotent(path: string)
    ensures Sanitized(Sanitized(path)) == Sanitized(path)
  {
    SanitizedClean(path);
    SanitizedKeepsLegal(Sanitized(path));
  }

  /** Different names can give the same file name. */
  lemma SanitizedNotInjective()
    ensures "A:B" != "A_B" && Sanitized("A:B") == Sanitized("A_B")
  {
  }

  // ---------------------------------------------------------------- output paths

  /** posixpath.join(a, b): an absolute `b` replaces `a`; otherwise one '/' goes between them. */
  function Join(a: string, b: string): string {
    if StartsWith(b, "/") then b
    else if a == [] || EndsWith(a, "/") then a + b
    else a + "/" + b
  }

  /** The music file of a song: out/[album/]title.ogg. */
  function MusicPath(outputDir: string, albumDirs: bool, s: SongRecord): string {
    var stem := Sanitized(s.title) + ".ogg";
    if albumDirs then Join(Join(outputDir, Sanitized(s.albumName)), stem) else Join(outputDir, stem)
  }

  /** The cover file of a song: out/covers/[album/]title.png. */
  function CoverPath(outputDir: string, albumDirs: bool, s: SongRecord): string {
    var stem := Sanitized(s.title) + ".png";
    var covers := Join(outputDir, "covers");
    if albumDirs then Join(Join(covers, Sanitized(s.albumName)), stem) else Join(covers, stem)
  }

  /** A normalized segment never starts with '/', so joining never discards the directory. */
  lemma SanitizedRelative(segment: string, extension: string)
    requires !StartsWith(extension, "/")
    ensures !StartsWith(Sanitized(segment) + extension, "/")
  {
    SanitizedClean(segment);
    if segment != [] {
      assert Sanitized(segment)[0] !in IllegalFilenameChars;
      assert (Sanitized(segment) + extension)[0] == Sanitized(segment)[0];
    } else {
      assert Sanitized(segment) + extension == extension;
    }
  }

  /** A non-empty normalized segment does not end with '/'. */
  lemma SanitizedNoTrailingSlash(segment: string)
    requires segment != []
    ensures !EndsWith(Sanitized(segment), "/")
  {
    SanitizedClean(segment);
    var t := Sanitized(segment);
    assert t[|t| - 1] !in IllegalFilenameChars;
    assert t[|t| - 1..][0] == t[|t| - 1];
  }

  /** Joining onto a directory without a trailing '/' a relative part puts one '/' between them. */
  lemma JoinRelative(a: string, b: string)
    requires a != [] && !EndsWith(a, "/") && !StartsWith(b, "/")
    ensures Join(a, b) == a + "/" + b
  {
  }

  /** Joining a part without a trailing '/' leaves none. */
  lemma NoTrailingSlash(a: string, b: string)
    requires b != [] && !EndsWith(b, "/")
    ensures !EndsWith(a + "/" + b, "/")
  {
  }

  /** Under a directory without a trailing '/', a file goes to dir/album/title+ext, or dir/title+ext. */
  lemma StemLayout(dir: string, s: SongRecord, extension: string)
    requires dir != [] && !EndsWith(dir, "/") && s.albumName != []
    requires extension == ".ogg" || extension == ".png"
    ensures Join(Join(dir, Sanitized(s.albumName)), Sanitized(s.title) + extension)
            == dir + "/" + Sanitized(s.albumName) + "/" + Sanitized(s.title) + extension
    ensures Join(dir, Sanitized(s.title) + extension) == dir + "/" + Sanitized(s.title) + extension
  {
    var album := Sanitized(s.albumName);
    var stem := Sanitized(s.title) + extension;
    assert !StartsWith(extension, "/") && !StartsWith("", "/");
    SanitizedRelative(s.title, extension);
    SanitizedRelative(s.albumName, "");
    assert album + "" == album;
    SanitizedNoTrailingSlash(s.albumName);
    JoinRelative(dir, album);
    NoTrailingSlash(dir, album);
    JoinRelative(dir + "/" + album, stem);
    JoinRelative(dir, stem);
  }

  /**
   * For an output directory without a trailing '/' and a non-empty album name, the music file is
   * out/album/title.ogg, or out/title.ogg without album directories.
   */
  lemma MusicLayout(outputDir: string, s: SongRecord)
    requires outputDir != [] && !EndsWith(outputDir, "/") && s.albumName != []
    ensures MusicPath(outputDir, true, s) == outputDir + "/" + Sanitized(s.albumName) + "/" + Sanitized(s.title) + ".ogg"
    ensures MusicPath(outputDir, false, s) == outputDir + "/" + Sanitized(s.title) + ".ogg"
  {
    StemLayout(outputDir, s, ".ogg");
  }

  /** The covers directory is out/covers, which has no trailing '/'. */
  lemma CoversDir(outputDir: string)
    requires outputDir != [] && !EndsWith(outputDir, "/")
    ensures Join(outputDir, "covers") == outputDir + "/covers"
    ensures !EndsWith(outputDir + "/covers", "/")
  {
    assert !StartsWith("covers", "/") && !EndsWith("covers", "/");
    JoinRelative(outputDir, "covers");
    NoTrailingSlash(outputDir, "covers");
    assert outputDir + "/" + "covers" == outputDir + "/covers";
  }

  /**
   * For an output directory without a trailing '/' and a non-empty album name, the cover file is
   * out/covers/album/title.png, or out/covers/title.png without album directories.
   */
  lemma CoverLayout(outputDir: string, s: SongRecord)
    requires outputDir != [] && !EndsWith(outputDir, "/") && s.albumName != []
    ensures CoverPath(outputDir, true, s) == outputDir + "/covers/" + Sanitized(s.albumName) + "/" + Sanitized(s.title) + ".png"
    ensures CoverPath(outputDir, false, s) == outputDir + "/covers/" + Sanitized(s.title) + ".png"
  {
    CoversDir(outputDir);
    var covers := outputDir + "/covers";
    StemLayout(covers, s, ".png");
    assert covers + "/" == outputDir + "/covers/";
  }

  /** Two songs of the same album whose titles differ only in illegal characters get the same file. */
  lemma PathsCollide(outputDir: string, albumDirs: bool, s: SongRecord, t: SongRecord)
    requires s.albumName == t.albumName && s.title == "A:B" && t.title == "A_B"
    ensures s.title != t.title && MusicPath(outputDir, albumDirs, s) == MusicPath(outputDir, albumDirs, t)
  {
    SanitizedNotInjective();
  }

  // ---------------------------------------------------------------- songs_to_csv

  /** The byte order mark that makes spreadsheet programs read the file as UTF-8. */
  const Bom := "\U{FEFF}"

  /** The CSV header: the Song fields in declaration order, without genre. */
  const CsvFields: seq<string> := ["title", "artist", "album_number", "album_name", "track_number",
                                   "track_total", "asset_name", "music_name", "cover_name"]

  /** The cells of one song's row, one per header field; integers written as str() writes them. */
  function CsvRow(s: SongRecord): (r: seq<string>)
    ensures |r| == |CsvFields|
  {
    [s.title, s.artist, IntToString(s.albumNumber), s.albumName, IntToString(s.trackNumber),
     IntToString(s.trackTotal), s.assetName, s.musicName, s.coverName]
  }

  /**
   * The row as csv.DictWriter sees it: dataclasses.asdict of the song without genre, each
   * integer written as str() writes it.
   */
  function AsDict(s: SongRecord): map<string, string> {
    map["title" := s.title, "artist" := s.artist, "album_number" := IntToString(s.albumNumber),
        "album_name" := s.albumName, "track_number" := IntToString(s.trackNumber),
        "track_total" := IntToString(s.trackTotal), "asset_name" := s.assetName,
        "music_name" := s.musicName, "cover_name" := s.coverName]
  }

  /** Each cell of a row sits under its own header field: cell k is the song's field CsvFields[k]. */
  lemma CsvRowColumns(s: SongRecord)
    ensures forall k :: 0 <= k < |CsvFields| ==> CsvFields[k] in AsDict(s) && CsvRow(s)[k] == AsDict(s)[CsvFields[k]]
  {
  }

  /** Reading a row back: the song it describes (without genre), if its integer cells parse. */
  function ParseRow(cells: seq<string>): (r: Option<SongRecord>)
    ensures r.Some? ==> |cells| == |CsvFields| && r.value.genre == None
  {
    if |cells| != |CsvFields| then None
    else match (ParseInt(cells[2]), ParseInt(cells[4]), ParseInt(cells[5]))
      case (Some(album), Some(track), Some(total)) =>
        Some(SongRecord(cells[0], cells[1], album, cells[3], track, total, cells[6], cells[7], cells[8], None))
      case _ => None
  }

  /** A row holds every field of the song except genre: reading it back gives the song. */
  lemma CsvRowRoundTrip(s: SongRecord)
    ensures ParseRow(CsvRow(s)) == Some(s.(genre := None))
  {
    IntToStringRoundTrip(s.albumNumber);
    IntToStringRoundTrip(s.trackNumber);
    IntToStringRoundTrip(s.trackTotal);
  }

  /** The whole table: the header, then one row per song in list order. */
  function CsvTable(songs: seq<SongRecord>): (r: seq<seq<string>>)
    ensures |r| == |songs| + 1 && r[0] == CsvFields
    ensures forall i :: 0 <= i < |songs| ==> r[i + 1] == CsvRow(songs[i])
  {
    [CsvFields] + seq(|songs|, i requires 0 <= i < |songs| => CsvRow(songs[i]))
  }

  /** A table with the header and the rows of `songs` in order is the table of `songs`. */
  lemma CsvTableOf(table: seq<seq<string>>, songs: seq<SongRecord>)
    requires |table| == |songs| + 1 && table[0] == CsvFields
    requires forall i :: 0 <= i < |songs| ==> table[i + 1] == CsvRow(songs[i])
    ensures table == CsvTable(songs)
  {
    var t := CsvTable(songs);
    forall k | 0 < k < |table|
      ensures table[k] == t[k]
    {
      assert table[(k - 1) + 1] == CsvRow(songs[k - 1]);
    }
  }

  /** songs_to_csv: the byte order mark, the header, then a row per song, read from the Song objects. */
  method SongsToCsv(songs: seq<Song>) returns (bom: string, table: seq<seq<string>>)
    ensures bom == Bom
    ensures |table| == |songs| + 1 && table[0] == CsvFields
    ensures forall i :: 0 <= i < |songs| ==> table[i + 1] == CsvRow(songs[i].Value())
  {
    bom := Bom;
    table := [CsvFields];
    for i := 0 to |songs|
      invariant |table| == i + 1 && table[0] == CsvFields
      invariant forall k :: 0 <= k < i ==> table[k + 1] == CsvRow(songs[k].Value())
    {
      table := table + [CsvRow(songs[i].Value())];
    }
  }

  // ---------------------------------------------------------------- embed_metadata

  /** The Vorbis comments embed_metadata sets (the cover picture block is not modelled). */
  function Tags(s: SongRecord): (r: map<string, string>)
    ensures r.Keys == {"title", "artist", "album", "tracknumber", "tracktotal"}
                      + (if s.genre.Some? then {"genre"} else {})
    ensures s.genre.Some? ==> r["genre"] == s.genre.value
  {
    var base := map["title" := s.title, "artist" := s.artist, "album" := s.albumName,
                    "tracknumber" := IntToString(s.trackNumber), "tracktotal" := IntToString(s.trackTotal)];
    if s.genre.Some? then base["genre" := s.genre.value] else base
  }

  /** The tags give back the song's title, artist, album and track numbers. */
  lemma TagsRoundTrip(s: SongRecord)
    ensures var t := Tags(s);
      t["title"] == s.title && t["artist"] == s.artist && t["album"] == s.albumName &&
      ParseInt(t["tracknumber"]) == Some(s.trackNumber) && ParseInt(t["tracktotal"]) == Some(s.trackTotal)
  {
    IntToStringRoundTrip(s.trackNumber);
    IntToStringRoundTrip(s.trackTotal);
  }

  /** embed_metadata: the tags, once the cover image has been checked to be RGBA. */
  function EmbedMetadata(coverMode: string, s: SongRecord): (r: Result<map<string, string>>)
    ensures r.Ok? <==> coverMode == "RGBA"
    ensures r.Ok? ==> r.value == Tags(s)
  {
    if coverMode != "RGBA" then Err(CoverNotRgba(s.coverName)) else Ok(Tags(s))
  }

  // ---------------------------------------------------------------- extract_music, extract_cover

  function MusicPrefix(s: SongRecord): string {
    "music_assets_" + s.musicName + "_"
  }

  function CoverPrefix(s: SongRecord): string {
    "song_" + s.assetName + "_assets_all_"
  }

  /** The objects of the one bundle file whose name starts with `prefix`, if it is unique and loads. */
  function FoundBundle(game: GameData, prefix: string): Option<seq<BundleObject>> {
    match FindWithPrefix(game.files, prefix)
    case Ok(path) => if path in game.bundles then Some(game.bundles[path]) else None
    case Err(_) => None
  }

  /** The first object of type `objectType` named `name` in that bundle, if there is one. */
  function FoundAsset(game: GameData, prefix: string, objectType: string, name: string): Option<BundleObject> {
    match FoundBundle(game, prefix)
    case None => None
    case Some(objects) =>
      match FirstAssetIndex(objects, objectType, name)
      case None => None
      case Some(i) => Some(objects[i])
  }

  /**
   * extract_music: the first AudioClip named music_name in the one bundle starting with
   * music_assets_<music_name>_, which must hold exactly one FSB5 sample.
   */
  function MusicClip(game: GameData, s: SongRecord): (r: Result<BundleObject>)
    ensures FindWithPrefix(game.files, MusicPrefix(s)).Err? ==> r == Err(BundleNotUnique(MusicPrefix(s)))
    ensures r.Ok? ==> FoundAsset(game, MusicPrefix(s), "AudioClip", s.musicName) == Some(r.value)
    ensures r.Ok? ==> IsAsset(r.value, "AudioClip", s.musicName) && r.value.payload == Audio(1)
    ensures (FoundBundle(game, MusicPrefix(s)).Some? && FoundAsset(game, MusicPrefix(s), "AudioClip", s.musicName).None?)
              ==> r == Err(AssetNotFound(s.musicName))
    ensures var clip := FoundAsset(game, MusicPrefix(s), "AudioClip", s.musicName);
      (clip.Some? && clip.value.payload.Audio? && clip.value.payload.sampleCount != 1)
        ==> r == Err(SampleCountNotOne(s.musicName, clip.value.payload.sampleCount))
    ensures var clip := FoundAsset(game, MusicPrefix(s), "AudioClip", s.musicName);
      clip.Some? && clip.value.payload == Audio(1) ==> r == Ok(clip.value)
  {
    var path :- FindWithPrefix(game.files, MusicPrefix(s));
    var objects :- LoadBundle(game, path);
    match FirstAssetIndex(objects, "AudioClip", s.musicName)
    case None => Err(AssetNotFound(s.musicName))
    case Some(i) =>
      match objects[i].payload
      case Audio(count) => if count != 1 then Err(SampleCountNotOne(s.musicName, count)) else Ok(objects[i])
      case _ => Err(PayloadMismatch(s.musicName))
  }

  /**
   * extract_cover: the mode of the first Texture2D named cover_name in the one bundle starting
   * with song_<asset_name>_assets_all_.
   */
  function CoverMode(game: GameData, s: SongRecord): (r: Result<string>)
    ensures FindWithPrefix(game.files, CoverPrefix(s)).Err? ==> r == Err(BundleNotUnique(CoverPrefix(s)))
    ensures r.Ok? ==> var texture := FoundAsset(game, CoverPrefix(s), "Texture2D", s.coverName);
      texture.Some? && texture.value.payload == Image(r.value)
    ensures (FoundBundle(game, CoverPrefix(s)).Some? && FoundAsset(game, CoverPrefix(s), "Texture2D", s.coverName).None?)
              ==> r == Err(AssetNotFound(s.coverName))
    ensures var texture := FoundAsset(game, CoverPrefix(s), "Texture2D", s.coverName);
      texture.Some? && texture.value.payload.Image? ==> r == Ok(texture.value.payload.mode)
  {
    var path :- FindWithPrefix(game.files, CoverPrefix(s));
    var objects :- LoadBundle(game, path);
    match FirstAssetIndex(objects, "Texture2D", s.coverName)
    case None => Err(AssetNotFound(s.coverName))
    case Some(i) =>
      match objects[i].payload
      case Image(mode) => Ok(mode)
      case _ => Err(PayloadMismatch(s.coverName))
  }

  /** extract_music as the source runs it, through find_asset. */
  method ExtractMusic(game: GameData, s: SongRecord) returns (r: Result<BundleObject>)
    ensures r == MusicClip(game, s)
  {
    var path :- FindWithPrefix(game.files, MusicPrefix(s));
    var objects :- LoadBundle(game, path);
    var found := FindAsset(objects, "AudioClip", s.musicName, true);
    match found {
      case Err(e) => return Err(e);
      case Ok(None) => assert false;
      case Ok(Some(clip)) =>
        match clip.payload {
          case Audio(count) =>
            // a music clip holding several samples is refused
            if count != 1 {
              return Err(SampleCountNotOne(s.musicName, count));
            }
            return Ok(clip);
          case _ => return Err(PayloadMismatch(s.musicName));
        }
    }
  }

  /** extract_cover as the source runs it, through find_asset. */
  method ExtractCover(game: GameData, s: SongRecord) returns (r: Result<string>)
    ensures r == CoverMode(game, s)
  {
    var path :- FindWithPrefix(game.files, CoverPrefix(s));
    var objects :- LoadBundle(game, path);
    var found := FindAsset(objects, "Texture2D", s.coverName, true);
    match found {
      case Err(e) => return Err(e);
      case Ok(None) => assert false;
      case Ok(Some(texture)) =>
        match texture.payload {
          case Image(mode) => return Ok(mode);
          case _ => return Err(PayloadMismatch(s.coverName));
        }
    }
  }

  // ---------------------------------------------------------------- one song

  /** What exporting one song writes: the music file, the cover file if requested, the tags. */
  datatype Exported = Exported(musicPath: string, coverPath: Option<string>, tags: map<string, string>)

  /** The loop body of rip for one song: extract music, extract cover, embed, then name the files. */
  function ExportSong(game: GameData, outputDir: string, albumDirs: bool, saveCovers: bool, s: SongRecord)
    : Result<Exported>
  {
    var clip :- MusicClip(game, s);
    var mode :- CoverMode(game, s);
    var tags :- EmbedMetadata(mode, s);
    Ok(Exported(MusicPath(outputDir, albumDirs, s),
                if saveCovers then Some(CoverPath(outputDir, albumDirs, s)) else None, tags))
  }

  /**
   * A song is exported exactly when its music clip, its cover and the cover's RGBA mode are all
   * found; it is then written to its music path (and cover path), tagged with its own fields.
   */
  lemma ExportSongShape(game: GameData, outputDir: string, albumDirs: bool, saveCovers: bool, s: SongRecord)
    ensures var r := ExportSong(game, outputDir, albumDirs, saveCovers, s);
      r.Ok? <==> MusicClip(game, s).Ok? && CoverMode(game, s) == Ok("RGBA")
    ensures var r := ExportSong(game, outputDir, albumDirs, saveCovers, s);
      r.Ok? ==> r.value.musicPath == MusicPath(outputDir, albumDirs, s) && r.value.tags == Tags(s) &&
                r.value.coverPath == if saveCovers then Some(CoverPath(outputDir, albumDirs, s)) else None
  {
  }
}
