/**
 * The Song dataclass and the two passes that rewrite songs in place: fix_songs (a fixed
 * table of data corrections) and normalize_songs (album-name prefix and genre).
 */
module Songs {
  import opened Outcomes
  import opened Strings

  /** The value of a Song's ten fields. */
  datatype SongRecord = SongRecord(
    title: string,
    artist: string,
    albumNumber: int,      // the number in the album's jsonName, the first sort key
    albumName: string,
    trackNumber: int,      // counts from 1
    trackTotal: int,
    assetName: string,     // names the cover bundle
    musicName: string,     // names the music bundle and its AudioClip
    coverName: string,     // names the Texture2D in the cover bundle
    genre: Option<string>)

  /** The Song dataclass: a mutable record that fix_songs and normalize_songs update in place. */
  class Song {
    var title: string
    var artist: string
    var albumNumber: int
    var albumName: string
    var trackNumber: int
    var trackTotal: int
    var assetName: string
    var musicName: string
    var coverName: string
    var genre: Option<string>

    constructor (r: SongRecord)
      ensures Value() == r
    {
      title, artist, albumNumber, albumName := r.title, r.artist, r.albumNumber, r.albumName;
      trackNumber, trackTotal := r.trackNumber, r.trackTotal;
      assetName, musicName, coverName, genre := r.assetName, r.musicName, r.coverName, r.genre;
    }

    function Value(): SongRecord
      reads this
    {
      SongRecord(title, artist, albumNumber, albumName, trackNumber, trackTotal,
                 assetName, musicName, coverName, genre)
    }
  }

  /** No Song object appears twice in the list. */
  predicate Distinct(songs: seq<Song>) {
    forall i, j :: 0 <= i < j < |songs| ==> songs[i] != songs[j]
  }

  // ---------------------------------------------------------------- fix_songs

  const ChaosGlitchCover := "chaos_glitch_cover"
  const ChaosGlitch := "chaos_glitch"
  const SugarRadio := "fm_17314_sugar_radio"
  const Jianhai := "qu_jianhai_de_rizi"
  const JianhaiCover := "qu_jianhai_de_rizi_cover"

  /** What fix_songs does to one song: only the cover name, asset name and album name change. */
  function FixSong(s: SongRecord): (r: SongRecord)
    ensures r == s.(coverName := r.coverName, assetName := r.assetName, albumName := r.albumName)
  {
    var cover := if s.coverName == ChaosGlitchCover then "chaos_cover" else s.coverName;
    var asset := if s.assetName == ChaosGlitch then "chaos" else s.assetName;
    var album := Replace(s.albumName, "Everyting", "Everything");
    var asset' := Replace(asset, "_music", "");
    if asset' == SugarRadio then
      s.(coverName := JianhaiCover, assetName := Jianhai, albumName := album)
    else
      s.(coverName := cover, assetName := asset', albumName := album)
  }

  /** fix_songs: applies FixSong to every song of the list, in place. */
  method FixSongs(songs: seq<Song>)
    requires Distinct(songs)
    modifies set s | s in songs
    ensures forall i :: 0 <= i < |songs| ==> songs[i].Value() == FixSong(old(songs[i].Value()))
  {
    for i := 0 to |songs|
      invariant forall k :: 0 <= k < i ==> songs[k].Value() == FixSong(old(songs[k].Value()))
      invariant forall k :: i <= k < |songs| ==> songs[k].Value() == old(songs[k].Value())
    {
      FixOne(songs[i]);
    }
  }

  /** The body of fix_songs' loop for one song. */
  method FixOne(song: Song)
    modifies song
    ensures song.Value() == FixSong(old(song.Value()))
  {
    // the chaos_glitch names are mapped back to the chaos asset and cover
    if song.coverName == ChaosGlitchCover {
      song.coverName := "chaos_cover";
    }
    if song.assetName == ChaosGlitch {
      song.assetName := "chaos";
    }
    // the album-name typo is corrected
    song.albumName := Replace(song.albumName, "Everyting", "Everything");
    // every "_music" is removed from the asset name
    song.assetName := Replace(song.assetName, "_music", "");
    // this song shares its asset and cover with qu_jianhai_de_rizi
    if song.assetName == SugarRadio {
      song.assetName := Jianhai;
      song.coverName := JianhaiCover;
    }
  }

  lemma NoMusicInChaos()
    ensures !Contains("chaos", "_music")
  {
  }

  /** The chaos_glitch asset name becomes chaos, whatever the cover name is; the cover name gets its own fix. */
  lemma FixSongChaosAsset(s: SongRecord)
    requires s.assetName == ChaosGlitch
    ensures FixSong(s).assetName == "chaos"
    ensures FixSong(s).coverName == if s.coverName == ChaosGlitchCover then "chaos_cover" else s.coverName
  {
    NoMusicInChaos();
    ReplaceAbsent("chaos", "_music", "");
    assert "chaos" != SugarRadio;
  }

  /**
   * The chaos_glitch_cover cover name becomes chaos_cover, whatever the asset name is, unless
   * the asset is the one remapped to qu_jianhai_de_rizi.
   */
  lemma FixSongChaosCover(s: SongRecord)
    requires s.coverName == ChaosGlitchCover
    requires s.assetName != SugarRadio && !Contains(s.assetName, "_music")
    ensures FixSong(s).coverName == "chaos_cover"
  {
    if s.assetName == ChaosGlitch {
      FixSongChaosAsset(s);
    } else {
      ReplaceAbsent(s.assetName, "_music", "");
    }
  }

  /** The album-name typo "Everyting" at the end of a name is corrected. */
  lemma FixSongEverything(s: SongRecord, p: string)
    requires s.albumName == p + "Everyting" && forall k :: 0 <= k < |p| ==> p[k] != 'E'
    ensures FixSong(s).albumName == p + "Everything"
  {
    ReplaceAfter(p, "Everyting", "Everything");
  }

  /** fm_17314_sugar_radio, with or without a "_music" part, takes qu_jianhai_de_rizi's asset and cover. */
  lemma FixSongSugarRadio(s: SongRecord)
    requires s.assetName == SugarRadio || s.assetName == SugarRadio + "_music"
    ensures FixSong(s).assetName == Jianhai && FixSong(s).coverName == JianhaiCover
  {
    assert s.assetName != ChaosGlitch;
    assert NoUnderscoreM(SugarRadio);
    if s.assetName == SugarRadio {
      NoMusicWithoutUnderscoreM(SugarRadio);
      ReplaceAbsent(SugarRadio, "_music", "");
    } else {
      StripTrailingMusic(SugarRadio);
    }
  }

  /** No '_' of `s` is followed by 'm'. */
  predicate NoUnderscoreM(s: string) {
    forall k :: 0 <= k < |s| - 1 ==> !(s[k] == '_' && s[k + 1] == 'm')
  }

  lemma {:induction false} NoMusicWithoutUnderscoreM(s: string)
    requires NoUnderscoreM(s)
    ensures !Contains(s, "_music")
    decreases |s|
  {
    if s != [] {
      NoMusicWithoutUnderscoreM(s[1..]);
      if |s| >= 6 {
        assert !(s[0] == '_' && s[1] == 'm');
        assert s[..6] != "_music";
      }
    }
  }

  /** Replace drops a trailing "_music" from a name in which no '_' is followed by 'm'. */
  lemma {:induction false} StripTrailingMusic(p: string)
    requires NoUnderscoreM(p)
    ensures Replace(p + "_music", "_music", "") == p
    decreases |p|
  {
    var t := p + "_music";
    if p == [] {
      assert t == "_music";
      ReplaceWhole("_music", "");
    } else {
      assert t[0] == p[0];
      assert t[1] == if |p| >= 2 then p[1] else '_';
      assert !(t[0] == '_' && t[1] == 'm');
      assert t[..6][0] == t[0] && t[..6][1] == t[1];
      assert t[..6] != "_music";
      assert t[1..] == p[1..] + "_music";
      StripTrailingMusic(p[1..]);
      assert [p[0]] + p[1..] == p;
    }
  }

  /** A song outside the correction table, with no misspelling and no "_music", is left as it is. */
  lemma FixSongUnchanged(s: SongRecord)
    requires s.coverName != ChaosGlitchCover && s.assetName != ChaosGlitch && s.assetName != SugarRadio
    requires !Contains(s.albumName, "Everyting") && !Contains(s.assetName, "_music")
    ensures FixSong(s) == s
  {
    ReplaceAbsent(s.albumName, "Everyting", "Everything");
    ReplaceAbsent(s.assetName, "_music", "");
  }

  /** Removing "_music" can create a new "_music", so fix_songs is not idempotent. */
  lemma FixSongNotIdempotent(s: SongRecord)
    requires s.assetName == "_mu_musicsic"
    ensures FixSong(s).assetName == "_music"
    ensures FixSong(FixSong(s)).assetName == ""
    ensures FixSong(FixSong(s)) != FixSong(s)
  {
    MusicRemovalMakesMusic();
    ReplaceWhole("_music", "");
  }

  lemma MusicRemovalMakesMusic()
    ensures Replace("_mu_musicsic", "_music", "") == "_music"
  {
    var m := "_music";
    MusicRemovalTail();
    var t2 := "u_musicsic";
    assert t2[..6] != m && t2[1..] == "_musicsic";
    assert Replace(t2, m, "") == "usic";
    var t1 := "mu_musicsic";
    assert t1[..6] != m && t1[1..] == t2;
    assert Replace(t1, m, "") == "music";
    var t0 := "_mu_musicsic";
    assert t0[..6][3] == '_' && m[3] == 's';
    assert t0[..6] != m && t0[1..] == t1;
  }

  lemma MusicRemovalTail()
    ensures Replace("_musicsic", "_music", "") == "sic"
  {
  }

  // ---------------------------------------------------------------- normalize_songs

  const AlbumPrefix := "Muse Dash - "
  const Genre := "Video Games"

  /** What normalize_songs does to one song: prefix the album name, set the genre. */
  function NormalizeSong(s: SongRecord): (r: SongRecord)
    ensures r == s.(albumName := r.albumName, genre := r.genre)
    ensures r.albumName == AlbumPrefix + s.albumName && r.genre == Some(Genre)
  {
    s.(albumName := AlbumPrefix + s.albumName, genre := Some(Genre))
  }

  /** normalize_songs: applies NormalizeSong to every song of the list, in place. */
  method NormalizeSongs(songs: seq<Song>)
    requires Distinct(songs)
    modifies set s | s in songs
    ensures forall i :: 0 <= i < |songs| ==> songs[i].Value() == NormalizeSong(old(songs[i].Value()))
  {
    for i := 0 to |songs|
      invariant forall k :: 0 <= k < i ==> songs[k].Value() == NormalizeSong(old(songs[k].Value()))
      invariant forall k :: i <= k < |songs| ==> songs[k].Value() == old(songs[k].Value())
    {
      var song := songs[i];
      song.albumName := AlbumPrefix + song.albumName;
      song.genre := Some(Genre);
    }
  }

  /** normalize_songs is not idempotent: a second run prefixes the album name again. */
  lemma NormalizeSongNotIdempotent(s: SongRecord)
    ensures NormalizeSong(NormalizeSong(s)) != NormalizeSong(s)
  {
    assert |NormalizeSong(NormalizeSong(s)).albumName| > |NormalizeSong(s).albumName|;
  }
}
