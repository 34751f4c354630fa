/**
 * The game's asset bundles as the ripper sees them: a directory listing searched by file-name
 * prefix (find_with_prefix), bundles of typed, named objects searched first-match
 * (find_asset), and text assets parsed as JSON lists of records (load_json).
 */
module Bundles {
  import opened Outcomes
  import opened Strings

  /** A JSON object from a config asset; every field the ripper reads is a string. */
  type Record = map<string, string>

  /** What reading a Unity object yields, by the kind of object. */
  datatype Payload =
    | Text(text: string)             // TextAsset.text
    | Audio(sampleCount: nat)        // number of samples fsb5 finds in AudioClip.m_AudioData
    | Image(mode: string)            // Texture2D.image, by its PIL mode
    | Opaque                         // any other object

  /** One object of a bundle: its type name (obj.type.name), its name (data.name) and what it holds. */
  datatype BundleObject = BundleObject(typeName: string, name: string, payload: Payload)

  /**
   * The part of a game installation the ripper reads: the names of the files in the
   * StreamingAssets/aa/StandaloneWindows64 directory, the objects of each bundle file that
   * UnityPy can load, and the records json5.loads produces from each text it accepts.
   */
  datatype GameData = GameData(
    files: seq<string>,
    bundles: map<string, seq<BundleObject>>,
    json: map<string, seq<Record>>)

  // ---------------------------------------------------------------- find_with_prefix

  /** The directory entries that start with `prefix`, in directory order (the glob results). */
  function Matching(dir: seq<string>, prefix: string): seq<string>
    decreases |dir|
  {
    if dir == [] then []
    else (if StartsWith(dir[0], prefix) then [dir[0]] else []) + Matching(dir[1..], prefix)
  }

  /** find_with_prefix: the one entry starting with `prefix`; zero or several matches raise. */
  function FindWithPrefix(dir: seq<string>, prefix: string): Result<string> {
    var results := Matching(dir, prefix);
    if |results| != 1 then Err(BundleNotUnique(prefix)) else Ok(results[0])
  }

  lemma {:induction false} MatchingNone(dir: seq<string>, prefix: string)
    requires forall j :: 0 <= j < |dir| ==> !StartsWith(dir[j], prefix)
    ensures Matching(dir, prefix) == []
    decreases |dir|
  {
    if dir != [] {
      MatchingNone(dir[1..], prefix);
    }
  }

  lemma {:induction false} MatchingOnly(dir: seq<string>, prefix: string, i: nat)
    requires i < |dir| && StartsWith(dir[i], prefix)
    requires forall j :: 0 <= j < |dir| && j != i ==> !StartsWith(dir[j], prefix)
    ensures Matching(dir, prefix) == [dir[i]]
    decreases |dir|
  {
    if i == 0 {
      MatchingNone(dir[1..], prefix);
    } else {
      MatchingOnly(dir[1..], prefix, i - 1);
    }
  }

  lemma {:induction false} MatchingTwo(dir: seq<string>, prefix: string, i: nat, j: nat)
    requires i < j < |dir| && StartsWith(dir[i], prefix) && StartsWith(dir[j], prefix)
    ensures |Matching(dir, prefix)| >= 2
    decreases |dir|
  {
    if i == 0 {
      MatchingAtLeastOne(dir[1..], prefix, j - 1);
    } else {
      MatchingTwo(dir[1..], prefix, i - 1, j - 1);
    }
  }

  lemma {:induction false} MatchingAtLeastOne(dir: seq<string>, prefix: string, j: nat)
    requires j < |dir| && StartsWith(dir[j], prefix)
    ensures |Matching(dir, prefix)| >= 1
    decreases |dir|
  {
    if j > 0 {
      MatchingAtLeastOne(dir[1..], prefix, j - 1);
    }
  }

  /** Exactly one matching entry is found, whatever its position. */
  lemma FindWithPrefixUnique(dir: seq<string>, prefix: string, i: nat)
    requires i < |dir| && StartsWith(dir[i], prefix)
    requires forall j :: 0 <= j < |dir| && j != i ==> !StartsWith(dir[j], prefix)
    ensures FindWithPrefix(dir, prefix) == Ok(dir[i])
  {
    MatchingOnly(dir, prefix, i);
  }

  /** Two matching entries raise: the first is never picked. */
  lemma FindWithPrefixAmbiguous(dir: seq<string>, prefix: string, i: nat, j: nat)
    requires i < j < |dir| && StartsWith(dir[i], prefix) && StartsWith(dir[j], prefix)
    ensures FindWithPrefix(dir, prefix) == Err(BundleNotUnique(prefix))
  {
    MatchingTwo(dir, prefix, i, j);
  }

  /** No matching entry raises. */
  lemma FindWithPrefixMissing(dir: seq<string>, prefix: string)
    requires forall j :: 0 <= j < |dir| ==> !StartsWith(dir[j], prefix)
    ensures FindWithPrefix(dir, prefix) == Err(BundleNotUnique(prefix))
  {
    MatchingNone(dir, prefix);
  }

  /** Whatever find_with_prefix returns is the one entry of the directory starting with `prefix`. */
  lemma FindWithPrefixSound(dir: seq<string>, prefix: string)
    requires FindWithPrefix(dir, prefix).Ok?
    ensures exists i :: 0 <= i < |dir| && dir[i] == FindWithPrefix(dir, prefix).value
              && StartsWith(dir[i], prefix)
              && forall j :: 0 <= j < |dir| && j != i ==> !StartsWith(dir[j], prefix)
  {
    if forall j :: 0 <= j < |dir| ==> !StartsWith(dir[j], prefix) {
      MatchingNone(dir, prefix);
    } else {
      var i :| 0 <= i < |dir| && StartsWith(dir[i], prefix);
      if j :| 0 <= j < |dir| && j != i && StartsWith(dir[j], prefix) {
        if i < j { MatchingTwo(dir, prefix, i, j); } else { MatchingTwo(dir, prefix, j, i); }
      } else {
        MatchingOnly(dir, prefix, i);
      }
    }
  }

  // ---------------------------------------------------------------- find_asset

  predicate IsAsset(obj: BundleObject, objectType: string, name: string) {
    obj.typeName == objectType && obj.name == name
  }

  /** The position of the first object of type `objectType` named `name`, if any. */
  function FirstAssetIndex(objects: seq<BundleObject>, objectType: string, name: string): (r: Option<nat>)
    ensures r.Some? ==> r.value < |objects| && IsAsset(objects[r.value], objectType, name)
    ensures r.Some? ==> forall j :: 0 <= j < r.value ==> !IsAsset(objects[j], objectType, name)
    ensures r.None? <==> forall j :: 0 <= j < |objects| ==> !IsAsset(objects[j], objectType, name)
    decreases |objects|
  {
    if objects == [] then None
    else if IsAsset(objects[0], objectType, name) then Some(0)
    else match FirstAssetIndex(objects[1..], objectType, name)
      case None => None
      case Some(i) => Some(i + 1)
  }

  /**
   * find_asset: scans the bundle's objects in order and returns the first of the wanted type
   * and name; when there is none it raises if `raiseOnNotFound`, and returns None otherwise.
   */
  method FindAsset(objects: seq<BundleObject>, objectType: string, name: string, raiseOnNotFound: bool)
    returns (r: Result<Option<BundleObject>>)
    ensures match FirstAssetIndex(objects, objectType, name)
      case Some(i) => r == Ok(Some(objects[i]))
      case None => r == if raiseOnNotFound then Err(AssetNotFound(name)) else Ok(None)
  {
    var i := 0;
    while i < |objects|
      invariant 0 <= i <= |objects|
      invariant forall j :: 0 <= j < i ==> !IsAsset(objects[j], objectType, name)
    {
      var obj := objects[i];
      if obj.typeName != objectType {
        i := i + 1;
        continue;
      }
      if obj.name == name {
        return Ok(Some(obj));
      }
      i := i + 1;
    }
    if raiseOnNotFound {
      return Err(AssetNotFound(name));
    }
    return Ok(None);
  }

  // ---------------------------------------------------------------- load_json

  /** The objects of a bundle file, or the error of loading it. */
  function LoadBundle(game: GameData, file: string): Result<seq<BundleObject>> {
    if file in game.bundles then Ok(game.bundles[file]) else Err(BundleUnreadable(file))
  }

  /** load_json: the TextAsset `assetName` of bundle `file`, parsed as a list of records. */
  function LoadJson(game: GameData, file: string, assetName: string): (r: Result<seq<Record>>)
    ensures file !in game.bundles ==> r == Err(BundleUnreadable(file))
    ensures file in game.bundles ==>
              (FirstAssetIndex(game.bundles[file], "TextAsset", assetName).None? <==> r == Err(AssetNotFound(assetName)))
    ensures r.Ok? <==> (file in game.bundles &&
              var i := FirstAssetIndex(game.bundles[file], "TextAsset", assetName);
              i.Some? && game.bundles[file][i.value].payload.Text? && game.bundles[file][i.value].payload.text in game.json)
    ensures r.Ok? ==>
              var i := FirstAssetIndex(game.bundles[file], "TextAsset", assetName);
              r.value == game.json[game.bundles[file][i.value].payload.text]
  {
    var objects :- LoadBundle(game, file);
    match FirstAssetIndex(objects, "TextAsset", assetName)
    case None => Err(AssetNotFound(assetName))
    case Some(i) =>
      match objects[i].payload
      case Text(text) => if text in game.json then Ok(game.json[text]) else Err(MalformedJson(assetName))
      case _ => Err(PayloadMismatch(assetName))
  }

  /** load_json as the source runs it: open the bundle, find_asset the text asset (raising), parse. */
  method ReadJson(game: GameData, file: string, assetName: string) returns (r: Result<seq<Record>>)
    ensures r == LoadJson(game, file, assetName)
  {
    var objects :- LoadBundle(game, file);
    var found := FindAsset(objects, "TextAsset", assetName, true);
    match found {
      case Err(e) => return Err(e);
      case Ok(None) => assert false;
      case Ok(Some(obj)) =>
        match obj.payload {
          case Text(text) =>
            if text in game.json {
              return Ok(game.json[text]);
            }
            return Err(MalformedJson(assetName));
          case _ => return Err(PayloadMismatch(assetName));
        }
    }
  }
}
