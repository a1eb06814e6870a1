/**
 * The part of a track shared by Grand Prix and battle tracks (Track.cs):
 * the MKT file codec, the choice between the MKT and SMKC formats by file
 * extension, and the four-field copy to and from the SMKC interchange record.
 */
module Tracks {
  import opened Common
  import opened TrackParts

  /** Total number of tracks (20 GP + 4 battle = 24) and of track groups (4 cups + 1 battle group = 5). */
  const TrackCount := GPTrackCount + BattleTrackCount
  const TrackGroupCount := GPTrackGroupCount + BattleTrackGroupCount

  // ---------------------------------------------------------------------------
  // Choosing the file format from the path
  // ---------------------------------------------------------------------------

  predicate IsDirectorySeparator(c: char) {
    c == '/' || c == '\\'
  }

  /**
   * The extension of `path` as the platform's path library gives it: scanning
   * back from the end, the text from the last '.' that comes after the last
   * directory separator; empty when there is no such '.' or when it is the
   * last character.
   */
  function GetExtension(path: string): (ext: string)
    ensures ext == "" || (|ext| <= |path| && ext == path[|path| - |ext|..] && ext[0] == '.' && |ext| >= 2)
  {
    ExtensionBefore(path, |path|)
  }

  /** The extension scan looking only at the positions below `i`. */
  function ExtensionBefore(path: string, i: nat): (ext: string)
    requires i <= |path|
    ensures ext == "" || (|ext| <= |path| && ext == path[|path| - |ext|..] && ext[0] == '.' && |ext| >= 2)
    decreases i
  {
    if i == 0 then ""
    else if path[i - 1] == '.' then (if i == |path| then "" else path[i - 1..])
    else if IsDirectorySeparator(path[i - 1]) then ""
    else ExtensionBefore(path, i - 1)
  }

  /** ASCII case folding, as an ordinal case-insensitive comparison does it for "mkt". */
  function ToUpper(c: char): char {
    if 'a' <= c <= 'z' then (c as int - 32) as char else c
  }

  predicate EndsWithIgnoreCase(s: string, suffix: string) {
    |suffix| <= |s| &&
    forall k :: 0 <= k < |suffix| ==> ToUpper(s[|s| - |suffix| + k]) == ToUpper(suffix[k])
  }

  /** The format choice made by both Import and Export: the extension ends with ".mkt". */
  predicate IsMktPath(path: string) {
    EndsWithIgnoreCase(GetExtension(path), ".mkt")
  }

  /** The extension test agrees with a plain test on the whole path. */
  lemma MktPathIffPathEndsWithMkt(path: string)
    ensures IsMktPath(path) <==> EndsWithIgnoreCase(path, ".mkt")
  {
    if IsMktPath(path) {
      MktExtensionEndsPath(path);
    }
    if EndsWithIgnoreCase(path, ".mkt") {
      MktSuffixIsExtension(path);
    }
  }

  /** The extension is a suffix of the path, so its last four characters are the path's. */
  lemma MktExtensionEndsPath(path: string)
    requires IsMktPath(path)
    ensures EndsWithIgnoreCase(path, ".mkt")
  {
    var ext := GetExtension(path);
    assert ext == path[|path| - |ext|..];
    forall k | 0 <= k < 4
      ensures ToUpper(path[|path| - 4 + k]) == ToUpper(".mkt"[k])
    {
      assert ext[|ext| - 4 + k] == path[|path| - 4 + k];
    }
  }

  /** A letter after case folding is neither a '.' nor a separator. */
  lemma FoldedLetterIsPlain(c: char)
    requires 'A' <= ToUpper(c) <= 'Z'
    ensures c != '.' && !IsDirectorySeparator(c)
  {
  }

  /** A path ending in ".mkt" has exactly that extension. */
  lemma {:induction false} MktSuffixIsExtension(path: string)
    requires EndsWithIgnoreCase(path, ".mkt")
    ensures GetExtension(path) == path[|path| - 4..]
    ensures IsMktPath(path)
  {
    var n := |path|;
    assert ToUpper(path[n - 4 + 0]) == ToUpper(".mkt"[0]) == '.';
    assert ToUpper(path[n - 4 + 1]) == ToUpper(".mkt"[1]) == 'M';
    assert ToUpper(path[n - 4 + 2]) == ToUpper(".mkt"[2]) == 'K';
    assert ToUpper(path[n - 4 + 3]) == ToUpper(".mkt"[3]) == 'T';
    FoldedLetterIsPlain(path[n - 1]);
    FoldedLetterIsPlain(path[n - 2]);
    FoldedLetterIsPlain(path[n - 3]);
    assert path[n - 4] == '.';
    assert ExtensionBefore(path, n) == ExtensionBefore(path, n - 1);
    assert ExtensionBefore(path, n - 1) == ExtensionBefore(path, n - 2);
    assert ExtensionBefore(path, n - 2) == ExtensionBefore(path, n - 3);
    assert ExtensionBefore(path, n - 3) == path[n - 4..];
  }

  // ---------------------------------------------------------------------------
  // The MKT file format
  // ---------------------------------------------------------------------------

  /** An MKT file holds the map, then optionally one theme byte. */
  const MktMapSize := 16384
  const MktSizeWithTheme := 16385

  datatype ImportError =
    | InvalidTrackFile  // the file is neither 16384 nor 16385 bytes long
    | ThemeOutOfRange   // the theme byte names no theme of the game

  datatype Outcome = Success | Failure(error: ImportError)

  /** What an MKT file says: the map bytes and, when present, the theme index. */
  datatype MktContents = MktContents(mapBytes: seq<byte>, themeIndex: Option<nat>)

  datatype MktDecoded = Decoded(contents: MktContents) | Invalid

  /** The theme index stored in a theme byte: the byte shifted right by one. */
  function ThemeIndexOf(b: byte): (r: nat)
    ensures r < 128 && (b as int == 2 * r || b as int == 2 * r + 1)
  {
    (b as int) / 2
  }

  /** Reading an MKT file (Track.ImportMkt without the file access). */
  function DecodeMkt(file: seq<byte>): (r: MktDecoded)
    ensures r.Invalid? <==> |file| != MktMapSize && |file| != MktSizeWithTheme
    ensures r.Decoded? ==> |r.contents.mapBytes| == MktMapSize && r.contents.mapBytes == file[..MktMapSize]
    ensures r.Decoded? ==> (r.contents.themeIndex.Some? <==> |file| == MktSizeWithTheme)
    ensures r.Decoded? && |file| == MktSizeWithTheme ==>
      r.contents.themeIndex == Some(ThemeIndexOf(file[MktMapSize]))
  {
    if |file| != MktMapSize && |file| != MktSizeWithTheme then Invalid
    else Decoded(MktContents(
      file[..MktMapSize],
      if |file| == MktSizeWithTheme then Some(ThemeIndexOf(file[MktMapSize])) else None))
  }

  /** Writing an MKT file (Track.ExportMkt without the file access): the map, then the theme byte. */
  function EncodeMkt(mapBytes: seq<byte>, themeId: byte): (file: seq<byte>)
    ensures |file| == |mapBytes| + 1 && file[|mapBytes|] == themeId && file[..|mapBytes|] == mapBytes
  {
    mapBytes + [themeId]
  }

  /**
   * Exporting then importing gives back the map, and the theme whose id was
   * written, provided the id is the catalogue's id for it (index shifted left).
   */
  lemma MktRoundTrip(mapBytes: seq<byte>, themeIndex: nat)
    requires |mapBytes| == MktMapSize && themeIndex < 128
    ensures DecodeMkt(EncodeMkt(mapBytes, (2 * themeIndex) as byte))
         == Decoded(MktContents(mapBytes, Some(themeIndex)))
  {
    var file := EncodeMkt(mapBytes, (2 * themeIndex) as byte);
    assert file[..MktMapSize] == mapBytes;
  }

  // ---------------------------------------------------------------------------
  // The track
  // ---------------------------------------------------------------------------

  class Track {
    const Name: string
    var Theme: Theme
    var Map: TrackMap
    var OverlayTiles: OverlayTiles
    var AI: TrackAI
    var Modified: bool
    /** The field named by the last change notification, if any. */
    var LastModifiedProperty: Option<string>

    constructor (name: string, theme: Theme, mapBytes: seq<byte>)
      ensures Name == name && Theme == theme && Map.Bytes == mapBytes
      ensures fresh(Map) && fresh(OverlayTiles) && fresh(AI)
      ensures !Modified && LastModifiedProperty == None
    {
      Name := name;
      Map := new TrackMap(mapBytes);
      Theme := theme;
      AI := new TrackAI();
      OverlayTiles := new OverlayTiles();
      Modified := false;
      LastModifiedProperty := None;
    }

    /** Sets the modified flag and raises a change notification naming `property`. */
    method MarkAsModified(property: string)
      modifies this
      ensures Modified && LastModifiedProperty == Some(property)
      ensures Theme == old(Theme) && Map == old(Map)
      ensures OverlayTiles == old(OverlayTiles) && AI == old(AI)
    {
      Modified := true;
      LastModifiedProperty := Some(property);
    }

    /**
     * Imports an MKT file.  A file of the wrong length is refused before
     * anything changes; otherwise the map is replaced by the first 16384
     * bytes and, when a theme byte follows, the theme is looked up in the
     * game's theme catalogue `themes`.  The map is replaced before that
     * lookup, so a theme byte naming no theme fails with the new map in place.
     */
    method ImportMkt(file: seq<byte>, themes: seq<Theme>) returns (outcome: Outcome)
      modifies this
      ensures DecodeMkt(file).Invalid? ==> outcome == Failure(InvalidTrackFile) && unchanged(this)
      ensures DecodeMkt(file).Decoded? ==>
        var c := DecodeMkt(file).contents;
        && fresh(Map) && Map.Bytes == c.mapBytes
        && OverlayTiles == old(OverlayTiles) && AI == old(AI)
        && Modified == old(Modified) && LastModifiedProperty == old(LastModifiedProperty)
        && match c.themeIndex
           case None => outcome == Success && Theme == old(Theme)
           case Some(t) =>
             if t < |themes| then outcome == Success && Theme == themes[t]
             else outcome == Failure(ThemeOutOfRange) && Theme == old(Theme)
    {
      var fileLength := |file|;
      if fileLength != MktMapSize && fileLength != MktSizeWithTheme {
        return Failure(InvalidTrackFile);
      }
      var mapData := file[..MktMapSize];
      Map := new TrackMap(mapData);
      outcome := Success;
      if fileLength == MktSizeWithTheme {
        var themeId := ThemeIndexOf(file[MktMapSize]);
        if themeId < |themes| {
          Theme := themes[themeId];
        } else {
          outcome := Failure(ThemeOutOfRange);
        }
      }
    }

    /** Exports the track as an MKT file: the map bytes, then always the theme byte. */
    method ExportMkt(themeId: byte) returns (file: seq<byte>)
      ensures file == EncodeMkt(Map.GetBytes(), themeId)
      ensures |file| == |Map.Bytes| + 1 && file[|Map.Bytes|] == themeId
    {
      file := Map.GetBytes();
      file := file + [themeId];
    }

    /** Copies the four shared fields from the interchange record. */
    method LoadDataFrom(track: MakeTrack)
      modifies this
      ensures Map == track.Map && Theme == track.Theme
      ensures OverlayTiles == track.OverlayTiles && AI == track.AI
      ensures Modified == old(Modified) && LastModifiedProperty == old(LastModifiedProperty)
    {
      Map := track.Map;
      Theme := track.Theme;
      OverlayTiles := track.OverlayTiles;
      AI := track.AI;
    }

    /** Copies the four shared fields to the interchange record, and nothing else of it. */
    method LoadDataTo(track: MakeTrack)
      modifies track
      ensures track.Map == Map && track.Theme == Theme
      ensures track.OverlayTiles == OverlayTiles && track.AI == AI
      ensures track.StartPositionP1 == old(track.StartPositionP1)
      ensures track.StartPositionP2 == old(track.StartPositionP2)
    {
      track.Map := Map;
      track.Theme := Theme;
      track.OverlayTiles := OverlayTiles;
      track.AI := AI;
    }

    /**
     * Imports a track file: an MKT file (`file`) when the extension ends
     * with ".mkt" in any case, otherwise the SMKC file already read into
     * `loaded`.
     */
    method Import(path: string, file: seq<byte>, loaded: MakeTrack, themes: seq<Theme>)
      returns (outcome: Outcome)
      modifies this
      ensures !IsMktPath(path) ==>
        && outcome == Success
        && Map == loaded.Map && Theme == loaded.Theme
        && OverlayTiles == loaded.OverlayTiles && AI == loaded.AI
        && Modified == old(Modified) && LastModifiedProperty == old(LastModifiedProperty)
      ensures IsMktPath(path) && DecodeMkt(file).Invalid? ==>
        outcome == Failure(InvalidTrackFile) && unchanged(this)
      ensures IsMktPath(path) && DecodeMkt(file).Decoded? ==>
        var c := DecodeMkt(file).contents;
        && fresh(Map) && Map.Bytes == c.mapBytes
        && OverlayTiles == old(OverlayTiles) && AI == old(AI)
        && Modified == old(Modified) && LastModifiedProperty == old(LastModifiedProperty)
        && match c.themeIndex
           case None => outcome == Success && Theme == old(Theme)
           case Some(t) =>
             if t < |themes| then outcome == Success && Theme == themes[t]
             else outcome == Failure(ThemeOutOfRange) && Theme == old(Theme)
    {
      if EndsWithIgnoreCase(GetExtension(path), ".mkt") {
        outcome := ImportMkt(file, themes);
      } else {
        LoadDataFrom(loaded);
        outcome := Success;
      }
    }

    /**
     * Exports the track: as MKT bytes when the extension ends with ".mkt" in
     * any case (`track` untouched), otherwise by filling the SMKC record `track`.
     */
    method Export(path: string, themeId: byte, track: MakeTrack) returns (mkt: Option<seq<byte>>)
      modifies track
      ensures IsMktPath(path) ==> mkt == Some(EncodeMkt(Map.Bytes, themeId)) && unchanged(track)
      ensures !IsMktPath(path) ==>
        && mkt == None
        && track.Map == Map && track.Theme == Theme
        && track.OverlayTiles == OverlayTiles && track.AI == AI
    {
      if EndsWithIgnoreCase(GetExtension(path), ".mkt") {
        var bytes := ExportMkt(themeId);
        mkt := Some(bytes);
      } else {
        LoadDataTo(track);
        mkt := None;
      }
    }
  }

  /**
   * An MKT export imported back restores the map bytes and the theme, when
   * the exported id is the one the catalogue gives the track's theme.
   */
  method MktExportThenImport(t: Track, themes: seq<Theme>, themeId: byte)
    returns (outcome: Outcome)
    requires |t.Map.Bytes| == MktMapSize
    requires ThemeIndexOf(themeId) < |themes| && themes[ThemeIndexOf(themeId)] == t.Theme
    modifies t
    ensures outcome == Success
    ensures t.Map.Bytes == old(t.Map.Bytes) && t.Theme == old(t.Theme)
  {
    var file := t.ExportMkt(themeId);
    assert file[..MktMapSize] == t.Map.Bytes;
    outcome := t.ImportMkt(file, themes);
  }

  /** Exporting to SMKC then importing the same record leaves the four fields as they were. */
  method SmkcExportThenImport(t: Track, track: MakeTrack)
    modifies t, track
    ensures t.Map == old(t.Map) && t.Theme == old(t.Theme)
    ensures t.OverlayTiles == old(t.OverlayTiles) && t.AI == old(t.AI)
  {
    t.LoadDataTo(track);
    t.LoadDataFrom(track);
  }
}
