/**
 * The collaborators a track is made of whose own sources are not part of this
 * model: the theme catalogue entries, the tile map, the overlay tiles, the AI,
 * the battle start positions and the MakeTrack interchange record.  Each is
 * reduced to what the track code relies on: its identity as an object and,
 * where the track code moves bytes through it, the bytes it holds.
 */
module TrackParts {
  import opened Common

  /** Number of Grand Prix tracks and cups (GPTrack.Count, GPTrack.GroupCount). */
  const GPTrackCount := 20
  const GPTrackGroupCount := 4

  /** Number of battle tracks and battle track groups (BattleTrack.Count, BattleTrack.GroupCount). */
  const BattleTrackCount := 4
  const BattleTrackGroupCount := 1

  /** Number of track themes in the game (Theme.Count). */
  const ThemeCount := 8

  /** A theme is shared by reference between tracks and is never copied. */
  class Theme {
    constructor () { }
  }

  /** The overlay tiles and the AI of a track are moved between objects only by reference. */
  class OverlayTiles {
    constructor () { }
  }

  class TrackAI {
    constructor () { }
  }

  /** The tile map, kept as the bytes it is built from and gives back (one byte per cell). */
  class TrackMap {
    var Bytes: seq<byte>

    constructor (data: seq<byte>)
      ensures Bytes == data
    {
      Bytes := data;
    }

    function GetBytes(): seq<byte>
      reads this
    {
      Bytes
    }
  }

  /** A battle start position, kept as its 4-byte record. */
  class BattleStartPosition {
    var Bytes: seq<byte>

    constructor (data: seq<byte>)
      ensures Bytes == data
    {
      Bytes := data;
    }

    function GetBytes(): seq<byte>
      reads this
    {
      Bytes
    }

    method SetBytes(data: seq<byte>)
      modifies this
      ensures Bytes == data
    {
      Bytes := data;
    }
  }

  /**
   * The track as the SMKC interchange file sees it: a record of the fields a
   * Track or a BattleTrack copies to and from it.
   */
  class MakeTrack {
    var Map: TrackMap
    var Theme: Theme
    var OverlayTiles: OverlayTiles
    var AI: TrackAI
    var StartPositionP1: BattleStartPosition
    var StartPositionP2: BattleStartPosition

    constructor (trackMap: TrackMap, theme: Theme, overlay: OverlayTiles, ai: TrackAI,
                 p1: BattleStartPosition, p2: BattleStartPosition)
      ensures Map == trackMap && Theme == theme && OverlayTiles == overlay && AI == ai
      ensures StartPositionP1 == p1 && StartPositionP2 == p2
    {
      Map, Theme, OverlayTiles, AI := trackMap, theme, overlay, ai;
      StartPositionP1, StartPositionP2 := p1, p2;
    }
  }
}
