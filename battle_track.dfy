/**
 * A battle track (BattleTrack.cs): a track with two player start positions,
 * each a separate 4-byte record.  The class extends Track in the source; here
 * it holds its shared part as `Base` and forwards to it.
 */
module BattleTracks {
  import opened Common
  import opened TrackParts
  import opened Tracks

  /** The field names carried by a battle track's change notifications. */
  const StartPositionP1Property := "StartPositionP1"
  const StartPositionP2Property := "StartPositionP2"

  /** The size of one start position record, and of the block holding both. */
  const StartPositionSize := 4
  const StartPositionDataSize := 2 * StartPositionSize

  /** The two records a start position block is split into: bytes 0..3 and bytes 4..7. */
  function SplitStartPositions(data: seq<byte>): (r: (seq<byte>, seq<byte>))
    requires |data| >= StartPositionDataSize
    ensures |r.0| == StartPositionSize && |r.1| == StartPositionSize
    ensures forall k :: 0 <= k < StartPositionSize ==> r.0[k] == data[k] && r.1[k] == data[StartPositionSize + k]
    ensures r.0 + r.1 == data[..StartPositionDataSize]
  {
    ([data[0], data[1], data[2], data[3]], [data[4], data[5], data[6], data[7]])
  }

  class BattleTrack {
    const Base: Track
    const startPositionP1: BattleStartPosition
    const startPositionP2: BattleStartPosition

    /** The two start positions are two objects: a change to one is never a change to the other. */
    ghost predicate Valid()
      reads this
    {
      startPositionP1 != startPositionP2
    }

    constructor (name: string, theme: Theme, mapBytes: seq<byte>, startPositionData: seq<byte>)
      requires |startPositionData| >= StartPositionDataSize
      ensures Valid()
      ensures fresh(Base) && fresh(startPositionP1) && fresh(startPositionP2)
      ensures Base.Name == name && Base.Theme == theme && Base.Map.Bytes == mapBytes
      ensures !Base.Modified
      ensures startPositionP1.Bytes == startPositionData[..StartPositionSize]
      ensures startPositionP2.Bytes == startPositionData[StartPositionSize..StartPositionDataSize]
    {
      Base := new Track(name, theme, mapBytes);
      var (p1, p2) := SplitStartPositions(startPositionData);
      startPositionP1 := new BattleStartPosition(p1);
      startPositionP2 := new BattleStartPosition(p2);
    }

    /** Assigning player 1's start position copies the bytes into the existing record. */
    method SetStartPositionP1(value: BattleStartPosition)
      requires Valid()
      modifies startPositionP1
      ensures startPositionP1.Bytes == old(value.Bytes)
      ensures startPositionP2.Bytes == old(startPositionP2.Bytes)
    {
      var bytes := value.GetBytes();
      startPositionP1.SetBytes(bytes);
    }

    /** Assigning player 2's start position copies the bytes into the existing record. */
    method SetStartPositionP2(value: BattleStartPosition)
      requires Valid()
      modifies startPositionP2
      ensures startPositionP2.Bytes == old(value.Bytes)
      ensures startPositionP1.Bytes == old(startPositionP1.Bytes)
    {
      var bytes := value.GetBytes();
      startPositionP2.SetBytes(bytes);
    }

    /**
     * A data change notification raised by `sender`.  Only the two start
     * positions are subscribed: each marks the track modified with its own
     * field name; any other sender is not heard.
     */
    method OnDataChanged(sender: object)
      requires Valid()
      modifies Base
      ensures sender == startPositionP1 ==>
        Base.Modified && Base.LastModifiedProperty == Some(StartPositionP1Property)
      ensures sender == startPositionP2 ==>
        Base.Modified && Base.LastModifiedProperty == Some(StartPositionP2Property)
      ensures sender != startPositionP1 && sender != startPositionP2 ==> unchanged(Base)
      ensures Base.Map == old(Base.Map) && Base.Theme == old(Base.Theme)
      ensures Base.OverlayTiles == old(Base.OverlayTiles) && Base.AI == old(Base.AI)
    {
      if sender == startPositionP1 {
        StartPositionP1DataChanged();
      } else if sender == startPositionP2 {
        StartPositionP2DataChanged();
      }
    }

    method StartPositionP1DataChanged()
      modifies Base
      ensures Base.Modified && Base.LastModifiedProperty == Some(StartPositionP1Property)
      ensures Base.Map == old(Base.Map) && Base.Theme == old(Base.Theme)
      ensures Base.OverlayTiles == old(Base.OverlayTiles) && Base.AI == old(Base.AI)
    {
      Base.MarkAsModified(StartPositionP1Property);
    }

    method StartPositionP2DataChanged()
      modifies Base
      ensures Base.Modified && Base.LastModifiedProperty == Some(StartPositionP2Property)
      ensures Base.Map == old(Base.Map) && Base.Theme == old(Base.Theme)
      ensures Base.OverlayTiles == old(Base.OverlayTiles) && Base.AI == old(Base.AI)
    {
      Base.MarkAsModified(StartPositionP2Property);
    }

    /**
     * Copies the four shared fields, then the bytes of player 1's and then of
     * player 2's start position, from the interchange record.  The copies go
     * in that order, so when the record's second position is this track's own
     * first one, player 2 receives the bytes just written to player 1.
     */
    method LoadDataFrom(track: MakeTrack)
      requires Valid()
      modifies Base, startPositionP1, startPositionP2
      ensures Base.Map == track.Map && Base.Theme == track.Theme
      ensures Base.OverlayTiles == track.OverlayTiles && Base.AI == track.AI
      ensures Base.Modified == old(Base.Modified)
      ensures startPositionP1.Bytes == old(track.StartPositionP1.Bytes)
      ensures startPositionP2.Bytes ==
        if track.StartPositionP2 == startPositionP1 then old(track.StartPositionP1.Bytes)
        else old(track.StartPositionP2.Bytes)
    {
      Base.LoadDataFrom(track);
      SetStartPositionP1(track.StartPositionP1);
      SetStartPositionP2(track.StartPositionP2);
    }

    /** Copies the four shared fields and the two start positions to the interchange record. */
    method LoadDataTo(track: MakeTrack)
      modifies track
      ensures track.Map == Base.Map && track.Theme == Base.Theme
      ensures track.OverlayTiles == Base.OverlayTiles && track.AI == Base.AI
      ensures track.StartPositionP1 == startPositionP1 && track.StartPositionP2 == startPositionP2
    {
      Base.LoadDataTo(track);
      track.StartPositionP1 := startPositionP1;
      track.StartPositionP2 := startPositionP2;
    }

    /** Imports a track file, choosing the format as Track.Import does, with the battle copy for SMKC. */
    method Import(path: string, file: seq<byte>, loaded: MakeTrack, themes: seq<Theme>)
      returns (outcome: Outcome)
      requires Valid()
      modifies Base, startPositionP1, startPositionP2
      ensures !IsMktPath(path) ==>
        && outcome == Success
        && Base.Map == loaded.Map && Base.Theme == loaded.Theme
        && Base.OverlayTiles == loaded.OverlayTiles && Base.AI == loaded.AI
        && startPositionP1.Bytes == old(loaded.StartPositionP1.Bytes)
        && startPositionP2.Bytes ==
             if loaded.StartPositionP2 == startPositionP1 then old(loaded.StartPositionP1.Bytes)
             else old(loaded.StartPositionP2.Bytes)
      ensures IsMktPath(path) ==>
        && startPositionP1.Bytes == old(startPositionP1.Bytes)
        && startPositionP2.Bytes == old(startPositionP2.Bytes)
      ensures IsMktPath(path) && DecodeMkt(file).Invalid? ==>
        outcome == Failure(InvalidTrackFile) && unchanged(Base)
      ensures IsMktPath(path) && DecodeMkt(file).Decoded? ==>
        var c := DecodeMkt(file).contents;
        && fresh(Base.Map) && Base.Map.Bytes == c.mapBytes
        && Base.OverlayTiles == old(Base.OverlayTiles) && Base.AI == old(Base.AI)
        && Base.Modified == old(Base.Modified) && Base.LastModifiedProperty == old(Base.LastModifiedProperty)
        && match c.themeIndex
           case None => outcome == Success && Base.Theme == old(Base.Theme)
           case Some(t) =>
             if t < |themes| then outcome == Success && Base.Theme == themes[t]
             else outcome == Failure(ThemeOutOfRange) && Base.Theme == old(Base.Theme)
    {
      if EndsWithIgnoreCase(GetExtension(path), ".mkt") {
        outcome := Base.ImportMkt(file, themes);
      } else {
        LoadDataFrom(loaded);
        outcome := Success;
      }
    }

    /** Exports a track file, choosing the format as Track.Export does, with the battle copy for SMKC. */
    method Export(path: string, themeId: byte, track: MakeTrack) returns (mkt: Option<seq<byte>>)
      modifies track
      ensures IsMktPath(path) ==> mkt == Some(EncodeMkt(Base.Map.Bytes, themeId)) && unchanged(track)
      ensures !IsMktPath(path) ==>
        && mkt == None
        && track.Map == Base.Map && track.Theme == Base.Theme
        && track.OverlayTiles == Base.OverlayTiles && track.AI == Base.AI
        && track.StartPositionP1 == startPositionP1 && track.StartPositionP2 == startPositionP2
    {
      if EndsWithIgnoreCase(GetExtension(path), ".mkt") {
        var bytes := Base.ExportMkt(themeId);
        mkt := Some(bytes);
      } else {
        LoadDataTo(track);
        mkt := None;
      }
    }
  }

  /**
   * Exporting a battle track to SMKC and importing the same record back
   * leaves the shared fields and both start positions as they were.
   */
  method SmkcExportThenImport(t: BattleTrack, track: MakeTrack)
    requires t.Valid()
    modifies t.Base, t.startPositionP1, t.startPositionP2, track
    ensures t.Base.Map == old(t.Base.Map) && t.Base.Theme == old(t.Base.Theme)
    ensures t.Base.OverlayTiles == old(t.Base.OverlayTiles) && t.Base.AI == old(t.Base.AI)
    ensures t.startPositionP1.Bytes == old(t.startPositionP1.Bytes)
    ensures t.startPositionP2.Bytes == old(t.startPositionP2.Bytes)
  {
    t.LoadDataTo(track);
    t.LoadDataFrom(track);
  }
}
