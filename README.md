# EpicEdit track and settings core, modelled in Dafny

EpicEdit is an editor for Super Mario Kart cartridge images. This project models
the parts of it that move bytes and decide things with integers:

- **Tracks** (`track.dfy`, `track_parts.dfy`). The part shared by GP and battle tracks:
  - choosing between the MKT and SMKC file formats from the path's extension;
  - the MKT codec: 16384 map bytes, optionally followed by one theme byte;
  - the four-field copy to and from the SMKC interchange record (`MakeTrack`).
- **Battle tracks** (`battle_track.dfy`). The two player start positions:
  - how they are split from their 8-byte block;
  - setters that copy bytes into the existing records;
  - the change handlers that mark the track modified;
  - the overridden interchange copies.
- **Track objects** (`track_objects.dfy`). The 22-slot object table of a GP track, 16 regular and 6 match-race slots:
  - refilling it from a 44-byte block;
  - keeping exactly one change subscription per slot;
  - writing it back, with the proof that writing back what was read gives the same block.
- **Game settings** (`game_settings.dfy`). The text collections and tables stored besides the tracks:
  - the region-specific text block sizes;
  - the GP cup selection texts, absent for the Japanese image;
  - the aggregated modified flag, saving every present member into the image, resetting the flags, and forwarding change notifications.
- **Drawing geometry** (`track_drawer.dfy`). The static integer helpers of the track drawer:
  - clip rectangles;
  - the AI element's covering rectangle and area outline;
  - the per-shape pixel corrections of AI triangles;
  - the side-painting guards;
  - the object-area grid comparison and the "out of its area" test;
  - the GP start grid arrows.

Some parts are stateful in the program: the tracks, the battle track, the object table, the settings and the triangle point array. These are modelled as Dafny classes and arrays, with methods that update them in place. Each method's postcondition ties the new state to the old one, or to a specification function. The pure helpers are functions, each with lemmas relating it to an independent description of its meaning (pixel/tile containment, bounding boxes, round trips).

Several values come from sources that are not part of this model. They are fixed here with the values of the Super Mario Kart cartridge:

- tile size 8 pixels;
- AI precision 2 tiles;
- 20 GP tracks in 4 cups;
- 8 themes.

The battle track counts (4 tracks, 1 group) are defined in `BattleTrack.cs`.

## Model

| member | source | states |
|---|---|---|
| Tracks.ExtensionBefore | EpicEdit/Rom/Tracks/Track.cs:92 | The backward scan below position i gives "" or a suffix of the path that starts with '.' and has at least one character after it. |
| Tracks.IsMktPath | EpicEdit/Rom/Tracks/Track.cs:94 | The format test of Import and Export (also Track.cs:158): the extension ends with ".mkt" in any case. MktPathIffPathEndsWithMkt proves it equals the same test on the whole path. |
| Tracks.GetExtension | EpicEdit/Rom/Tracks/Track.cs:92 | The extension is either empty or a suffix of the path that starts with '.' and has at least one character after it. |
| Tracks.MktPathIffPathEndsWithMkt | EpicEdit/Rom/Tracks/Track.cs:90-102 | Testing the extension for ".mkt" (ASCII case-insensitive) agrees with testing the whole path for that ending. Both directions are proved. |
| Tracks.MktExtensionEndsPath | EpicEdit/Rom/Tracks/Track.cs:94 | If the extension ends with ".mkt", so does the path. |
| Tracks.MktSuffixIsExtension | EpicEdit/Rom/Tracks/Track.cs:158 | A path ending in ".mkt" in any case has ".mkt" as its extension. So import and export both choose MKT for it. |
| Tracks.ThemeIndexOf | EpicEdit/Rom/Tracks/Track.cs:127 | The theme index is the byte shifted right by one: below 128, and the byte is twice the index or twice plus one. |
| Tracks.DecodeMkt | EpicEdit/Rom/Tracks/Track.cs:114-129 | Any length other than 16384 or 16385 is invalid. Otherwise the map is exactly the first 16384 bytes, and a theme index is present exactly when the file is 16385 bytes. That index is the last byte shifted right by one. |
| Tracks.EncodeMkt | EpicEdit/Rom/Tracks/Track.cs:175-178 | The file is the map bytes followed by exactly one theme byte, always. |
| Tracks.MktRoundTrip | EpicEdit/Rom/Tracks/Track.cs:107-180 | Encoding a 16384-byte map with a theme id (index shifted left), then decoding, gives back the map and the theme index. |
| Tracks.Track.constructor | EpicEdit/Rom/Tracks/Track.cs:57-68 | A new track has the given name, theme and map bytes, and fresh map, overlay and AI objects. |
| Tracks.Track.ImportMkt | EpicEdit/Rom/Tracks/Track.cs:107-131 | A wrong-length file fails with nothing changed. Otherwise the map becomes a new map of the first 16384 bytes. A theme byte selects `themes[b >> 1]`, or fails if the index is out of range, with the new map kept. Without a theme byte the theme is unchanged. |
| Tracks.Track.ExportMkt | EpicEdit/Rom/Tracks/Track.cs:171-180 | The exported bytes are the map's bytes followed by the theme id byte. |
| Tracks.Track.LoadDataFrom | EpicEdit/Rom/Tracks/Track.cs:146-152 | Map, theme, overlay tiles and AI become the record's, and the modified state is untouched. |
| Tracks.Track.LoadDataTo | EpicEdit/Rom/Tracks/Track.cs:195-201 | The record's map, theme, overlay tiles and AI become the track's. Its start positions are untouched. |
| Tracks.Track.Import | EpicEdit/Rom/Tracks/Track.cs:90-102 | A path with a ".mkt" extension imports the MKT bytes with ImportMkt's outcomes. A wrong length fails with nothing changed. Otherwise the map is new, and the theme byte gives success with `themes[b >> 1]`, a `ThemeOutOfRange` failure, or success with the theme unchanged when absent. Any other path succeeds and copies the four fields from the SMKC record. Neither path changes the modified state. |
| Tracks.Track.Export | EpicEdit/Rom/Tracks/Track.cs:154-166 | A ".mkt" path yields the MKT bytes and leaves the record untouched. Any other path fills the record's four fields. |
| Tracks.Track.MarkAsModified | EpicEdit/Rom/Tracks/BattleTrack.cs:78 | The track becomes modified, the notification names the given field, and the track's parts are unchanged. |
| Tracks.MktExportThenImport | EpicEdit/Rom/Tracks/Track.cs:107-180 | An MKT export imported back succeeds and restores the map bytes and the theme. This holds when the exported id is the catalogue's id for the theme. |
| Tracks.SmkcExportThenImport | EpicEdit/Rom/Tracks/Track.cs:146-201 | Copying to an SMKC record and back leaves map, theme, overlay tiles and AI as they were. |
| BattleTracks.SplitStartPositions | EpicEdit/Rom/Tracks/BattleTrack.cs:66-67 | Player 1 gets bytes 0..3 and player 2 gets bytes 4..7, in order. Together they are the first 8 bytes. |
| BattleTracks.BattleTrack.constructor | EpicEdit/Rom/Tracks/BattleTrack.cs:58-74 | The two start positions are fresh, distinct records holding the split bytes. The shared part is a new unmodified track. |
| BattleTracks.BattleTrack.SetStartPositionP1 | EpicEdit/Rom/Tracks/BattleTrack.cs:41-45 | The existing record takes the assigned record's bytes, and player 2's bytes are unchanged. |
| BattleTracks.BattleTrack.SetStartPositionP2 | EpicEdit/Rom/Tracks/BattleTrack.cs:52-56 | The existing record takes the assigned record's bytes, and player 1's bytes are unchanged. |
| BattleTracks.BattleTrack.OnDataChanged | EpicEdit/Rom/Tracks/BattleTrack.cs:70-84 | A change on player 1's record marks the track modified with "StartPositionP1", and one on player 2's with "StartPositionP2". Any other sender changes nothing. |
| BattleTracks.BattleTrack.StartPositionP1DataChanged | EpicEdit/Rom/Tracks/BattleTrack.cs:76-79 | Marks the track modified with field "StartPositionP1" and keeps its parts. |
| BattleTracks.BattleTrack.StartPositionP2DataChanged | EpicEdit/Rom/Tracks/BattleTrack.cs:81-84 | Marks the track modified with field "StartPositionP2" and keeps its parts. |
| BattleTracks.BattleTrack.LoadDataFrom | EpicEdit/Rom/Tracks/BattleTrack.cs:89-95 | Performs the base four-field copy. Player 1 then gets the record's P1 bytes and player 2 its P2 bytes. If the record's P2 is this track's own P1 record, player 2 gets the bytes just copied into it. |
| BattleTracks.BattleTrack.LoadDataTo | EpicEdit/Rom/Tracks/BattleTrack.cs:100-106 | Performs the base four-field copy. The record then refers to this track's two start-position records. |
| BattleTracks.BattleTrack.Import | EpicEdit/Rom/Tracks/BattleTrack.cs:89-95 | SMKC import copies the four shared fields, then player 1's and player 2's bytes, including the aliasing case of LoadDataFrom. MKT import leaves both start positions unchanged and has Track's MKT outcomes: the failure for a wrong length, the new map, and the theme lookup's success or `ThemeOutOfRange`, with the modified state unchanged. |
| BattleTracks.BattleTrack.Export | EpicEdit/Rom/Tracks/BattleTrack.cs:100-106 | SMKC export fills the record's map, theme, overlay tiles and AI, and both start positions. MKT export gives the MKT bytes and leaves the record untouched. |
| BattleTracks.SmkcExportThenImport | EpicEdit/Rom/Tracks/BattleTrack.cs:89-106 | An SMKC round trip keeps the shared fields and both start positions' bytes. |
| TrackObjectTable.Records | EpicEdit/Rom/Tracks/Objects/TrackObjects.cs:98 | Record i of a block is the 2 bytes at offset 2*i. |
| TrackObjectTable.FlattenLength | EpicEdit/Rom/Tracks/Objects/TrackObjects.cs:147 | 22 records of 2 bytes write 44 bytes. |
| TrackObjectTable.FlattenRecords | EpicEdit/Rom/Tracks/Objects/TrackObjects.cs:145-155 | Writing a block's records back one after another gives the block. |
| TrackObjectTable.TrackObject.constructor | EpicEdit/Rom/Tracks/Objects/TrackObjects.cs:98 | An object is built from the 2 bytes at its offset, with its kind (regular or match race). |
| TrackObjectTable.TrackObject.GetBytes | EpicEdit/Rom/Tracks/Objects/TrackObjects.cs:151 | The object writes its 2 bytes at the offset and nothing else. |
| TrackObjectTable.OccupantsReplace | EpicEdit/Rom/Tracks/Objects/TrackObjects.cs:93-99 | Replacing a slot's occupant removes one subscription for the old occupant (if any) and adds one for the new. |
| TrackObjectTable.NoOccupants | EpicEdit/Rom/Tracks/Objects/TrackObjects.cs:74 | A freshly allocated, all-empty table has no subscriptions to match. |
| TrackObjectTable.TrackObjects.constructor | EpicEdit/Rom/Tracks/Objects/TrackObjects.cs:72-75 | After construction every slot is filled from the block's records, with one subscription per slot. |
| TrackObjectTable.TrackObjects.SetBytes | EpicEdit/Rom/Tracks/Objects/TrackObjects.cs:84-112 | Any length but 44 is refused with nothing changed. Otherwise slot i becomes a new object from the bytes at 2*i: regular for 0..15, match race for 16..21, all distinct. The subscriptions stay one per slot. |
| TrackObjectTable.TrackObjects.FillSlots | EpicEdit/Rom/Tracks/Objects/TrackObjects.cs:91-111 | One of the two loops: each slot in the range gets a fresh object of the given kind from its record, and the other slots are untouched. |
| TrackObjectTable.TrackObjects.ReplaceSlot | EpicEdit/Rom/Tracks/Objects/TrackObjects.cs:93-99 | Only slot i changes, and the subscriptions follow the occupants: the old listener is removed before the new one is added. |
| TrackObjectTable.TrackObjects.GetBytes | EpicEdit/Rom/Tracks/Objects/TrackObjects.cs:145-155 | Returns a fresh 44-byte array, which is the slots' records written in slot order. |
| TrackObjectTable.TrackObjects.Count | EpicEdit/Rom/Tracks/Objects/TrackObjects.cs:137 | The count is always 22. |
| TrackObjectTable.TrackObjects.Get | EpicEdit/Rom/Tracks/Objects/TrackObjects.cs:139 | The object at an index is a match-race one exactly when the index is 16 or more. |
| TrackObjectTable.TrackObjects.Enumerate | EpicEdit/Rom/Tracks/Objects/TrackObjects.cs:124-130 | The enumeration yields the 22 slots in index order. |
| TrackObjectTable.ListeningToEachSlotOnce | EpicEdit/Rom/Tracks/Objects/TrackObjects.cs:91-111 | After SetBytes, each object in the table is subscribed to exactly once, and nothing else is. |
| TrackObjectTable.SetBytesThenGetBytes | EpicEdit/Rom/Tracks/Objects/TrackObjects.cs:84-155 | GetBytes after SetBytes(d) returns d. |
| Settings.TextDataSizes | EpicEdit/Rom/Settings/GameSettings.cs:113-115 | Eight sizes: Japanese {48,94,70,68,144,136,96,42}, otherwise {66,130,90,80,173,134,112,52}. |
| Settings.WriteBlocks | EpicEdit/Rom/Settings/GameSettings.cs:198-212 | Save's write sequence: the blocks are written into the image first to last, and the image keeps its length. WriteOwnBlocks, WriteBlocksOutside and WriteBlocksDisjoint state what the writes preserve. |
| Settings.WriteOwnBlocks | EpicEdit/Rom/Settings/GameSettings.cs:198-212 | Writing back blocks that hold the image's own bytes leaves the image unchanged. |
| Settings.WriteBlocksOutside | EpicEdit/Rom/Settings/GameSettings.cs:198-212 | Saving never changes a byte that no member's block covers. |
| Settings.WriteBlocksDisjoint | EpicEdit/Rom/Settings/GameSettings.cs:198-212 | When the blocks do not overlap, each member's bytes end up at its offset. |
| Settings.Member.constructor | EpicEdit/Rom/Settings/GameSettings.cs:119-121 | A member holds the block of the image at its offset, of its size, and starts unmodified. |
| Settings.Member.Save | EpicEdit/Rom/Settings/GameSettings.cs:202 | The member's bytes are written at its offset, and the rest of the image is unchanged. |
| Settings.Member.ResetModifiedState | EpicEdit/Rom/Settings/GameSettings.cs:218 | The member's flag is cleared and nothing else of it changes. |
| Settings.SaveFirst | EpicEdit/Rom/Settings/GameSettings.cs:204-211 | Saving the first pending member leaves the others to be written, with the same final image. |
| Settings.ReadMembers | EpicEdit/Rom/Settings/GameSettings.cs:110-175 | The GP cup selection texts are absent exactly for Japan. Each member is read from its offset with its count and its region-table size, and holds those image bytes. The mode names are distinct from the others. |
| Settings.GameSettings.Tracked | EpicEdit/Rom/Settings/GameSettings.cs:198-212 | 9 tracked members outside Japan and 8 for Japan. |
| Settings.GameSettings.TrackedSet | EpicEdit/Rom/Settings/GameSettings.cs:177-191 | Every tracked member is in the set the settings subscribe to. |
| Settings.GameSettings.Blocks | EpicEdit/Rom/Settings/GameSettings.cs:198-212 | One block per tracked member, in saving order. |
| Settings.GameSettings.SaveRestoresImage | EpicEdit/Rom/Settings/GameSettings.cs:198-212 | Saving settings just read from an image writes back exactly that image. |
| Settings.GameSettings.Modified | EpicEdit/Rom/Settings/GameSettings.cs:86-101 | The Modified getter: the OR of the tracked members' flags, with an absent GP cup selection member counting as unmodified. ModifiedIffSomeTrackedMember proves it holds exactly when some tracked member is modified. |
| Settings.GameSettings.ModifiedIffSomeTrackedMember | EpicEdit/Rom/Settings/GameSettings.cs:86-101 | The settings are modified exactly when a tracked member is. An absent member and the mode names do not count. |
| Settings.GameSettings.constructor | EpicEdit/Rom/Settings/GameSettings.cs:103-108 | Implements Init: GP cup selection texts are absent exactly for Japan, and each member gets its count, region-table size and offset. Mode names: 3. GP result cups: 4. Podium cups: 5. Course select: 5 + 8. Each driver list: 8. The settings are unmodified, hold the image's bytes, and listen to exactly the tracked members. |
| Settings.GameSettings.HandleChanges | EpicEdit/Rom/Settings/GameSettings.cs:177-191 | Subscribes to every present member except the mode names. |
| Settings.GameSettings.OnPropertyChanged | EpicEdit/Rom/Settings/GameSettings.cs:193-196 | Forwards the notification with the original sender and field. |
| Settings.GameSettings.MemberChanged | EpicEdit/Rom/Settings/GameSettings.cs:177-196 | A member's notification is forwarded exactly when the settings subscribe to it. |
| Settings.GameSettings.Save | EpicEdit/Rom/Settings/GameSettings.cs:198-212 | The image after Save has every present tracked member written in order. The absent member is skipped. |
| Settings.GameSettings.SaveCommon | EpicEdit/Rom/Settings/GameSettings.cs:204-211 | The eight members present in every region are written in order. |
| Settings.GameSettings.ResetModifiedState | EpicEdit/Rom/Settings/GameSettings.cs:214-228 | Afterwards the settings are unmodified. No member's data changes, and the mode names' flag is untouched. |
| Drawing.VisibleTileSelectionRectangle | EpicEdit/UI/Gfx/TrackDrawer.cs:802-808 | The selection outline in pixels, one pixel out on the left and the top. VisibleSelectionFramesTiles proves it frames exactly the selected tiles. |
| Drawing.VisibleSelectionFramesTiles | EpicEdit/UI/Gfx/TrackDrawer.cs:802-808 | Every pixel of a selected tile is inside the outline. The outline adds only the pixel column left of the selection and the row above it. |
| Drawing.OverlayClipRectangle | EpicEdit/UI/Gfx/TrackDrawer.cs:810-816 | The pattern's tile rectangle at its location, scaled to pixels. OverlayClipIsPatternPixels proves it holds exactly the pattern's pixels. |
| Drawing.OverlayClipIsPatternPixels | EpicEdit/UI/Gfx/TrackDrawer.cs:810-816 | A pixel is in the overlay clip exactly when its tile is one of the pattern's tiles at the location. |
| Drawing.BattleStartClipRectangle | EpicEdit/UI/Gfx/TrackDrawer.cs:865-870 | The clip holds exactly the pixels within 4 of the start position on both axes. |
| Drawing.CoverSpan | EpicEdit/UI/Gfx/TrackDrawer.cs:884-918 | On one axis, the span starts at the smaller of the area start and the target. For a non-negative size it ends at the larger of the area's end and the target's end. |
| Drawing.AIClipTiles | EpicEdit/UI/Gfx/TrackDrawer.cs:884-918 | The clip in tiles, CoverSpan on each axis. AIClipCoversElement and AIClipIsSmallest prove it is the smallest rectangle covering the area and the target. |
| Drawing.AIClipCoversElement | EpicEdit/UI/Gfx/TrackDrawer.cs:884-918 | The clip tiles contain the whole area and the target tile. |
| Drawing.AIClipIsSmallest | EpicEdit/UI/Gfx/TrackDrawer.cs:884-918 | Any rectangle containing the area and the target tile contains the clip tiles. |
| Drawing.AIClipRectangle | EpicEdit/UI/Gfx/TrackDrawer.cs:920-923 | The clip tiles scaled to pixels. AIClipPixels proves a pixel is in it exactly when its tile is in the clip tiles. |
| Drawing.AIClipPixels | EpicEdit/UI/Gfx/TrackDrawer.cs:920-923 | A pixel is in the AI clip rectangle exactly when its tile is among the clip tiles. |
| Drawing.AIAreaRectangle | EpicEdit/UI/Gfx/TrackDrawer.cs:1505-1513 | The area's outline in pixels, one pixel narrower and shorter than the area. AIAreaOutlineEdges proves its edges are the first and last pixels of the area's tiles. |
| Drawing.AIAreaOutlineEdges | EpicEdit/UI/Gfx/TrackDrawer.cs:1505-1513 | The outline's edges are the first and last pixels of the area's tiles. A pixel lies between them, inclusive, exactly when its tile is in the area. |
| Drawing.SideShown | EpicEdit/UI/Gfx/TrackDrawer.cs:1374-1432 | The guard of each Paint*Side method. SideShownIffTargetInward proves it holds exactly when the target tile is on the area's side of that edge. |
| Drawing.ShapeSides | EpicEdit/UI/Gfx/TrackDrawer.cs:1330-1370 | The sides DrawAIElement paints for each shape: all four for a rectangle, and the two straight sides for each triangle. |
| Drawing.PaintedSides | EpicEdit/UI/Gfx/TrackDrawer.cs:1326-1370 | The sides of the shape whose guard holds. RectangleAllSidesIffTargetInside proves a rectangle paints all four exactly when the target is inside. |
| Drawing.SideShownIffTargetInward | EpicEdit/UI/Gfx/TrackDrawer.cs:1374-1432 | A side's triangle is painted exactly when the target tile lies on the area's side of that edge. |
| Drawing.RectangleAllSidesIffTargetInside | EpicEdit/UI/Gfx/TrackDrawer.cs:1326-1338 | A rectangular area gets all four sides painted exactly when its target tile is inside the area. |
| Drawing.CorrectedCorners | EpicEdit/UI/Gfx/TrackDrawer.cs:1520-1557 | Each corner is scaled to pixels and pulled back by the shape's step, except on the area's left or top edge. The length is kept. |
| Drawing.EndFix | EpicEdit/UI/Gfx/TrackDrawer.cs:1559-1578 | The fixed per-shape nudges keep the number of corners. |
| Drawing.TriangleOutline | EpicEdit/UI/Gfx/TrackDrawer.cs:1515-1581 | The outline has as many points as the triangle has corners. |
| Drawing.TriangleCornersMoveAtMostOnePixel | EpicEdit/UI/Gfx/TrackDrawer.cs:1515-1581 | With at least three corners, every corner ends up on its scaled pixel, or one pixel left of it and/or one pixel above. |
| Drawing.TopLeftCornerAnchoredIffOnEdge | EpicEdit/UI/Gfx/TrackDrawer.cs:1546-1557 | For a top-left triangle, a corner keeps its scaled x exactly when it lies on the area's left edge. Likewise its scaled y exactly when it lies on the top edge. |
| Drawing.GetAIAreaTriangle | EpicEdit/UI/Gfx/TrackDrawer.cs:1515-1581 | The point array is replaced in place by the triangle's outline. |
| Drawing.ObjectAreasChanged | EpicEdit/UI/Gfx/TrackDrawer.cs:1168-1187 | True when no grid is cached. Otherwise true exactly when some cell of the new grid differs from the cached one. |
| Drawing.NoCellDiffersIffSameGrid | EpicEdit/UI/Gfx/TrackDrawer.cs:1168-1187 | For grids of the same shape, "nothing changed" means the grids are equal. |
| Drawing.AreaGroup | EpicEdit/UI/Gfx/TrackDrawer.cs:1259-1260 | Object i's group g satisfies 4g <= i < 4g + 4, so objects come in groups of four consecutive ones. For the 16 regular objects the group is below 4. |
| Drawing.OutOfArea | EpicEdit/UI/Gfx/TrackDrawer.cs:1259-1260 | The out-of-area test: the grid cell under the object's tile holds a group other than its own. OutOfAreaIffCellOfOtherGroup ties it to the cell that holds the tile. |
| Drawing.OutOfAreaIffCellOfOtherGroup | EpicEdit/UI/Gfx/TrackDrawer.cs:1259-1260 | An object is out of its area exactly when the grid cell holding its tile is not of group i / 4. |
| Drawing.GPStartArrows | EpicEdit/UI/Gfx/TrackDrawer.cs:1053-1060 | Eight arrows in drawing order, alternating between the two columns, each 3 tiles below the previous. DrawGPStartPositions is proved to produce them. |
| Drawing.DrawGPStartPositions | EpicEdit/UI/Gfx/TrackDrawer.cs:1045-1061 | The loop draws 8 arrows, alternating columns x and x + offset, each 3 tiles below the previous. |

## Left out

- File I/O is not modelled. Import and export take the file's bytes and the path as values, and the stream plumbing is not modelled.
- The SMKC format itself belongs to `MakeTrack`, which is not part of this model. `MakeTrack` is a record of the fields a track copies to and from it.
- `Themes.GetThemeId` is not part of this model. ExportMkt takes the theme id byte as an input, and the round trip assumes the id is the theme's index shifted left by one.
- Tracks.GetExtension: models the extension scan with '/' and '\\' as separators. It does not model the platform's invalid-path-character checks.
- Case-insensitive comparison folds ASCII letters only. Ordinal ignore-case folding of other characters is not modelled; it cannot affect ".mkt".
- Tracks.Track.ImportMkt: is not atomic, following the code. The map is replaced before the theme byte is looked up, so a theme byte naming no theme fails with the new map already in place.
- The out-of-range theme lookup is an index exception in the program; here it is the `ThemeOutOfRange` outcome.
- Tracks.Track.MarkAsModified: its body is not in Track.cs. It is modelled as setting `Modified` and recording the field name of the change notification.
- BattleTracks.BattleTrack.constructor: requires a start position block of at least 8 bytes, as does SplitStartPositions. The program indexes bytes 0 to 7 and would otherwise throw an index exception.
- BattleTracks.BattleTrack.SetStartPositionP1: does not model the `DataChanged` event that `BattleStartPosition.SetBytes` may raise. `BattleStartPosition` is not part of this model; the change handlers are modelled separately by OnDataChanged.
- BattleTracks.BattleTrack.SetStartPositionP2: the same holds for player 2's record.
- BattleTracks.BattleTrack.LoadDataFrom: its `Base.Modified == old(Base.Modified)` holds only because the event from `BattleStartPosition.SetBytes` is not modelled. In the program that event may reach MarkAsModified through the handlers, so an SMKC import may mark the track modified.
- BattleTracks.BattleTrack.Import: its SMKC branch states nothing about `Base.Modified`. That branch calls LoadDataFrom, and in the program the event from `BattleStartPosition.SetBytes` may mark the track modified, which this model does not capture. The MKT branch touches only the map and the theme, and it states that the modified state is unchanged.
- Inheritance: BattleTrack extends Track in the program. Here it holds its shared part as `Base`, and its overrides call Base's methods.
- The track's constructor inputs (overlay data, AI data, tile sizes and patterns) are not modelled: the overlay tiles and AI are opaque objects. The GP track class is not modelled.
- TrackObject's byte layout (`TrackObject`/`TrackObjectMatchRace` fields) is not part of this model. Each object keeps its 2-byte record and writes it back.
- The object table's `Areas` and `Properties` sub-objects, and their notifications, are not modelled.
- Event delegates are modelled as a subscription multiset, a modified flag, or the last forwarded notification.
- TrackObjectTable.TrackObjects.SetBytes: the argument exception for a wrong length is the `false` result, with nothing changed.
- TrackObjectTable.TrackObjects.constructor: requires a 44-byte block. The program's constructor calls SetBytes, which throws an argument exception for any other length; a Dafny constructor cannot report that failure, so the wrong-length case is excluded here.
- Settings members: the `TextCollection` texts, encodings and converters are not modelled. Each member is kept as the block of bytes it reads and saves.
- `CupAndTrackNameSuffixCollection` holds no block of the image, so it is not modelled.
- `RankPoints.Size` and `ItemProbabilities.Size` are not part of this model; they are constructor parameters.
- Settings.Member.Edit: stands in for the editing operations of the members, which are not part of this model. It has no row above.
- `Offsets` is a record of the members' offsets rather than an indexed table.
- Settings.GameSettings.Save: writes each member at its offset. This includes the rank points and item probabilities, whose offset the program passes to their own Save.
- Settings.GameSettings.SaveCommon, Settings.SaveFirst, Settings.ReadMembers and TrackObjectTable.TrackObjects.FillSlots: are steps of the program's own methods, split out so that each proof stays small.
- All GDI+ painting in TrackDrawer.cs is not modelled: bitmaps, caches, pens, brushes, image attributes and disposal. `GetTrackClip`, `DrawImage` and `PaintTrackOutbounds` are not modelled because they use a floating-point zoom. `GetGPStartClipRegion` is not modelled because of its zoom and platform workarounds. `PaintTriangleDiagonalSide` first writes the target into the second-to-last corner of the point array, then fills the polygon; neither step is modelled.
- `TrackAIElement.GetTriangle` is not part of this model. GetAIAreaTriangle takes the corner array it returns.
- Drawing.GetAIAreaTriangle: requires as many corners as its shape's end corrections index (2 for top-right, 3 for the bottom shapes). The program would otherwise throw an index exception.
- Drawing.ObjectAreasChanged: requires the cached grid to be at least as large as the new one, row by row. The program would otherwise throw an index exception.
- Drawing.OutOfAreaIffCellOfOtherGroup: requires the object's cell to lie inside the grid, as the indexing in DrawObjects does.
- Drawing.AIClipCoversElement: assumes a non-negative area size, and AIClipIsSmallest a non-empty area. The AI code that keeps areas that way is not part of this model.
- Integer overflow: coordinates are unbounded integers. The program's values (tiles below 128, pixels below 1024) are far from 32-bit limits.
