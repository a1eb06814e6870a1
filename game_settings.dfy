/**
 * The game settings (GameSettings.cs): the text collections and the two
 * tables a cartridge image holds besides its tracks.  Each member occupies a
 * block of the image at its own offset; the settings aggregate their
 * modified flags, save them back one after another and forward their change
 * notifications.  The Japanese image has no editable GP cup selection texts,
 * so that member is absent there.
 */
module Settings {
  import opened Common
  import opened TrackParts
  import opened Tracks

  datatype Region = Jap | US | Euro

  /**
   * The sizes of the eight text blocks, in the order mode names, GP cup
   * selection, GP results cups, GP podium cups, course selection, GP results
   * drivers, GP podium drivers, time trial drivers.
   */
  function TextDataSizes(region: Region): (r: seq<nat>)
    ensures |r| == 8
    ensures region == Jap ==> r == [48, 94, 70, 68, 144, 136, 96, 42]
    ensures region != Jap ==> r == [66, 130, 90, 80, 173, 134, 112, 52]
  {
    if region == Jap then [48, 94, 70, 68, 144, 136, 96, 42]
    else [66, 130, 90, 80, 173, 134, 112, 52]
  }

  /** Where each member's block starts in the image. */
  datatype Offsets = Offsets(
    modeNames: nat, gpCupSelectTexts: nat, gpResultsCupTexts: nat, gpPodiumCupTexts: nat,
    courseSelectTexts: nat, driverNamesGPResults: nat, driverNamesGPPodium: nat,
    driverNamesTimeTrial: nat, rankPoints: nat, itemProbabilities: nat)

  /** A block of bytes to be written at an offset of the image. */
  datatype Block = Block(offset: nat, data: seq<byte>)

  /** Every block lies within an image of `size` bytes. */
  predicate BlocksFit(size: nat, blocks: seq<Block>)
  {
    forall i :: 0 <= i < |blocks| ==> blocks[i].offset + |blocks[i].data| <= size
  }

  /** The image after writing `blocks` into it, first to last. */
  function WriteBlocks(buf: seq<byte>, blocks: seq<Block>): (r: seq<byte>)
    requires BlocksFit(|buf|, blocks)
    ensures |r| == |buf|
    decreases |blocks|
  {
    if blocks == [] then buf
    else WriteBlocks(Overwrite(buf, blocks[0].offset, blocks[0].data), blocks[1..])
  }

  /** Block `b` holds what the image `buf` has at its place. */
  predicate HoldsOwnBytes(buf: seq<byte>, b: Block)
  {
    b.offset + |b.data| <= |buf| && b.data == buf[b.offset..b.offset + |b.data|]
  }

  /** Writing back blocks that hold what the image already has leaves the image as it was. */
  lemma {:induction false} WriteOwnBlocks(buf: seq<byte>, blocks: seq<Block>)
    requires forall b :: b in blocks ==> HoldsOwnBytes(buf, b)
    ensures BlocksFit(|buf|, blocks) && WriteBlocks(buf, blocks) == buf
    decreases |blocks|
  {
    if blocks != [] {
      assert HoldsOwnBytes(buf, blocks[0]);
      OverwriteWithOwnBytes(buf, blocks[0].offset, |blocks[0].data|);
      WriteOwnBlocks(buf, blocks[1..]);
    }
  }

  /** A byte that no block covers keeps its value. */
  lemma {:induction false} WriteBlocksOutside(buf: seq<byte>, blocks: seq<Block>, k: nat)
    requires BlocksFit(|buf|, blocks) && k < |buf|
    requires forall i :: 0 <= i < |blocks| ==> !(blocks[i].offset <= k < blocks[i].offset + |blocks[i].data|)
    ensures WriteBlocks(buf, blocks)[k] == buf[k]
    decreases |blocks|
  {
    if blocks != [] {
      var next := Overwrite(buf, blocks[0].offset, blocks[0].data);
      assert forall i :: 0 <= i < |blocks[1..]| ==> blocks[1..][i] == blocks[i + 1];
      WriteBlocksOutside(next, blocks[1..], k);
    }
  }

  predicate Disjoint(a: Block, b: Block)
  {
    a.offset + |a.data| <= b.offset || b.offset + |b.data| <= a.offset
  }

  /** When no two blocks overlap, each block's bytes end up at its place. */
  lemma {:induction false} WriteBlocksDisjoint(buf: seq<byte>, blocks: seq<Block>, i: nat, j: nat)
    requires BlocksFit(|buf|, blocks)
    requires forall p, q :: 0 <= p < q < |blocks| ==> Disjoint(blocks[p], blocks[q])
    requires i < |blocks| && j < |blocks[i].data|
    ensures WriteBlocks(buf, blocks)[blocks[i].offset + j] == blocks[i].data[j]
    decreases |blocks|
  {
    var next := Overwrite(buf, blocks[0].offset, blocks[0].data);
    var rest := blocks[1..];
    assert forall p :: 0 <= p < |rest| ==> rest[p] == blocks[p + 1];
    if i == 0 {
      forall p | 0 <= p < |rest|
        ensures !(rest[p].offset <= blocks[0].offset + j < rest[p].offset + |rest[p].data|)
      {
        assert Disjoint(blocks[0], blocks[p + 1]);
      }
      WriteBlocksOutside(next, rest, blocks[0].offset + j);
    } else {
      WriteBlocksDisjoint(next, rest, i - 1, j);
    }
  }

  /**
   * One member of the settings: a text collection or a table, kept as the
   * block of bytes it was read from (and saves back) and its modified flag.
   * `Count` is the number of texts of a text collection and 0 for a table.
   */
  class Member {
    const Offset: nat
    const Size: nat
    const Count: nat
    var Data: seq<byte>
    var Modified: bool

    /** Reads the member from its block of the image; a new member is unmodified. */
    constructor (rom: seq<byte>, offset: nat, count: nat, size: nat)
      requires offset + size <= |rom|
      ensures Offset == offset && Size == size && Count == count
      ensures Data == rom[offset..offset + size] && !Modified
      ensures HoldsOwnBytes(rom, ToBlock())
    {
      Offset, Size, Count := offset, size, count;
      Data := rom[offset..offset + size];
      Modified := false;
    }

    function ToBlock(): Block
      reads this
    {
      Block(Offset, Data)
    }

    /** An edit through the editor: new content of the same size, and the member is modified. */
    method Edit(data: seq<byte>)
      requires |data| == Size
      modifies this
      ensures Data == data && Modified
    {
      Data := data;
      Modified := true;
    }

    /** Writes the member's block back at its offset. */
    method Save(rom: array<byte>)
      requires Offset + |Data| <= rom.Length
      modifies rom
      ensures rom[..] == Overwrite(old(rom[..]), Offset, Data)
    {
      var k := 0;
      while k < |Data|
        invariant 0 <= k <= |Data|
        invariant forall p :: 0 <= p < k ==> rom[Offset + p] == Data[p]
        invariant forall p :: 0 <= p < rom.Length && !(Offset <= p < Offset + k) ==> rom[p] == old(rom[p])
      {
        rom[Offset + k] := Data[k];
        k := k + 1;
      }
    }

    method ResetModifiedState()
      modifies this`Modified
      ensures !Modified
    {
      Modified := false;
    }
  }

  /** Saves `m`, whose block is the first of the `pending` ones; the rest remain to be written. */
  method SaveFirst(m: Member, rom: array<byte>, ghost pending: seq<Block>)
    requires pending != [] && pending[0] == m.ToBlock()
    requires BlocksFit(rom.Length, pending)
    modifies rom
    ensures BlocksFit(rom.Length, pending[1..])
    ensures WriteBlocks(old(rom[..]), pending) == WriteBlocks(rom[..], pending[1..])
  {
    m.Save(rom);
  }

  /** Member `m` was just read from its block of the image: it holds those bytes and is unmodified. */
  ghost predicate ReadAt(m: Member, rom: seq<byte>, offset: nat, count: nat, size: nat)
    reads m
  {
    m.Offset == offset && m.Count == count && m.Size == size &&
    HoldsOwnBytes(rom, m.ToBlock()) && !m.Modified
  }

  /**
   * The reading part of the settings' Init: each member read from its block
   * of the image, the GP cup selection texts only outside Japan.
   */
  method ReadMembers(rom: seq<byte>, offsets: Offsets, region: Region, rankPointsSize: nat, itemProbabilitiesSize: nat)
    returns (modeNames: Member, gpCupSelectTexts: Member?, gpResultsCupTexts: Member, gpPodiumCupTexts: Member,
             courseSelectTexts: Member, driverNamesGPResults: Member, driverNamesGPPodium: Member,
             driverNamesTimeTrial: Member, rankPoints: Member, itemProbabilities: Member)
    requires var s := TextDataSizes(region);
      && offsets.modeNames + s[0] <= |rom|
      && (region != Jap ==> offsets.gpCupSelectTexts + s[1] <= |rom|)
      && offsets.gpResultsCupTexts + s[2] <= |rom|
      && offsets.gpPodiumCupTexts + s[3] <= |rom|
      && offsets.courseSelectTexts + s[4] <= |rom|
      && offsets.driverNamesGPResults + s[5] <= |rom|
      && offsets.driverNamesGPPodium + s[6] <= |rom|
      && offsets.driverNamesTimeTrial + s[7] <= |rom|
      && offsets.rankPoints + rankPointsSize <= |rom|
      && offsets.itemProbabilities + itemProbabilitiesSize <= |rom|
    ensures gpCupSelectTexts == null <==> region == Jap
    ensures modeNames !in {gpCupSelectTexts, gpResultsCupTexts, gpPodiumCupTexts, courseSelectTexts,
      driverNamesGPResults, driverNamesGPPodium, driverNamesTimeTrial, rankPoints, itemProbabilities}
    ensures gpCupSelectTexts != null ==>
      ReadAt(gpCupSelectTexts, rom, offsets.gpCupSelectTexts, GPTrackGroupCount, TextDataSizes(region)[1])
    ensures ReadAt(modeNames, rom, offsets.modeNames, 3, TextDataSizes(region)[0])
    ensures ReadAt(gpResultsCupTexts, rom, offsets.gpResultsCupTexts, GPTrackGroupCount, TextDataSizes(region)[2])
    ensures ReadAt(gpPodiumCupTexts, rom, offsets.gpPodiumCupTexts, GPTrackGroupCount + 1, TextDataSizes(region)[3])
    ensures ReadAt(courseSelectTexts, rom, offsets.courseSelectTexts, TrackGroupCount + ThemeCount, TextDataSizes(region)[4])
    ensures ReadAt(driverNamesGPResults, rom, offsets.driverNamesGPResults, 8, TextDataSizes(region)[5])
    ensures ReadAt(driverNamesGPPodium, rom, offsets.driverNamesGPPodium, 8, TextDataSizes(region)[6])
    ensures ReadAt(driverNamesTimeTrial, rom, offsets.driverNamesTimeTrial, 8, TextDataSizes(region)[7])
    ensures ReadAt(rankPoints, rom, offsets.rankPoints, 0, rankPointsSize)
    ensures ReadAt(itemProbabilities, rom, offsets.itemProbabilities, 0, itemProbabilitiesSize)
  {
    var s := TextDataSizes(region);
    modeNames := new Member(rom, offsets.modeNames, 3, s[0]);
    gpCupSelectTexts := null;
    if region != Jap {
      gpCupSelectTexts := new Member(rom, offsets.gpCupSelectTexts, GPTrackGroupCount, s[1]);
      assert gpCupSelectTexts != modeNames;
    }
    gpResultsCupTexts := new Member(rom, offsets.gpResultsCupTexts, GPTrackGroupCount, s[2]);
    assert gpResultsCupTexts != modeNames;
    gpPodiumCupTexts := new Member(rom, offsets.gpPodiumCupTexts, GPTrackGroupCount + 1, s[3]);
    assert gpPodiumCupTexts != modeNames;
    courseSelectTexts := new Member(rom, offsets.courseSelectTexts, TrackGroupCount + ThemeCount, s[4]);
    assert courseSelectTexts != modeNames;
    driverNamesGPResults := new Member(rom, offsets.driverNamesGPResults, 8, s[5]);
    assert driverNamesGPResults != modeNames;
    driverNamesGPPodium := new Member(rom, offsets.driverNamesGPPodium, 8, s[6]);
    assert driverNamesGPPodium != modeNames;
    driverNamesTimeTrial := new Member(rom, offsets.driverNamesTimeTrial, 8, s[7]);
    assert driverNamesTimeTrial != modeNames;
    rankPoints := new Member(rom, offsets.rankPoints, 0, rankPointsSize);
    assert rankPoints != modeNames;
    itemProbabilities := new Member(rom, offsets.itemProbabilities, 0, itemProbabilitiesSize);
    assert itemProbabilities != modeNames;
  }

  class GameSettings {
    const Region: Region
    const ModeNames: Member
    const GPCupSelectTexts: Member?
    const GPResultsCupTexts: Member
    const GPPodiumCupTexts: Member
    const CourseSelectTexts: Member
    const DriverNamesGPResults: Member
    const DriverNamesGPPodium: Member
    const DriverNamesTimeTrial: Member
    const RankPoints: Member
    const ItemProbabilities: Member

    /** The members whose change notifications the settings listen to. */
    var Subscribed: set<Member>
    /** The last change notification forwarded to the settings' own listeners: its sender and field name. */
    var LastForwarded: Option<(Member, string)>

    /**
     * The members taken into account by Modified, Save and ResetModifiedState,
     * in that order: every present member except the mode names.
     */
    function Tracked(): (r: seq<Member>)
      ensures |r| == if GPCupSelectTexts == null then 8 else 9
    {
      (if GPCupSelectTexts != null then [GPCupSelectTexts] else [])
      + [GPResultsCupTexts, GPPodiumCupTexts, CourseSelectTexts,
         DriverNamesGPResults, DriverNamesGPPodium, DriverNamesTimeTrial,
         RankPoints, ItemProbabilities]
    }

    /** The tracked members, as a set. */
    function TrackedSet(): (r: set<Member>)
      ensures forall i :: 0 <= i < |Tracked()| ==> Tracked()[i] in r
    {
      (if GPCupSelectTexts != null then {GPCupSelectTexts} else {})
      + {GPResultsCupTexts, GPPodiumCupTexts, CourseSelectTexts,
         DriverNamesGPResults, DriverNamesGPPodium, DriverNamesTimeTrial,
         RankPoints, ItemProbabilities}
    }

    /** Every present member: the mode names and the tracked ones. */
    function Members(): set<Member>
    {
      {ModeNames} + TrackedSet()
    }

    /** The blocks of the members present in every region, in saving order. */
    function CommonBlocks(): (r: seq<Block>)
      reads Members()
    {
      [GPResultsCupTexts.ToBlock(), GPPodiumCupTexts.ToBlock(), CourseSelectTexts.ToBlock(),
       DriverNamesGPResults.ToBlock(), DriverNamesGPPodium.ToBlock(), DriverNamesTimeTrial.ToBlock(),
       RankPoints.ToBlock(), ItemProbabilities.ToBlock()]
    }

    /** The blocks Save writes, in order: one per tracked member. */
    function Blocks(): (r: seq<Block>)
      reads Members()
      ensures |r| == |Tracked()|
      ensures forall i :: 0 <= i < |r| ==> r[i] == Tracked()[i].ToBlock()
    {
      (if GPCupSelectTexts != null then [GPCupSelectTexts.ToBlock()] else []) + CommonBlocks()
    }

    /**
     * The GP cup selection texts are there exactly outside Japan, and the
     * mode names are not one of the tracked members.
     */
    ghost predicate Valid()
    {
      && (GPCupSelectTexts == null <==> Region == Jap)
      && ModeNames !in TrackedSet()
    }

    /** Every present member holds the bytes at its place in the image `rom`. */
    ghost predicate LoadedFrom(rom: seq<byte>)
      reads Members()
    {
      && HoldsOwnBytes(rom, ModeNames.ToBlock())
      && (GPCupSelectTexts != null ==> HoldsOwnBytes(rom, GPCupSelectTexts.ToBlock()))
      && HoldsOwnBytes(rom, GPResultsCupTexts.ToBlock())
      && HoldsOwnBytes(rom, GPPodiumCupTexts.ToBlock())
      && HoldsOwnBytes(rom, CourseSelectTexts.ToBlock())
      && HoldsOwnBytes(rom, DriverNamesGPResults.ToBlock())
      && HoldsOwnBytes(rom, DriverNamesGPPodium.ToBlock())
      && HoldsOwnBytes(rom, DriverNamesTimeTrial.ToBlock())
      && HoldsOwnBytes(rom, RankPoints.ToBlock())
      && HoldsOwnBytes(rom, ItemProbabilities.ToBlock())
    }

    /** Saving settings whose members hold the image's own bytes leaves the image as it was. */
    lemma SaveRestoresImage(rom: seq<byte>)
      requires LoadedFrom(rom)
      ensures BlocksFit(|rom|, Blocks()) && WriteBlocks(rom, Blocks()) == rom
    {
      var common := CommonBlocks();
      assert forall b :: b in common ==> HoldsOwnBytes(rom, b);
      var blocks := Blocks();
      forall b | b in blocks ensures HoldsOwnBytes(rom, b) {
        if b !in common {
          assert GPCupSelectTexts != null && b == GPCupSelectTexts.ToBlock();
        }
      }
      WriteOwnBlocks(rom, blocks);
    }

    /** Whether any tracked member has been modified; an absent member counts as unmodified. */
    predicate Modified()
      reads Members()
    {
      || (GPCupSelectTexts != null && GPCupSelectTexts.Modified)
      || GPResultsCupTexts.Modified
      || GPPodiumCupTexts.Modified
      || CourseSelectTexts.Modified
      || DriverNamesGPResults.Modified
      || DriverNamesGPPodium.Modified
      || DriverNamesTimeTrial.Modified
      || RankPoints.Modified
      || ItemProbabilities.Modified
    }

    /** The settings are modified exactly when one of the tracked members is. */
    lemma ModifiedIffSomeTrackedMember()
      ensures Modified() <==> exists i :: 0 <= i < |Tracked()| && Tracked()[i].Modified
    {
      var t := Tracked();
      var d := if GPCupSelectTexts != null then 1 else 0;
      if Modified() {
        if GPCupSelectTexts != null && GPCupSelectTexts.Modified {
          assert t[0].Modified;
        } else if GPResultsCupTexts.Modified {
          assert t[d].Modified;
        } else if GPPodiumCupTexts.Modified {
          assert t[d + 1].Modified;
        } else if CourseSelectTexts.Modified {
          assert t[d + 2].Modified;
        } else if DriverNamesGPResults.Modified {
          assert t[d + 3].Modified;
        } else if DriverNamesGPPodium.Modified {
          assert t[d + 4].Modified;
        } else if DriverNamesTimeTrial.Modified {
          assert t[d + 5].Modified;
        } else if RankPoints.Modified {
          assert t[d + 6].Modified;
        } else {
          assert t[d + 7].Modified;
        }
      }
    }

    /**
     * Reads every member from the image: the text blocks take their sizes
     * from the region's table, the GP cup selection texts are read only
     * outside Japan, and the two tables take the given sizes.  The settings
     * then listen to the tracked members.
     */
    constructor (rom: seq<byte>, offsets: Offsets, region: Region, rankPointsSize: nat, itemProbabilitiesSize: nat)
      requires var s := TextDataSizes(region);
        && offsets.modeNames + s[0] <= |rom|
        && (region != Jap ==> offsets.gpCupSelectTexts + s[1] <= |rom|)
        && offsets.gpResultsCupTexts + s[2] <= |rom|
        && offsets.gpPodiumCupTexts + s[3] <= |rom|
        && offsets.courseSelectTexts + s[4] <= |rom|
        && offsets.driverNamesGPResults + s[5] <= |rom|
        && offsets.driverNamesGPPodium + s[6] <= |rom|
        && offsets.driverNamesTimeTrial + s[7] <= |rom|
        && offsets.rankPoints + rankPointsSize <= |rom|
        && offsets.itemProbabilities + itemProbabilitiesSize <= |rom|
      ensures Valid() && Region == region
      ensures ModeNames.Count == 3 && ModeNames.Size == TextDataSizes(region)[0]
      ensures GPCupSelectTexts != null ==>
        GPCupSelectTexts.Count == GPTrackGroupCount && GPCupSelectTexts.Size == TextDataSizes(region)[1]
      ensures GPResultsCupTexts.Count == GPTrackGroupCount && GPResultsCupTexts.Size == TextDataSizes(region)[2]
      ensures GPPodiumCupTexts.Count == GPTrackGroupCount + 1 && GPPodiumCupTexts.Size == TextDataSizes(region)[3]
      ensures CourseSelectTexts.Count == TrackGroupCount + ThemeCount && CourseSelectTexts.Size == TextDataSizes(region)[4]
      ensures DriverNamesGPResults.Count == 8 && DriverNamesGPResults.Size == TextDataSizes(region)[5]
      ensures DriverNamesGPPodium.Count == 8 && DriverNamesGPPodium.Size == TextDataSizes(region)[6]
      ensures DriverNamesTimeTrial.Count == 8 && DriverNamesTimeTrial.Size == TextDataSizes(region)[7]
      ensures RankPoints.Size == rankPointsSize && ItemProbabilities.Size == itemProbabilitiesSize
      ensures ModeNames.Offset == offsets.modeNames
      ensures GPCupSelectTexts != null ==>
        GPCupSelectTexts.Offset == offsets.gpCupSelectTexts
      ensures GPResultsCupTexts.Offset == offsets.gpResultsCupTexts
      ensures GPPodiumCupTexts.Offset == offsets.gpPodiumCupTexts
      ensures CourseSelectTexts.Offset == offsets.courseSelectTexts
      ensures DriverNamesGPResults.Offset == offsets.driverNamesGPResults
      ensures DriverNamesGPPodium.Offset == offsets.driverNamesGPPodium
      ensures DriverNamesTimeTrial.Offset == offsets.driverNamesTimeTrial
      ensures RankPoints.Offset == offsets.rankPoints
      ensures ItemProbabilities.Offset == offsets.itemProbabilities
      ensures LoadedFrom(rom) && !Modified()
      ensures Subscribed == TrackedSet()
      ensures LastForwarded == None
    {
      var modeNames, gpCupSelectTexts, gpResultsCupTexts, gpPodiumCupTexts, courseSelectTexts,
        driverNamesGPResults, driverNamesGPPodium, driverNamesTimeTrial, rankPoints, itemProbabilities :=
        ReadMembers(rom, offsets, region, rankPointsSize, itemProbabilitiesSize);
      Region, ModeNames, GPCupSelectTexts := region, modeNames, gpCupSelectTexts;
      GPResultsCupTexts, GPPodiumCupTexts, CourseSelectTexts := gpResultsCupTexts, gpPodiumCupTexts, courseSelectTexts;
      DriverNamesGPResults, DriverNamesGPPodium, DriverNamesTimeTrial := driverNamesGPResults, driverNamesGPPodium, driverNamesTimeTrial;
      RankPoints, ItemProbabilities := rankPoints, itemProbabilities;
      Subscribed := {};
      LastForwarded := None;
      new;
      HandleChanges();
    }

    /** Starts listening to every tracked member. */
    method HandleChanges()
      modifies this`Subscribed
      ensures Subscribed == old(Subscribed) + TrackedSet()
    {
      if GPCupSelectTexts != null {
        Subscribed := Subscribed + {GPCupSelectTexts};
      }
      Subscribed := Subscribed + {GPResultsCupTexts};
      Subscribed := Subscribed + {GPPodiumCupTexts};
      Subscribed := Subscribed + {CourseSelectTexts};
      Subscribed := Subscribed + {DriverNamesGPResults};
      Subscribed := Subscribed + {DriverNamesGPPodium};
      Subscribed := Subscribed + {DriverNamesTimeTrial};
      Subscribed := Subscribed + {RankPoints};
      Subscribed := Subscribed + {ItemProbabilities};
    }

    /** Passes a member's change notification on, with the member as its sender. */
    method OnPropertyChanged(sender: Member, property: string)
      modifies this`LastForwarded
      ensures LastForwarded == Some((sender, property))
    {
      LastForwarded := Some((sender, property));
    }

    /** Member `m` raises a change notification: it reaches the settings only if they listen to `m`. */
    method MemberChanged(m: Member, property: string)
      modifies this`LastForwarded
      ensures m in Subscribed ==> LastForwarded == Some((m, property))
      ensures m !in Subscribed ==> LastForwarded == old(LastForwarded)
    {
      if m in Subscribed {
        OnPropertyChanged(m, property);
      }
    }

    /** Saves every tracked member into the image, in order; an absent member is skipped. */
    method Save(rom: array<byte>)
      requires BlocksFit(rom.Length, Blocks())
      modifies rom
      ensures rom[..] == WriteBlocks(old(rom[..]), Blocks())
    {
      if GPCupSelectTexts != null {
        assert Blocks()[0] == GPCupSelectTexts.ToBlock();
        GPCupSelectTexts.Save(rom);
      }
      assert Blocks()[|Blocks()| - 8..] == CommonBlocks();
      SaveCommon(rom);
    }

    /** Saves the members present in every region, in order. */
    method SaveCommon(rom: array<byte>)
      requires BlocksFit(rom.Length, CommonBlocks())
      modifies rom
      ensures rom[..] == WriteBlocks(old(rom[..]), CommonBlocks())
    {
      ghost var pending := CommonBlocks();
      SaveFirst(GPResultsCupTexts, rom, pending);
      pending := pending[1..];
      SaveFirst(GPPodiumCupTexts, rom, pending);
      pending := pending[1..];
      SaveFirst(CourseSelectTexts, rom, pending);
      pending := pending[1..];
      SaveFirst(DriverNamesGPResults, rom, pending);
      pending := pending[1..];
      SaveFirst(DriverNamesGPPodium, rom, pending);
      pending := pending[1..];
      SaveFirst(DriverNamesTimeTrial, rom, pending);
      pending := pending[1..];
      SaveFirst(RankPoints, rom, pending);
      pending := pending[1..];
      SaveFirst(ItemProbabilities, rom, pending);
    }

    /** Clears the modified flag of every tracked member; afterwards the settings are unmodified. */
    method ResetModifiedState()
      requires Valid()
      modifies TrackedSet()
      ensures !Modified()
      ensures forall m :: m in Members() ==> m.Data == old(m.Data)
      ensures ModeNames.Modified == old(ModeNames.Modified)
    {
      if GPCupSelectTexts != null {
        GPCupSelectTexts.ResetModifiedState();
      }
      GPResultsCupTexts.ResetModifiedState();
      GPPodiumCupTexts.ResetModifiedState();
      CourseSelectTexts.ResetModifiedState();
      DriverNamesGPResults.ResetModifiedState();
      DriverNamesGPPodium.ResetModifiedState();
      DriverNamesTimeTrial.ResetModifiedState();
      RankPoints.ResetModifiedState();
      ItemProbabilities.ResetModifiedState();
    }
  }
}
