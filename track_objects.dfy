/**
 * The object table of a Grand Prix track (TrackObjects.cs): 16 regular
 * object slots followed by 6 match-race slots, each read from and written
 * back to its own 2-byte record of a 44-byte block.
 */
module TrackObjectTable {
  import opened Common

  const RegularObjectCount := 16
  const MatchRaceObjectCount := 6
  const ObjectCount := RegularObjectCount + MatchRaceObjectCount
  const BytesPerObject := 2
  /** 22 slots of 2 bytes: a 44-byte block. */
  const Size := ObjectCount * BytesPerObject

  /**
   * A track object.  Its own field layout is not part of this model: it is
   * kept as the 2-byte record it was built from, which it writes back.
   */
  class TrackObject {
    const IsMatchRace: bool
    var Bytes: seq<byte>

    constructor (data: seq<byte>, offset: nat, matchRace: bool)
      requires offset + BytesPerObject <= |data|
      ensures IsMatchRace == matchRace && Bytes == data[offset..offset + BytesPerObject]
    {
      IsMatchRace := matchRace;
      Bytes := data[offset..offset + BytesPerObject];
    }

    /** Writes the record into `data` at `offset`. */
    method GetBytes(data: array<byte>, offset: nat)
      requires |Bytes| == BytesPerObject && offset + BytesPerObject <= data.Length
      modifies data
      ensures data[..] == Overwrite(old(data[..]), offset, Bytes)
    {
      data[offset] := Bytes[0];
      data[offset + 1] := Bytes[1];
    }
  }

  // ---------------------------------------------------------------------------
  // The block as a sequence of 2-byte records
  // ---------------------------------------------------------------------------

  /** The 2-byte records of `d`, in order: record `i` is the bytes at offset `2 * i`. */
  function Records(d: seq<byte>): (r: seq<seq<byte>>)
    requires |d| % BytesPerObject == 0
    ensures |r| == |d| / BytesPerObject
    ensures forall i :: 0 <= i < |r| ==> r[i] == d[BytesPerObject * i..BytesPerObject * i + BytesPerObject]
  {
    seq(|d| / BytesPerObject, i requires 0 <= i < |d| / BytesPerObject =>
      d[BytesPerObject * i..BytesPerObject * i + BytesPerObject])
  }

  /** The record of slot `i` in block `d`: the 2 bytes at offset `2 * i`. */
  function RecordAt(d: seq<byte>, i: nat): seq<byte>
    requires BytesPerObject * i + BytesPerObject <= |d|
  {
    d[BytesPerObject * i..BytesPerObject * i + BytesPerObject]
  }

  /** The records written one after the other. */
  function Flatten(records: seq<seq<byte>>): seq<byte> {
    if records == [] then [] else Flatten(records[..|records| - 1]) + records[|records| - 1]
  }

  /** Records of two bytes each flatten to twice as many bytes. */
  lemma {:induction false} FlattenLength(records: seq<seq<byte>>)
    requires forall i :: 0 <= i < |records| ==> |records[i]| == BytesPerObject
    ensures |Flatten(records)| == BytesPerObject * |records|
  {
    if records != [] {
      FlattenLength(records[..|records| - 1]);
    }
  }

  /** Cutting a block into its records and writing them back gives the block. */
  lemma {:induction false} FlattenRecords(d: seq<byte>)
    requires |d| % BytesPerObject == 0
    ensures Flatten(Records(d)) == d
  {
    if d != [] {
      var n := |d|;
      var front := d[..n - BytesPerObject];
      FlattenRecords(front);
      forall i | 0 <= i < |Records(front)|
        ensures Records(d)[i] == Records(front)[i]
      {
        assert d[BytesPerObject * i..BytesPerObject * i + BytesPerObject]
            == front[BytesPerObject * i..BytesPerObject * i + BytesPerObject];
      }
      assert Records(d)[..|Records(d)| - 1] == Records(front);
      assert Records(d)[|Records(d)| - 1] == d[n - BytesPerObject..];
      assert front + d[n - BytesPerObject..] == d;
    }
  }

  /** The objects held by the slots `s`, counted once per slot that holds them; empty slots do not count. */
  function Occupants(s: seq<TrackObject?>): multiset<TrackObject?> {
    if s == [] then multiset{}
    else Occupants(s[..|s| - 1]) + (if s[|s| - 1] != null then multiset{s[|s| - 1]} else multiset{})
  }

  /** The occupants are the multiset of the slots with the empty ones left out. */
  lemma {:induction false} OccupantsAsMultiset(s: seq<TrackObject?>)
    ensures Occupants(s) == multiset(s)[null := 0]
  {
    if s != [] {
      var front := s[..|s| - 1];
      OccupantsAsMultiset(front);
      assert s == front + [s[|s| - 1]];
    }
  }

  /** Putting `o` in slot `i` takes the previous occupant's count down by one and `o`'s up by one. */
  lemma OccupantsReplace(s: seq<TrackObject?>, i: nat, o: TrackObject)
    requires i < |s|
    ensures Occupants(s[i := o]) ==
      (if s[i] != null then Occupants(s) - multiset{s[i]} else Occupants(s)) + multiset{o}
  {
    OccupantsAsMultiset(s);
    OccupantsAsMultiset(s[i := o]);
  }

  /** Empty slots have no occupants. */
  lemma {:induction false} NoOccupants(s: seq<TrackObject?>)
    requires forall i :: 0 <= i < |s| ==> s[i] == null
    ensures Occupants(s) == multiset{}
  {
    if s != [] {
      NoOccupants(s[..|s| - 1]);
    }
  }

  /** When the slots hold distinct objects, each occupant is counted once and nothing else is. */
  lemma OccupantsOfDistinct(s: seq<TrackObject?>, o: TrackObject)
    requires forall i, j :: 0 <= i < j < |s| ==> s[i] != s[j]
    ensures Occupants(s)[o] == if o in s then 1 else 0
  {
    OccupantsAsMultiset(s);
    DistinctCount(s, o);
  }

  lemma {:induction false} DistinctCount(s: seq<TrackObject?>, o: TrackObject)
    requires forall i, j :: 0 <= i < j < |s| ==> s[i] != s[j]
    ensures multiset(s)[o] == if o in s then 1 else 0
  {
    if s != [] {
      var front := s[..|s| - 1];
      DistinctCount(front, o);
      assert s == front + [s[|s| - 1]];
      assert o in s <==> o in front || o == s[|s| - 1];
    }
  }

  // ---------------------------------------------------------------------------
  // The table
  // ---------------------------------------------------------------------------

  class TrackObjects {
    const objects: array<TrackObject?>
    /** The objects whose change notifications this table forwards, with multiplicity. */
    var Subscriptions: multiset<TrackObject?>

    ghost function Slots(): set<object?>
      reads this, objects
    {
      set i | 0 <= i < objects.Length :: objects[i]
    }

    /** Every slot is filled, its record is 2 bytes, and slots 16..21 are the match-race ones. */
    ghost predicate Filled()
      reads this, objects, Slots()
    {
      && objects.Length == ObjectCount
      && (forall i :: 0 <= i < ObjectCount ==> objects[i] != null)
      && (forall i :: 0 <= i < ObjectCount ==> |objects[i].Bytes| == BytesPerObject)
      && (forall i :: 0 <= i < ObjectCount ==> (objects[i].IsMatchRace <==> RegularObjectCount <= i))
    }

    /** The table listens to exactly its occupants, once per slot. */
    ghost predicate Listening()
      reads this, objects
    {
      Subscriptions == Occupants(objects[..])
    }

    /** The records of the 22 slots, in slot order. */
    ghost function SlotRecords(): (r: seq<seq<byte>>)
      reads this, objects, Slots()
      requires Filled()
      ensures |r| == ObjectCount
    {
      seq(ObjectCount, i requires 0 <= i < ObjectCount && objects[i] != null reads this, objects, Slots() =>
        objects[i].Bytes)
    }

    constructor (data: seq<byte>)
      requires |data| == Size
      ensures Filled() && Listening()
      ensures SlotRecords() == Records(data)
    {
      objects := new TrackObject?[ObjectCount](_ => null);
      Subscriptions := multiset{};
      new;
      assert objects[..] == seq(ObjectCount, _ => null);
      NoOccupants(objects[..]);
      var ok := SetBytes(data);
    }

    /**
     * Rebuilds every slot from `data`: refused (nothing changed) unless
     * `data` is exactly 44 bytes; otherwise slot `i` becomes a new object
     * built from the 2 bytes at offset `2 * i`, regular for the first 16
     * slots and match-race for the last 6, and the table stops listening to
     * each replaced object before it starts listening to its replacement.
     */
    method SetBytes(data: seq<byte>) returns (ok: bool)
      requires objects.Length == ObjectCount && Listening()
      modifies this, objects
      ensures ok <==> |data| == Size
      ensures !ok ==> unchanged(this, objects)
      ensures ok ==> Filled() && SlotRecords() == Records(data)
      ensures ok ==> forall i :: 0 <= i < ObjectCount ==> fresh(objects[i])
      ensures ok ==> forall i, j :: 0 <= i < j < ObjectCount ==> objects[i] != objects[j]
      ensures Listening()
    {
      if |data| != Size {
        return false;
      }
      ok := true;

      FillSlots(data, 0, RegularObjectCount, false);
      FillSlots(data, RegularObjectCount, ObjectCount, true);
      assert SlotRecords() == Records(data);
    }

    /**
     * One of SetBytes' two loops: slots `from` to `to - 1` become new
     * objects built from their records, all regular or all match-race.
     */
    method FillSlots(data: seq<byte>, from: nat, to: nat, matchRace: bool)
      requires from <= to <= objects.Length && |data| == BytesPerObject * objects.Length
      requires Listening()
      modifies this, objects
      ensures Listening()
      ensures forall k :: 0 <= k < objects.Length && !(from <= k < to) ==> objects[k] == old(objects[k])
      ensures forall k :: from <= k < to ==>
        objects[k] != null && fresh(objects[k]) && objects[k].IsMatchRace == matchRace
      ensures forall k :: from <= k < to ==> objects[k] != null && objects[k].Bytes == RecordAt(data, k)
      ensures forall k, l :: from <= k < l < to ==> objects[k] != objects[l]
    {
      for i := from to to
        invariant Listening()
        invariant forall k :: 0 <= k < objects.Length && !(from <= k < i) ==> objects[k] == old(objects[k])
        invariant forall k :: from <= k < i ==>
          objects[k] != null && fresh(objects[k]) && objects[k].IsMatchRace == matchRace
        invariant forall k :: from <= k < i ==> objects[k] != null && objects[k].Bytes == RecordAt(data, k)
        invariant forall k, l :: from <= k < l < i ==> objects[k] != objects[l]
      {
        var o := new TrackObject(data, BytesPerObject * i, matchRace);
        ReplaceSlot(i, o);
      }
    }

    /** Puts `o` in slot `i`: stop listening to the previous occupant, if any, then listen to `o`. */
    method ReplaceSlot(i: nat, o: TrackObject)
      requires i < objects.Length && Listening()
      modifies this, objects
      ensures objects[..] == old(objects[..])[i := o]
      ensures objects[i] == o && forall k :: 0 <= k < objects.Length && k != i ==> objects[k] == old(objects[k])
      ensures Listening()
    {
      if objects[i] != null {
        Subscriptions := Subscriptions - multiset{objects[i]};
      }
      OccupantsReplace(objects[..], i, o);
      objects[i] := o;
      Subscriptions := Subscriptions + multiset{o};
    }

    /** The block in the format the ROM expects: slot `i` at offset `2 * i`. */
    method GetBytes() returns (data: array<byte>)
      requires Filled()
      ensures fresh(data)
      ensures data[..] == Flatten(SlotRecords())
      ensures data.Length == Size
    {
      data := new byte[objects.Length * BytesPerObject];
      ghost var records := SlotRecords();
      for i := 0 to objects.Length
        invariant forall k :: 0 <= k < |records| ==> |records[k]| == BytesPerObject
        invariant data[..BytesPerObject * i] == Flatten(records[..i])
      {
        FlattenLength(records[..i]);
        objects[i].GetBytes(data, i * BytesPerObject);
        assert records[..i + 1][..i] == records[..i];
        assert data[..BytesPerObject * (i + 1)] == data[..BytesPerObject * i] + records[i];
      }
      assert records[..ObjectCount] == records;
      assert data[..] == data[..BytesPerObject * ObjectCount];
      assert data[..] == Flatten(records);
      assert records == SlotRecords();
    }

    function Count(): (n: nat)
      reads this, objects, Slots()
      requires Filled()
      ensures n == ObjectCount
    {
      objects.Length
    }

    /** The object in slot `index`. */
    function Get(index: int): (o: TrackObject)
      reads this, objects, Slots()
      requires Filled() && 0 <= index < Count()
      ensures o.IsMatchRace <==> index >= RegularObjectCount
    {
      objects[index]
    }

    /** Enumeration visits the slots in index order. */
    function Enumerate(): (r: seq<TrackObject>)
      reads this, objects, Slots()
      requires Filled()
      ensures |r| == Count()
      ensures forall i :: 0 <= i < |r| ==> r[i] == Get(i)
    {
      seq(ObjectCount, i requires 0 <= i < ObjectCount && objects[i] != null reads this, objects, Slots() =>
        objects[i])
    }
  }

  /** After a successful SetBytes, each slot's object is listened to exactly once and nothing else is. */
  lemma ListeningToEachSlotOnce(t: TrackObjects, o: TrackObject)
    requires t.Filled() && t.Listening()
    requires forall i, j :: 0 <= i < j < ObjectCount ==> t.objects[i] != t.objects[j]
    ensures t.Subscriptions[o] == if o in t.objects[..] then 1 else 0
  {
    OccupantsOfDistinct(t.objects[..], o);
  }

  /** Writing a block in with SetBytes and reading it out with GetBytes gives the block back. */
  method SetBytesThenGetBytes(t: TrackObjects, d: seq<byte>) returns (r: array<byte>)
    requires t.objects.Length == ObjectCount && t.Listening()
    requires |d| == Size
    modifies t, t.objects
    ensures r[..] == d
  {
    var ok := t.SetBytes(d);
    ghost var records := t.SlotRecords();
    assert records == Records(d);
    r := t.GetBytes();
    assert t.Filled();
    assert t.SlotRecords() == records;
    assert r[..] == Flatten(records);
    FlattenRecords(d);
  }
}
