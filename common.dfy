/** Shared vocabulary of the model: bytes and writing a block into a byte buffer. */
module Common {

  /** An unsigned 8-bit value, as stored in a cartridge image or a track file. */
  newtype byte = x: int | 0 <= x < 256

  datatype Option<T> = None | Some(value: T)

  /** The buffer `buf` with `data` written over it starting at `offset`. */
  function Overwrite(buf: seq<byte>, offset: nat, data: seq<byte>): (r: seq<byte>)
    requires offset + |data| <= |buf|
    ensures |r| == |buf|
    ensures forall k :: 0 <= k < |data| ==> r[offset + k] == data[k]
    ensures forall k :: 0 <= k < |buf| && !(offset <= k < offset + |data|) ==> r[k] == buf[k]
  {
    buf[..offset] + data + buf[offset + |data|..]
  }

  /** Writing back the bytes a buffer already holds leaves the buffer as it was. */
  lemma OverwriteWithOwnBytes(buf: seq<byte>, offset: nat, len: nat)
    requires offset + len <= |buf|
    ensures Overwrite(buf, offset, buf[offset..offset + len]) == buf
  {
    var r := Overwrite(buf, offset, buf[offset..offset + len]);
    forall k | 0 <= k < |buf| ensures r[k] == buf[k] {
      if offset <= k < offset + len {
        assert r[offset + (k - offset)] == buf[offset..offset + len][k - offset];
      }
    }
  }
}
