/**
 Reading from a file or socket into a buffer. The space behind the write index is cut at a page
 boundary and then into fixed units; the kernel fills the pieces in order. The outcome is that of
 one plain read: the bytes delivered are appended, whatever the cut.
 */
module FileRead {
  import opened Base
  import opened Growth
  import opened Pages
  import opened BufferModel

  const UNIT: nat := 65536

  /** A piece of a buffer's memory, by its offset. */
  datatype Slice = Slice(start: nat, length: nat)

  function Total(slices: seq<Slice>): nat {
    if slices == [] then 0 else Total(slices[..|slices| - 1]) + slices[|slices| - 1].length
  }

  /** The slices lie one behind the other, from `start` on. */
  ghost predicate Contiguous(slices: seq<Slice>, start: nat) {
    forall i | 0 <= i < |slices| :: slices[i].start == start + Total(slices[..i])
  }

  lemma TotalExtends(slices: seq<Slice>, s: Slice)
    ensures Total(slices + [s]) == Total(slices) + s.length
  {
  }

  lemma ContiguousExtends(slices: seq<Slice>, start: nat, s: Slice)
    requires Contiguous(slices, start) && s.start == start + Total(slices)
    ensures Contiguous(slices + [s], start)
  {
    var more := slices + [s];
    forall i | 0 <= i < |more| ensures more[i].start == start + Total(more[..i]) {
      assert more[..i] == slices[..i];
      assert slices[..|slices|] == slices;
    }
  }

  lemma {:induction false} TotalGrows(slices: seq<Slice>, i: nat)
    requires i <= |slices|
    ensures Total(slices[..i]) <= Total(slices)
    decreases |slices|
  {
    if i == |slices| {
      assert slices[..i] == slices;
    } else {
      var most := slices[..|slices| - 1];
      TotalGrows(most, i);
      assert most[..i] == slices[..i];
    }
  }

  lemma TotalStep(slices: seq<Slice>, i: nat)
    requires i < |slices|
    ensures Total(slices[..i + 1]) == Total(slices[..i]) + slices[i].length <= Total(slices)
  {
    assert slices[..i + 1][..i] == slices[..i];
    TotalGrows(slices, i + 1);
  }

  /** The plan for a read that runs past the page the write index is in. */
  method BuildPlan(w: nat, pageRemain: nat, readSize: nat) returns (slices: seq<Slice>)
    requires pageRemain < readSize
    ensures Contiguous(slices, w) && Total(slices) == readSize
    ensures slices[0] == Slice(w, pageRemain)
    ensures forall i | 1 <= i < |slices| :: slices[i].length <= UNIT
  {
    var left := readSize - pageRemain;
    var splits := left / UNIT + 1;
    var mod := left % UNIT;
    slices := [Slice(w, pageRemain)];
    var i := 0;
    while i < splits
      invariant 0 <= i <= splits
      invariant |slices| == i + 1 && slices[0] == Slice(w, pageRemain)
      invariant Contiguous(slices, w)
      invariant Total(slices) == if i < splits then pageRemain + i * UNIT else readSize
      invariant forall j | 1 <= j < |slices| :: slices[j].length <= UNIT
    {
      var s := Slice(w + pageRemain + i * UNIT, if i == splits - 1 then mod else UNIT);
      TotalExtends(slices, s);
      ContiguousExtends(slices, w, s);
      slices := slices + [s];
      i := i + 1;
    }
  }

  method CopyAt(data: array<byte>, at: nat, bytes: Bytes)
    requires at + |bytes| <= data.Length
    modifies data
    ensures forall k | 0 <= k < data.Length ::
              data[k] == if at <= k < at + |bytes| then bytes[k - at] else old(data[k])
  {
    forall k | 0 <= k < |bytes| {
      data[at + k] := bytes[k];
    }
  }

  /** Fill one slice with as many bytes as it takes, behind the `done` bytes already delivered. */
  method FillSlice(data: array<byte>, s: Slice, bytes: Bytes, done: nat, ghost start: nat) returns (n: nat)
    requires done <= |bytes| && start + |bytes| <= data.Length && (done < |bytes| ==> s.start == start + done)
    requires forall k | start <= k < start + done :: data[k] == bytes[k - start]
    modifies data
    ensures n == if s.length < |bytes| - done then s.length else |bytes| - done
    ensures forall k | 0 <= k < data.Length ::
              data[k] == if start <= k < start + done + n then bytes[k - start] else old(data[k])
  {
    n := if s.length < |bytes| - done then s.length else |bytes| - done;
    if n > 0 {
      CopyAt(data, s.start, bytes[done..done + n]);
    }
  }

  /** `readv`: fill the slices in order with the bytes delivered. */
  method Readv(data: array<byte>, slices: seq<Slice>, bytes: Bytes, ghost start: nat)
    requires Contiguous(slices, start) && |bytes| <= Total(slices) && start + Total(slices) <= data.Length
    modifies data
    ensures forall k | 0 <= k < data.Length ::
              data[k] == if start <= k < start + |bytes| then bytes[k - start] else old(data[k])
  {
    var done, i := 0, 0;
    while i < |slices|
      invariant 0 <= i <= |slices|
      invariant done == if Total(slices[..i]) < |bytes| then Total(slices[..i]) else |bytes|
      invariant forall k | 0 <= k < data.Length ::
                  data[k] == if start <= k < start + done then bytes[k - start] else old(data[k])
    {
      TotalStep(slices, i);
      var n := FillSlice(data, slices[i], bytes, done, start);
      done := done + n;
      i := i + 1;
    }
    assert slices[..|slices|] == slices;
  }

  method PageRemain(ptr: nat, k: nat) returns (n: nat)
    requires k <= 63 && ptr + Pow2(k) < WORD
    ensures 0 < n <= Pow2(k)
    ensures exists page: nat :: ptr + n == page * Pow2(k)
  {
    var page := CeilPageIsNextBoundary(ptr, k);
    n := CeilPage(ptr, k) - ptr;
  }

  /** Fill the memory from `w` on in one piece or by plan. */
  method Fill(data: array<byte>, w: nat, readSize: nat, pageRemain: nat, bytes: Bytes)
    requires |bytes| <= readSize && w + readSize <= data.Length
    modifies data
    ensures forall k | 0 <= k < data.Length ::
              data[k] == if w <= k < w + |bytes| then bytes[k - w] else old(data[k])
  {
    if readSize <= pageRemain {
      CopyAt(data, w, bytes);
    } else {
      var slices := BuildPlan(w, pageRemain, readSize);
      Readv(data, slices, bytes, w);
    }
  }

  /** What was written behind `w` reads off behind what was there. */
  lemma WrittenBehind(before: Bytes, after: Bytes, r: nat, w: nat, bytes: Bytes)
    requires r <= w && w + |bytes| <= |before| == |after|
    requires forall k | 0 <= k < |after| :: after[k] == if w <= k < w + |bytes| then bytes[k - w] else before[k]
    ensures after[r..w + |bytes|] == before[r..w] + bytes
  {
  }

  /** Fill the memory from `w` on; what was readable from `r` on is now followed by the bytes. */
  method FillBehind(data: array<byte>, ghost r: nat, w: nat, readSize: nat, pageRemain: nat, bytes: Bytes)
    requires r <= w && |bytes| <= readSize && w + readSize <= data.Length
    modifies data
    ensures data[r..w + |bytes|] == old(data[r..w]) + bytes
  {
    ghost var before := data[..];
    Fill(data, w, readSize, pageRemain, bytes);
    WrittenBehind(before, data[..], r, w, bytes);
    assert data[r..w + |bytes|] == data[..][r..w + |bytes|];
  }

  /** Fill the room behind the write index and count what came. */
  method Deliver(b: Buffer, readSize: nat, pageRemain: nat, bytes: Bytes)
    requires b.Valid() && |bytes| <= readSize <= b.E().Writable()
    modifies b`w, b.data
    ensures b.Valid() && b.Contents() == old(b.Contents()) + bytes
    ensures b.E() == old(b.E()).(w := old(b.w) + |bytes|)
  {
    FillBehind(b.data, b.r, b.w, readSize, pageRemain, bytes);
    b.w := b.w + |bytes|;
  }

  /** The number of bytes asked for: no more than the file has, when its size is known. */
  function ReadSize(readBytes: nat, fileSize: int): (n: nat)
    ensures n <= readBytes && (fileSize > 0 ==> n <= fileSize)
    ensures n == readBytes || n == fileSize > 0
  {
    if fileSize > 0 && fileSize < readBytes then fileSize else readBytes
  }

  /** A file of known size, or as much as is asked for, fits. */
  predicate FitsRoom(room: int, readBytes: nat, fileSize: int) {
    readBytes <= room || 0 < fileSize <= room
  }

  lemma FitsRoomIff(room: int, readBytes: nat, fileSize: int)
    ensures FitsRoom(room, readBytes, fileSize) <==> ReadSize(readBytes, fileSize) <= room
  {
  }

  /** Make room for what will be asked of the file. */
  method MakeRoom(b: Buffer, fileSize: int, readBytes: nat, capped: bool, drop: bool, granted: bool)
    returns (ok: bool)
    requires b.Valid() && MayAsk(b.E(), ReadSize(readBytes, fileSize), capped, drop)
    modifies b, b.data
    ensures b.Valid() && (b.data == old(b.data) || fresh(b.data)) && b.Contents() == old(b.Contents())
    ensures b.E() == EnsuredExtent(old(b.E()), ReadSize(readBytes, fileSize), capped, drop, granted)
    ensures var fits := FitsRoom(old(b.data.Length - b.w), readBytes, fileSize)
                        || (drop && FitsRoom(old(b.data.Length - (b.w - b.r)), readBytes, fileSize));
            (ok <==> fits || granted) && (fits ==> b.data == old(b.data))
    ensures ok ==> ReadSize(readBytes, fileSize) <= b.data.Length - b.w
  {
    FitsRoomIff(b.data.Length - b.w, readBytes, fileSize);
    FitsRoomIff(b.data.Length - (b.w - b.r), readBytes, fileSize);
    ShortIff(b.E(), ReadSize(readBytes, fileSize), drop, granted);
    ok := b.EnsureWritable(ReadSize(readBytes, fileSize), capped, drop, granted);
  }

  /**
   `file` is what the file would deliver from here on and `got` what the kernel answers: -1, or how
   many bytes it delivers. `address` is where the buffer's memory begins once there is room; pages
   have 2^k bytes.
   */
  method AppendFile(b: Buffer, file: Bytes, fileSize: int, readBytes: nat, got: int, address: nat, k: nat,
                    capped: bool, drop: bool, granted: bool) returns (ret: int)
    requires b.Valid() && MayAsk(b.E(), ReadSize(readBytes, fileSize), capped, drop)
    requires -1 <= got <= readBytes && (fileSize > 0 ==> got <= fileSize) && got <= |file|
    requires k <= 63
    requires var room := EnsuredExtent(b.E(), ReadSize(readBytes, fileSize), capped, drop, granted);
             address + room.length + Pow2(k) < WORD
    modifies b, b.data
    ensures b.Valid()
    ensures FitsRoom(old(b.data.Length - b.w), readBytes, fileSize) ==> ret == got && b.data == old(b.data)
    ensures drop && FitsRoom(old(b.data.Length - (b.w - b.r)), readBytes, fileSize) ==>
              ret == got && b.data == old(b.data)
    ensures !FitsRoom(old(b.data.Length - b.w), readBytes, fileSize)
            && !(drop && FitsRoom(old(b.data.Length - (b.w - b.r)), readBytes, fileSize)) ==>
              ret == if granted then got else -1
    ensures ret <= readBytes && (fileSize > 0 ==> ret <= fileSize)
    ensures b.Contents() == if ret <= 0 then old(b.Contents()) else old(b.Contents()) + file[..ret]
    ensures old(b.r) == 0 ==> b.r == 0
  {
    var readSize := ReadSize(readBytes, fileSize);
    var ok := MakeRoom(b, fileSize, readBytes, capped, drop, granted);
    if !ok {
      return -1;
    }
    var pageRemain := PageRemain(address + b.w, k);
    Deliver(b, readSize, pageRemain, if got > 0 then file[..got] else []);
    ret := got;
  }
}
