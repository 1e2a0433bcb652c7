/**
 `Buffer`: a block of memory with a read index and a write index. What it holds for its users is
 the bytes between the two. The success of an allocation is an input of every operation that may
 need one.
 */
module BufferModel {
  import opened Base
  import opened Growth

  /** The three numbers that decide what an operation does to the memory. */
  datatype Extent = Extent(length: nat, r: nat, w: nat) {
    predicate Ok() { r <= w <= length }

    function Readable(): nat
      requires Ok()
    {
      w - r
    }

    function Writable(): nat
      requires Ok()
    {
      length - w
    }
  }

  /** `require` more bytes fit once the read ones are dropped. */
  predicate FitsDropping(e: Extent, require: nat)
    requires e.Ok()
  {
    e.length - e.Readable() >= require
  }

  predicate NeedsGrowth(e: Extent, require: nat, drop: bool)
    requires e.Ok()
  {
    require > e.Writable() && !(drop && FitsDropping(e, require))
  }

  /** The length growth asks for. It budgets the readable bytes, not those already read. */
  function NewLength(e: Extent, require: nat, capped: bool): nat
    requires e.Ok()
  {
    if capped then e.Readable() + require else Grown(e.length, e.Readable() + require)
  }

  /** Growth keeps the indices, so the new memory must reach past the write index. */
  predicate GrowthFits(e: Extent, require: nat, capped: bool)
    requires e.Ok()
  {
    e.w + require <= NewLength(e, require, capped) < WORD
  }

  /** What the caller must see to before asking for room. */
  predicate MayAsk(e: Extent, require: nat, capped: bool, drop: bool)
    requires e.Ok()
  {
    NeedsGrowth(e, require, drop) ==> GrowthFits(e, require, capped)
  }

  function EnsuredExtent(e: Extent, require: nat, capped: bool, drop: bool, granted: bool): (e': Extent)
    requires e.Ok() && MayAsk(e, require, capped, drop)
    ensures e'.Ok() && e'.Readable() == e.Readable()
    ensures Short(e, require, drop, granted) || e'.Writable() >= require
    ensures e.r == 0 ==> e'.r == 0
  {
    if require <= e.Writable() then e
    else if drop && FitsDropping(e, require) then Extent(e.length, 0, e.Readable())
    else if granted then e.(length := NewLength(e, require, capped))
    else e
  }

  /** Growth is needed and refused: the operation changes nothing. */
  predicate Short(e: Extent, require: nat, drop: bool, granted: bool)
    requires e.Ok()
  {
    NeedsGrowth(e, require, drop) && !granted
  }

  /** Room is refused exactly if no memory is granted and the bytes fit neither as it is nor by dropping read ones. */
  lemma ShortIff(e: Extent, require: nat, drop: bool, granted: bool)
    requires e.Ok()
    ensures Short(e, require, drop, granted) <==>
            !granted && require > e.length - e.w && !(drop && require <= e.length - (e.w - e.r))
    ensures NeedsGrowth(e, require, drop) <==>
            require > e.length - e.w && !(drop && require <= e.length - (e.w - e.r))
  {
  }

  function AppendedExtent(e: Extent, n: nat, capped: bool, drop: bool, granted: bool): (e': Extent)
    requires e.Ok() && MayAsk(e, n, capped, drop)
    ensures e'.Ok() && e'.Readable() == e.Readable() + if Short(e, n, drop, granted) then 0 else n
    ensures e.r == 0 ==> e'.r == 0
  {
    var e1 := EnsuredExtent(e, n, capped, drop, granted);
    if Short(e, n, drop, granted) then e1 else e1.(w := e1.w + n)
  }

  /**
   Exactly when growth is sound. With a cap: when nothing has been read. Without: when counting the
   bytes already read would not have asked for another doubling.
   */
  lemma GrowthFitsIff(e: Extent, require: nat)
    requires e.Ok() && e.length < WORD && e.Readable() + require <= HALF_WORD
    ensures GrowthFits(e, require, true) <==> e.r == 0
    ensures GrowthFits(e, require, false) <==> Grown(e.length, e.w + require) == Grown(e.length, e.Readable() + require)
  {
    HalfWordTargetsFit(e.length, e.Readable() + require);
    SameDoubling(Start(e.length), e.Readable() + require, e.w + require);
  }

  lemma {:induction false} SameDoubling(base: nat, target: nat, more: nat)
    requires 0 < base && target <= more
    ensures more <= Doubled(base, target) <==> Doubled(base, more) == Doubled(base, target)
    decreases target - base
  {
    if base < target { SameDoubling(2 * base, target, more); }
  }

  /** A buffer nothing has been read from may always ask, up to half a word. */
  lemma UnreadMayAsk(e: Extent, require: nat, capped: bool, drop: bool)
    requires e.Ok() && e.r == 0 && e.w + require <= HALF_WORD
    ensures MayAsk(e, require, capped, drop)
  {
  }

  /** With nothing read, appending follows the length rule whose cost over a run is bounded in `AmortisedGrowth`. */
  lemma UnreadAppendFollowsRule(length: nat, w: nat, n: nat, granted: bool)
    requires w <= length && w + n <= HALF_WORD
    ensures var e := Extent(length, 0, w);
            && MayAsk(e, n, false, false)
            && (Short(e, n, false, granted) <==> w + n > length && !granted)
            && AppendedExtent(e, n, false, false, granted) ==
               if Short(e, n, false, granted) then e else Extent(LengthAfter(length, w, n), 0, w + n)
  {
  }

  /** For instance: 16 bytes, all written, 8 of them read; asking for 5 more under a cap gets 13. */
  lemma CappedGrowthTooShort()
    ensures var e := Extent(16, 8, 16); NeedsGrowth(e, 5, false) && NewLength(e, 5, true) < e.length
    ensures !GrowthFits(Extent(16, 8, 16), 5, true)
  {
  }

  /** Nor without a cap, as by default: 8 more are asked for, 16 bytes already are enough for 8 and 8. */
  lemma UncappedGrowthTooShort()
    ensures var e := Extent(16, 8, 16); NeedsGrowth(e, 8, false) && NewLength(e, 8, false) == e.length
    ensures !GrowthFits(Extent(16, 8, 16), 8, false)
  {
  }

  class Buffer {
    /** Without memory (`data_` null) a buffer has length zero. */
    var hasMemory: bool
    var data: array<byte>
    var r: nat
    var w: nat

    function E(): Extent
      reads this
    {
      Extent(data.Length, r, w)
    }

    ghost predicate Valid()
      reads this
    {
      E().Ok() && (!hasMemory ==> data.Length == 0)
    }

    /** The readable bytes. */
    ghost function Contents(): (s: Bytes)
      reads this, data
      requires Valid()
      ensures |s| == w - r
    {
      data[r..w]
    }

    constructor Empty()
      ensures Valid() && fresh(data) && !hasMemory && r == 0 && Contents() == []
    {
      hasMemory, data, r, w := false, new byte[0], 0, 0;
    }

    constructor Sized(length: nat)
      ensures Valid() && fresh(data) && hasMemory && data.Length == length && r == 0 && Contents() == []
    {
      hasMemory, data, r, w := true, new byte[length], 0, 0;
    }

    method Reset()
      modifies this`r, this`w
      ensures E().Ok() && r == w == 0
    {
      r, w := 0, 0;
    }

    /** Move the readable bytes to the front. */
    method Rearrange()
      requires Valid()
      modifies this`r, this`w, data
      ensures Valid() && E() == Extent(old(data.Length), 0, old(w - r))
      ensures Contents() == old(Contents())
    {
      var used := w - r;
      if used == 0 {
        Reset();
        return;
      }
      forall i | 0 <= i < used {
        data[i] := data[r + i];
      }
      r, w := 0, used;
    }

    /** Either reallocation, aligned or not, keeps every old byte where it was. */
    method Reallocate(newLength: nat)
      requires Valid() && data.Length <= newLength
      modifies this`data, this`hasMemory
      ensures fresh(data) && E() == Extent(newLength, old(r), old(w))
      ensures Valid() && Contents() == old(Contents())
    {
      var newData := new byte[newLength];
      forall i | 0 <= i < data.Length {
        newData[i] := data[i];
      }
      hasMemory, data := true, newData;
    }

    /** The growing branch: twice as long as often as needed, or just as long as needed under a cap. */
    method Grow(require: nat, capped: bool, granted: bool) returns (ok: bool)
      requires Valid() && GrowthFits(E(), require, capped) && require > E().Writable()
      modifies this`data, this`hasMemory
      ensures Valid() && (data == old(data) || fresh(data))
      ensures ok == granted && Contents() == old(Contents())
      ensures E() == if ok then old(E()).(length := NewLength(old(E()), require, capped)) else old(E())
    {
      var newLength;
      if capped {
        newLength := w - r + require;
      } else {
        newLength := NextPowOfTwo(data.Length, w - r + require);
      }
      assert newLength == NewLength(E(), require, capped);
      if !granted {
        return false;
      }
      Reallocate(newLength);
      return true;
    }

    /** Make room for `require` bytes, keeping what is readable. */
    method EnsureWritable(require: nat, capped: bool, drop: bool, granted: bool) returns (ok: bool)
      requires Valid() && MayAsk(E(), require, capped, drop)
      modifies this, data
      ensures Valid() && (data == old(data) || fresh(data))
      ensures E() == EnsuredExtent(old(E()), require, capped, drop, granted)
      ensures Contents() == old(Contents())
      ensures ok <==> !old(Short(E(), require, drop, granted))
      ensures old(!NeedsGrowth(E(), require, drop)) ==> data == old(data)
    {
      if require <= data.Length - w {
        return true;
      }
      if drop && data.Length - (w - r) >= require {
        Rearrange();
        return true;
      }
      ok := Grow(require, capped, granted);
    }

    /** Copy bytes behind the readable ones. */
    method Put(bytes: Bytes)
      requires Valid() && |bytes| <= E().Writable()
      modifies this`w, data
      ensures Valid() && E() == old(E()).(w := old(w) + |bytes|)
      ensures Contents() == old(Contents()) + bytes
    {
      forall i | 0 <= i < |bytes| {
        data[w + i] := bytes[i];
      }
      w := w + |bytes|;
    }

    method Append(bytes: Bytes, capped: bool, drop: bool, granted: bool) returns (ret: int)
      requires Valid() && MayAsk(E(), |bytes|, capped, drop)
      modifies this, data
      ensures Valid() && (data == old(data) || fresh(data))
      ensures ret == if old(Short(E(), |bytes|, drop, granted)) then -1 else |bytes|
      ensures E() == AppendedExtent(old(E()), |bytes|, capped, drop, granted)
      ensures Contents() == if ret == -1 then old(Contents()) else old(Contents()) + bytes
      ensures old(!NeedsGrowth(E(), |bytes|, drop)) ==> data == old(data)
    {
      var ok := EnsureWritable(|bytes|, capped, drop, granted);
      if !ok {
        return -1;
      }
      Put(bytes);
      return |bytes|;
    }

    /** With room at hand nothing is moved or allocated. */
    method AppendFitting(bytes: Bytes, capped: bool, drop: bool) returns (ret: int)
      requires Valid() && |bytes| <= E().Writable()
      modifies this, data
      ensures Valid() && data == old(data) && r == old(r) && w == old(w) + |bytes|
      ensures ret == |bytes| && Contents() == old(Contents()) + bytes
    {
      ret := Append(bytes, capped, drop, true);
    }

    /** The common case: nothing read yet, no cap. */
    method AppendUnread(bytes: Bytes, granted: bool) returns (ret: int)
      requires Valid() && r == 0 && w + |bytes| <= HALF_WORD
      modifies this, data
      ensures Valid() && r == 0 && (data == old(data) || fresh(data))
      ensures ret == if old(w) + |bytes| > old(data.Length) && !granted then -1 else |bytes|
      ensures Contents() == if ret == -1 then old(Contents()) else old(Contents()) + bytes
      ensures data.Length == if ret == -1 then old(data.Length) else LengthAfter(old(data.Length), old(w), |bytes|)
    {
      UnreadAppendFollowsRule(data.Length, w, |bytes|, granted);
      ret := Append(bytes, false, false, granted);
    }

    /** Hand out up to `size` bytes from the front. */
    method Read(size: nat, rearrange: bool) returns (ret: int, out: Bytes)
      requires Valid()
      modifies this`r, this`w, data
      ensures Valid() && data.Length == old(data.Length)
      ensures ret == if !hasMemory then -1 else |out|
      ensures hasMemory ==> |out| == if size < |old(Contents())| then size else |old(Contents())|
      ensures out + Contents() == old(Contents())
      ensures hasMemory && rearrange ==> r == 0
      ensures !hasMemory ==> r == old(r)
    {
      if hasMemory {
        out := TakeUpTo(size, rearrange);
        ret := |out|;
      } else {
        ret, out := -1, [];
        assert out + Contents() == Contents();
      }
    }

    method TakeUpTo(size: nat, rearrange: bool) returns (out: Bytes)
      requires Valid()
      modifies this`r, this`w, data
      ensures Valid() && data.Length == old(data.Length)
      ensures |out| == if size < |old(Contents())| then size else |old(Contents())|
      ensures out + Contents() == old(Contents())
      ensures rearrange ==> r == 0
    {
      out := Take(if size < w - r then size else w - r);
      Settle(rearrange);
    }

    /** Copy `n` bytes out and move the read index past them. */
    method Take(n: nat) returns (out: Bytes)
      requires Valid() && n <= w - r
      modifies this`r
      ensures Valid() && E() == old(E()).(r := old(r) + n)
      ensures |out| == n && out + Contents() == old(Contents())
    {
      out := data[r..r + n];
      Advance(n);
    }

    /** `r_idx_ += n`. */
    method Advance(n: nat)
      requires Valid() && n <= w - r
      modifies this`r
      ensures Valid() && E() == old(E()).(r := old(r) + n) && Contents() == old(Contents())[n..]
    {
      r := r + n;
    }

    /** Rearrange when nothing is left to read, or when asked to. */
    method Settle(rearrange: bool)
      requires Valid()
      modifies this`r, this`w, data
      ensures Valid() && Contents() == old(Contents())
      ensures r == 0 || (!rearrange && r == old(r))
    {
      if r == w || rearrange {
        Rearrange();
      }
    }

    /** `r_idx_ = min(next, w_idx_)`. */
    method SetRead(next: nat)
      requires Valid()
      modifies this`r
      ensures Valid()
      ensures next >= old(r) ==>
                var n := next - old(r);
                Contents() == if n <= |old(Contents())| then old(Contents())[n..] else []
      ensures next < old(r) ==> Contents() == data[next..w]
    {
      r := if next < w then next else w;
    }

    /** The sum of two 64-bit words. */
    method AddWords(a: nat, b: nat) returns (sum: nat)
      requires a < WORD && b < WORD
      ensures sum == if a + b < WORD then a + b else a + b - WORD
    {
      sum := (a + b) % WORD;
    }

    /**
     Note that `n` bytes have been consumed elsewhere. The sum of two 64-bit words may wrap: then
     the read index moves back instead, and bytes already consumed are readable again.
     */
    method Retrieve(n: nat, rearrange: bool)
      requires Valid() && w < WORD && n < WORD
      modifies this`r, this`w, data
      ensures Valid() && data.Length == old(data.Length)
      ensures old(r) + n < WORD ==> Contents() == if n <= |old(Contents())| then old(Contents())[n..] else []
      ensures old(r) + n >= WORD ==>
                old(r) + n - WORD < old(r) && Contents() == old(data[r + n - WORD..w])
      ensures rearrange ==> r == 0
    {
      var next := AddWords(r, n);
      SetRead(next);
      Settle(rearrange);
    }

    /** Append what another buffer holds. */
    method AppendOther(from: Buffer, capped: bool, drop: bool, granted: bool) returns (ret: int)
      requires Valid() && from.Valid() && from != this && from.data != data
      requires MayAsk(E(), from.w - from.r, capped, drop)
      modifies this, data
      ensures Valid() && from.Valid()
      ensures ret == if old(Short(E(), from.w - from.r, drop, granted)) then -1 else old(from.w - from.r)
      ensures Contents() == if ret == -1 then old(Contents()) else old(Contents()) + old(from.Contents())
      ensures from.Contents() == old(from.Contents())
    {
      var source := from.data[from.r..from.w];
      var ok := EnsureWritable(|source|, capped, drop, granted);
      assert from.data[from.r..from.w] == source;
      if !ok {
        return -1;
      }
      ret := AppendFitting(source, capped, drop);
      assert from.data[from.r..from.w] == source;
    }

    /** Append to a buffer what it holds itself, where it lies once there is room. */
    method AppendSelf(capped: bool, drop: bool, granted: bool) returns (ret: int)
      requires Valid() && MayAsk(E(), w - r, capped, drop)
      modifies this, data
      ensures Valid()
      ensures ret == if old(Short(E(), w - r, drop, granted)) then -1 else old(w - r)
      ensures Contents() == if ret == -1 then old(Contents()) else old(Contents()) + old(Contents())
    {
      var ok := EnsureWritable(w - r, capped, drop, granted);
      if !ok {
        return -1;
      }
      ret := AppendFitting(data[r..w], capped, drop);
    }

    /** Append what `from` holds; `from` may be this very buffer. */
    method AppendBuffer(from: Buffer, capped: bool, drop: bool, granted: bool) returns (ret: int)
      requires Valid() && from.Valid() && MayAsk(E(), from.w - from.r, capped, drop)
      requires from != this ==> from.data != data
      modifies this, data
      ensures Valid() && from.Valid()
      ensures ret == if old(Short(E(), from.w - from.r, drop, granted)) then -1 else old(from.w - from.r)
      ensures Contents() == if ret == -1 then old(Contents()) else old(Contents()) + old(from.Contents())
      ensures from != this ==> from.Contents() == old(from.Contents())
    {
      if from == this {
        ret := AppendSelf(capped, drop, granted);
      } else {
        ret := AppendOther(from, capped, drop, granted);
      }
    }

    /** Move everything from one buffer to the end of another; from itself, that changes nothing. */
    method Transfer(from: Buffer, capped: bool, drop: bool, granted: bool) returns (ret: int)
      requires Valid() && from.Valid() && MayAsk(E(), from.w - from.r, capped, drop)
      requires from != this ==> from.data != data
      modifies this, data, from`r
      ensures Valid() && from.Valid()
      ensures ret == if old(Short(E(), from.w - from.r, drop, granted)) then -1 else old(from.w - from.r)
      ensures from != this && ret != -1 ==>
                Contents() == old(Contents()) + old(from.Contents()) && from.Contents() == []
      ensures from == this || ret == -1 ==>
                Contents() == old(Contents()) && from.Contents() == old(from.Contents())
    {
      ret := AppendBuffer(from, capped, drop, granted);
      if ret > 0 {
        from.Advance(ret);
      }
    }
  }
}
