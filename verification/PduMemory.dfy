/** The memory behind the PDU channels: how the total size is computed, where
    `create` puts each channel, and what one write or read touches. */
module PduMemory {
  import opened Common

  const UINT64_MAX := TWO64 - 1

  function Sum(s: seq<nat>): nat {
    if s == [] then 0 else Sum(s[..|s| - 1]) + s[|s| - 1]
  }

  lemma SumSnoc(s: seq<nat>, i: nat)
    requires i < |s|
    ensures Sum(s[..i + 1]) == Sum(s[..i]) + s[i]
  {
    assert s[..i + 1][..i] == s[..i];
  }

  lemma {:induction false} SumGrows(s: seq<nat>, i: nat, j: nat)
    requires i <= j <= |s|
    ensures Sum(s[..i]) <= Sum(s[..j])
    decreases j - i
  {
    if i < j {
      SumSnoc(s, i);
      SumGrows(s, i + 1, j);
    }
  }

  /** Prefix-sum slices lie inside the buffer and do not overlap. */
  lemma SlicesAreDisjoint(sizes: seq<nat>, i: nat, j: nat)
    requires i < j < |sizes|
    ensures Sum(sizes[..i]) + sizes[i] <= Sum(sizes[..j])
    ensures Sum(sizes[..j]) + sizes[j] <= Sum(sizes)
  {
    hide Sum;
    SumSnoc(sizes, i);
    SumGrows(sizes, i + 1, j);
    SumSnoc(sizes, j);
    SumGrows(sizes, j + 1, |sizes|);
    assert sizes[..|sizes|] == sizes;
  }

  /** Wrap-around prefix sums are exact when the total fits. */
  lemma ExactWhenItFits(sizes: seq<nat>)
    requires Sum(sizes) <= UINT64_MAX
    ensures forall i :: 0 <= i < |sizes| ==> Sum(sizes[..i]) % TWO64 == Sum(sizes[..i])
  {
    hide Sum;
    forall i | 0 <= i < |sizes|
      ensures Sum(sizes[..i]) % TWO64 == Sum(sizes[..i])
    {
      SumGrows(sizes, i, |sizes|);
      assert sizes[..|sizes|] == sizes;
    }
  }

  lemma WrapAdds(a: nat, b: nat)
    ensures (a % TWO64 + b) % TWO64 == (a + b) % TWO64
  {
  }

  function Splice(memory: seq<char>, off: nat, data: seq<char>): seq<char>
    requires off + |data| <= |memory|
  {
    memory[..off] + data + memory[off + |data|..]
  }

  /** Where channel i lives when offsets are prefix sums. */
  function Slice(memory: seq<char>, sizes: seq<nat>, i: nat): (bytes: seq<char>)
    requires i < |sizes| && |memory| == Sum(sizes)
    ensures |bytes| == sizes[i]
  {
    SliceInside(sizes, i);
    memory[Sum(sizes[..i])..Sum(sizes[..i]) + sizes[i]]
  }

  lemma SliceInside(sizes: seq<nat>, i: nat)
    requires i < |sizes|
    ensures Sum(sizes[..i]) + sizes[i] <= Sum(sizes)
  {
    hide Sum;
    SumSnoc(sizes, i);
    SumGrows(sizes, i + 1, |sizes|);
    assert sizes[..|sizes|] == sizes;
  }

  /** A splice changes its own range and nothing before or after it. */
  lemma SpliceAt(memory: seq<char>, off: nat, data: seq<char>, lo: nat, hi: nat)
    requires off + |data| <= |memory| && lo <= hi <= |memory|
    ensures |Splice(memory, off, data)| == |memory|
    ensures hi <= off || off + |data| <= lo ==> Splice(memory, off, data)[lo..hi] == memory[lo..hi]
    ensures lo == off && off + |data| <= hi ==> Splice(memory, off, data)[lo..hi] == data + memory[off + |data|..hi]
  {
    var after := Splice(memory, off, data);
    if hi <= off {
      assert after[lo..hi] == memory[lo..hi];
    } else if off + |data| <= lo {
      assert after[lo..hi] == memory[lo..hi];
    }
    if lo == off && off + |data| <= hi {
      assert after[off..hi] == data + memory[off + |data|..hi];
    }
  }

  /** Writing a channel replaces the front of that channel and nothing of any other. */
  lemma WriteStaysInChannel(memory: seq<char>, sizes: seq<nat>, i: nat, data: seq<char>, j: nat)
    requires i < |sizes| && j < |sizes| && |memory| == Sum(sizes) && |data| <= sizes[i]
    ensures Sum(sizes[..i]) + |data| <= |memory|
    ensures var after := Splice(memory, Sum(sizes[..i]), data);
            && |after| == |memory|
            && Slice(after, sizes, j) ==
               if j == i then data + Slice(memory, sizes, i)[|data|..] else Slice(memory, sizes, j)
  {
    hide Sum, Splice;
    SliceInside(sizes, i);
    SliceInside(sizes, j);
    var off, lo := Sum(sizes[..i]), Sum(sizes[..j]);
    SpliceAt(memory, off, data, lo, lo + sizes[j]);
    if i < j {
      SlicesAreDisjoint(sizes, i, j);
    } else if j < i {
      SlicesAreDisjoint(sizes, j, i);
    } else {
      assert memory[off..off + sizes[i]][|data|..] == memory[off + |data|..off + sizes[i]];
    }
  }

  class PduArea {
    const size: array<nat>          // channel[i].size
    const offset: array<nat>        // channel[i].offset
    const writeVersion: array<nat>
    var pdu: array<char>
    var created: bool
    ghost var planned: seq<nat>     // the sizes when `create` laid the channels out

    ghost predicate Shape()
      reads this
    {
      && size.Length == offset.Length == writeVersion.Length == CHANNEL_MAX
      && size != offset && size != writeVersion && offset != writeVersion
    }

    /** Every channel of that time has its exact place; later ones have none. */
    ghost predicate Laid()
      reads this, size, offset, pdu
    {
      && Shape() && created && |planned| == CHANNEL_MAX
      && pdu.Length == Sum(planned)
      && (forall i :: 0 <= i < CHANNEL_MAX ==> offset[i] == Sum(planned[..i]))
      && (forall i :: 0 <= i < CHANNEL_MAX ==> size[i] == planned[i] || planned[i] == 0)
    }

    /** No byte of a channel added after `create` is touched. */
    ghost predicate Planned(channel: nat, len: nat)
      requires Shape() && |planned| == CHANNEL_MAX
      reads this, size
    {
      channel < CHANNEL_MAX && 0 < len <= size[channel] ==> size[channel] == planned[channel]
    }

    ghost function Channel(i: nat): (bytes: seq<char>)
      requires Laid() && i < CHANNEL_MAX
      reads this, size, offset, pdu
    {
      Slice(pdu[..], planned, i)
    }

    constructor ()
      ensures Shape() && !created
      ensures forall i :: 0 <= i < CHANNEL_MAX ==> size[i] == 0 && offset[i] == 0 && writeVersion[i] == 0
    {
      size := new nat[CHANNEL_MAX](i => 0);
      offset := new nat[CHANNEL_MAX](i => 0);
      writeVersion := new nat[CHANNEL_MAX](i => 0);
      pdu := new char[0];
      created := false;
    }

    /** `pdu_total_size`: the exact sum, or the largest 64-bit value if it does not fit. */
    method PduTotalSize() returns (total: nat)
      requires Shape()
      requires forall i :: 0 <= i < CHANNEL_MAX ==> size[i] <= UINT64_MAX
      ensures total == if Sum(size[..]) <= UINT64_MAX then Sum(size[..]) else UINT64_MAX
    {
      total := 0;
      var i := 0;
      while i < CHANNEL_MAX
        invariant 0 <= i <= CHANNEL_MAX
        invariant total == Sum(size[..][..i]) <= UINT64_MAX
      {
        SumSnoc(size[..], i);
        if size[i] > UINT64_MAX - total {
          SumGrows(size[..], i + 1, CHANNEL_MAX);
          assert size[..][..CHANNEL_MAX] == size[..];
          return UINT64_MAX;
        }
        total := total + size[i];
        i := i + 1;
      }
      assert size[..][..CHANNEL_MAX] == size[..];
    }

    /** `create`, memory part: offsets are 64-bit prefix sums, so exact when the sum
        fits; a second call leaves everything in place. */
    method Create()
      requires Shape()
      requires forall i :: 0 <= i < CHANNEL_MAX ==> size[i] <= UINT64_MAX
      modifies this, offset
      ensures Shape() && (old(created) || Sum(size[..]) <= UINT64_MAX ==> created)
      ensures old(created) ==> pdu == old(pdu) && planned == old(planned) && offset[..] == old(offset[..])
      ensures !old(created) ==> forall i :: 0 <= i < CHANNEL_MAX ==> offset[i] == Sum(size[..][..i]) % TWO64
      ensures !old(created) && Sum(size[..]) <= UINT64_MAX ==>
                Laid() && planned == size[..] && fresh(pdu) && forall i :: 0 <= i < pdu.Length ==> pdu[i] == '\0'
    {
      if created {
        return;
      }
      hide Sum;
      var total := PduTotalSize();
      var off: nat := 0;
      var i := 0;
      while i < CHANNEL_MAX
        invariant 0 <= i <= CHANNEL_MAX && Shape() && pdu == old(pdu)
        invariant off == Sum(size[..][..i]) % TWO64
        invariant forall k :: 0 <= k < i ==> offset[k] == Sum(size[..][..k]) % TWO64
      {
        offset[i] := off;
        SumSnoc(size[..], i);
        WrapAdds(Sum(size[..][..i]), size[i]);
        off := (off + size[i]) % TWO64;
        i := i + 1;
      }
      if Sum(size[..]) <= UINT64_MAX {
        ExactWhenItFits(size[..]);
      }
      pdu := new char[total](i => '\0');
      created := true;
      planned := size[..];
    }

    /** `create_lchannel` after `create`: the old channels stay where they are. */
    method AddChannel(channel: nat, bytes: nat)
      requires Laid() && channel < CHANNEL_MAX && size[channel] == 0
      modifies size
      ensures Laid() && size[channel] == bytes
      ensures forall i :: 0 <= i < CHANNEL_MAX && i != channel ==> size[i] == old(size[i])
      ensures forall i :: 0 <= i < CHANNEL_MAX ==> Channel(i) == old(Channel(i))
    {
      hide Sum;
      size[channel] := bytes;
    }

    /** `write_pdu`, once the readers are out of the way: the front of this channel
        becomes the data, every other byte of memory stays. */
    method WritePdu(channel: nat, data: seq<char>) returns (ok: bool)
      requires Laid() && Planned(channel, |data|)
      modifies pdu, writeVersion
      ensures Laid()
      ensures ok <==> channel < CHANNEL_MAX && |data| <= size[channel]
      ensures !ok ==> pdu[..] == old(pdu[..]) && writeVersion[..] == old(writeVersion[..])
      ensures ok ==> offset[channel] + |data| <= pdu.Length && pdu[..] == Splice(old(pdu[..]), offset[channel], data)
      ensures ok ==> writeVersion[..] == old(writeVersion[..])[channel := (old(writeVersion[channel]) + 1) % TWO32]
    {
      if channel >= CHANNEL_MAX || |data| > size[channel] {
        return false;
      }
      hide Sum, Splice;
      SliceInside(planned, channel);
      CopyIn(offset[channel], data);
      writeVersion[channel] := (writeVersion[channel] + 1) % TWO32;
      return true;
    }

    /** memcpy into the buffer. */
    method CopyIn(off: nat, data: seq<char>)
      requires off + |data| <= pdu.Length
      modifies pdu
      ensures pdu[..] == Splice(old(pdu[..]), off, data)
    {
      forall k | 0 <= k < |data| {
        pdu[off + k] := data[k];
      }
    }

    /** `read_pdu`, once no writer is about: the front of the channel. */
    method ReadPdu(channel: nat, len: nat) returns (ok: bool, data: seq<char>)
      requires Laid() && Planned(channel, len)
      ensures ok <==> channel < CHANNEL_MAX && len <= size[channel]
      ensures ok ==> len <= planned[channel] && data == Channel(channel)[..len]
    {
      if channel >= CHANNEL_MAX || len > size[channel] {
        return false, [];
      }
      hide Sum;
      SliceInside(planned, channel);
      return true, pdu[offset[channel]..offset[channel] + len];
    }

    /** Write, write elsewhere, read back; channels may have been added since `create`. */
    method RoundTrip(channel: nat, data: seq<char>, other: nat, noise: seq<char>) returns (back: seq<char>)
      requires Laid() && channel < CHANNEL_MAX && |data| <= size[channel] && other != channel
      requires Planned(channel, |data|) && Planned(other, |noise|)
      modifies pdu, writeVersion
      ensures Laid() && back == data
    {
      hide Sum, Splice;
      ghost var m0, sizes := pdu[..], planned;
      var _ := WritePdu(channel, data);
      WriteStaysInChannel(m0, sizes, channel, data, channel);
      ghost var m1 := pdu[..];
      var wrote := WritePdu(other, noise);
      if wrote {
        WriteStaysInChannel(m1, sizes, other, noise, channel);
      }
      var _, read := ReadPdu(channel, |data|);
      back := read;
    }
  }

  lemma LateChannelStartsAtEnd(planned: seq<nat>, next: nat)
    requires next <= |planned| && forall i :: next <= i < |planned| ==> planned[i] == 0
    ensures Sum(planned[..next]) == Sum(planned)
  {
    var i := next;
    while i < |planned|
      invariant next <= i <= |planned| && Sum(planned[..i]) == Sum(planned[..next])
    {
      SumSnoc(planned, i);
      i := i + 1;
    }
    assert planned[..|planned|] == planned;
  }

  /** With n channels in the table at `create` and any number added since: an access of
      at least one byte stays inside the buffer iff its channel is one of those n. */
  lemma AccessStaysInside(planned: seq<nat>, sizes: seq<nat>, n: nat, channel: nat, len: nat)
    requires n <= |planned| == |sizes| && channel < |planned|
    requires forall i :: 0 <= i < |planned| ==> if i < n then sizes[i] == planned[i] else planned[i] == 0
    requires 0 < len <= sizes[channel]
    ensures Sum(planned[..channel]) + len <= Sum(planned) <==> channel < n
  {
    hide Sum;
    if channel < n {
      SliceInside(planned, channel);
    } else {
      LateChannelStartsAtEnd(planned, channel);
    }
  }
}
