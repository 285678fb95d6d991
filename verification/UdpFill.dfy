/** The payload buffer of the UDP communication application. */
module UdpFill {
  import opened Names
  import opened Arithmetic

  type byte = b: int | 0 <= b < 0x100

  /** Where the last copy of the pattern starts. */
  function LastBlock(n: nat, fillSize: nat): nat
    requires fillSize > 0 && n > 0
  {
    (n - 1) / fillSize * fillSize
  }

  /** The filled buffer: the pattern over and over, cut at n. */
  function Pattern(fill: seq<byte>, n: nat): (r: seq<byte>)
    requires fill != []
    ensures |r| == n
  {
    seq(n, i requires 0 <= i < n => fill[i % |fill|])
  }

  lemma PatternAt(fill: seq<byte>, n: nat)
    requires fill != []
    ensures forall i :: 0 <= i < n ==> Pattern(fill, n)[i] == fill[i % |fill|]
  {
  }

  /** The buffer s after src was copied to position `at`. */
  function Overwritten(s: seq<byte>, at: nat, src: seq<byte>): (r: seq<byte>)
    requires at + |src| <= |s|
    ensures |r| == |s|
  {
    s[..at] + src + s[at + |src|..]
  }

  /** The k-th copy of the pattern. */
  lemma PatternBlock(fill: seq<byte>, n: nat, k: nat, length: nat)
    requires fill != [] && length <= |fill| && k * |fill| + length <= n
    ensures Pattern(fill, n)[k * |fill|..k * |fill| + length] == fill[..length]
  {
    var block := Pattern(fill, n)[k * |fill|..k * |fill| + length];
    forall j | 0 <= j < length ensures block[j] == fill[j] { ModOfBlock(k, |fill|, j); }
  }

  lemma BlocksStayBelow(n: nat, f: nat, k: nat)
    requires f > 0 && k * f < n
    ensures k * f <= LastBlock(n, f)
    ensures k * f + f >= n ==> k * f == LastBlock(n, f)
  {
    var last := (n - 1) / f;
    DivMod(n - 1, f);
    if k < last { MultiplesAreApart(k, last, f); }
    if last < k { MultiplesAreApart(last, k, f); }
  }

  /** The loop over uint32: where it stops, or None once a copy would not fit in the buffer. */
  function Filled(n: nat, fillSize: nat, filled: nat): Option<nat>
    requires fillSize > 0
    decreases n - filled
  {
    if (filled + fillSize) % 0x1_0000_0000 >= n then Some(filled)
    else if filled + fillSize > n then None
    else Filled(n, fillSize, filled + fillSize)
  }

  /** The loop stops, at the last block, exactly when the size rounded up to whole patterns is below
      2^32; otherwise the sum wraps and a copy overruns the buffer. */
  lemma {:induction false} FilledExactly(n: nat, fillSize: nat, k: nat)
    requires 0 < fillSize < n < 0x1_0000_0000 && k * fillSize < n
    ensures Filled(n, fillSize, k * fillSize) ==
      if LastBlock(n, fillSize) + fillSize < 0x1_0000_0000 then Some(LastBlock(n, fillSize)) else None
    decreases n - k * fillSize
  {
    var filled := k * fillSize;
    BlocksStayBelow(n, fillSize, k);
    if filled + fillSize < n {
      assert (k + 1) * fillSize == filled + fillSize;
      FilledExactly(n, fillSize, k + 1);
    }
  }

  lemma FilledFromStart(n: nat, fillSize: nat)
    requires 0 < fillSize < n < 0x1_0000_0000
    ensures Filled(n, fillSize, 0) ==
      if LastBlock(n, fillSize) + fillSize < 0x1_0000_0000 then Some(LastBlock(n, fillSize)) else None
  {
    FilledExactly(n, fillSize, 0);
    assert 0 * fillSize == 0;
  }

  /** A pattern of two bytes overruns the largest odd buffer. */
  lemma TwoBytesOverrun()
    ensures Filled(0xFFFF_FFFF, 2, 0) == None
  {
    FilledFromStart(0xFFFF_FFFF, 2);
  }

  class UdpOrchestrationCommunicationApp {
    var data: array?<byte>
    var dataSize: nat
    var size: nat

    ghost predicate Valid()
      reads this
    {
      && (data == null ==> dataSize == 0)
      && (data != null ==> data.Length == dataSize)
      && dataSize < 0x1_0000_0000 && size < 0x1_0000_0000
    }

    /** What Send asserts: a buffer, when there is one, is as long as the packet. */
    ghost predicate CanSend()
      reads this
    {
      Valid() && (dataSize == 0 || (dataSize == size && data != null))
    }

    ghost function Contents(): seq<byte>
      reads this, data
    {
      if data == null then [] else data[..]
    }

    constructor ()
      ensures CanSend() && Contents() == [] && size == 0
    {
      data, dataSize, size := null, 0, 0;
    }

    method SetDataSize(n: nat)
      requires CanSend() && n < 0x1_0000_0000
      modifies this
      ensures CanSend() && Contents() == [] && size == n && data == null && dataSize == 0
    {
      data, dataSize, size := null, 0, n;
    }

    /** Reallocates only when the length changes. */
    method Resize(n: nat)
      requires Valid() && n < 0x1_0000_0000
      modifies this
      ensures Valid() && dataSize == n && size == old(size)
      ensures data != old(data) ==> data != null && fresh(data)
    {
      if n != dataSize {
        data := new byte[n](_ => 0);
        dataSize := n;
      }
    }

    method SetFillByte(fill: byte, n: nat)
      requires CanSend() && n < 0x1_0000_0000
      modifies this, data
      ensures CanSend() && size == n && Contents() == seq(n, _ => fill)
      ensures dataSize == n && (n > 0 ==> data != null && data.Length == n && forall i :: 0 <= i < n ==> data[i] == fill)
    {
      Resize(n);
      if data != null {
        for i := 0 to n
          invariant dataSize == n && data != null && data.Length == n && Valid()
          invariant forall k :: 0 <= k < i ==> data[k] == fill
          modifies data
        {
          data[i] := fill;
        }
      }
      size := n;
      assert Contents() == seq(n, _ => fill);
    }

    /** Copies src to the buffer from position `at` on. */
    method Copy(at: nat, src: seq<byte>)
      requires Valid() && data != null && at + |src| <= dataSize
      modifies data
      ensures Contents() == Overwritten(old(Contents()), at, src)
    {
      for i := 0 to |src|
        invariant data[..] == old(data[..])[..at] + src[..i] + old(data[..])[at + i..]
      {
        data[at + i] := src[i];
      }
      assert src[..|src|] == src;
    }

    /** A string is sent with its terminating zero, as far as its uint32 size reaches. */
    method SetFillText(fill: seq<byte>)
      requires CanSend()
      modifies this, data
      ensures CanSend() && size == (|fill| + 1) % 0x1_0000_0000 && Contents() == (fill + [0])[..size]
      ensures dataSize == size && (size > 0 ==> data != null && data[..] == (fill + [0])[..size])
    {
      var n := (|fill| + 1) % 0x1_0000_0000;
      Resize(n);
      if data != null { Copy(0, (fill + [0])[..n]); }
      size := n;
    }

    /** Repeats the pattern. The result is false when a copy would overrun the buffer, which is
        exactly when the size rounded up to whole patterns does not fit in uint32. */
    method SetFillPattern(fill: seq<byte>, n: nat) returns (ok: bool)
      requires CanSend() && fill != [] && |fill| < 0x1_0000_0000 && n < 0x1_0000_0000
      modifies this, data
      ensures ok <==> |fill| >= n || LastBlock(n, |fill|) + |fill| < 0x1_0000_0000
      ensures ok ==> CanSend() && size == n && Contents() == Pattern(fill, n)
      ensures ok && n > 0 ==>
        dataSize == n && data != null && data.Length == n && forall i :: 0 <= i < n ==> data[i] == fill[i % |fill|]
    {
      hide FilledTo, Pattern, LastBlock, Overwritten, Filled;
      PatternAt(fill, n);
      Resize(n);
      if |fill| >= n {
        OneCopy(Contents(), fill, n);
        if data != null { Copy(0, fill[..n]); }
        size := n;
        return true;
      }
      var filled := CopyWholePatterns(fill, n);
      FilledFromStart(n, |fill|);
      if filled.None? { return false; }
      NextBlock(Contents(), fill, n, filled.value);
      Copy(filled.value, fill[..n - filled.value]);
      size := n;
      ok := true;
    }

    /** All but the final copy of the pattern; None before a copy that would overrun the buffer. */
    method CopyWholePatterns(fill: seq<byte>, n: nat) returns (result: Option<nat>)
      requires Valid() && data != null && dataSize == n && n < 0x1_0000_0000 && 0 < |fill| < n
      modifies data
      ensures result == Filled(n, |fill|, 0)
      ensures result.Some? ==>
        FilledTo(Contents(), fill, n, result.value) && result.value + |fill| >= n
    {
      hide FilledTo, Pattern, LastBlock, Overwritten;
      var filled := 0;
      NothingFilled(Contents(), fill, n);
      while (filled + |fill|) % 0x1_0000_0000 < n
        invariant filled < n && FilledTo(Contents(), fill, n, filled)
        invariant Filled(n, |fill|, filled) == Filled(n, |fill|, 0)
        decreases n - filled
      {
        if filled + |fill| > n { return None; }
        NextBlock(Contents(), fill, n, filled);
        Copy(filled, fill);
        filled := filled + |fill|;
      }
      result := Some(filled);
    }
  }

  /** Whole copies of the pattern lie before position `filled`, which is below n. */
  ghost predicate FilledTo(s: seq<byte>, fill: seq<byte>, n: nat, filled: nat)
    requires fill != []
  {
    |s| == n && filled < n && s[..filled] == Pattern(fill, n)[..filled] && exists k: nat :: k * |fill| == filled
  }

  lemma NothingFilled(s: seq<byte>, fill: seq<byte>, n: nat)
    requires fill != [] && |s| == n > 0
    ensures FilledTo(s, fill, n, 0)
  {
    assert 0 * |fill| == 0;
  }

  lemma OneCopy(s: seq<byte>, fill: seq<byte>, n: nat)
    requires fill != [] && n <= |fill| && |s| == n
    ensures Overwritten(s, 0, fill[..n]) == Pattern(fill, n)
    ensures n == 0 ==> Pattern(fill, n) == []
  {
    PatternBlock(fill, n, 0, n);
  }

  /** What the next copy of the pattern, whole or cut at n, leads to. */
  lemma NextBlock(s: seq<byte>, fill: seq<byte>, n: nat, filled: nat)
    requires fill != [] && FilledTo(s, fill, n, filled)
    ensures |s| == n && filled <= LastBlock(n, |fill|) && filled < n
    ensures filled + |fill| < n ==> FilledTo(Overwritten(s, filled, fill), fill, n, filled + |fill|)
    ensures filled + |fill| >= n ==> Overwritten(s, filled, fill[..n - filled]) == Pattern(fill, n)
  {
    hide Pattern, LastBlock, Overwritten;
    var k: nat :| k * |fill| == filled;
    BlocksStayBelow(n, |fill|, k);
    if filled + |fill| < n {
      PatternBlock(fill, n, k, |fill|);
      assert (k + 1) * |fill| == filled + |fill|;
      BlockAppends(s, Pattern(fill, n), filled, fill);
    } else {
      PatternBlock(fill, n, k, n - filled);
      BlockAppends(s, Pattern(fill, n), filled, fill[..n - filled]);
    }
  }

  /** One more block is in place; nothing before it changed. */
  lemma BlockAppends(s: seq<byte>, t: seq<byte>, at: nat, block: seq<byte>)
    requires at + |block| <= |s| == |t|
    requires s[..at] == t[..at] && block == t[at..at + |block|]
    ensures Overwritten(s, at, block)[..at + |block|] == t[..at + |block|]
    ensures at + |block| == |t| ==> Overwritten(s, at, block) == t
  {
    assert t[..at + |block|] == t[..at] + t[at..at + |block|];
  }
}
