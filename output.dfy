/** Output generation of pyasm6502/package/output.py: plain binary (the
    largest block of the sparse output), CBM (plain with a load address) and
    Intel HEX records as the Intel Hexadecimal Object File Format
    Specification (Rev. A) defines them. */
module Output {
  import opened Bits
  import opened Memory
  import opened Strings
  import opened Numbers

  // ---- plain output: blocks of nearby addresses ----

  /** Neighbouring written addresses at most this far apart share a block. */
  const MaxGap: int := 256

  /** A block is the closed address range `lo..hi`. */
  type Block = (int, int)

  function Span(b: Block): int { b.1 - b.0 }

  predicate InBlock(b: Block, a: int) { b.0 <= a <= b.1 }

  /** The blocks of `_generate_plain_output` (output.py:27-39) over
      ascending addresses: each address joins the block of its predecessor
      when the difference is at most `MaxGap`, and opens a new block
      otherwise. */
  function Blocks(addrs: seq<int>): (bs: seq<Block>)
    requires |addrs| > 0
    ensures |bs| > 0 && bs[0].0 == addrs[0] && bs[|bs| - 1].1 == addrs[|addrs| - 1]
    decreases |addrs|
  {
    if |addrs| == 1 then [(addrs[0], addrs[0])]
    else
      var prev := Blocks(addrs[..|addrs| - 1]);
      var a := addrs[|addrs| - 1];
      if a - addrs[|addrs| - 2] <= MaxGap then prev[..|prev| - 1] + [(prev[|prev| - 1].0, a)]
      else prev + [(a, a)]
  }

  /** One step of `Blocks`: the last address extends the last block or
      opens a new one. */
  lemma BlocksStep(addrs: seq<int>)
    requires |addrs| > 1
    ensures var prev := Blocks(addrs[..|addrs| - 1]);
      var a := addrs[|addrs| - 1];
      Blocks(addrs) == if a - addrs[|addrs| - 2] <= MaxGap then prev[..|prev| - 1] + [(prev[|prev| - 1].0, a)] else prev + [(a, a)]
  {
  }

  /** Every block starts and ends at a written address. */
  predicate BlocksWithin(addrs: seq<int>, bs: seq<Block>)
  {
    forall i :: 0 <= i < |bs| ==> bs[i].0 <= bs[i].1 && bs[i].0 in addrs && bs[i].1 in addrs
  }

  /** Neighbouring blocks are more than `MaxGap` apart. */
  predicate BlocksApart(bs: seq<Block>)
  {
    forall i :: 0 <= i < |bs| - 1 ==> bs[i].1 + MaxGap < bs[i + 1].0
  }

  /** Some block holds address `a`. */
  predicate Covered(bs: seq<Block>, a: int)
  {
    exists i :: 0 <= i < |bs| && InBlock(bs[i], a)
  }

  /** Every written address lies in a block. */
  predicate BlocksCover(addrs: seq<int>, bs: seq<Block>)
  {
    forall k :: 0 <= k < |addrs| ==> Covered(bs, addrs[k])
  }

  /** Inside a block, neighbouring written addresses are at most `MaxGap` apart. */
  predicate BlocksChained(addrs: seq<int>, bs: seq<Block>)
  {
    forall i, k :: 0 <= i < |bs| && 0 <= k < |addrs| - 1 && bs[i].0 <= addrs[k] && addrs[k + 1] <= bs[i].1 ==>
      addrs[k + 1] - addrs[k] <= MaxGap
  }

  lemma {:induction false} BlocksAreWithin(addrs: seq<int>)
    requires |addrs| > 0 && StrictlyIncreasing(addrs)
    ensures BlocksWithin(addrs, Blocks(addrs))
    decreases |addrs|
  {
    if |addrs| > 1 {
      var pre := addrs[..|addrs| - 1];
      BlocksAreWithin(pre);
      var prev := Blocks(pre);
      var bs := Blocks(addrs);
      forall x | x in pre ensures x in addrs {
        var j :| 0 <= j < |pre| && pre[j] == x;
        assert addrs[j] == x;
      }
      assert addrs[|addrs| - 2] < addrs[|addrs| - 1];
      var merged := addrs[|addrs| - 1] - addrs[|addrs| - 2] <= MaxGap;
      forall i | 0 <= i < |bs|
        ensures bs[i].0 <= bs[i].1 && bs[i].0 in addrs && bs[i].1 in addrs
      {
        if i < |prev| - 1 || (!merged && i < |prev|) {
          assert bs[i] == prev[i];
        }
      }
    }
  }

  lemma {:induction false} BlocksAreApart(addrs: seq<int>)
    requires |addrs| > 0
    ensures BlocksApart(Blocks(addrs))
    decreases |addrs|
  {
    if |addrs| > 1 {
      var pre := addrs[..|addrs| - 1];
      BlocksAreApart(pre);
      var prev := Blocks(pre);
      var bs := Blocks(addrs);
      assert prev[|prev| - 1].1 == addrs[|addrs| - 2];
      var merged := addrs[|addrs| - 1] - addrs[|addrs| - 2] <= MaxGap;
      forall i | 0 <= i < |bs| - 1
        ensures bs[i].1 + MaxGap < bs[i + 1].0
      {
        if i + 1 < |prev| - 1 || (!merged && i + 1 < |prev|) {
          assert bs[i] == prev[i] && bs[i + 1] == prev[i + 1];
        } else if merged {
          assert bs[i] == prev[i] && bs[i + 1].0 == prev[i + 1].0;
        }
      }
    }
  }

  /** Blocks are ordered ranges inside the span of the addresses. */
  lemma {:induction false} BlocksBounded(addrs: seq<int>)
    requires |addrs| > 0 && StrictlyIncreasing(addrs)
    ensures forall i :: 0 <= i < |Blocks(addrs)| ==>
      addrs[0] <= Blocks(addrs)[i].0 <= Blocks(addrs)[i].1 <= addrs[|addrs| - 1]
    decreases |addrs|
  {
    if |addrs| > 1 {
      var pre := addrs[..|addrs| - 1];
      var prev := Blocks(pre);
      var a := addrs[|addrs| - 1];
      assert pre[0] == addrs[0] && pre[|pre| - 1] == addrs[|addrs| - 2] < a;
      BlocksBounded(pre);
      BlocksStep(addrs);
      var bs := Blocks(addrs);
      if a - addrs[|addrs| - 2] <= MaxGap {
        assert forall i :: 0 <= i < |prev| - 1 ==> bs[i] == prev[i];
      } else {
        assert forall i :: 0 <= i < |prev| ==> bs[i] == prev[i];
      }
    }
  }

  lemma CoverMerge(addrs: seq<int>, pre: seq<int>, prev: seq<Block>, a: int, bs: seq<Block>)
    requires |prev| > 0 && BlocksCover(pre, prev) && prev[|prev| - 1].0 <= prev[|prev| - 1].1 <= a
    requires bs == prev[..|prev| - 1] + [(prev[|prev| - 1].0, a)]
    requires addrs == pre + [a]
    ensures BlocksCover(addrs, bs)
  {
    forall k | 0 <= k < |addrs|
      ensures Covered(bs, addrs[k])
    {
      if k == |pre| {
        assert InBlock(bs[|bs| - 1], addrs[k]);
      } else {
        assert addrs[k] == pre[k];
        var i :| 0 <= i < |prev| && InBlock(prev[i], pre[k]);
        if i < |prev| - 1 {
          assert bs[i] == prev[i];
        }
        assert InBlock(bs[i], addrs[k]);
      }
    }
  }

  lemma CoverSplit(addrs: seq<int>, pre: seq<int>, prev: seq<Block>, a: int, bs: seq<Block>)
    requires BlocksCover(pre, prev) && bs == prev + [(a, a)]
    requires addrs == pre + [a]
    ensures BlocksCover(addrs, bs)
  {
    forall k | 0 <= k < |addrs|
      ensures Covered(bs, addrs[k])
    {
      if k == |pre| {
        assert InBlock(bs[|bs| - 1], addrs[k]);
      } else {
        assert addrs[k] == pre[k];
        var i :| 0 <= i < |prev| && InBlock(prev[i], pre[k]);
        assert bs[i] == prev[i];
        assert InBlock(bs[i], addrs[k]);
      }
    }
  }

  lemma CoverStep(addrs: seq<int>)
    requires |addrs| > 1 && BlocksCover(addrs[..|addrs| - 1], Blocks(addrs[..|addrs| - 1]))
    requires var prev := Blocks(addrs[..|addrs| - 1]);
      prev[|prev| - 1].0 <= prev[|prev| - 1].1 <= addrs[|addrs| - 1]
    ensures BlocksCover(addrs, Blocks(addrs))
  {
    var pre := addrs[..|addrs| - 1];
    var a := addrs[|addrs| - 1];
    SplitOffLast(addrs);
    BlocksStep(addrs);
    if a - addrs[|addrs| - 2] <= MaxGap {
      CoverMerge(addrs, pre, Blocks(pre), a, Blocks(addrs));
    } else {
      CoverSplit(addrs, pre, Blocks(pre), a, Blocks(addrs));
    }
  }

  lemma {:induction false} BlocksAreCovering(addrs: seq<int>)
    requires |addrs| > 0 && StrictlyIncreasing(addrs)
    ensures BlocksCover(addrs, Blocks(addrs))
    decreases |addrs|
  {
    if |addrs| == 1 {
      var bs := Blocks(addrs);
      assert InBlock(bs[0], addrs[0]);
      assert Covered(bs, addrs[0]);
    } else {
      var pre := addrs[..|addrs| - 1];
      var prev := Blocks(pre);
      assert pre[|pre| - 1] == addrs[|addrs| - 2] < addrs[|addrs| - 1];
      BlocksAreCovering(pre);
      BlocksBounded(pre);
      CoverStep(addrs);
    }
  }

  lemma ChainMerge(pre: seq<int>, prev: seq<Block>, a: int, bs: seq<Block>)
    requires |pre| > 0 && |prev| > 0 && BlocksChained(pre, prev)
    requires prev[|prev| - 1].1 == pre[|pre| - 1] && a - pre[|pre| - 1] <= MaxGap
    requires forall k :: 0 <= k < |pre| ==> pre[k] <= pre[|pre| - 1]
    requires bs == prev[..|prev| - 1] + [(prev[|prev| - 1].0, a)]
    ensures BlocksChained(pre + [a], bs)
  {
    var addrs := pre + [a];
    forall i, k | 0 <= i < |bs| && 0 <= k < |addrs| - 1 && bs[i].0 <= addrs[k] && addrs[k + 1] <= bs[i].1
      ensures addrs[k + 1] - addrs[k] <= MaxGap
    {
      if k < |pre| - 1 {
        assert addrs[k] == pre[k] && addrs[k + 1] == pre[k + 1];
        if i == |prev| - 1 {
          assert prev[i].0 == bs[i].0;
        } else {
          assert bs[i] == prev[i];
        }
      }
    }
  }

  lemma ChainSplit(pre: seq<int>, prev: seq<Block>, a: int, bs: seq<Block>)
    requires |pre| > 0 && BlocksChained(pre, prev)
    requires forall i :: 0 <= i < |prev| ==> prev[i].1 <= pre[|pre| - 1]
    requires forall k :: 0 <= k < |pre| ==> pre[k] <= pre[|pre| - 1]
    requires a - pre[|pre| - 1] > MaxGap && bs == prev + [(a, a)]
    ensures BlocksChained(pre + [a], bs)
  {
    var addrs := pre + [a];
    assert forall i :: 0 <= i < |prev| ==> bs[i] == prev[i];
    forall i, k | 0 <= i < |bs| && 0 <= k < |addrs| - 1 && bs[i].0 <= addrs[k] && addrs[k + 1] <= bs[i].1
      ensures addrs[k + 1] - addrs[k] <= MaxGap
    {
      assert addrs[k] == pre[k];
      if k < |pre| - 1 {
        assert addrs[k + 1] == pre[k + 1];
      }
    }
  }

  lemma {:induction false} BlocksAreChained(addrs: seq<int>)
    requires |addrs| > 0 && StrictlyIncreasing(addrs)
    ensures BlocksChained(addrs, Blocks(addrs))
    decreases |addrs|
  {
    if |addrs| > 1 {
      var n := |addrs|;
      var pre := addrs[..n - 1];
      var a := addrs[n - 1];
      var prev := Blocks(pre);
      assert pre[|pre| - 1] == addrs[n - 2] < a;
      assert forall k :: 0 <= k < |pre| ==> pre[k] <= pre[|pre| - 1];
      BlocksAreChained(pre);
      BlocksBounded(pre);
      ChainStep(addrs, pre, prev, a);
    }
  }

  lemma ChainStep(addrs: seq<int>, pre: seq<int>, prev: seq<Block>, a: int)
    requires |addrs| > 1 && pre == addrs[..|addrs| - 1] && a == addrs[|addrs| - 1] && prev == Blocks(pre)
    requires BlocksChained(pre, prev)
    requires forall i :: 0 <= i < |prev| ==> prev[i].1 <= pre[|pre| - 1]
    requires forall k :: 0 <= k < |pre| ==> pre[k] <= pre[|pre| - 1]
    ensures BlocksChained(addrs, Blocks(addrs))
  {
    SplitOffLast(addrs);
    BlocksStep(addrs);
    if a - pre[|pre| - 1] <= MaxGap {
      ChainMerge(pre, prev, a, Blocks(addrs));
    } else {
      ChainSplit(pre, prev, a, Blocks(addrs));
    }
  }

  lemma SplitOffLast(s: seq<int>)
    requires |s| > 0
    ensures s == s[..|s| - 1] + [s[|s| - 1]]
  {
  }

  /** The blocks split the ascending addresses at exactly the gaps wider
      than `MaxGap`. */
  lemma BlocksShape(addrs: seq<int>)
    requires |addrs| > 0 && StrictlyIncreasing(addrs)
    ensures BlocksWithin(addrs, Blocks(addrs)) && BlocksApart(Blocks(addrs))
    ensures BlocksCover(addrs, Blocks(addrs)) && BlocksChained(addrs, Blocks(addrs))
  {
    BlocksAreWithin(addrs);
    BlocksAreApart(addrs);
    BlocksAreCovering(addrs);
    BlocksAreChained(addrs);
  }

  /** Python `max(blocks, key=lambda x: x[1] - x[0])` (output.py:42): the
      first block of largest span. */
  function LargestIn(bs: seq<Block>): (r: nat)
    requires |bs| > 0
    ensures r < |bs|
    ensures forall j :: 0 <= j < |bs| ==> Span(bs[j]) <= Span(bs[r])
    ensures forall j :: 0 <= j < r ==> Span(bs[j]) < Span(bs[r])
    decreases |bs|
  {
    if |bs| == 1 then 0
    else
      var i := LargestIn(bs[..|bs| - 1]);
      assert forall j :: 0 <= j < |bs| - 1 ==> bs[..|bs| - 1][j] == bs[j];
      if Span(bs[|bs| - 1]) > Span(bs[i]) then |bs| - 1 else i
  }

  /** The block plain output writes. */
  function PlainBlock(out: Mem): (b: Block)
    requires |out| > 0
  {
    var bs := Blocks(Addresses(out));
    bs[LargestIn(bs)]
  }

  /** The bytes of `lo..hi`, zero where nothing was written. */
  function Window(out: Mem, lo: int, hi: int): (r: seq<Byte>)
    requires lo <= hi
    ensures |r| == hi - lo + 1
  {
    seq(hi - lo + 1, k requires 0 <= k < hi - lo + 1 => if lo + k in out then out[lo + k] else 0)
  }

  /** `_generate_plain_output` (output.py:18-52). */
  function PlainBytes(out: Mem): (r: seq<Byte>)
  {
    if |out| == 0 then []
    else
      BlocksAreWithin(Addresses(out));
      var b := PlainBlock(out);
      Window(out, b.0, b.1)
  }

  /** Plain output is the window of the first widest block: its length is
      the block's span plus one, written bytes inside it are copied, the
      gaps are 0, and no other block is wider. */
  lemma PlainOutputShape(out: Mem)
    requires |out| > 0
    ensures PlainBlock(out).0 <= PlainBlock(out).1
    ensures PlainBlock(out).0 in out && PlainBlock(out).1 in out
    ensures |PlainBytes(out)| == Span(PlainBlock(out)) + 1
    ensures forall k :: 0 <= k < |PlainBytes(out)| ==>
      PlainBytes(out)[k] == (if PlainBlock(out).0 + k in out then out[PlainBlock(out).0 + k] else 0)
    ensures forall b :: b in Blocks(Addresses(out)) ==> Span(b) <= Span(PlainBlock(out))
  {
    var addrs := Addresses(out);
    BlocksAreWithin(addrs);
    var bs := Blocks(addrs);
    var b := PlainBlock(out);
    assert b == bs[LargestIn(bs)];
    forall c | c in bs ensures Span(c) <= Span(b) {
      var j :| 0 <= j < |bs| && bs[j] == c;
    }
  }

  /** Everything written lies in some block, and the output is empty
      exactly when nothing was written. */
  lemma PlainOutputEmpty(out: Mem)
    ensures PlainBytes(out) == [] <==> |out| == 0
  {
    if |out| > 0 {
      PlainOutputShape(out);
    }
  }

  /** The loop of output.py:31-39 over the sorted addresses. */
  method CollectBlocks(addrs: seq<int>) returns (bs: seq<Block>)
    requires |addrs| > 0
    ensures bs == Blocks(addrs)
  {
    bs := [];
    var curStart := addrs[0];
    var curEnd := addrs[0];
    assert addrs[..1] == [addrs[0]];
    var i := 1;
    while i < |addrs|
      invariant 1 <= i <= |addrs|
      invariant curEnd == addrs[i - 1]
      invariant bs + [(curStart, curEnd)] == Blocks(addrs[..i])
    {
      assert addrs[..i + 1][..i] == addrs[..i];
      var prev := Blocks(addrs[..i]);
      assert prev[..|prev| - 1] == bs && prev[|prev| - 1] == (curStart, curEnd);
      if addrs[i] - addrs[i - 1] <= MaxGap {
        curEnd := addrs[i];
      } else {
        bs := bs + [(curStart, curEnd)];
        curStart := addrs[i];
        curEnd := addrs[i];
      }
      i := i + 1;
    }
    assert addrs[..i] == addrs;
    bs := bs + [(curStart, curEnd)];
  }

  /** The `bytearray` of output.py:45-50, filled in place from the written
      addresses. */
  method FillWindow(out: Mem, addrs: seq<int>, lo: int, hi: int) returns (r: seq<Byte>)
    requires lo <= hi
    requires forall x :: x in out <==> x in addrs
    ensures r == Window(out, lo, hi)
  {
    var buffer := new Byte[hi - lo + 1](_ => 0);
    var k := 0;
    while k < |addrs|
      invariant 0 <= k <= |addrs|
      invariant forall j :: 0 <= j < buffer.Length ==>
        buffer[j] == (if lo + j in addrs[..k] then out[lo + j] else 0)
    {
      var a := addrs[k];
      assert addrs[..k + 1] == addrs[..k] + [a];
      if lo <= a <= hi {
        buffer[a - lo] := out[a];
      }
      k := k + 1;
    }
    assert addrs[..k] == addrs;
    r := buffer[..];
  }

  /** `_generate_plain_output` (output.py:18-52). */
  method GeneratePlain(out: Mem) returns (r: seq<Byte>)
    ensures r == PlainBytes(out)
  {
    if |out| == 0 {
      return [];
    }
    var addrs := Addresses(out);
    var blocks := CollectBlocks(addrs);
    BlocksAreWithin(addrs);
    var best := blocks[LargestIn(blocks)];
    r := FillWindow(out, addrs, best.0, best.1);
  }

  // ---- CBM output ----

  /** `_generate_cbm_output` (output.py:54-68): the lowest written address,
      low byte first, then the plain output. */
  function CbmBytes(out: Mem): (r: seq<Byte>)
  {
    if |out| == 0 then []
    else
      var m := Min(out.Keys);
      LowByte(m);
      LowByte(Shr(m, 8));
      [BitAnd(m, 255), BitAnd(Shr(m, 8), 255)] + PlainBytes(out)
  }

  /** The two prefix bytes are the lowest address modulo 2^16, little-endian. */
  lemma CbmLoadAddress(out: Mem)
    requires |out| > 0
    ensures |CbmBytes(out)| == 2 + |PlainBytes(out)|
    ensures CbmBytes(out)[0] as int + 256 * (CbmBytes(out)[1] as int) == Min(out.Keys) % 65536
    ensures CbmBytes(out)[2..] == PlainBytes(out)
  {
    var m := Min(out.Keys);
    LowByte(m);
    LowByte(Shr(m, 8));
    assert Pow2(8) == 256;
    var lo := m % 256;
    var hi := (m / 256) % 256;
    assert m == 256 * (m / 256) + lo;
    assert m / 256 == 256 * ((m / 256) / 256) + hi;
    assert m == 65536 * ((m / 256) / 256) + (lo + 256 * hi);
    DivModUnique(m, 65536, (m / 256) / 256, lo + 256 * hi);
  }

  /** `_generate_cbm_output`: the plain output is computed first. */
  method GenerateCbm(out: Mem) returns (r: seq<Byte>)
    ensures r == CbmBytes(out)
  {
    var plain := GeneratePlain(out);
    if |out| == 0 {
      return [];
    }
    var m := Min(out.Keys);
    LowByte(m);
    LowByte(Shr(m, 8));
    r := [BitAnd(m, 255), BitAnd(Shr(m, 8), 255)] + plain;
  }

  // ---- Intel HEX output ----

  /** A data record holds at most this many bytes (output.py:90). */
  const MaxRecordBytes: nat := 16

  /** Record type 00, a data record. */
  const DataRecord: nat := 0

  /** The end-of-file record, type 01 (output.py:114). */
  const EofRecord: string := ":00000001FF\n"

  /** One data record: its load address and its bytes. */
  datatype Record = Record(address: int, data: seq<Byte>)

  /** The end of the record that starts at index `i`, scanning from `j`:
      the record grows while the next address is one more than the last
      and the record is not full (output.py:89-93). */
  function RunEnd(addrs: seq<int>, i: nat, j: nat): (e: nat)
    requires i < j <= |addrs| && j - i <= MaxRecordBytes
    ensures j <= e <= |addrs| && e - i <= MaxRecordBytes
    decreases |addrs| - j
  {
    if j < |addrs| && j - i < MaxRecordBytes && addrs[j] == addrs[j - 1] + 1 then RunEnd(addrs, i, j + 1) else j
  }

  /** A record covers consecutive addresses, and it ends at the last
      address, at 16 bytes or at a gap. */
  lemma {:induction false} RunEndShape(addrs: seq<int>, i: nat, j: nat)
    requires i < j <= |addrs| && j - i <= MaxRecordBytes
    requires forall k :: i <= k < j ==> addrs[k] == addrs[i] + (k - i)
    ensures forall k :: i <= k < RunEnd(addrs, i, j) ==> addrs[k] == addrs[i] + (k - i)
    ensures var e := RunEnd(addrs, i, j);
      e == |addrs| || e - i == MaxRecordBytes || addrs[e] != addrs[e - 1] + 1
    decreases |addrs| - j
  {
    if j < |addrs| && j - i < MaxRecordBytes && addrs[j] == addrs[j - 1] + 1 {
      RunEndShape(addrs, i, j + 1);
    }
  }

  predicate AllWritten(addrs: seq<int>, out: Mem)
  {
    forall k :: 0 <= k < |addrs| ==> addrs[k] in out
  }

  /** The records of `_generate_hex_output` from index `i` of the sorted
      addresses on (output.py:81-94). */
  function RecordsFrom(out: Mem, addrs: seq<int>, i: nat): seq<Record>
    requires i <= |addrs| && AllWritten(addrs, out)
    decreases |addrs| - i
  {
    if i == |addrs| then []
    else
      var e := RunEnd(addrs, i, i + 1);
      [Record(addrs[i], seq(e - i, k requires 0 <= k < e - i => out[addrs[i + k]]))] + RecordsFrom(out, addrs, e)
  }

  function Records(out: Mem): seq<Record>
  {
    RecordsFrom(out, Addresses(out), 0)
  }

  /** The (address, byte) cells a record stands for. */
  function RecordCells(r: Record): (c: seq<(int, Byte)>)
    ensures |c| == |r.data|
  {
    seq(|r.data|, k requires 0 <= k < |r.data| => (r.address + k, r.data[k]))
  }

  function Cells(rs: seq<Record>): seq<(int, Byte)>
  {
    if rs == [] then [] else RecordCells(rs[0]) + Cells(rs[1..])
  }

  /** The written cells from index `i` on, in address order. */
  function Written(out: Mem, addrs: seq<int>, i: nat): (c: seq<(int, Byte)>)
    requires i <= |addrs| && AllWritten(addrs, out)
    ensures |c| == |addrs| - i
  {
    seq(|addrs| - i, k requires 0 <= k < |addrs| - i => (addrs[i + k], out[addrs[i + k]]))
  }

  lemma {:induction false} RecordsFromCells(out: Mem, addrs: seq<int>, i: nat)
    requires i <= |addrs| && AllWritten(addrs, out)
    ensures Cells(RecordsFrom(out, addrs, i)) == Written(out, addrs, i)
    decreases |addrs| - i
  {
    if i < |addrs| {
      var e := RunEnd(addrs, i, i + 1);
      RunEndShape(addrs, i, i + 1);
      var rs := RecordsFrom(out, addrs, i);
      var r := rs[0];
      assert rs[1..] == RecordsFrom(out, addrs, e);
      RecordsFromCells(out, addrs, e);
      var w := Written(out, addrs, i);
      assert RecordCells(r) == w[..e - i];
      assert Written(out, addrs, e) == w[e - i..];
      assert w == w[..e - i] + w[e - i..];
    }
  }

  /** Every written address appears in exactly one record, in ascending
      order, with its byte: the records' cells are the written cells in
      order. Within a record the addresses are consecutive. */
  lemma HexRecordsCoverOutput(out: Mem)
    ensures Cells(Records(out)) == Written(out, Addresses(out), 0)
  {
    RecordsFromCells(out, Addresses(out), 0);
  }

  lemma {:induction false} RecordsFromSizes(out: Mem, addrs: seq<int>, i: nat)
    requires i <= |addrs| && AllWritten(addrs, out)
    ensures forall r :: r in RecordsFrom(out, addrs, i) ==> 1 <= |r.data| <= MaxRecordBytes
    decreases |addrs| - i
  {
    if i < |addrs| {
      RecordsFromSizes(out, addrs, RunEnd(addrs, i, i + 1));
    }
  }

  /** Each record holds 1 to 16 bytes. */
  lemma HexRecordSizes(out: Mem)
    ensures forall r :: r in Records(out) ==> 1 <= |r.data| <= MaxRecordBytes
  {
    RecordsFromSizes(out, Addresses(out), 0);
  }

  /** `(a >> 8) & 0xFF` and `a & 0xFF`: Dafny's division by a positive
      number floors and its remainder is non-negative, as Python's. */
  function AddressHigh(a: int): Byte { (a / 256) % 256 }

  function AddressLow(a: int): Byte { a % 256 }

  function Sum(s: seq<Byte>): int
  {
    if s == [] then 0 else Sum(s[..|s| - 1]) + s[|s| - 1]
  }

  /** The checksum byte of output.py:99-103. */
  function Checksum(r: Record): Byte
  {
    (-(|r.data| + AddressHigh(r.address) + AddressLow(r.address) + DataRecord + Sum(r.data))) % 256
  }

  /** The record's fields and its checksum add up to 0 modulo 256. */
  lemma ChecksumCancels(r: Record)
    ensures (|r.data| + AddressHigh(r.address) + AddressLow(r.address) + DataRecord + Sum(r.data) + Checksum(r)) % 256 == 0
  {
    var t := |r.data| + AddressHigh(r.address) + AddressLow(r.address) + DataRecord + Sum(r.data);
    var c := Checksum(r);
    assert -t == 256 * ((-t) / 256) + c;
    assert t + c == 256 * (-((-t) / 256));
    DivModUnique(t + c, 256, -((-t) / 256), 0);
  }

  // ---- hexadecimal text ----

  /** An upper-case hex digit. */
  function UpperDigit(d: nat): (c: char)
    requires d < 16
    ensures DigitValue(c) == d
  {
    if d < 10 then ('0' as int + d) as char else ('A' as int + d - 10) as char
  }

  /** Python `format(n, 'X')`: upper-case digits without leading zeros. */
  function HexDigits(n: nat): (s: string)
    ensures |s| > 0 && DigitsIn(s, 16) && DigitsValue(s, 16) == n
    decreases n
  {
    if n < 16 then
      var s := [UpperDigit(n)];
      assert s[..0] == [];
      s
    else
      var s := HexDigits(n / 16) + [UpperDigit(n % 16)];
      assert s[..|s| - 1] == HexDigits(n / 16);
      s
  }

  function Pow16(w: nat): nat
  {
    if w == 0 then 1 else 16 * Pow16(w - 1)
  }

  lemma {:induction false} HexDigitsLength(n: nat, w: nat)
    requires 1 <= w && n < Pow16(w)
    ensures |HexDigits(n)| <= w
    decreases n
  {
    if n >= 16 {
      assert w >= 2;
      HexDigitsLength(n / 16, w - 1);
    }
  }

  function Zeros(n: nat): (z: string)
    ensures |z| == n && forall k :: 0 <= k < n ==> z[k] == '0'
  {
    seq(n, _ => '0')
  }

  lemma {:induction false} ZerosValue(n: nat)
    ensures DigitsIn(Zeros(n), 16) && DigitsValue(Zeros(n), 16) == 0
    decreases n
  {
    if n > 0 {
      assert Zeros(n)[..n - 1] == Zeros(n - 1);
      ZerosValue(n - 1);
    }
  }

  /** Leading zeros do not change the value of a digit string. */
  lemma {:induction false} LeadingZeros(n: nat, s: string)
    requires DigitsIn(s, 16)
    ensures DigitsIn(Zeros(n) + s, 16) && DigitsValue(Zeros(n) + s, 16) == DigitsValue(s, 16)
    decreases |s|
  {
    ZerosValue(n);
    if s == [] {
      assert Zeros(n) + s == Zeros(n);
    } else {
      var t := Zeros(n) + s;
      assert t[..|t| - 1] == Zeros(n) + s[..|s| - 1];
      LeadingZeros(n, s[..|s| - 1]);
    }
  }

  /** Left padding with zeros to width `w`. */
  function ZeroPad(s: string, w: nat): (r: string)
    ensures |r| == if |s| >= w then |s| else w
  {
    if |s| >= w then s else Zeros(w - |s|) + s
  }

  /** Python `f"{v:0{w}X}"`: at least `w` characters, a minus sign ahead of
      the zeros for a negative value. */
  function HexField(v: int, w: nat): string
  {
    if v >= 0 then ZeroPad(HexDigits(v), w)
    else "-" + ZeroPad(HexDigits(-v), if w > 0 then w - 1 else 0)
  }

  /** A non-negative field below `16^w` has exactly `w` characters. */
  lemma HexFieldWidth(v: nat, w: nat)
    requires 1 <= w && v < Pow16(w)
    ensures |HexField(v, w)| == w
  {
    HexDigitsLength(v, w);
  }

  /** A non-negative field below `16^w` has exactly `w` digits denoting `v`. */
  lemma HexFieldValue(v: nat, w: nat)
    requires 1 <= w && v < Pow16(w)
    ensures |HexField(v, w)| == w
    ensures DigitsIn(HexField(v, w), 16) && DigitsValue(HexField(v, w), 16) == v
  {
    HexDigitsLength(v, w);
    var d := HexDigits(v);
    if |d| < w {
      LeadingZeros(w - |d|, d);
    }
  }

  /** The two digits of each byte, in order (output.py:107-108). */
  function HexData(data: seq<Byte>): (s: string)
    ensures |s| == 2 * |data|
  {
    if data == [] then ""
    else
      HexFieldValue(data[|data| - 1], 2);
      HexData(data[..|data| - 1]) + HexField(data[|data| - 1], 2)
  }

  lemma {:induction false} HexDataDigits(data: seq<Byte>, k: nat)
    requires k < |data|
    ensures HexData(data)[2 * k..2 * k + 2] == HexField(data[k], 2)
    decreases |data|
  {
    var n := |data|;
    HexFieldValue(data[n - 1], 2);
    var pre := HexData(data[..n - 1]);
    assert HexData(data) == pre + HexField(data[n - 1], 2);
    if k < n - 1 {
      HexDataDigits(data[..n - 1], k);
      assert HexData(data)[2 * k..2 * k + 2] == pre[2 * k..2 * k + 2];
    } else {
      assert HexData(data)[2 * k..2 * k + 2] == HexData(data)[|pre|..];
    }
  }

  /** One record line (output.py:105-109). */
  function RecordLine(r: Record): string
  {
    ":" + HexField(|r.data|, 2) + HexField(r.address, 4) + HexField(DataRecord, 2) +
    HexData(r.data) + HexField(Checksum(r), 2) + "\n"
  }

  /** Where the fields of a record line sit. */
  lemma LineLayout(count: string, addr: string, kind: string, body: string, sum: string)
    requires |count| == 2 && |addr| == 4 && |kind| == 2 && |sum| == 2
    ensures var line := ":" + count + addr + kind + body + sum + "\n";
      |line| == 12 + |body| && line[0] == ':' && line[|line| - 1] == '\n' &&
      line[1..3] == count && line[3..7] == addr && line[7..9] == kind &&
      line[9..9 + |body|] == body && line[9 + |body|..11 + |body|] == sum
  {
  }

  /** The two-digit fields of a record line: the byte count, the type, each
      data byte and the checksum. */
  lemma {:induction false} ByteFieldsRead(v: Byte)
    ensures |HexField(v, 2)| == 2 && DigitsIn(HexField(v, 2), 16) && DigitsValue(HexField(v, 2), 16) == v
  {
    assert Pow16(2) == 256;
    HexFieldValue(v, 2);
  }

  /** A line for a record at a 16-bit address reads back field by field:
      `:`, the byte count, the address, type 00, the checksum and a newline,
      two hex digits per byte. */
  lemma RecordLineFields(r: Record)
    requires 0 <= r.address < 0x1_0000 && |r.data| <= MaxRecordBytes
    ensures var line := RecordLine(r); var n := |r.data|;
      |line| == 12 + 2 * n && line[0] == ':' && line[|line| - 1] == '\n' &&
      DigitsIn(line[1..3], 16) && DigitsValue(line[1..3], 16) == n &&
      DigitsIn(line[3..7], 16) && DigitsValue(line[3..7], 16) == r.address &&
      DigitsValue(line[7..9], 16) == DataRecord &&
      DigitsIn(line[9 + 2 * n..11 + 2 * n], 16) && DigitsValue(line[9 + 2 * n..11 + 2 * n], 16) == Checksum(r)
  {
    var n := |r.data|;
    assert Pow16(4) == 0x1_0000 by {
      assert Pow16(2) == 256;
    }
    ByteFieldsRead(n);
    ByteFieldsRead(DataRecord);
    ByteFieldsRead(Checksum(r));
    HexFieldValue(r.address, 4);
    var count := HexField(n, 2);
    var addr := HexField(r.address, 4);
    var kind := HexField(DataRecord, 2);
    var sum := HexField(Checksum(r), 2);
    var body := HexData(r.data);
    LineLayout(count, addr, kind, body, sum);
  }

  /** The data bytes of a record line read back in order. */
  lemma RecordLineData(r: Record, k: nat)
    requires 0 <= r.address < 0x1_0000 && |r.data| <= MaxRecordBytes && k < |r.data|
    ensures var line := RecordLine(r);
      |line| >= 11 + 2 * k &&
      DigitsIn(line[9 + 2 * k..11 + 2 * k], 16) && DigitsValue(line[9 + 2 * k..11 + 2 * k], 16) == r.data[k]
  {
    DataFieldAt(r, k);
    ByteFieldsRead(r.data[k]);
  }

  lemma DataFieldAt(r: Record, k: nat)
    requires 0 <= r.address < 0x1_0000 && |r.data| <= MaxRecordBytes && k < |r.data|
    ensures |RecordLine(r)| >= 11 + 2 * k && RecordLine(r)[9 + 2 * k..11 + 2 * k] == HexField(r.data[k], 2)
  {
    var line := RecordLine(r);
    var n := |r.data|;
    assert Pow16(4) == 0x1_0000 by {
      assert Pow16(2) == 256;
    }
    HexFieldWidth(n, 2);
    HexFieldWidth(DataRecord, 2);
    HexFieldWidth(r.address, 4);
    HexFieldWidth(Checksum(r), 2);
    var body := HexData(r.data);
    LineLayout(HexField(n, 2), HexField(r.address, 4), HexField(DataRecord, 2), body, HexField(Checksum(r), 2));
    HexDataDigits(r.data, k);
    SubSlice(line, 9, 9 + |body|, 2 * k, 2 * k + 2);
  }

  lemma SubSlice(s: string, a: nat, b: nat, i: nat, j: nat)
    requires a <= b <= |s| && i <= j <= b - a
    ensures s[a..b][i..j] == s[a + i..a + j]
  {
    assert forall k :: 0 <= k < j - i ==> s[a..b][i..j][k] == s[a + i + k];
  }

  /** The record lines in order. */
  function Lines(rs: seq<Record>): string
  {
    if rs == [] then "" else Lines(rs[..|rs| - 1]) + RecordLine(rs[|rs| - 1])
  }

  /** `_generate_hex_output` as text: nothing for an empty map, otherwise
      the data records and the end-of-file record (output.py:70-116). */
  function HexText(out: Mem): string
  {
    if |out| == 0 then "" else Lines(Records(out)) + EofRecord
  }

  /** The ASCII encoding of the text (output.py:116). */
  function HexBytes(out: Mem): (r: seq<int>)
    ensures |r| == |HexText(out)|
  {
    Ords(HexText(out))
  }

  /** A written map gives text ending in the end-of-file record. */
  lemma HexEndsWithEof(out: Mem)
    requires |out| > 0
    ensures |HexText(out)| >= |EofRecord|
    ensures HexText(out)[|HexText(out)| - |EofRecord|..] == EofRecord
  {
    var lines := Lines(Records(out));
    assert HexText(out) == lines + EofRecord;
    assert (lines + EofRecord)[|lines|..] == EofRecord;
  }

  /** The checksum part of output.py:99-103 as a loop. */
  method RecordChecksum(address: int, data: seq<Byte>) returns (checksum: Byte)
    ensures checksum == Checksum(Record(address, data))
  {
    var total := |data| + AddressHigh(address) + AddressLow(address) + DataRecord;
    for k := 0 to |data|
      invariant total == |data| + AddressHigh(address) + AddressLow(address) + DataRecord + Sum(data[..k])
    {
      assert data[..k + 1][..k] == data[..k];
      total := total + data[k];
    }
    assert data[..|data|] == data;
    checksum := (-total) % 256;
  }

  /** The line of one record, built as output.py:96-109 builds it. */
  method FormatRecord(address: int, data: seq<Byte>) returns (line: string)
    ensures line == RecordLine(Record(address, data))
  {
    var checksum := RecordChecksum(address, data);
    line := ":" + HexField(|data|, 2) + HexField(address, 4) + HexField(DataRecord, 2);
    line := AppendHexData(line, data);
    line := line + HexField(checksum, 2) + "\n";
  }

  /** The data loop of output.py:107-108: two digits per byte appended to
      the line. */
  method AppendHexData(head: string, data: seq<Byte>) returns (line: string)
    ensures line == head + HexData(data)
  {
    line := head;
    for k := 0 to |data|
      invariant line == head + HexData(data[..k])
    {
      assert data[..k + 1][..k] == data[..k];
      line := line + HexField(data[k], 2);
    }
    assert data[..|data|] == data;
  }

  /** The inner loop of output.py:84-93: the bytes of the record that
      starts at index `i`. */
  method CollectRecord(out: Mem, addrs: seq<int>, i: nat) returns (data: seq<Byte>, j: nat)
    requires i < |addrs| && AllWritten(addrs, out)
    ensures j == RunEnd(addrs, i, i + 1)
    ensures data == seq(j - i, k requires 0 <= k < j - i => out[addrs[i + k]])
  {
    data := [out[addrs[i]]];
    j := i + 1;
    while j < |addrs| && |data| < 16 && addrs[j] == addrs[j - 1] + 1
      invariant i < j <= |addrs| && |data| == j - i <= MaxRecordBytes
      invariant RunEnd(addrs, i, j) == RunEnd(addrs, i, i + 1)
      invariant data == seq(j - i, k requires 0 <= k < j - i => out[addrs[i + k]])
      decreases |addrs| - j
    {
      data := data + [out[addrs[j]]];
      j := j + 1;
    }
  }

  /** One turn of the outer loop of output.py:81-94: the record at index
      `i`, then the records from where it ends. */
  lemma RecordsFromStep(out: Mem, addrs: seq<int>, i: nat, data: seq<Byte>, j: nat)
    requires i < |addrs| && AllWritten(addrs, out)
    requires j == RunEnd(addrs, i, i + 1)
    requires data == seq(j - i, k requires 0 <= k < j - i => out[addrs[i + k]])
    ensures RecordsFrom(out, addrs, i) == [Record(addrs[i], data)] + RecordsFrom(out, addrs, j)
  {
  }

  lemma LinesSnoc(done: seq<Record>, rec: Record)
    ensures Lines(done + [rec]) == Lines(done) + RecordLine(rec)
  {
    assert (done + [rec])[..|done|] == done;
  }

  /** One turn of the loop of `RecordLines` keeps its record invariant. */
  lemma RecordLinesStep(out: Mem, addrs: seq<int>, i: nat, data: seq<Byte>, j: nat, done: seq<Record>)
    requires i < |addrs| && AllWritten(addrs, out)
    requires j == RunEnd(addrs, i, i + 1)
    requires data == seq(j - i, k requires 0 <= k < j - i => out[addrs[i + k]])
    requires done + RecordsFrom(out, addrs, i) == RecordsFrom(out, addrs, 0)
    ensures (done + [Record(addrs[i], data)]) + RecordsFrom(out, addrs, j) == RecordsFrom(out, addrs, 0)
  {
    var rec := Record(addrs[i], data);
    RecordsFromStep(out, addrs, i, data, j);
    assert done + ([rec] + RecordsFrom(out, addrs, j)) == (done + [rec]) + RecordsFrom(out, addrs, j);
  }

  /** The record lines of a non-empty map, as the loop of output.py:81-94
      writes them. */
  method RecordLines(out: Mem, addrs: seq<int>) returns (text: string)
    requires AllWritten(addrs, out)
    ensures text == Lines(RecordsFrom(out, addrs, 0))
  {
    text := "";
    ghost var done: seq<Record> := [];
    var i := 0;
    while i < |addrs|
      invariant 0 <= i <= |addrs|
      invariant text == Lines(done)
      invariant done + RecordsFrom(out, addrs, i) == RecordsFrom(out, addrs, 0)
      decreases |addrs| - i
    {
      var data, j := CollectRecord(out, addrs, i);
      var line := FormatRecord(addrs[i], data);
      RecordLinesStep(out, addrs, i, data, j, done);
      LinesSnoc(done, Record(addrs[i], data));
      done := done + [Record(addrs[i], data)];
      text := text + line;
      i := j;
    }
    assert RecordsFrom(out, addrs, i) == [];
    assert done + [] == done;
    assert done == RecordsFrom(out, addrs, 0);
  }

  /** `_generate_hex_output` (output.py:70-116). */
  method GenerateHex(out: Mem) returns (r: seq<int>)
    ensures r == HexBytes(out)
  {
    if |out| == 0 {
      return [];
    }
    var text := RecordLines(out, Addresses(out));
    r := Ords(text + EofRecord);
  }

  // ---- the format dispatch ----

  datatype OutputFormat = Plain | Cbm | Apple | Hex

  /** `generate_output` (output.py:7-16). */
  function OutputBytes(format: OutputFormat, out: Mem): seq<int>
  {
    match format
    case Cbm => CbmBytes(out)
    case Hex => HexBytes(out)
    case _ => PlainBytes(out)
  }

  /** An empty map gives empty output in every format, and non-empty output
      otherwise; formats without a generator of their own are plain. */
  lemma OutputFormats(format: OutputFormat, out: Mem)
    ensures OutputBytes(format, out) == [] <==> |out| == 0
    ensures format == Apple ==> OutputBytes(format, out) == PlainBytes(out)
  {
    PlainOutputEmpty(out);
    if |out| > 0 && format == Hex {
      HexEndsWithEof(out);
    }
  }

  method GenerateOutput(format: OutputFormat, out: Mem) returns (r: seq<int>)
    ensures r == OutputBytes(format, out)
  {
    match format {
      case Cbm => r := GenerateCbm(out);
      case Hex => r := GenerateHex(out);
      case _ => r := GeneratePlain(out);
    }
  }
}
