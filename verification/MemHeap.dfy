/** The blocks of the lwIP heap as values: what allocation, release and trimming do to them. */
module HeapBlocks {

  /** SIZEOF_STRUCT_MEM with a 16-bit mem_size_t, MIN_SIZE_ALIGNED and MEM_ALIGNMENT. */
  const HEADER: nat := 8
  const MIN_SIZE: nat := 12
  const ALIGNMENT: nat := 4

  /** mem_size_t */
  function MemSize(x: nat): (r: nat) {
    x % 0x10000
  }

  /** LWIP_MEM_ALIGN_SIZE */
  function AlignSize(n: nat): (r: nat)
    ensures r % ALIGNMENT == 0 && n <= r < n + ALIGNMENT
  {
    (n + 3) / 4 * 4
  }

  /** The data size that a request asks for; AlignSize is computed in int, then stored in a mem_size_t. */
  function DataSize(n: nat): (r: nat)
    ensures r % ALIGNMENT == 0 && r >= MIN_SIZE
  {
    var s := MemSize(AlignSize(n));
    if s < MIN_SIZE then MIN_SIZE else s
  }

  lemma SizeTruncates(size: nat)
    requires 0 < size < 0x1_0000
    ensures if AlignSize(size) < 0x1_0000 then DataSize(size) >= size
            else DataSize(size) == MIN_SIZE && size > 0x1_0000 - ALIGNMENT
  {
  }

  /** A stretch of the heap: a header at off, then data up to end. */
  datatype Block = Block(off: nat, end: nat, used: bool) {
    function Data(): (n: int) {
      end - off - HEADER
    }
  }

  /** Every block is aligned and big enough. */
  ghost predicate Shaped(b: Block) {
    b.off % ALIGNMENT == 0 && b.end % ALIGNMENT == 0 && b.Data() >= MIN_SIZE
  }

  /** The blocks tile [0, e) in order. */
  ghost predicate Tiled(bs: seq<Block>, e: nat) {
    && bs != [] && bs[0].off == 0 && bs[|bs| - 1].end == e
    && (forall i :: 0 <= i < |bs| ==> Shaped(bs[i]))
    && (forall i :: 0 <= i < |bs| - 1 ==> bs[i].end == bs[i + 1].off)
  }

  /** Free neighbours only around block k. */
  ghost predicate HolesAt(bs: seq<Block>, k: int) {
    forall i :: 0 <= i < |bs| - 1 && i != k && i + 1 != k ==> bs[i].used || bs[i + 1].used
  }

  /** The blocks tile the heap and no two neighbours are free. */
  ghost predicate Sound(bs: seq<Block>, e: nat) {
    Tiled(bs, e) && forall i :: 0 <= i < |bs| - 1 ==> bs[i].used || bs[i + 1].used
  }

  lemma {:induction false} Ascending(bs: seq<Block>, e: nat, i: nat, j: nat)
    requires Tiled(bs, e) && i < j < |bs|
    ensures bs[i].end <= bs[j].off
    decreases j
  {
    if i < j - 1 {
      Ascending(bs, e, i, j - 1);
      assert Shaped(bs[j - 1]);
    }
  }

  lemma InBounds(bs: seq<Block>, e: nat, i: nat)
    requires Tiled(bs, e) && i < |bs|
    ensures bs[i].off + HEADER + MIN_SIZE <= bs[i].end <= e
  {
    assert Shaped(bs[i]);
    if i < |bs| - 1 {
      Ascending(bs, e, i, |bs| - 1);
      assert Shaped(bs[|bs| - 1]);
    }
  }

  /** The first free block with at least n bytes of data, or |bs|. */
  function FirstFit(bs: seq<Block>, n: nat): (k: nat)
    ensures k <= |bs|
    ensures forall i :: 0 <= i < k ==> bs[i].used || bs[i].Data() < n
    ensures k < |bs| ==> !bs[k].used && bs[k].Data() >= n
  {
    if bs == [] || (!bs[0].used && bs[0].Data() >= n) then 0 else 1 + FirstFit(bs[1..], n)
  }

  /** The lowest free block, or ram_end. */
  function LowestFree(bs: seq<Block>, e: nat): (l: nat) {
    if bs == [] then e else if !bs[0].used then bs[0].off else LowestFree(bs[1..], e)
  }

  /** Block k cut in two: n bytes of data stay in the first part. */
  function Split(bs: seq<Block>, k: nat, n: nat): (r: seq<Block>)
    requires k < |bs|
  {
    var x := bs[k].off + HEADER + n;
    bs[..k] + [Block(bs[k].off, x, true), Block(x, bs[k].end, false)] + bs[k + 1..]
  }

  /** mem_malloc on free block k: the rest of it becomes a block of its own if it can hold MIN_SIZE bytes. */
  function Alloc(bs: seq<Block>, k: nat, n: nat): (r: seq<Block>)
    requires k < |bs|
  {
    if bs[k].Data() >= n + HEADER + MIN_SIZE then Split(bs, k, n) else bs[k := bs[k].(used := true)]
  }

  /** Block k swallows block k + 1. */
  function Merge(bs: seq<Block>, k: nat): (r: seq<Block>)
    requires k + 1 < |bs|
  {
    bs[..k] + [bs[k].(end := bs[k + 1].end)] + bs[k + 2..]
  }

  /** plug_holes on free block k. */
  function Plug(bs: seq<Block>, k: nat): (r: seq<Block>)
    requires k < |bs|
  {
    var b1 := if k + 1 < |bs| && !bs[k + 1].used then Merge(bs, k) else bs;
    if k > 0 && !b1[k - 1].used then Merge(b1, k - 1) else b1
  }

  /** mem_free on block k. */
  function Release(bs: seq<Block>, k: nat): (r: seq<Block>)
    requires k < |bs|
  {
    Plug(bs[k := bs[k].(used := false)], k)
  }

  /** mem_trim on block k: what it gives up joins the free block behind it, or becomes one if it can. */
  function Trim(bs: seq<Block>, k: nat, n: nat): (r: seq<Block>)
    requires k < |bs|
  {
    var x := bs[k].off + HEADER + n;
    if k + 1 < |bs| && !bs[k + 1].used then bs[k := bs[k].(end := x)][k + 1 := bs[k + 1].(off := x)]
    else if n + HEADER + MIN_SIZE <= bs[k].Data() then Split(bs, k, n)
    else bs
  }

  /** The bytes that a request has to get: MIN_SIZE at least; the last three sizes of mem_size_t are taken for 0. */
  function Need(size: nat): (n: nat) {
    if size < MIN_SIZE || size > 0x1_0000 - ALIGNMENT then MIN_SIZE else size
  }

  /** A request for size bytes can have block b. */
  predicate Fits(b: Block, size: nat) {
    !b.used && b.Data() >= Need(size)
  }

  /**
   * Block k of bs is handed out: it starts where it did and has the bytes it needs. What is left of it is a free block
   * of its own, if it can hold a header and MIN_SIZE bytes, and stays part of it otherwise.
   */
  ghost predicate HandedOut(bs: seq<Block>, r: seq<Block>, k: nat, size: nat)
    requires k < |bs|
  {
    if bs[k].Data() < Need(size) + HEADER + MIN_SIZE then r == bs[k := bs[k].(used := true)]
    else
      && k < |r| && r[k].used && r[k].off == bs[k].off && Need(size) <= r[k].Data() < Need(size) + ALIGNMENT
      && r == bs[..k] + [r[k], Block(r[k].end, bs[k].end, false)] + bs[k + 1..]
  }

  /**
   * Block k of bs is trimmed: it keeps the bytes it needs, and what it gives up joins the free block behind it, or is a
   * free block of its own if it can hold a header and MIN_SIZE bytes.
   */
  ghost predicate Trimmed(bs: seq<Block>, r: seq<Block>, k: nat, size: nat)
    requires k < |bs|
  {
    var next := k + 1 < |bs| && !bs[k + 1].used;
    if !next && bs[k].Data() < Need(size) + HEADER + MIN_SIZE then r == bs
    else
      && k < |r| && r[k].used == bs[k].used && r[k].off == bs[k].off && Need(size) <= r[k].Data() < Need(size) + ALIGNMENT
      && r == if next then bs[..k] + [r[k], bs[k + 1].(off := r[k].end)] + bs[k + 2..]
              else bs[..k] + [r[k], Block(r[k].end, bs[k].end, false)] + bs[k + 1..]
  }

  lemma NeedIsSize(d: int, size: nat)
    requires d % ALIGNMENT == 0 && size < 0x1_0000
    ensures d >= DataSize(size) <==> d >= Need(size)
    ensures d >= DataSize(size) + HEADER + MIN_SIZE <==> d >= Need(size) + HEADER + MIN_SIZE
    ensures Need(size) <= DataSize(size) < Need(size) + ALIGNMENT
  {
  }

  /** Which block mem_malloc takes, and what it makes of it, by the size that was asked for. */
  lemma AllocExactly(bs: seq<Block>, e: nat, size: nat)
    requires Tiled(bs, e) && 0 < size < 0x1_0000
    ensures var k := FirstFit(bs, DataSize(size));
            && (forall i :: 0 <= i < k ==> !Fits(bs[i], size))
            && (k < |bs| ==> Fits(bs[k], size) && HandedOut(bs, Alloc(bs, k, DataSize(size)), k, size))
  {
    hide FirstFit, DataSize, HandedOut, Alloc, Fits, Tiled;
    var k := FirstFit(bs, DataSize(size));
    forall i | 0 <= i < |bs|
      ensures Fits(bs[i], size) <==> !bs[i].used && bs[i].Data() >= DataSize(size)
    {
      FitsExactly(bs, e, i, size);
    }
    if k < |bs| {
      HandsExactly(bs, e, k, size);
    }
  }

  lemma FitsExactly(bs: seq<Block>, e: nat, i: nat, size: nat)
    requires Tiled(bs, e) && i < |bs| && size < 0x1_0000
    ensures Fits(bs[i], size) <==> !bs[i].used && bs[i].Data() >= DataSize(size)
  {
    hide DataSize, Need;
    assert Shaped(bs[i]);
    NeedIsSize(bs[i].Data(), size);
  }

  lemma HandsExactly(bs: seq<Block>, e: nat, k: nat, size: nat)
    requires Tiled(bs, e) && k < |bs| && size < 0x1_0000 && bs[k].Data() >= DataSize(size)
    ensures HandedOut(bs, Alloc(bs, k, DataSize(size)), k, size)
  {
    hide DataSize, Need, Tiled;
    assert bs[k].Data() % ALIGNMENT == 0 by { WholeWords(bs, e, k); }
    NeedIsSize(bs[k].Data(), size);
  }

  lemma WholeWords(bs: seq<Block>, e: nat, i: nat)
    requires Tiled(bs, e) && i < |bs|
    ensures bs[i].Data() % ALIGNMENT == 0
  {
    assert Shaped(bs[i]);
  }

  lemma TrimExactly(bs: seq<Block>, e: nat, k: nat, size: nat)
    requires Tiled(bs, e) && k < |bs| && bs[k].used && size < 0x1_0000
    ensures DataSize(size) > bs[k].Data() <==> Need(size) > bs[k].Data()
    ensures DataSize(size) <= bs[k].Data() ==> Trimmed(bs, Trim(bs, k, DataSize(size)), k, size)
  {
    hide DataSize, Need, Tiled;
    WholeWords(bs, e, k);
    NeedIsSize(bs[k].Data(), size);
    var x := bs[k].off + HEADER + DataSize(size);
    if k + 1 < |bs| && !bs[k + 1].used {
      var r := bs[k := bs[k].(end := x)][k + 1 := bs[k + 1].(off := x)];
      assert r == bs[..k] + [r[k], r[k + 1]] + bs[k + 2..];
    }
  }

  /** b is a block in use, or a part of one that is handed out. */
  ghost predicate Live(bs: seq<Block>, b: Block) {
    b.used && b in bs
  }

  lemma SplitAt(bs: seq<Block>, k: nat, n: nat, i: nat)
    requires k < |bs| && i < |Split(bs, k, n)|
    ensures |Split(bs, k, n)| == |bs| + 1
    ensures var x := bs[k].off + HEADER + n;
            Split(bs, k, n)[i] == if i < k then bs[i] else if i == k then Block(bs[k].off, x, true)
                                  else if i == k + 1 then Block(x, bs[k].end, false) else bs[i - 1]
  {
  }

  lemma SplitTiled(bs: seq<Block>, e: nat, k: nat, n: nat)
    requires Tiled(bs, e) && k < |bs| && n % ALIGNMENT == 0 && n >= MIN_SIZE && bs[k].Data() >= n + HEADER + MIN_SIZE
    ensures Tiled(Split(bs, k, n), e)
  {
    hide Split, Shaped;
    var r := Split(bs, k, n);
    SplitLength(bs, k, n);
    forall i | 0 <= i < |r|
      ensures Shaped(r[i])
      ensures i < |r| - 1 ==> r[i].end == r[i + 1].off
    {
      SplitAt(bs, k, n, i);
      PartsShaped(bs[k], n);
      if i < |r| - 1 {
        SplitAt(bs, k, n, i + 1);
      }
    }
    SplitAt(bs, k, n, 0);
    SplitAt(bs, k, n, |bs|);
  }

  lemma SplitLength(bs: seq<Block>, k: nat, n: nat)
    requires k < |bs|
    ensures |Split(bs, k, n)| == |bs| + 1
  {
  }

  lemma PartsShaped(b: Block, n: nat)
    requires Shaped(b) && n % ALIGNMENT == 0 && n >= MIN_SIZE && b.Data() >= n + HEADER + MIN_SIZE
    ensures var x := b.off + HEADER + n; Shaped(Block(b.off, x, true)) && Shaped(Block(x, b.end, false))
  {
  }

  lemma SplitSound(bs: seq<Block>, e: nat, k: nat, n: nat)
    requires Sound(bs, e) && k < |bs| && n % ALIGNMENT == 0 && n >= MIN_SIZE && bs[k].Data() >= n + HEADER + MIN_SIZE
    requires k + 1 < |bs| ==> bs[k + 1].used
    ensures Sound(Split(bs, k, n), e)
  {
    var r := Split(bs, k, n);
    SplitTiled(bs, e, k, n);
    forall i | 0 <= i < |r| - 1
      ensures r[i].used || r[i + 1].used
    {
      assert i < k ==> r[i] == bs[i];
      assert i > k + 1 ==> r[i] == bs[i - 1];
    }
  }

  lemma MarkSound(bs: seq<Block>, e: nat, k: nat)
    requires Sound(bs, e) && k < |bs|
    ensures Sound(bs[k := bs[k].(used := true)], e)
  {
    var r := bs[k := bs[k].(used := true)];
    forall i | 0 <= i < |r|
      ensures Shaped(r[i])
    {
      assert Shaped(bs[i]);
    }
  }

  lemma MergeTiled(bs: seq<Block>, e: nat, k: nat)
    requires Tiled(bs, e) && k + 1 < |bs|
    ensures Tiled(Merge(bs, k), e)
  {
    var r := Merge(bs, k);
    assert Shaped(bs[k]) && Shaped(bs[k + 1]);
    forall i | 0 <= i < |r|
      ensures Shaped(r[i])
      ensures i < |r| - 1 ==> r[i].end == r[i + 1].off
    {
      assert i < k ==> Shaped(bs[i]) && r[i] == bs[i];
      assert i > k ==> Shaped(bs[i + 1]) && r[i] == bs[i + 1];
    }
  }

  lemma PlugSound(bs: seq<Block>, e: nat, k: nat)
    requires Tiled(bs, e) && HolesAt(bs, k) && k < |bs| && !bs[k].used
    ensures Sound(Plug(bs, k), e)
  {
    PlugForward(bs, e, k);
    var b1 := if k + 1 < |bs| && !bs[k + 1].used then Merge(bs, k) else bs;
    PlugBackward(b1, e, k);
  }

  lemma PlugForward(bs: seq<Block>, e: nat, k: nat)
    requires Tiled(bs, e) && HolesAt(bs, k) && k < |bs| && !bs[k].used
    ensures var b1 := if k + 1 < |bs| && !bs[k + 1].used then Merge(bs, k) else bs;
            Tiled(b1, e) && HolesAt(b1, k) && k < |b1| && !b1[k].used && (k + 1 < |b1| ==> b1[k + 1].used)
  {
    if k + 1 < |bs| && !bs[k + 1].used {
      var b1 := Merge(bs, k);
      MergeTiled(bs, e, k);
      assert forall i :: k < i < |b1| ==> b1[i] == bs[i + 1];
      assert forall i :: 0 <= i < k ==> b1[i] == bs[i];
      assert k + 2 < |bs| ==> bs[k + 2].used;
    }
  }

  lemma PlugBackward(bs: seq<Block>, e: nat, k: nat)
    requires Tiled(bs, e) && HolesAt(bs, k) && k < |bs| && !bs[k].used && (k + 1 < |bs| ==> bs[k + 1].used)
    ensures Sound(if k > 0 && !bs[k - 1].used then Merge(bs, k - 1) else bs, e)
  {
    hide Shaped;
    if k > 0 && !bs[k - 1].used {
      MergeTiled(bs, e, k - 1);
      MergeHoles(bs, k);
    }
  }

  lemma MergeHoles(bs: seq<Block>, k: nat)
    requires HolesAt(bs, k) && 0 < k < |bs| && !bs[k - 1].used && (k + 1 < |bs| ==> bs[k + 1].used)
    ensures var r := Merge(bs, k - 1); forall i :: 0 <= i < |r| - 1 ==> r[i].used || r[i + 1].used
  {
    var r := Merge(bs, k - 1);
    assert k >= 2 ==> bs[k - 2].used;
    forall i | 0 <= i < |r| - 1
      ensures r[i].used || r[i + 1].used
    {
      assert r[i + 1] == bs[if i + 1 < k - 1 then i + 1 else i + 2] || i + 1 == k - 1;
      assert i < k - 1 ==> r[i] == bs[i];
      assert i > k - 1 ==> r[i] == bs[i + 1];
    }
  }

  /** Allocation keeps the heap sound. */
  lemma AllocSound(bs: seq<Block>, e: nat, k: nat, n: nat)
    requires Sound(bs, e) && k < |bs| && !bs[k].used && n % ALIGNMENT == 0 && MIN_SIZE <= n <= bs[k].Data()
    ensures Sound(Alloc(bs, k, n), e)
  {
    if bs[k].Data() >= n + HEADER + MIN_SIZE {
      SplitSound(bs, e, k, n);
    } else {
      MarkSound(bs, e, k);
    }
  }

  /** Release keeps the heap sound: both neighbours that are free are joined. */
  lemma ReleaseSound(bs: seq<Block>, e: nat, k: nat)
    requires Sound(bs, e) && k < |bs|
    ensures Sound(Release(bs, k), e)
  {
    var r := bs[k := bs[k].(used := false)];
    forall i | 0 <= i < |r|
      ensures Shaped(r[i])
    {
      assert Shaped(bs[i]);
    }
    PlugSound(r, e, k);
  }

  /** Trimming keeps the heap sound. */
  lemma TrimSound(bs: seq<Block>, e: nat, k: nat, n: nat)
    requires Sound(bs, e) && k < |bs| && bs[k].used && n % ALIGNMENT == 0 && MIN_SIZE <= n <= bs[k].Data()
    ensures Sound(Trim(bs, k, n), e)
  {
    hide Shaped, Split;
    if k + 1 < |bs| && !bs[k + 1].used {
      var r := Trim(bs, k, n);
      MoveShaped(bs[k], bs[k + 1], n);
      forall i | 0 <= i < |r|
        ensures Shaped(r[i])
      {
        assert i != k && i != k + 1 ==> r[i] == bs[i];
      }
    } else if n + HEADER + MIN_SIZE <= bs[k].Data() {
      SplitSound(bs, e, k, n);
    }
  }

  lemma MoveShaped(b: Block, c: Block, n: nat)
    requires Shaped(b) && Shaped(c) && b.end == c.off && n % ALIGNMENT == 0 && MIN_SIZE <= n <= b.Data()
    ensures var x := b.off + HEADER + n; Shaped(b.(end := x)) && Shaped(c.(off := x))
  {
  }

  /** No two blocks in use overlap, and each lies inside the heap. */
  lemma LiveDisjoint(bs: seq<Block>, e: nat, a: Block, b: Block)
    requires Tiled(bs, e) && Live(bs, a) && Live(bs, b) && a != b
    ensures (a.end <= b.off || b.end <= a.off) && a.end <= e
  {
    var i :| 0 <= i < |bs| && bs[i] == a;
    var j :| 0 <= j < |bs| && bs[j] == b;
    InBounds(bs, e, i);
    if i < j {
      Ascending(bs, e, i, j);
    } else {
      Ascending(bs, e, j, i);
    }
  }

  /** A header at a block boundary is outside the data of every block. */
  lemma HeaderOutsideData(bs: seq<Block>, e: nat, i: nat, j: nat)
    requires Tiled(bs, e) && i < |bs| && j < |bs|
    ensures bs[i].off + HEADER <= bs[j].off + HEADER || bs[j].end <= bs[i].off
  {
    if j < i {
      Ascending(bs, e, j, i);
    } else if i < j {
      Ascending(bs, e, i, j);
      InBounds(bs, e, i);
    }
  }

  /** Allocation leaves every block in use as it was and adds one of at least n bytes, cut from a free block. */
  lemma AllocLive(bs: seq<Block>, k: nat, n: nat, b: Block)
    requires k < |bs| && !bs[k].used && bs[k].Data() >= n
    ensures var a := Alloc(bs, k, n)[k];
            && (Live(Alloc(bs, k, n), b) <==> Live(bs, b) || b == a)
            && a.used && a.off == bs[k].off && a.end <= bs[k].end && n <= a.Data() < n + HEADER + MIN_SIZE
  {
    var r := Alloc(bs, k, n);
    assert bs == bs[..k] + [bs[k]] + bs[k + 1..];
    if bs[k].Data() < n + HEADER + MIN_SIZE {
      assert r == bs[..k] + [bs[k].(used := true)] + bs[k + 1..];
    }
  }

  /** Release takes exactly block k out of use. */
  lemma ReleaseLive(bs: seq<Block>, e: nat, k: nat, b: Block)
    requires Sound(bs, e) && k < |bs| && bs[k].used
    ensures Live(Release(bs, k), b) <==> Live(bs, b) && b != bs[k]
  {
    hide Tiled, Merge, Live;
    var r := bs[k := bs[k].(used := false)];
    FreedLive(bs, e, k, b);
    if k + 1 < |r| && !r[k + 1].used {
      MergeLive(r, k, b);
      MergeHead(r, k);
    }
    var b1 := if k + 1 < |r| && !r[k + 1].used then Merge(r, k) else r;
    if k > 0 && !b1[k - 1].used {
      MergeLive(b1, k - 1, b);
    }
  }

  lemma FreedLive(bs: seq<Block>, e: nat, k: nat, b: Block)
    requires Sound(bs, e) && k < |bs|
    ensures Live(bs[k := bs[k].(used := false)], b) <==> Live(bs, b) && b != bs[k]
  {
    hide Tiled;
    var r := bs[k := bs[k].(used := false)];
    Distinct(bs, e, k);
    assert forall i :: 0 <= i < |bs| && i != k ==> r[i] == bs[i];
    if Live(bs, b) && b != bs[k] {
      var i :| 0 <= i < |bs| && bs[i] == b;
      assert r[i] == b;
    }
  }

  lemma MergeHead(bs: seq<Block>, k: nat)
    requires k + 1 < |bs|
    ensures |Merge(bs, k)| == |bs| - 1 && (forall i :: 0 <= i < k ==> Merge(bs, k)[i] == bs[i])
    ensures Merge(bs, k)[k].used == bs[k].used
  {
  }

  lemma Distinct(bs: seq<Block>, e: nat, k: nat)
    requires Tiled(bs, e) && k < |bs|
    ensures forall i :: 0 <= i < |bs| && i != k ==> bs[i] != bs[k]
  {
    forall i | 0 <= i < |bs| && i != k
      ensures bs[i] != bs[k]
    {
      InBounds(bs, e, i);
      InBounds(bs, e, k);
      if i < k {
        Ascending(bs, e, i, k);
      } else {
        Ascending(bs, e, k, i);
      }
    }
  }

  lemma MergeLive(bs: seq<Block>, k: nat, b: Block)
    requires k + 1 < |bs| && !bs[k].used && !bs[k + 1].used
    ensures Live(Merge(bs, k), b) <==> Live(bs, b)
  {
    assert bs == bs[..k] + [bs[k]] + [bs[k + 1]] + bs[k + 2..];
  }

  /** Trimming shortens block k, by nothing if the rest could not be a block, and leaves the others. */
  lemma TrimLive(bs: seq<Block>, e: nat, k: nat, n: nat, b: Block)
    requires Sound(bs, e) && k < |bs| && bs[k].used && n <= bs[k].Data()
    ensures var a := Trim(bs, k, n)[k];
            && (Live(Trim(bs, k, n), b) <==> (Live(bs, b) && b != bs[k]) || b == a)
            && a.used && a.off == bs[k].off && a.end <= bs[k].end && n <= a.Data()
  {
    hide Tiled;
    Distinct(bs, e, k);
    var x := bs[k].off + HEADER + n;
    if k + 1 < |bs| && !bs[k + 1].used {
      var a, f := bs[k].(end := x), bs[k + 1].(off := x);
      var r := bs[k := a][k + 1 := f];
      assert forall i :: 0 <= i < |bs| && i != k && i != k + 1 ==> r[i] == bs[i];
      if Live(bs, b) && b != bs[k] {
        var i :| 0 <= i < |bs| && bs[i] == b;
        assert r[i] == b;
      }
      assert r[k] == a;
    } else if n + HEADER + MIN_SIZE <= bs[k].Data() {
      CutLive(bs, k, n, b);
    }
  }

  lemma CutLive(bs: seq<Block>, k: nat, n: nat, b: Block)
    requires k < |bs| && forall i :: 0 <= i < |bs| && i != k ==> bs[i] != bs[k]
    ensures Split(bs, k, n)[k] == Block(bs[k].off, bs[k].off + HEADER + n, true)
    ensures Live(Split(bs, k, n), b) <==> (Live(bs, b) && b != bs[k]) || b == Split(bs, k, n)[k]
  {
    var r := Split(bs, k, n);
    assert bs == bs[..k] + [bs[k]] + bs[k + 1..];
    assert r == bs[..k] + [r[k], r[k + 1]] + bs[k + 1..];
    if Live(bs, b) && b != bs[k] {
      assert b in bs[..k] || b in bs[k + 1..];
    }
  }

  lemma NoTwins(bs: seq<Block>, e: nat, i: nat)
    requires Sound(bs, e) && i + 1 < |bs|
    ensures bs[i].used || bs[i + 1].used
  {
  }

  /** With nothing in use the heap is one free block. */
  lemma AllFree(bs: seq<Block>, e: nat)
    requires Sound(bs, e) && forall i :: 0 <= i < |bs| ==> !bs[i].used
    ensures bs == [Block(0, e, false)]
  {
    if |bs| > 1 {
      NoTwins(bs, e, 0);
    }
  }

  // ----- the lowest free block

  lemma {:induction false} LowestFreeAt(bs: seq<Block>, e: nat, i: nat)
    requires i <= |bs| && (forall j :: 0 <= j < i ==> bs[j].used) && (i < |bs| ==> !bs[i].used)
    ensures LowestFree(bs, e) == if i < |bs| then bs[i].off else e
    decreases |bs|
  {
    if i > 0 {
      LowestFreeAt(bs[1..], e, i - 1);
    }
  }

  /** Where the lowest free block is. */
  function FreeIndex(bs: seq<Block>): (i: nat)
    ensures i <= |bs| && (forall j :: 0 <= j < i ==> bs[j].used) && (i < |bs| ==> !bs[i].used)
  {
    if bs == [] || !bs[0].used then 0 else 1 + FreeIndex(bs[1..])
  }
}

/** mem.c: the heap's headers in arrays indexed by offset, changed in place. */
module HeapMemory {
  import opened HeapBlocks

  /** What mem_malloc returns and mem_free and mem_trim take: NULL or an address relative to ram. */
  datatype Pointer = Null | Ram(offset: int)

  /** prev of block i. */
  ghost function Previous(bs: seq<Block>, i: nat): (x: nat)
    requires i < |bs|
  {
    if i == 0 then 0 else bs[i - 1].off
  }

  /** The header of block b is in place. */
  ghost predicate Header(next: seq<nat>, prev: seq<nat>, used: seq<bool>, b: Block, before: nat) {
    && b.off < |next| && b.off < |prev| && b.off < |used|
    && next[b.off] == b.end && used[b.off] == b.used && prev[b.off] == before
  }

  /** The header fields thread the blocks bs of a heap of e bytes; ram_end is marked used. */
  ghost predicate Headers(next: seq<nat>, prev: seq<nat>, used: seq<bool>, bs: seq<Block>, e: nat) {
    && |next| == e + 1 && |prev| == e + 1 && |used| == e + 1
    && used[e] && next[e] == e
    && Tiled(bs, e)
    && (forall i {:trigger bs[i]} :: 0 <= i < |bs| ==> Header(next, prev, used, bs[i], Previous(bs, i)))
  }

  /** The header of the block at offset x. */
  lemma HeaderAt(next: seq<nat>, prev: seq<nat>, used: seq<bool>, bs: seq<Block>, e: nat, i: nat)
    requires Headers(next, prev, used, bs, e) && i < |bs|
    ensures |next| == e + 1 && |prev| == e + 1 && |used| == e + 1
    ensures var b := bs[i];
            && b.off + HEADER + MIN_SIZE <= b.end <= e && next[b.off] == b.end && used[b.off] == b.used
            && prev[b.off] == Previous(bs, i)
            && (i + 1 < |bs| ==> bs[i + 1].off == b.end && used[b.end] == bs[i + 1].used && next[b.end] == bs[i + 1].end)
            && (i + 1 == |bs| ==> b.end == e && used[b.end])
            && (b.end == e ==> i + 1 == |bs|)
            && (i == 0 <==> b.off == 0)
  {
    InBounds(bs, e, i);
    if i + 1 < |bs| {
      InBounds(bs, e, i + 1);
    }
    if i > 0 {
      Ascending(bs, e, 0, i);
      InBounds(bs, e, 0);
    }
  }

  /** Where block i lies as seen from block k. */
  lemma Apart(bs: seq<Block>, e: nat, k: nat, i: nat)
    requires Tiled(bs, e) && k < |bs| && i < |bs|
    ensures bs[i].off + HEADER + MIN_SIZE <= bs[i].end <= e
    ensures (i < k ==> bs[i].end <= bs[k].off) && (i > k ==> bs[i].off >= bs[k].end) && (i == k + 1 ==> bs[i].off == bs[k].end)
    ensures i > k + 1 ==> bs[i].off > bs[k].end
  {
    InBounds(bs, e, i);
    if i < k {
      Ascending(bs, e, i, k);
    } else if i > k {
      Ascending(bs, e, k, i);
      if i > k + 1 {
        Ascending(bs, e, k + 1, i);
        InBounds(bs, e, k + 1);
      }
    }
  }

  /** The stores that cut a block with header at off and end at end in two at x. */
  ghost predicate CutWrites(next: seq<nat>, prev: seq<nat>, used: seq<bool>, off: nat, x: nat, end: nat, e: nat,
                            next': seq<nat>, prev': seq<nat>, used': seq<bool>) {
    && off < x < end <= e && |next| == e + 1 && |prev| == e + 1 && |used| == e + 1
    && next' == next[x := end][off := x] && used' == used[x := false][off := true]
    && prev' == if end != e then prev[x := off][end := x] else prev[x := off]
  }

  /** The writes that cut block k in two. */
  lemma SplitHeaders(next: seq<nat>, prev: seq<nat>, used: seq<bool>, bs: seq<Block>, e: nat, k: nat, n: nat,
                     next': seq<nat>, prev': seq<nat>, used': seq<bool>)
    requires Headers(next, prev, used, bs, e) && k < |bs| && n % ALIGNMENT == 0 && n >= MIN_SIZE
    requires bs[k].Data() >= n + HEADER + MIN_SIZE
    requires CutWrites(next, prev, used, bs[k].off, bs[k].off + HEADER + n, bs[k].end, e, next', prev', used')
    ensures Headers(next', prev', used', Split(bs, k, n), e)
  {
    hide Tiled, CutWrites, Header;
    SplitTiled(bs, e, k, n);
    var r := Split(bs, k, n);
    SplitOwn(next, prev, used, bs, e, k, n, next', prev', used');
    forall i | 0 <= i < |r|
      ensures Header(next', prev', used', r[i], Previous(r, i))
    {
      if i != k && i != k + 1 {
        SplitOther(next, prev, used, bs, e, k, bs[k].off + HEADER + n, next', prev', used', if i < k then i else i - 1);
      }
    }
  }

  lemma SplitOwn(next: seq<nat>, prev: seq<nat>, used: seq<bool>, bs: seq<Block>, e: nat, k: nat, n: nat,
                 next': seq<nat>, prev': seq<nat>, used': seq<bool>)
    requires Headers(next, prev, used, bs, e) && k < |bs|
    requires CutWrites(next, prev, used, bs[k].off, bs[k].off + HEADER + n, bs[k].end, e, next', prev', used')
    ensures var off, x, end := bs[k].off, bs[k].off + HEADER + n, bs[k].end;
            && Header(next', prev', used', Block(off, x, true), Previous(bs, k))
            && Header(next', prev', used', Block(x, end, false), off)
            && |next'| == e + 1 && |prev'| == e + 1 && |used'| == e + 1 && used'[e] && next'[e] == e
  {
    hide Tiled;
    HeaderAt(next, prev, used, bs, e, k);
  }

  lemma SplitOther(next: seq<nat>, prev: seq<nat>, used: seq<bool>, bs: seq<Block>, e: nat, k: nat, x: nat,
                   next': seq<nat>, prev': seq<nat>, used': seq<bool>, j: nat)
    requires Headers(next, prev, used, bs, e) && k < |bs| && j < |bs| && j != k
    requires CutWrites(next, prev, used, bs[k].off, x, bs[k].end, e, next', prev', used')
    ensures Header(next', prev', used', bs[j], if j == k + 1 then x else Previous(bs, j))
  {
    hide Tiled;
    Apart(bs, e, k, j);
    HeaderAt(next, prev, used, bs, e, j);
    HeaderAt(next, prev, used, bs, e, k);
  }

  /** The write that takes block k into use or out of it. */
  lemma MarkHeaders(next: seq<nat>, prev: seq<nat>, used: seq<bool>, bs: seq<Block>, e: nat, k: nat, v: bool)
    requires Headers(next, prev, used, bs, e) && k < |bs|
    ensures Headers(next, prev, used[bs[k].off := v], bs[k := bs[k].(used := v)], e)
  {
    hide Tiled, Header;
    var r := bs[k := bs[k].(used := v)];
    MarkTiled(bs, e, k, v);
    HeaderAt(next, prev, used, bs, e, k);
    forall i | 0 <= i < |r|
      ensures Header(next, prev, used[bs[k].off := v], r[i], Previous(r, i))
    {
      MarkOther(next, prev, used, bs, e, k, v, i);
    }
  }

  lemma MarkTiled(bs: seq<Block>, e: nat, k: nat, v: bool)
    requires Tiled(bs, e) && k < |bs|
    ensures Tiled(bs[k := bs[k].(used := v)], e)
  {
    var r := bs[k := bs[k].(used := v)];
    forall i | 0 <= i < |r|
      ensures Shaped(r[i])
    {
      assert Shaped(bs[i]);
    }
  }

  lemma MarkOther(next: seq<nat>, prev: seq<nat>, used: seq<bool>, bs: seq<Block>, e: nat, k: nat, v: bool, i: nat)
    requires Headers(next, prev, used, bs, e) && k < |bs| && i < |bs|
    ensures bs[k].off < e
    ensures Header(next, prev, used[bs[k].off := v], if i == k then bs[i].(used := v) else bs[i], Previous(bs, i))
  {
    hide Tiled;
    Apart(bs, e, k, i);
    HeaderAt(next, prev, used, bs, e, i);
    HeaderAt(next, prev, used, bs, e, k);
  }

  /** The writes by which block k swallows the next one; the back link behind them may be that of ram_end. */
  lemma MergeHeaders(next: seq<nat>, prev: seq<nat>, used: seq<bool>, bs: seq<Block>, e: nat, k: nat)
    requires Headers(next, prev, used, bs, e) && k + 1 < |bs|
    ensures bs[k].off < e && bs[k + 1].end <= e
    ensures Headers(next[bs[k].off := bs[k + 1].end], prev[bs[k + 1].end := bs[k].off], used, Merge(bs, k), e)
  {
    hide Tiled, Header;
    var r := Merge(bs, k);
    MergeTiled(bs, e, k);
    HeaderAt(next, prev, used, bs, e, k);
    HeaderAt(next, prev, used, bs, e, k + 1);
    var next', prev' := next[bs[k].off := bs[k + 1].end], prev[bs[k + 1].end := bs[k].off];
    forall i | 0 <= i < |r|
      ensures Header(next', prev', used, r[i], Previous(r, i))
    {
      if i == k {
        MergeOwn(next, prev, used, bs, e, k, next', prev');
      } else {
        MergeOther(next, prev, used, bs, e, k, next', prev', if i < k then i else i + 1);
      }
    }
  }

  lemma MergeOwn(next: seq<nat>, prev: seq<nat>, used: seq<bool>, bs: seq<Block>, e: nat, k: nat,
                 next': seq<nat>, prev': seq<nat>)
    requires Headers(next, prev, used, bs, e) && k + 1 < |bs| && bs[k].off < e && bs[k + 1].end <= e
    requires next' == next[bs[k].off := bs[k + 1].end] && prev' == prev[bs[k + 1].end := bs[k].off]
    ensures Header(next', prev', used, bs[k].(end := bs[k + 1].end), Previous(bs, k))
  {
    hide Tiled;
    HeaderAt(next, prev, used, bs, e, k);
    HeaderAt(next, prev, used, bs, e, k + 1);
  }

  lemma MergeOther(next: seq<nat>, prev: seq<nat>, used: seq<bool>, bs: seq<Block>, e: nat, k: nat,
                   next': seq<nat>, prev': seq<nat>, i: nat)
    requires Headers(next, prev, used, bs, e) && k + 1 < |bs| && i < |bs| && i != k && i != k + 1
    requires bs[k].off < e && bs[k + 1].end <= e
    requires next' == next[bs[k].off := bs[k + 1].end] && prev' == prev[bs[k + 1].end := bs[k].off]
    ensures Header(next', prev', used, bs[i], if i == k + 2 then bs[k].off else Previous(bs, i))
  {
    hide Headers, Previous;
    Behind(bs, e, k, i) by { assert Tiled(bs, e) by { HeadersTiled(next, prev, used, bs, e); } }
    HeaderOf(next, prev, used, bs, e, i);
  }

  lemma HeadersTiled(next: seq<nat>, prev: seq<nat>, used: seq<bool>, bs: seq<Block>, e: nat)
    requires Headers(next, prev, used, bs, e)
    ensures Tiled(bs, e)
  {
  }

  lemma HeaderOf(next: seq<nat>, prev: seq<nat>, used: seq<bool>, bs: seq<Block>, e: nat, i: nat)
    requires Headers(next, prev, used, bs, e) && i < |bs|
    ensures Header(next, prev, used, bs[i], Previous(bs, i)) && |next| == e + 1 && |prev| == e + 1
  {
  }

  /** Block i, which is neither k nor k + 1, starts behind k + 1 exactly if it is k + 2. */
  lemma Behind(bs: seq<Block>, e: nat, k: nat, i: nat)
    requires Tiled(bs, e) && k + 1 < |bs| && i < |bs| && i != k && i != k + 1
    ensures bs[i].off != bs[k].off && (bs[i].off == bs[k + 1].end <==> i == k + 2)
  {
    hide Tiled;
    Apart(bs, e, k, i);
    Apart(bs, e, k, k + 1);
    Apart(bs, e, k + 1, i);
    Apart(bs, e, k, k);
  }

  /** The back link of ram_end is not part of the list. */
  lemma LastBackLink(next: seq<nat>, prev: seq<nat>, used: seq<bool>, bs: seq<Block>, e: nat, v: nat)
    requires Headers(next, prev, used, bs, e)
    ensures Headers(next, prev[e := v], used, bs, e)
  {
    hide Tiled;
    forall i | 0 <= i < |bs|
      ensures Header(next, prev[e := v], used, bs[i], Previous(bs, i))
    {
      HeaderAt(next, prev, used, bs, e, i);
    }
  }

  /** Joining two blocks and cutting them again at x stores the same as moving the header between them to x. */
  lemma JoinAndCut(next: seq<nat>, prev: seq<nat>, used: seq<bool>, off: nat, x: nat, end: nat, e: nat,
                   next': seq<nat>, prev': seq<nat>, used': seq<bool>)
    requires CutWrites(next, prev, used, off, x, end, e, next', prev', used')
    ensures var prev1 := prev[end := off];
            var prev2 := if end != e then prev1[x := off][end := x] else prev1[x := off];
            && CutWrites(next[off := end], prev1, used, off, x, end, e, next', prev2, used')
            && |prev'| == e + 1 && |prev2| == e + 1 && prev' == if end == e then prev2[e := prev'[e]] else prev2
  {
  }

  lemma SplitOfMerged(bs: seq<Block>, e: nat, k: nat, n: nat)
    requires Tiled(bs, e) && k + 1 < |bs| && bs[k].used && !bs[k + 1].used
    requires n % ALIGNMENT == 0 && MIN_SIZE <= n <= bs[k].Data()
    ensures k < |Merge(bs, k)|
    ensures Split(Merge(bs, k), k, n) == Trim(bs, k, n)
    ensures var b := Merge(bs, k)[k];
            b.off == bs[k].off && b.end == bs[k + 1].end && b.Data() >= n + HEADER + MIN_SIZE
  {
    InBounds(bs, e, k);
    InBounds(bs, e, k + 1);
  }

  /** The stores that move the header of the free block behind block k down to x. */
  lemma MoveHeaders(next: seq<nat>, prev: seq<nat>, used: seq<bool>, bs: seq<Block>, e: nat, k: nat, n: nat,
                    next': seq<nat>, prev': seq<nat>, used': seq<bool>)
    requires Headers(next, prev, used, bs, e) && k + 1 < |bs| && bs[k].used && !bs[k + 1].used
    requires n % ALIGNMENT == 0 && MIN_SIZE <= n <= bs[k].Data()
    requires CutWrites(next, prev, used, bs[k].off, bs[k].off + HEADER + n, bs[k + 1].end, e, next', prev', used')
    ensures Headers(next', prev', used', Trim(bs, k, n), e)
  {
    hide Header, Headers, Tiled, CutWrites, Split, Merge, Trim;
    var off: nat, end: nat := bs[k].off, bs[k + 1].end;
    var x: nat := off + HEADER + n;
    HeadersTiled(next, prev, used, bs, e);
    HeaderLengths(next, prev, used, bs, e);
    MergeHeaders(next, prev, used, bs, e, k);
    JoinAndCut(next, prev, used, off, x, end, e, next', prev', used');
    SplitOfMerged(bs, e, k, n);
    var prev1: seq<nat> := prev[end := off];
    var prev2: seq<nat> := if end != e then prev1[x := off][end := x] else prev1[x := off];
    SplitHeaders(next[off := end], prev1, used, Merge(bs, k), e, k, n, next', prev2, used');
    if end == e {
      LastBackLink(next', prev2, used', Trim(bs, k, n), e, prev'[e]);
    }
  }

  // ----- the lowest free block

  lemma LowestIndex(bs: seq<Block>, e: nat)
    ensures var i := FreeIndex(bs); LowestFree(bs, e) == if i < |bs| then bs[i].off else e
  {
    LowestFreeAt(bs, e, FreeIndex(bs));
  }

  /** Freeing block k makes it the lowest free one if it lies below the old one. */
  lemma LowestReleased(bs: seq<Block>, e: nat, k: nat)
    requires Tiled(bs, e) && k < |bs| && bs[k].used
    ensures LowestFree(bs[k := bs[k].(used := false)], e) ==
            if bs[k].off < LowestFree(bs, e) then bs[k].off else LowestFree(bs, e)
  {
    hide Tiled;
    var i := FreeIndex(bs);
    var r := bs[k := bs[k].(used := false)];
    LowestIndex(bs, e);
    Apart(bs, e, k, k);
    if i < |bs| {
      Apart(bs, e, k, i);
    }
    LowestFreeAt(r, e, if k < i then k else i);
  }

  /** Joining two free blocks leaves the lowest free block the lowest. */
  lemma LowestMerged(bs: seq<Block>, e: nat, k: nat)
    requires Tiled(bs, e) && k + 1 < |bs| && !bs[k].used && !bs[k + 1].used
    ensures LowestFree(Merge(bs, k), e) == LowestFree(bs, e) && LowestFree(bs, e) <= bs[k].off
  {
    hide Tiled;
    var i := FreeIndex(bs);
    LowestIndex(bs, e);
    Apart(bs, e, k, i);
    LowestFreeAt(Merge(bs, k), e, i);
  }

  /** A pointer that follows a header from one offset to another. */
  function Redirect(p: nat, source: nat, target: nat): (r: nat) {
    if p == source then target else p
  }

  /** x is where a block of bs starts, or ram_end. */
  ghost predicate Boundary(bs: seq<Block>, e: nat, x: nat) {
    x == e || exists i {:trigger bs[i]} :: 0 <= i < |bs| && bs[i].off == x
  }

  /** Header fields were changed only where a block of bs starts, or in ram_end. */
  ghost predicate OnlyHeaders(next: seq<nat>, prev: seq<nat>, used: seq<bool>, next': seq<nat>, prev': seq<nat>,
                              used': seq<bool>, bs: seq<Block>, e: nat) {
    && |next| == |prev| == |used| == e + 1 && |next'| == |prev'| == |used'| == e + 1
    && (forall x {:trigger Boundary(bs, e, x)} :: 0 <= x <= e && !Boundary(bs, e, x) ==>
          next'[x] == next[x] && prev'[x] == prev[x] && used'[x] == used[x])
  }

  lemma OnlyHeadersTwice(n0: seq<nat>, p0: seq<nat>, u0: seq<bool>, n1: seq<nat>, p1: seq<nat>, u1: seq<bool>,
                         n2: seq<nat>, p2: seq<nat>, u2: seq<bool>, bs: seq<Block>, bs': seq<Block>, e: nat)
    requires OnlyHeaders(n0, p0, u0, n1, p1, u1, bs, e) && OnlyHeaders(n1, p1, u1, n2, p2, u2, bs', e)
    requires forall x :: Boundary(bs', e, x) ==> Boundary(bs, e, x)
    ensures OnlyHeaders(n0, p0, u0, n2, p2, u2, bs, e)
  {
    forall x | 0 <= x <= e && !Boundary(bs, e, x)
      ensures n2[x] == n0[x] && p2[x] == p0[x] && u2[x] == u0[x]
    {
      assert !Boundary(bs', e, x);
    }
  }

  lemma MergeBoundary(bs: seq<Block>, e: nat, k: nat, x: nat)
    requires k + 1 < |bs|
    ensures Boundary(Merge(bs, k), e, x) ==> Boundary(bs, e, x)
  {
    var r := Merge(bs, k);
    if Boundary(r, e, x) && x != e {
      var i :| 0 <= i < |r| && r[i].off == x;
      assert bs[if i <= k then i else i + 1].off == x;
    }
  }

  lemma StartsAt(bs: seq<Block>, e: nat, i: nat)
    requires Tiled(bs, e) && i < |bs|
    ensures Boundary(bs, e, bs[i].off) && Boundary(bs, e, bs[i].end)
  {
    assert i + 1 < |bs| ==> bs[i + 1].off == bs[i].end;
  }

  /** Header fields of three boundaries were stored to. */
  lemma StoresAt(next: seq<nat>, prev: seq<nat>, used: seq<bool>, next': seq<nat>, prev': seq<nat>, used': seq<bool>,
                 bs: seq<Block>, e: nat, x: nat, y: nat, z: nat)
    requires |next| == |prev| == |used| == e + 1 && |next'| == |prev'| == |used'| == e + 1
    requires Boundary(bs, e, x) && Boundary(bs, e, y) && Boundary(bs, e, z)
    requires forall i :: 0 <= i <= e && i != x && i != y && i != z ==>
               next'[i] == next[i] && prev'[i] == prev[i] && used'[i] == used[i]
    ensures OnlyHeaders(next, prev, used, next', prev', used', bs, e)
  {
  }

  lemma BothBoundaries(bs: seq<Block>, bs': seq<Block>, e: nat, x: nat)
    ensures Boundary(bs, e, x) || Boundary(bs', e, x) ==> Boundary(bs + bs', e, x)
  {
    if Boundary(bs, e, x) && x != e {
      var i :| 0 <= i < |bs| && bs[i].off == x;
      assert (bs + bs')[i].off == x;
    } else if Boundary(bs', e, x) && x != e {
      var i :| 0 <= i < |bs'| && bs'[i].off == x;
      assert (bs + bs')[|bs| + i].off == x;
    }
  }

  lemma MoreBoundaries(next: seq<nat>, prev: seq<nat>, used: seq<bool>, next': seq<nat>, prev': seq<nat>, used': seq<bool>,
                       bs: seq<Block>, bs': seq<Block>, e: nat)
    requires OnlyHeaders(next, prev, used, next', prev', used', bs', e)
    ensures OnlyHeaders(next, prev, used, next', prev', used', bs + bs', e)
  {
    forall x | 0 <= x <= e && !Boundary(bs + bs', e, x)
      ensures next'[x] == next[x] && prev'[x] == prev[x] && used'[x] == used[x]
    {
      BothBoundaries(bs, bs', e, x);
    }
  }

  lemma Untouched(next: seq<nat>, prev: seq<nat>, used: seq<bool>, bs: seq<Block>, e: nat)
    requires |next| == |prev| == |used| == e + 1
    ensures OnlyHeaders(next, prev, used, next, prev, used, bs, e)
  {
  }

  lemma MarkBoundary(bs: seq<Block>, e: nat, k: nat, v: bool, x: nat)
    requires k < |bs|
    ensures Boundary(bs[k := bs[k].(used := v)], e, x) <==> Boundary(bs, e, x)
  {
    var r := bs[k := bs[k].(used := v)];
    assert forall i {:trigger r[i]} {:trigger bs[i]} :: 0 <= i < |bs| ==> r[i].off == bs[i].off;
  }

  /** Stores at the starts of blocks and in ram_end never hit the data of a block. */
  lemma HeadersSpareData(bs: seq<Block>, e: nat, b: Block, x: nat)
    requires Tiled(bs, e) && b in bs && Boundary(bs, e, x)
    ensures x <= b.off || x >= b.end
  {
    hide Tiled;
    var j :| 0 <= j < |bs| && bs[j] == b;
    InBounds(bs, e, j);
    if x != e {
      var i :| 0 <= i < |bs| && bs[i].off == x;
      HeaderOutsideData(bs, e, i, j);
    }
  }

  /** mem.c's static variables; the ghost field holds the blocks that the headers form. */
  class Heap {
    const end: nat // MEM_SIZE_ALIGNED
    const next: array<nat>
    const prev: array<nat>
    const used: array<bool>
    var lfree: nat
    ghost var blocks: seq<Block>

    ghost predicate Linked()
      reads this, next, prev, used
    {
      next != prev && Headers(next[..], prev[..], used[..], blocks, end)
    }

    ghost predicate Valid()
      reads this, next, prev, used
    {
      Linked() && Sound(blocks, end) && lfree == LowestFree(blocks, end) && end <= 64000
    }

    /** mem_init */
    constructor (memSize: nat)
      requires HEADER + MIN_SIZE <= AlignSize(memSize) <= 64000
      ensures Valid() && end == AlignSize(memSize) && blocks == [Block(0, end, false)]
      ensures fresh(next) && fresh(prev) && fresh(used)
    {
      end := AlignSize(memSize);
      var e := AlignSize(memSize);
      next := new nat[e + 1];
      prev := new nat[e + 1];
      used := new bool[e + 1];
      lfree := 0;
      blocks := [Block(0, e, false)];
      new;
      next[0], prev[0], used[0] := end, 0, false;
      used[end], next[end], prev[end] := true, end, end;
    }

    /** plug_holes, the part that looks at the block behind mem. */
    method PlugForward(mem: nat, ghost k: nat)
      requires Linked() && k < |blocks| && blocks[k].off == mem && !blocks[k].used && lfree == LowestFree(blocks, end)
      modifies this, next, prev
      ensures Linked() && lfree == LowestFree(blocks, end)
      ensures blocks == if k + 1 < |old(blocks)| && !old(blocks)[k + 1].used then Merge(old(blocks), k) else old(blocks)
      ensures k < |blocks| && blocks[k].off == mem && !blocks[k].used
      ensures OnlyHeaders(old(next[..]), old(prev[..]), old(used[..]), next[..], prev[..], used[..], old(blocks), end)
    {
      hide Tiled, Headers, LowestFree;
      HeaderAt(next[..], prev[..], used[..], blocks, end, k);
      HeadersTiled(next[..], prev[..], used[..], blocks, end);
      var nmem := next[mem];
      if mem != nmem && !used[nmem] && nmem != end {
        LowestMerged(blocks, end, k);
        lfree := Redirect(lfree, nmem, mem);
        MergeHeaders(next[..], prev[..], used[..], blocks, end, k);
        HeaderAt(next[..], prev[..], used[..], blocks, end, k + 1);
        next[mem] := next[nmem];
        prev[next[nmem]] := mem;
        blocks := Merge(blocks, k);
      }
    }

    /** plug_holes, the part that looks at the block before mem. */
    method PlugBackward(mem: nat, ghost k: nat)
      requires Linked() && k < |blocks| && blocks[k].off == mem && !blocks[k].used && lfree == LowestFree(blocks, end)
      modifies this, next, prev
      ensures Linked() && lfree == LowestFree(blocks, end)
      ensures blocks == if k > 0 && !old(blocks)[k - 1].used then Merge(old(blocks), k - 1) else old(blocks)
      ensures OnlyHeaders(old(next[..]), old(prev[..]), old(used[..]), next[..], prev[..], used[..], old(blocks), end)
    {
      hide Tiled, Headers, LowestFree;
      HeaderAt(next[..], prev[..], used[..], blocks, end, k);
      HeadersTiled(next[..], prev[..], used[..], blocks, end);
      StartsAt(blocks, end, k);
      var pmem := prev[mem];
      if k > 0 {
        StartsAt(blocks, end, k - 1);
        HeaderAt(next[..], prev[..], used[..], blocks, end, k - 1);
      }
      if pmem != mem && !used[pmem] {
        LowestMerged(blocks, end, k - 1);
        lfree := Redirect(lfree, mem, pmem);
        MergeHeaders(next[..], prev[..], used[..], blocks, end, k - 1);
        next[pmem] := next[mem];
        prev[next[mem]] := pmem;
        blocks := Merge(blocks, k - 1);
      }
    }

    /** plug_holes: free block k joins its free neighbours. */
    method PlugHoles(mem: nat, ghost k: nat)
      requires Linked() && HolesAt(blocks, k) && lfree == LowestFree(blocks, end)
      requires k < |blocks| && blocks[k].off == mem && !blocks[k].used
      modifies this, next, prev
      ensures Linked() && Sound(blocks, end) && lfree == LowestFree(blocks, end) && blocks == Plug(old(blocks), k)
      ensures OnlyHeaders(old(next[..]), old(prev[..]), old(used[..]), next[..], prev[..], used[..], old(blocks), end)
    {
      hide Tiled, Headers, LowestFree, HolesAt, Merge, OnlyHeaders, Boundary;
      HeadersTiled(next[..], prev[..], used[..], blocks, end);
      PlugSound(blocks, end, k);
      ghost var next0, prev0, used0, blocks0 := next[..], prev[..], used[..], blocks;
      PlugForward(mem, k);
      ghost var next1, prev1, used1, blocks1 := next[..], prev[..], used[..], blocks;
      PlugBackward(mem, k);
      forall x | Boundary(blocks1, end, x)
        ensures Boundary(blocks0, end, x)
      {
        if blocks1 != blocks0 {
          MergeBoundary(blocks0, end, k, x);
        }
      }
      OnlyHeadersTwice(next0, prev0, used0, next1, prev1, used1, next[..], prev[..], used[..], blocks0, blocks1, end);
    }

    /** p is not NULL and lies in the heap, so mem_free and mem_trim go on. */
    predicate InHeap(p: Pointer) {
      p.Ram? && 0 <= p.offset < end
    }

    /** What mem_free and mem_trim expect of a pointer into the heap: mem_malloc returned it and it was not freed. */
    ghost predicate Owned(p: Pointer)
      reads this
    {
      InHeap(p) ==> exists i {:trigger blocks[i]} :: 0 <= i < |blocks| && blocks[i].used && blocks[i].off + HEADER == p.offset
    }

    /** mem_free */
    method Free(rmem: Pointer)
      requires Valid() && Owned(rmem)
      modifies this, next, prev, used
      ensures Valid()
      ensures !InHeap(rmem) ==> blocks == old(blocks)
      ensures forall i {:trigger old(blocks)[i]} :: 0 <= i < |old(blocks)| && InHeap(rmem) && old(blocks)[i].off + HEADER == rmem.offset ==>
                blocks == Release(old(blocks), i)
      ensures OnlyHeaders(old(next[..]), old(prev[..]), old(used[..]), next[..], prev[..], used[..], old(blocks), end)
    {
      hide Tiled, Headers, LowestFree, HolesAt, Plug, OnlyHeaders, Boundary, Sound;
      ghost var next0, prev0, used0, blocks0 := next[..], prev[..], used[..], blocks;
      HeaderLengths(next0, prev0, used0, blocks0, end);
      if !InHeap(rmem) {
        Untouched(next0, prev0, used0, blocks0, end);
        return;
      }
      ghost var k :| 0 <= k < |blocks| && blocks[k].used && blocks[k].off + HEADER == rmem.offset;
      HeadersTiled(next[..], prev[..], used[..], blocks, end);
      OneBlock(blocks, end, k);
      var mem: nat := rmem.offset - HEADER;
      SetFree(mem, k);
      ghost var used1, blocks1 := used[..], blocks;
      forall x | Boundary(blocks1, end, x)
        ensures Boundary(blocks0, end, x)
      {
        MarkBoundary(blocks0, end, k, false, x);
      }
      PlugHoles(mem, k);
      OnlyHeadersTwice(next0, prev0, used0, next0, prev0, used1, next[..], prev[..], used[..], blocks0, blocks1, end);
    }

    /** The part of mem_free before plug_holes: block k is free, and lfree points to it if it is the lowest. */
    method SetFree(mem: nat, ghost k: nat)
      requires Valid() && k < |blocks| && blocks[k].off == mem && blocks[k].used
      modifies this, used
      ensures Linked() && HolesAt(blocks, k) && lfree == LowestFree(blocks, end)
      ensures blocks == old(blocks)[k := old(blocks)[k].(used := false)]
      ensures OnlyHeaders(old(next[..]), old(prev[..]), old(used[..]), next[..], prev[..], used[..], old(blocks), end)
    {
      hide Tiled, Headers, LowestFree, HolesAt, OnlyHeaders, Boundary;
      ghost var used0 := used[..];
      HeadersTiled(next[..], prev[..], used[..], blocks, end);
      HeaderAt(next[..], prev[..], used[..], blocks, end, k);
      MarkHeaders(next[..], prev[..], used[..], blocks, end, k, false);
      LowestReleased(blocks, end, k);
      MarkHoles(blocks, end, k);
      StartsAt(blocks, end, k);
      used[mem] := false;
      if mem < lfree {
        lfree := mem;
      }
      StoresAt(next[..], prev[..], used0, next[..], prev[..], used[..], blocks, end, mem, mem, mem);
      blocks := blocks[k := blocks[k].(used := false)];
    }

    /** mem_trim; newsize is a mem_size_t. */
    method Trim(rmem: Pointer, newsize: nat) returns (r: Pointer)
      requires Valid() && Owned(rmem) && newsize < 0x1_0000
      modifies this, next, prev, used
      ensures Valid()
      ensures DataSize(newsize) > end ==> r == Null && blocks == old(blocks)
      ensures DataSize(newsize) <= end && !InHeap(rmem) ==> r == rmem && blocks == old(blocks)
      ensures !InHeap(rmem) ==> r == if Need(newsize) > end then Null else rmem
      ensures DataSize(newsize) <= end ==>
                forall i {:trigger old(blocks)[i]} ::
                  0 <= i < |old(blocks)| && InHeap(rmem) && old(blocks)[i].off + HEADER == rmem.offset ==>
                    if DataSize(newsize) > old(blocks)[i].Data() then r == Null && blocks == old(blocks)
                    else r == rmem && blocks == HeapBlocks.Trim(old(blocks), i, DataSize(newsize))
      ensures forall i {:trigger old(blocks)[i]} ::
                0 <= i < |old(blocks)| && InHeap(rmem) && old(blocks)[i].off + HEADER == rmem.offset && newsize > old(blocks)[i].Data() ==>
                  (r == Null && blocks == old(blocks) <==> AlignSize(newsize) < 0x1_0000)
      ensures forall i {:trigger old(blocks)[i]} ::
                0 <= i < |old(blocks)| && InHeap(rmem) && old(blocks)[i].off + HEADER == rmem.offset ==>
                  if Need(newsize) > old(blocks)[i].Data() then r == Null && blocks == old(blocks)
                  else r == rmem && Trimmed(old(blocks), blocks, i, newsize)
      ensures OnlyHeaders(old(next[..]), old(prev[..]), old(used[..]), next[..], prev[..], used[..], old(blocks) + blocks, end)
    {
      hide Tiled, Headers, LowestFree, HeapBlocks.Trim, OnlyHeaders, DataSize, AlignSize, Trimmed, Need;
      HeaderLengths(next[..], prev[..], used[..], blocks, end);
      Untouched(next[..], prev[..], used[..], blocks + blocks, end);
      var n := DataSize(newsize);
      GrowRefused(blocks, end, newsize);
      HeadersTiled(next[..], prev[..], used[..], blocks, end);
      EndAligned(blocks, end);
      NeedIsSize(end, newsize);
      if n > end {
        NeedsMore(blocks, end, newsize);
        return Null;
      }
      if !InHeap(rmem) {
        return rmem;
      }
      ghost var k :| 0 <= k < |blocks| && blocks[k].used && blocks[k].off + HEADER == rmem.offset;
      HeaderAt(next[..], prev[..], used[..], blocks, end, k);
      OneBlock(blocks, end, k);
      TrimNothing(blocks, k);
      TrimExactly(blocks, end, k, newsize);
      var mem: nat := rmem.offset - HEADER;
      var size := next[mem] - mem - HEADER;
      if n > size {
        return Null;
      }
      if n != size {
        Shrink(mem, n, k);
      }
      return rmem;
    }

    /** The part of mem_trim that moves or makes a header. */
    method Shrink(mem: nat, n: nat, ghost k: nat)
      requires Valid() && k < |blocks| && blocks[k].off == mem && blocks[k].used
      requires n % ALIGNMENT == 0 && MIN_SIZE <= n < blocks[k].Data()
      modifies this, next, prev, used
      ensures Valid() && blocks == HeapBlocks.Trim(old(blocks), k, n)
      ensures OnlyHeaders(old(next[..]), old(prev[..]), old(used[..]), next[..], prev[..], used[..], old(blocks) + blocks, end)
    {
      hide Tiled, Headers, LowestFree, HeapBlocks.Trim, Sound, OnlyHeaders;
      TrimSound(blocks, end, k, n);
      SoundTiled(blocks, end);
      HeaderAt(next[..], prev[..], used[..], blocks, end, k);
      TrimCases(blocks, end, k, n);
      ghost var next0, prev0, used0, blocks0 := next[..], prev[..], used[..], blocks;
      Untouched(next0, prev0, used0, blocks + blocks, end);
      var mem2 := next[mem];
      if !used[mem2] {
        HeaderAt(next[..], prev[..], used[..], blocks, end, k + 1);
        MoveDown(mem, mem2, n, k);
      } else if n + HEADER + MIN_SIZE <= mem2 - mem - HEADER {
        CutOff(mem, n, k);
        MoreBoundaries(next0, prev0, used0, next[..], prev[..], used[..], blocks0, blocks, end);
      }
    }

    /** mem_trim with a free block behind the trimmed one. */
    method MoveDown(mem: nat, mem2: nat, n: nat, ghost k: nat)
      requires Valid() && k + 1 < |blocks| && blocks[k].off == mem && blocks[k].used
      requires blocks[k + 1].off == mem2 && !blocks[k + 1].used
      requires n % ALIGNMENT == 0 && MIN_SIZE <= n < blocks[k].Data()
      modifies this, next, prev, used
      ensures Valid() && blocks == HeapBlocks.Trim(old(blocks), k, n)
      ensures OnlyHeaders(old(next[..]), old(prev[..]), old(used[..]), next[..], prev[..], used[..], old(blocks) + blocks, end)
    {
      hide Tiled, Headers, LowestFree, HeapBlocks.Trim, Sound, OnlyHeaders, Boundary;
      SoundTiled(blocks, end);
      TrimSound(blocks, end, k, n);
      HeaderAt(next[..], prev[..], used[..], blocks, end, k);
      HeaderAt(next[..], prev[..], used[..], blocks, end, k + 1);
      LowestMoved(blocks, end, k, n);
      ghost var next0, prev0, used0 := next[..], prev[..], used[..];
      var after := next[mem2];
      var ptr2 := mem + HEADER + n;
      lfree := Redirect(lfree, mem2, ptr2);
      used[ptr2] := false;
      next[ptr2] := after;
      prev[ptr2] := mem;
      next[mem] := ptr2;
      if next[ptr2] != end {
        prev[next[ptr2]] := ptr2;
      }
      assert used0[ptr2 := false][mem := true] == used0[ptr2 := false];
      MoveHeaders(next0, prev0, used0, blocks, end, k, n, next[..], prev[..], used[..]);
      MovedBoundaries(blocks, end, k, n);
      StoresAt(next0, prev0, used0, next[..], prev[..], used[..], blocks + HeapBlocks.Trim(blocks, k, n), end, mem, ptr2, after);
      blocks := HeapBlocks.Trim(blocks, k, n);
    }

    /** A block is cut in two: mem_trim with a used block behind, and mem_malloc on a large free block. */
    method CutOff(mem: nat, n: nat, ghost k: nat)
      requires Valid() && k < |blocks| && blocks[k].off == mem && blocks[k].used && (k + 1 < |blocks| ==> blocks[k + 1].used)
      requires n % ALIGNMENT == 0 && n >= MIN_SIZE && n + HEADER + MIN_SIZE <= blocks[k].Data()
      modifies this, next, prev, used
      ensures Valid() && blocks == Split(old(blocks), k, n)
      ensures OnlyHeaders(old(next[..]), old(prev[..]), old(used[..]), next[..], prev[..], used[..], blocks, end)
    {
      hide Tiled, Headers, LowestFree, Split, Sound, OnlyHeaders, Boundary;
      SoundTiled(blocks, end);
      SplitSound(blocks, end, k, n);
      HeaderAt(next[..], prev[..], used[..], blocks, end, k);
      LowestCut(blocks, end, k, n);
      ghost var next0, prev0, used0 := next[..], prev[..], used[..];
      var ptr2 := mem + HEADER + n;
      if ptr2 < lfree {
        lfree := ptr2;
      }
      used[ptr2] := false;
      next[ptr2] := next[mem];
      prev[ptr2] := mem;
      next[mem] := ptr2;
      if next[ptr2] != end {
        prev[next[ptr2]] := ptr2;
      }
      assert used0[ptr2 := false][mem := true] == used0[ptr2 := false];
      SplitHeaders(next0, prev0, used0, blocks, end, k, n, next[..], prev[..], used[..]);
      SplitBoundaries(blocks, end, k, n);
      StoresAt(next0, prev0, used0, next[..], prev[..], used[..], Split(blocks, k, n), end, mem, ptr2, blocks[k].end);
      blocks := Split(blocks, k, n);
    }

    /** mem_malloc; size is a mem_size_t. */
    method Malloc(size: nat) returns (r: Pointer)
      requires Valid() && size < 0x1_0000
      modifies this, next, prev, used
      ensures Valid()
      ensures size == 0 ==> r == Null && blocks == old(blocks)
      ensures size > 0 ==>
                var k := FirstFit(old(blocks), DataSize(size));
                if k == |old(blocks)| then r == Null && blocks == old(blocks)
                else r == Ram(old(blocks)[k].off + HEADER) && blocks == Alloc(old(blocks), k, DataSize(size))
      ensures r == Null <==>
                size == 0 || forall i {:trigger old(blocks)[i]} :: 0 <= i < |old(blocks)| ==> !Fits(old(blocks)[i], size)
      ensures r == Null ==> blocks == old(blocks)
      ensures r != Null ==>
                exists k {:trigger old(blocks)[k]} :: 0 <= k < |old(blocks)| && Fits(old(blocks)[k], size) &&
                  (forall i {:trigger old(blocks)[i]} :: 0 <= i < k ==> !Fits(old(blocks)[i], size)) &&
                  r == Ram(old(blocks)[k].off + HEADER) && HandedOut(old(blocks), blocks, k, size)
      ensures OnlyHeaders(old(next[..]), old(prev[..]), old(used[..]), next[..], prev[..], used[..], blocks, end)
    {
      hide Tiled, Headers, LowestFree, Alloc, Sound, OnlyHeaders, HandedOut, DataSize, Fits;
      HeaderLengths(next[..], prev[..], used[..], blocks, end);
      Untouched(next[..], prev[..], used[..], blocks, end);
      if size == 0 {
        return Null;
      }
      var n := DataSize(size);
      SoundTiled(blocks, end);
      AllocExactly(blocks, end, size);
      if n > end {
        NothingFits(blocks, end, n, 0);
        return Null;
      }
      r := Search(n);
    }

    /** The scan of mem_malloc, from lfree on. */
    method Search(n: nat) returns (r: Pointer)
      requires Valid() && MIN_SIZE <= n <= end && n % ALIGNMENT == 0
      modifies this, next, prev, used
      ensures Valid()
      ensures var k := FirstFit(old(blocks), n);
              if k == |old(blocks)| then r == Null && blocks == old(blocks)
              else r == Ram(old(blocks)[k].off + HEADER) && blocks == Alloc(old(blocks), k, n)
      ensures OnlyHeaders(old(next[..]), old(prev[..]), old(used[..]), next[..], prev[..], used[..], blocks, end)
    {
      hide Tiled, Headers, LowestFree, Alloc, Sound, OnlyHeaders;
      HeaderLengths(next[..], prev[..], used[..], blocks, end);
      Untouched(next[..], prev[..], used[..], blocks, end);
      SoundTiled(blocks, end);
      var ptr := lfree;
      ghost var i := FreeIndex(blocks);
      LowestIndex(blocks, end);
      while ptr < end - n
        invariant 0 <= i <= |blocks| && ptr == (if i < |blocks| then blocks[i].off else end)
        invariant forall j {:trigger blocks[j]} :: 0 <= j < i ==> blocks[j].used || blocks[j].Data() < n
        invariant blocks == old(blocks) && Valid()
        invariant next[..] == old(next[..]) && prev[..] == old(prev[..]) && used[..] == old(used[..])
        decreases |blocks| - i
      {
        HeaderAt(next[..], prev[..], used[..], blocks, end, i);
        if !used[ptr] && next[ptr] - (ptr + HEADER) >= n {
          FitFound(blocks, n, i);
          Take(ptr, n, i);
          return Ram(ptr + HEADER);
        }
        ptr := next[ptr];
        i := i + 1;
      }
      NothingFits(blocks, end, n, i);
      return Null;
    }

    /** mem_malloc once it has found a block. */
    method Take(mem: nat, n: nat, ghost k: nat)
      requires Valid() && k < |blocks| && blocks[k].off == mem && !blocks[k].used
      requires n % ALIGNMENT == 0 && MIN_SIZE <= n <= blocks[k].Data()
      modifies this, next, prev, used
      ensures Valid() && blocks == Alloc(old(blocks), k, n)
      ensures OnlyHeaders(old(next[..]), old(prev[..]), old(used[..]), next[..], prev[..], used[..], blocks, end)
    {
      hide Tiled, Headers, LowestFree, Alloc, Sound, OnlyHeaders;
      SoundTiled(blocks, end);
      AllocSound(blocks, end, k, n);
      LowestAlloc(blocks, end, k, n);
      ghost var bs, lowest := blocks, lfree;
      MarkTaken(mem, n, k);
      if mem == lfree {
        SoundTiled(blocks, end);
        ghost var i := k;
        HeaderAt(next[..], prev[..], used[..], blocks, end, i);
        while used[lfree] && lfree != end
          invariant 0 <= i <= |blocks| && lfree == (if i < |blocks| then blocks[i].off else end)
          invariant forall j {:trigger blocks[j]} :: 0 <= j < i ==> blocks[j].used
          invariant lfree < used.Length && lfree < next.Length && (i < |blocks| ==> lfree < end && used[lfree] == blocks[i].used)
          invariant Linked() && blocks == Alloc(bs, k, n)
          invariant OnlyHeaders(old(next[..]), old(prev[..]), old(used[..]), next[..], prev[..], used[..], blocks, end)
          decreases |blocks| - i
        {
          HeaderAt(next[..], prev[..], used[..], blocks, end, i);
          lfree := next[lfree];
          i := i + 1;
        }
        LowestFreeAt(blocks, end, i);
      }
    }

    /** The header stores of mem_malloc: block k is in use, and what is left of it may become a block. */
    method MarkTaken(mem: nat, n: nat, ghost k: nat)
      requires Linked() && k < |blocks| && blocks[k].off == mem && !blocks[k].used
      requires n % ALIGNMENT == 0 && MIN_SIZE <= n <= blocks[k].Data()
      modifies next, prev, used, this`blocks
      ensures Linked() && blocks == Alloc(old(blocks), k, n)
      ensures OnlyHeaders(old(next[..]), old(prev[..]), old(used[..]), next[..], prev[..], used[..], blocks, end)
    {
      hide Tiled, Headers, Split, OnlyHeaders, Boundary;
      HeaderAt(next[..], prev[..], used[..], blocks, end, k);
      HeadersTiled(next[..], prev[..], used[..], blocks, end);
      ghost var next0, prev0, used0 := next[..], prev[..], used[..];
      if next[mem] - (mem + HEADER) >= n + HEADER + MIN_SIZE {
        var ptr2 := mem + HEADER + n;
        used[ptr2] := false;
        next[ptr2] := next[mem];
        prev[ptr2] := mem;
        next[mem] := ptr2;
        used[mem] := true;
        if next[ptr2] != end {
          prev[next[ptr2]] := ptr2;
        }
        SplitHeaders(next0, prev0, used0, blocks, end, k, n, next[..], prev[..], used[..]);
        SplitBoundaries(blocks, end, k, n);
        StoresAt(next0, prev0, used0, next[..], prev[..], used[..], Split(blocks, k, n), end, mem, ptr2, blocks[k].end);
      } else {
        MarkHeaders(next[..], prev[..], used[..], blocks, end, k, true);
        used[mem] := true;
        StartsAt(blocks, end, k);
        MarkBoundary(blocks, end, k, true, mem);
        StoresAt(next0, prev0, used0, next[..], prev[..], used[..], Alloc(blocks, k, n), end, mem, mem, mem);
      }
      blocks := Alloc(blocks, k, n);
    }
  }

  lemma OneBlock(bs: seq<Block>, e: nat, k: nat)
    requires Tiled(bs, e) && k < |bs|
    ensures forall i {:trigger bs[i]} :: 0 <= i < |bs| && bs[i].off == bs[k].off ==> i == k
  {
    forall i | 0 <= i < |bs| && bs[i].off == bs[k].off
      ensures i == k
    {
      Apart(bs, e, k, i);
      Apart(bs, e, k, k);
    }
  }

  lemma MarkHoles(bs: seq<Block>, e: nat, k: nat)
    requires Sound(bs, e) && k < |bs|
    ensures HolesAt(bs[k := bs[k].(used := false)], k)
  {
  }

  lemma HeaderLengths(next: seq<nat>, prev: seq<nat>, used: seq<bool>, bs: seq<Block>, e: nat)
    requires Headers(next, prev, used, bs, e)
    ensures |next| == e + 1 && |prev| == e + 1 && |used| == e + 1
  {
  }

  lemma SplitBoundaries(bs: seq<Block>, e: nat, k: nat, n: nat)
    requires Tiled(bs, e) && k < |bs| && n % ALIGNMENT == 0 && n >= MIN_SIZE && bs[k].Data() >= n + HEADER + MIN_SIZE
    ensures var r := Split(bs, k, n);
            Boundary(r, e, bs[k].off) && Boundary(r, e, bs[k].off + HEADER + n) && Boundary(r, e, bs[k].end)
  {
    hide Tiled;
    SplitTiled(bs, e, k, n);
    StartsAt(Split(bs, k, n), e, k);
    StartsAt(Split(bs, k, n), e, k + 1);
  }

  lemma MovedBoundaries(bs: seq<Block>, e: nat, k: nat, n: nat)
    requires Tiled(bs, e) && k + 1 < |bs| && !bs[k + 1].used
    ensures var r := bs + HeapBlocks.Trim(bs, k, n);
            Boundary(r, e, bs[k].off) && Boundary(r, e, bs[k].off + HEADER + n) && Boundary(r, e, bs[k + 1].end)
  {
    hide Tiled;
    var t := HeapBlocks.Trim(bs, k, n);
    StartsAt(bs, e, k);
    StartsAt(bs, e, k + 1);
    assert t[k + 1].off == bs[k].off + HEADER + n;
    BothBoundaries(bs, t, e, bs[k].off);
    BothBoundaries(bs, t, e, bs[k].off + HEADER + n);
    BothBoundaries(bs, t, e, bs[k + 1].end);
  }

  lemma SoundTiled(bs: seq<Block>, e: nat)
    requires Sound(bs, e)
    ensures Tiled(bs, e) && forall i :: 0 <= i < |bs| - 1 ==> bs[i].used || bs[i + 1].used
  {
  }

  /** A request larger than the heap needs more than any block has. */
  lemma NeedsMore(bs: seq<Block>, e: nat, size: nat)
    requires Tiled(bs, e) && size < 0x1_0000 && DataSize(size) > e
    ensures forall i :: 0 <= i < |bs| ==> Need(size) > bs[i].Data()
  {
    hide DataSize, Need, Tiled;
    forall i | 0 <= i < |bs|
      ensures Need(size) > bs[i].Data()
    {
      InBounds(bs, e, i);
      WholeWords(bs, e, i);
      NeedIsSize(bs[i].Data(), size);
    }
  }

  lemma EndAligned(bs: seq<Block>, e: nat)
    requires Tiled(bs, e)
    ensures e % ALIGNMENT == 0
  {
    assert Shaped(bs[|bs| - 1]);
  }

  /** Which requests to grow mem_trim notices. */
  lemma GrowRefused(bs: seq<Block>, e: nat, size: nat)
    requires Sound(bs, e) && size < 0x1_0000
    ensures forall i {:trigger bs[i]} :: 0 <= i < |bs| && size > bs[i].Data() ==>
              (DataSize(size) > bs[i].Data() <==> AlignSize(size) < 0x1_0000) && bs[i].Data() <= e
  {
    hide Sound, DataSize, AlignSize;
    SoundTiled(bs, e);
    forall i {:trigger bs[i]} | 0 <= i < |bs| && size > bs[i].Data()
      ensures (DataSize(size) > bs[i].Data() <==> AlignSize(size) < 0x1_0000) && bs[i].Data() <= e
    {
      InBounds(bs, e, i);
      SizeTruncates(size);
    }
  }

  lemma TrimNothing(bs: seq<Block>, k: nat)
    requires k < |bs| && bs[k].Data() >= 0 && (k + 1 < |bs| ==> bs[k].end == bs[k + 1].off)
    ensures HeapBlocks.Trim(bs, k, bs[k].Data()) == bs
  {
  }

  lemma TrimCases(bs: seq<Block>, e: nat, k: nat, n: nat)
    requires k < |bs|
    ensures !(k + 1 < |bs| && !bs[k + 1].used) ==>
              HeapBlocks.Trim(bs, k, n) == if n + HEADER + MIN_SIZE <= bs[k].Data() then Split(bs, k, n) else bs
  {
    hide Split;
  }

  lemma LowestMoved(bs: seq<Block>, e: nat, k: nat, n: nat)
    requires Tiled(bs, e) && k + 1 < |bs| && bs[k].used && !bs[k + 1].used
    ensures LowestFree(HeapBlocks.Trim(bs, k, n), e) == Redirect(LowestFree(bs, e), bs[k + 1].off, bs[k].off + HEADER + n)
  {
    hide Tiled;
    var i := FreeIndex(bs);
    LowestIndex(bs, e);
    Apart(bs, e, k + 1, i);
    LowestFreeAt(HeapBlocks.Trim(bs, k, n), e, i);
  }

  lemma LowestCut(bs: seq<Block>, e: nat, k: nat, n: nat)
    requires Tiled(bs, e) && k < |bs| && bs[k].used && n + HEADER + MIN_SIZE <= bs[k].Data()
    ensures var x := bs[k].off + HEADER + n;
            LowestFree(Split(bs, k, n), e) == if x < LowestFree(bs, e) then x else LowestFree(bs, e)
  {
    hide Tiled;
    var i := FreeIndex(bs);
    LowestIndex(bs, e);
    Apart(bs, e, k, k);
    if i < |bs| {
      Apart(bs, e, k, i);
    }
    LowestFreeAt(Split(bs, k, n), e, if k < i then k + 1 else i);
  }

  lemma {:induction false} FitFound(bs: seq<Block>, n: nat, k: nat)
    requires k < |bs| && !bs[k].used && bs[k].Data() >= n
    requires forall j {:trigger bs[j]} :: 0 <= j < k ==> bs[j].used || bs[j].Data() < n
    ensures FirstFit(bs, n) == k
  {
    if k > 0 {
      FitFound(bs[1..], n, k - 1);
    }
  }

  /** The scan stops where the rest of the heap is too short. */
  lemma NothingFits(bs: seq<Block>, e: nat, n: nat, k: nat)
    requires Tiled(bs, e) && k <= |bs| && (if k < |bs| then bs[k].off + n >= e else true)
    requires forall j {:trigger bs[j]} :: 0 <= j < k ==> bs[j].used || bs[j].Data() < n
    ensures FirstFit(bs, n) == |bs|
  {
    hide Tiled;
    var f := FirstFit(bs, n);
    if f < |bs| && k < |bs| {
      Apart(bs, e, k, k);
      Apart(bs, e, k, f);
    }
  }

  /** Allocation above the lowest free block leaves it the lowest. */
  lemma LowestAlloc(bs: seq<Block>, e: nat, k: nat, n: nat)
    requires Tiled(bs, e) && k < |bs| && !bs[k].used
    ensures LowestFree(bs, e) <= bs[k].off
    ensures LowestFree(bs, e) != bs[k].off ==> LowestFree(Alloc(bs, k, n), e) == LowestFree(bs, e)
    ensures LowestFree(bs, e) == bs[k].off ==> forall j :: 0 <= j < k ==> bs[j].used
    ensures forall j :: 0 <= j < k ==> Alloc(bs, k, n)[j] == bs[j]
    ensures |Alloc(bs, k, n)| > k && Alloc(bs, k, n)[k].off == bs[k].off
  {
    hide Tiled;
    var i := FreeIndex(bs);
    LowestIndex(bs, e);
    Apart(bs, e, k, i);
    OneBlock(bs, e, k);
    if i != k {
      LowestFreeAt(Alloc(bs, k, n), e, i);
    }
  }
}

/** Runs of allocator calls. */
module HeapRuns {
  import opened HeapBlocks

  /** A call that reaches the blocks: an allocation, or the release or trimming of the block whose header is at off. */
  datatype Op = Malloc(size: nat) | Free(off: nat) | Trim(off: nat, size: nat)

  ghost predicate LiveAt(bs: seq<Block>, off: nat) {
    exists i {:trigger bs[i]} :: 0 <= i < |bs| && bs[i].used && bs[i].off == off
  }

  /** Sizes are of type mem_size_t and pointers are live. */
  ghost predicate Legal(bs: seq<Block>, op: Op) {
    match op
    case Malloc(size) => size < 0x1_0000
    case Free(off) => LiveAt(bs, off)
    case Trim(off, size) => size < 0x1_0000 && LiveAt(bs, off)
  }

  ghost function IndexOf(bs: seq<Block>, off: nat): (i: nat)
    requires LiveAt(bs, off)
    ensures i < |bs| && bs[i].used && bs[i].off == off
  {
    var i :| 0 <= i < |bs| && bs[i].used && bs[i].off == off;
    i
  }

  /** The effect of a call; HeapCalls.Call makes it on a heap in memory. */
  ghost function Step(bs: seq<Block>, op: Op): (r: seq<Block>)
    requires Legal(bs, op)
  {
    match op
    case Malloc(size) =>
      var k := FirstFit(bs, DataSize(size));
      if size == 0 || k == |bs| then bs else Alloc(bs, k, DataSize(size))
    case Free(off) => Release(bs, IndexOf(bs, off))
    case Trim(off, size) =>
      var k := IndexOf(bs, off);
      if DataSize(size) > bs[k].Data() then bs else HeapBlocks.Trim(bs, k, DataSize(size))
  }

  ghost predicate LegalRun(bs: seq<Block>, ops: seq<Op>)
    decreases |ops|
  {
    ops == [] || (Legal(bs, ops[0]) && LegalRun(Step(bs, ops[0]), ops[1..]))
  }

  ghost function Run(bs: seq<Block>, ops: seq<Op>): (r: seq<Block>)
    requires LegalRun(bs, ops)
    decreases |ops|
  {
    if ops == [] then bs else Run(Step(bs, ops[0]), ops[1..])
  }

  lemma StepSound(bs: seq<Block>, e: nat, op: Op)
    requires Sound(bs, e) && Legal(bs, op)
    ensures Sound(Step(bs, op), e)
  {
    hide Sound, Alloc, Release, HeapBlocks.Trim;
    match op {
      case Malloc(size) =>
        var k := FirstFit(bs, DataSize(size));
        if size != 0 && k != |bs| {
          AllocSound(bs, e, k, DataSize(size));
        }
      case Free(off) => ReleaseSound(bs, e, IndexOf(bs, off));
      case Trim(off, size) =>
        var k := IndexOf(bs, off);
        if DataSize(size) <= bs[k].Data() {
          TrimSound(bs, e, k, DataSize(size));
        }
    }
  }

  /**
   * Over every run the blocks tile the heap exactly, hold at least MIN_SIZE bytes each, and no two
   * free ones are neighbours; so when everything has been freed, in whatever order, one block is left.
   */
  lemma {:induction false} RunSound(bs: seq<Block>, e: nat, ops: seq<Op>)
    requires Sound(bs, e) && LegalRun(bs, ops)
    ensures Sound(Run(bs, ops), e)
    ensures (forall i :: 0 <= i < |Run(bs, ops)| ==> !Run(bs, ops)[i].used) ==> Run(bs, ops) == [Block(0, e, false)]
    decreases |ops|
  {
    hide Sound, Step, Legal;
    if ops == [] {
      if forall i :: 0 <= i < |bs| ==> !bs[i].used {
        AllFree(bs, e);
      }
    } else {
      StepSound(bs, e, ops[0]);
      RunSound(Step(bs, ops[0]), e, ops[1..]);
    }
  }

  /** A call leaves the blocks in use as they are, but for the one it is about. */
  lemma StepKeepsOthers(bs: seq<Block>, e: nat, op: Op, b: Block)
    requires Sound(bs, e) && Legal(bs, op) && Live(bs, b)
    requires match op case Malloc(_) => true case Free(off) => b.off != off case Trim(off, _) => b.off != off
    ensures Live(Step(bs, op), b)
  {
    hide Sound, Alloc, Release, HeapBlocks.Trim;
    match op {
      case Malloc(size) =>
        var k := FirstFit(bs, DataSize(size));
        if size != 0 && k != |bs| {
          AllocLive(bs, k, DataSize(size), b);
        }
      case Free(off) => ReleaseLive(bs, e, IndexOf(bs, off), b);
      case Trim(off, size) =>
        var k := IndexOf(bs, off);
        if DataSize(size) <= bs[k].Data() {
          TrimLive(bs, e, k, DataSize(size), b);
        }
    }
  }

  /**
   * mem_malloc's result is aligned and inside the heap, and holds the requested bytes exactly when the
   * aligned size fits mem_size_t: the last three sizes below 65536 are cut to MIN_SIZE.
   */
  lemma MallocHonours(bs: seq<Block>, e: nat, size: nat)
    requires Sound(bs, e) && 0 < size < 0x1_0000 && e <= 64000 && FirstFit(bs, DataSize(size)) < |bs|
    ensures var a := Alloc(bs, FirstFit(bs, DataSize(size)), DataSize(size))[FirstFit(bs, DataSize(size))];
            && (a.Data() >= size <==> AlignSize(size) < 0x1_0000)
            && (a.off + HEADER) % ALIGNMENT == 0 && a.end <= e
  {
    hide Sound, FirstFit, DataSize, AlignSize;
    var k := FirstFit(bs, DataSize(size));
    SizeTruncates(size);
    SoundShape(bs, e, k);
    AllocLive(bs, k, DataSize(size), bs[k]);
    InBounds(bs, e, k);
  }

  /**
   * An allocation fails exactly when no free block has the bytes it needs. Otherwise it takes the lowest block that has,
   * gives the caller fewer than ALIGNMENT bytes more than needed, or the block as it is if the rest is too small for a
   * block of its own, and leaves every other block alone.
   */
  lemma MallocExactly(bs: seq<Block>, e: nat, size: nat)
    requires Sound(bs, e) && 0 < size < 0x1_0000
    ensures (forall i :: 0 <= i < |bs| ==> !Fits(bs[i], size)) ==> Step(bs, Malloc(size)) == bs
    ensures forall k :: 0 <= k < |bs| && Fits(bs[k], size) && (forall i :: 0 <= i < k ==> !Fits(bs[i], size)) ==>
              HandedOut(bs, Step(bs, Malloc(size)), k, size)
  {
    hide DataSize, Need, Alloc, HandedOut, FirstFit;
    AllocExactly(bs, e, size);
  }

  /**
   * Trimming is refused exactly when the block has fewer bytes than needed. Otherwise the block keeps fewer than
   * ALIGNMENT bytes more than needed, unless what it would give up is too small for a block of its own.
   */
  lemma TrimsExactly(bs: seq<Block>, e: nat, k: nat, size: nat)
    requires Sound(bs, e) && k < |bs| && bs[k].used && size < 0x1_0000
    ensures var op := Trim(bs[k].off, size);
            && Legal(bs, op)
            && if bs[k].Data() < Need(size) then Step(bs, op) == bs else Trimmed(bs, Step(bs, op), k, size)
  {
    hide Sound, DataSize, Need, HeapBlocks.Trim, Trimmed;
    SoundShape(bs, e, k);
    TrimExactly(bs, e, k, size);
    assert LiveAt(bs, bs[k].off);
    SameOffset(bs, e, k, IndexOf(bs, bs[k].off));
  }

  /** What mem_malloc hands out was free: it overlaps no block in use. */
  lemma MallocDisjoint(bs: seq<Block>, e: nat, size: nat, b: Block)
    requires Sound(bs, e) && FirstFit(bs, DataSize(size)) < |bs| && Live(bs, b)
    ensures var k := FirstFit(bs, DataSize(size));
            var a := Alloc(bs, k, DataSize(size))[k];
            b.end <= a.off || a.end <= b.off
  {
    hide Sound, DataSize;
    var k := FirstFit(bs, DataSize(size));
    AllocLive(bs, k, DataSize(size), b);
    SoundShape(bs, e, k);
    var i :| 0 <= i < |bs| && bs[i] == b;
    if i < k {
      Ascending(bs, e, i, k);
    } else if i > k {
      Ascending(bs, e, k, i);
    }
  }

  lemma SoundShape(bs: seq<Block>, e: nat, k: nat)
    requires Sound(bs, e) && k < |bs|
    ensures Tiled(bs, e) && bs[k].off % ALIGNMENT == 0
  {
    assert Shaped(bs[k]);
  }

  /** The failing request in the small: 65533 bytes asked for, 12 given. */
  lemma HugeRequestShrinks()
    ensures var bs := [Block(0, 15360, false)];
            Sound(bs, 15360) && Step(bs, Malloc(65533)) == [Block(0, 20, true), Block(20, 15360, false)]
  {
    assert AlignSize(65533) == 65536;
    assert DataSize(65533) == MIN_SIZE;
  }

  /**
   * A request to grow a block is refused, with NULL and the blocks as they were, exactly when its aligned size
   * fits mem_size_t; the three sizes above 65532 are taken for MIN_SIZE and shrink the block.
   */
  lemma TrimHonours(bs: seq<Block>, e: nat, k: nat, size: nat)
    requires Sound(bs, e) && k < |bs| && bs[k].used && bs[k].Data() < size < 0x1_0000
    ensures Refuses(bs, k, size) <==> AlignSize(size) < 0x1_0000
    ensures Refuses(bs, k, size) <==> size <= 65532
    ensures Refuses(bs, k, size) ==> Step(bs, Trim(bs[k].off, size)) == bs
  {
    hide Sound, DataSize, AlignSize;
    SoundShape(bs, e, k);
    InBounds(bs, e, k);
    SizeTruncates(size);
    LastSizes(size);
    assert LiveAt(bs, bs[k].off);
    SameOffset(bs, e, k, IndexOf(bs, bs[k].off));
  }

  /** mem_trim returns NULL for a pointer to block k. */
  predicate Refuses(bs: seq<Block>, k: nat, size: nat)
    requires k < |bs|
  {
    DataSize(size) > bs[k].Data()
  }

  lemma LastSizes(size: nat)
    requires size < 0x1_0000
    ensures AlignSize(size) < 0x1_0000 <==> size <= 65532
  {
  }

  lemma SameOffset(bs: seq<Block>, e: nat, i: nat, j: nat)
    requires Sound(bs, e) && i < |bs| && j < |bs| && bs[i].off == bs[j].off
    ensures i == j
  {
    InBounds(bs, e, i);
    InBounds(bs, e, j);
    if i < j {
      Ascending(bs, e, i, j);
    } else if j < i {
      Ascending(bs, e, j, i);
    }
  }

  /** The failing request in the small: a block of 100 bytes is to grow to 65533 and shrinks to 12. */
  lemma HugeTrimShrinks()
    ensures var bs := [Block(0, 108, true), Block(108, 15360, false)];
            && Sound(bs, 15360) && Legal(bs, Trim(0, 65533))
            && Step(bs, Trim(0, 65533)) == [Block(0, 20, true), Block(20, 15360, false)]
  {
    var bs := [Block(0, 108, true), Block(108, 15360, false)];
    assert AlignSize(65533) == 65536;
    assert DataSize(65533) == MIN_SIZE;
    assert bs[0].used && bs[0].off == 0;
    assert IndexOf(bs, 0) == 0;
  }
}

/** Runs of calls on a heap in memory. */
module HeapCalls {
  import opened HeapBlocks
  import opened HeapMemory
  import opened HeapRuns

  /** No header field with an offset between lo and hi was changed. */
  ghost predicate Spared(next: seq<nat>, prev: seq<nat>, used: seq<bool>, next': seq<nat>, prev': seq<nat>,
                         used': seq<bool>, lo: nat, hi: nat) {
    && |next| == |prev| == |used| == |next'| == |prev'| == |used'|
    && forall x :: lo < x < hi && x < |next| ==> next'[x] == next[x] && prev'[x] == prev[x] && used'[x] == used[x]
  }

  lemma NoBoundarySpared(next: seq<nat>, prev: seq<nat>, used: seq<bool>, next': seq<nat>, prev': seq<nat>,
                         used': seq<bool>, bs: seq<Block>, e: nat, lo: nat, hi: nat)
    requires OnlyHeaders(next, prev, used, next', prev', used', bs, e) && hi <= e
    requires forall x :: lo < x < hi ==> !Boundary(bs, e, x)
    ensures Spared(next, prev, used, next', prev', used', lo, hi)
  {
    hide Boundary;
    forall x | lo < x < hi && x < |next|
      ensures next'[x] == next[x] && prev'[x] == prev[x] && used'[x] == used[x]
    {
      assert !Boundary(bs, e, x);
    }
  }

  lemma NoBoundaryInside(bs: seq<Block>, e: nat, b: Block)
    requires Tiled(bs, e) && b in bs
    ensures b.end <= e && forall x :: b.off < x < b.end ==> !Boundary(bs, e, x)
  {
    hide Tiled, Boundary;
    var j :| 0 <= j < |bs| && bs[j] == b;
    InBounds(bs, e, j);
    forall x: nat | b.off < x < b.end
      ensures !Boundary(bs, e, x)
    {
      if Boundary(bs, e, x) {
        HeadersSpareData(bs, e, b, x);
      }
    }
  }

  lemma BoundaryOfBoth(a: seq<Block>, b: seq<Block>, e: nat, x: nat)
    ensures Boundary(a + b, e, x) ==> Boundary(a, e, x) || Boundary(b, e, x)
  {
  }

  /** Where the data of block b ends that a call has to preserve: a trimmed block keeps only what was asked for. */
  function KeptEnd(op: Op, b: Block): (x: nat) {
    if op.Trim? && op.off == b.off && b.off + HEADER + DataSize(op.size) < b.end then b.off + HEADER + DataSize(op.size) else b.end
  }

  lemma MallocSpares(bs: seq<Block>, e: nat, size: nat, b: Block)
    requires Sound(bs, e) && size < 0x1_0000 && Live(bs, b)
    ensures var r := Step(bs, Op.Malloc(size)); b.end <= e && forall x :: b.off < x < b.end ==> !Boundary(r, e, x)
  {
    hide Sound, Boundary, Step;
    StepKeepsOthers(bs, e, Op.Malloc(size), b);
    StepSound(bs, e, Op.Malloc(size));
    SoundTiled(Step(bs, Op.Malloc(size)), e);
    NoBoundaryInside(Step(bs, Op.Malloc(size)), e, b);
  }

  lemma TrimSpares(bs: seq<Block>, e: nat, off: nat, size: nat, b: Block)
    requires Sound(bs, e) && Legal(bs, Op.Trim(off, size)) && Live(bs, b)
    ensures var op := Op.Trim(off, size);
            b.end <= e && forall x :: b.off < x < KeptEnd(op, b) ==> !Boundary(bs + Step(bs, op), e, x)
  {
    hide Sound, Boundary, Step, Legal, DataSize;
    var op := Op.Trim(off, size);
    var r := Step(bs, op);
    StepSound(bs, e, op);
    SoundTiled(bs, e);
    SoundTiled(r, e);
    NoBoundaryInside(bs, e, b);
    var b' := if b.off != off then b else TrimmedBlock(bs, off, size);
    if b.off != off {
      StepKeepsOthers(bs, e, op, b);
    } else {
      TrimmedKeeps(bs, e, off, size, b);
    }
    NoBoundaryInside(r, e, b');
    forall x: nat | b.off < x < KeptEnd(op, b)
      ensures !Boundary(bs + r, e, x)
    {
      BoundaryOfBoth(bs, r, e, x);
    }
  }

  /** What is left of the block at off. */
  ghost function TrimmedBlock(bs: seq<Block>, off: nat, size: nat): (b: Block)
    requires LiveAt(bs, off)
  {
    var k := IndexOf(bs, off);
    if DataSize(size) > bs[k].Data() then bs[k] else if k < |HeapBlocks.Trim(bs, k, DataSize(size))| then HeapBlocks.Trim(bs, k, DataSize(size))[k] else bs[k]
  }

  lemma TrimmedKeeps(bs: seq<Block>, e: nat, off: nat, size: nat, b: Block)
    requires Sound(bs, e) && Legal(bs, Op.Trim(off, size)) && Live(bs, b) && b.off == off
    ensures var b' := TrimmedBlock(bs, off, size);
            b' in Step(bs, Op.Trim(off, size)) && b'.off == b.off && b'.end >= KeptEnd(Op.Trim(off, size), b)
  {
    hide Sound, DataSize, HeapBlocks.Trim;
    var k := IndexOf(bs, off);
    var i :| 0 <= i < |bs| && bs[i] == b;
    SameOffset(bs, e, i, k);
    if DataSize(size) <= bs[k].Data() {
      TrimLive(bs, e, k, DataSize(size), b);
      TrimLength(bs, k, DataSize(size));
      TrimLive(bs, e, k, DataSize(size), HeapBlocks.Trim(bs, k, DataSize(size))[k]);
    }
  }

  lemma TrimLength(bs: seq<Block>, k: nat, n: nat)
    requires k < |bs|
    ensures k < |HeapBlocks.Trim(bs, k, n)|
  {
  }

  lemma FreeSpares(bs: seq<Block>, e: nat, b: Block)
    requires Sound(bs, e) && Live(bs, b)
    ensures b.end <= e && forall x :: b.off < x < b.end ==> !Boundary(bs, e, x)
  {
    hide Sound, Boundary;
    SoundTiled(bs, e);
    NoBoundaryInside(bs, e, b);
  }

  /**
   * One call on the heap in memory: its blocks change as Step says, and of every block in use the header fields
   * inside its data, as far as they are to be kept, are not touched.
   */
  method Call(h: Heap, op: Op) returns (r: Pointer)
    requires h.Valid() && Legal(h.blocks, op)
    modifies h, h.next, h.prev, h.used
    ensures h.Valid() && h.blocks == Step(old(h.blocks), op)
    ensures forall b {:trigger Live(old(h.blocks), b)} :: Live(old(h.blocks), b) ==>
              Spared(old(h.next[..]), old(h.prev[..]), old(h.used[..]), h.next[..], h.prev[..], h.used[..], b.off, KeptEnd(op, b))
  {
    hide Sound, OnlyHeaders, Spared, Alloc, Release, HeapBlocks.Trim, DataSize, Live, Boundary, Headers, LowestFree;
    ghost var bs, next0, prev0, used0 := h.blocks, h.next[..], h.prev[..], h.used[..];
    match op {
      case Malloc(size) =>
        r := h.Malloc(size);
        assert h.blocks == Step(bs, op);
        forall b | Live(bs, b)
          ensures Spared(next0, prev0, used0, h.next[..], h.prev[..], h.used[..], b.off, b.end)
        {
          MallocSpares(bs, h.end, size, b);
          NoBoundarySpared(next0, prev0, used0, h.next[..], h.prev[..], h.used[..], h.blocks, h.end, b.off, b.end);
        }
      case Free(off) =>
        LiveInside(bs, h.end, off);
        h.Free(Ram(off + HEADER));
        assert bs[IndexOf(bs, off)].off == off;
        r := Null;
        forall b | Live(bs, b)
          ensures Spared(next0, prev0, used0, h.next[..], h.prev[..], h.used[..], b.off, b.end)
        {
          FreeSpares(bs, h.end, b);
          NoBoundarySpared(next0, prev0, used0, h.next[..], h.prev[..], h.used[..], bs, h.end, b.off, b.end);
        }
      case Trim(off, size) =>
        LiveInside(bs, h.end, off);
        r := h.Trim(Ram(off + HEADER), size);
        assert bs[IndexOf(bs, off)].off == off;
        assert h.blocks == Step(bs, op);
        forall b | Live(bs, b)
          ensures Spared(next0, prev0, used0, h.next[..], h.prev[..], h.used[..], b.off, KeptEnd(op, b))
        {
          TrimSpares(bs, h.end, off, size, b);
          NoBoundarySpared(next0, prev0, used0, h.next[..], h.prev[..], h.used[..], bs + h.blocks, h.end, b.off, KeptEnd(op, b));
        }
    }
  }

  /** The address of a live block is inside the heap, past a header. */
  lemma LiveInside(bs: seq<Block>, e: nat, off: nat)
    requires Sound(bs, e) && LiveAt(bs, off)
    ensures off + HEADER < e && bs[IndexOf(bs, off)].off == off
    ensures bs[IndexOf(bs, off)].Data() <= e - HEADER
  {
    InBounds(bs, e, IndexOf(bs, off));
  }

  /** Any run of calls on the heap in memory ends with the blocks that the run on values ends with. */
  method Execute(h: Heap, ops: seq<Op>)
    requires h.Valid() && LegalRun(h.blocks, ops)
    modifies h, h.next, h.prev, h.used
    ensures h.Valid() && h.blocks == Run(old(h.blocks), ops)
  {
    hide Sound, Legal, Step, Headers, LowestFree;
    ghost var bs := h.blocks;
    var i := 0;
    while i < |ops|
      invariant 0 <= i <= |ops| && h.Valid() && LegalRun(h.blocks, ops[i..]) && Run(h.blocks, ops[i..]) == Run(bs, ops)
    {
      assert ops[i..][0] == ops[i] && ops[i..][1..] == ops[i + 1..];
      var r := Call(h, ops[i]);
      i := i + 1;
    }
  }
}
