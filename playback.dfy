/** The file-playback cursor of the visualizer as pure functions: one read
    at a cursor, the cursor after k reads, and what k reads play. */
module Playback {
  import opened Samples

  /** What one file read yields: the samples handed to the analysis and the new cursor. */
  datatype Step = Step(samples: seq<Int16>, next: nat)

  /** Where a read slices from: the cursor, unless the read would reach or pass
      the end of the buffer, in which case the cursor is first reset to 0. */
  function ReadStart(index: nat, chunk: nat, len: nat): nat
  {
    if index + chunk >= len then 0 else index
  }

  /** The cursor after one read: the start of that read plus one chunk. The
      cursor either advances by one chunk or restarts one chunk into the buffer,
      and for a buffer longer than a chunk it lands inside the buffer whatever
      it was before. */
  function NextCursor(index: nat, chunk: nat, len: nat): (r: nat)
    ensures r == index + chunk || r == chunk
    ensures chunk < len ==> r < len
  {
    ReadStart(index, chunk, len) + chunk
  }

  /** One read of the file buffer. The end of the slice is taken from the cursor
      BEFORE the reset, so a read that wraps slices `[0:index + chunk]`, which is
      clamped to the whole buffer. */
  function FileRead(data: seq<Int16>, index: nat, chunk: nat): (r: Step)
    ensures r.next == NextCursor(index, chunk, |data|)
    ensures index + chunk < |data| ==>
              r.samples == data[index..index + chunk] && r.next == index + chunk
    ensures index + chunk >= |data| ==> r.samples == data && r.next == chunk
  {
    var end := index + chunk;
    Step(Slice(data, ReadStart(index, chunk, |data|), end), NextCursor(index, chunk, |data|))
  }

  /** The cursor after k reads of a buffer of length len, starting from a fresh load (cursor 0). */
  function CursorAfter(len: nat, chunk: nat, k: nat): nat
  {
    if k == 0 then 0 else NextCursor(CursorAfter(len, chunk, k - 1), chunk, len)
  }

  /** Everything the first k reads after a load hand out, in order. */
  function Played(data: seq<Int16>, chunk: nat, k: nat): seq<Int16>
  {
    if k == 0 then []
    else Played(data, chunk, k - 1) + FileRead(data, CursorAfter(|data|, chunk, k - 1), chunk).samples
  }

  /** A read that does not wrap returns exactly one chunk; a read that wraps
      returns the whole buffer, whatever its length. */
  lemma ReadLength(data: seq<Int16>, index: nat, chunk: nat)
    ensures |FileRead(data, index, chunk).samples| == if index + chunk < |data| then chunk else |data|
  {
  }

  /** From a fresh load, a buffer longer than one chunk never lets the cursor
      reach its end, and after the first read the cursor is a whole number of chunks past 0. */
  lemma CursorBounded(len: nat, chunk: nat, k: nat)
    requires chunk < len
    ensures CursorAfter(len, chunk, k) < len
    ensures k > 0 ==> CursorAfter(len, chunk, k) >= chunk
  {
  }

  /** Before any wrap, the cursor has advanced by exactly one chunk per read. */
  lemma {:induction false} CursorBeforeWrap(len: nat, chunk: nat, k: nat)
    requires k * chunk < len
    ensures CursorAfter(len, chunk, k) == k * chunk
  {
    if k > 0 {
      assert (k - 1) * chunk + chunk == k * chunk;
      CursorBeforeWrap(len, chunk, k - 1);
    }
  }

  /** Before any wrap, the reads play the buffer from its start, in order and
      without gaps or repeats: k reads have played exactly its first k chunks. */
  lemma {:induction false} PlaysInOrder(data: seq<Int16>, chunk: nat, k: nat)
    requires k * chunk < |data|
    ensures Played(data, chunk, k) == data[..k * chunk]
  {
    if k > 0 {
      var c := (k - 1) * chunk;
      assert c + chunk == k * chunk;
      PlaysInOrder(data, chunk, k - 1);
      CursorBeforeWrap(|data|, chunk, k - 1);
      assert FileRead(data, c, chunk).samples == data[c..c + chunk];
      assert data[..c] + data[c..c + chunk] == data[..c + chunk];
    }
  }

  /** For a buffer of exactly m chunks, the m-th read after a load is the one
      that wraps: it finds the cursor on the last chunk, returns the whole
      buffer instead of that chunk, and leaves the cursor at one chunk. */
  lemma WrapAtExactMultiple(data: seq<Int16>, chunk: nat, m: nat)
    requires chunk > 0 && m > 0 && |data| == m * chunk
    ensures CursorAfter(|data|, chunk, m - 1) == (m - 1) * chunk
    ensures FileRead(data, CursorAfter(|data|, chunk, m - 1), chunk).samples == data
    ensures CursorAfter(|data|, chunk, m) == chunk
  {
    assert (m - 1) * chunk + chunk == m * chunk;
    CursorBeforeWrap(|data|, chunk, m - 1);
  }

  /** For a buffer of exactly m chunks the cursor is periodic with period m - 1
      reads (not m): the last chunk is never served on its own. */
  lemma {:induction false} CursorPeriod(len: nat, chunk: nat, m: nat, k: nat)
    requires chunk > 0 && m > 0 && len == m * chunk && k > 0
    ensures CursorAfter(len, chunk, k + (m - 1)) == CursorAfter(len, chunk, k)
  {
    if k == 1 {
      assert (m - 1) * chunk + chunk == m * chunk;
      CursorBeforeWrap(len, chunk, m - 1);
    } else {
      CursorPeriod(len, chunk, m, k - 1);
    }
  }

  /** The wrap at its plainest: in a buffer of two chunks, the read that finds
      the cursor on the second chunk yields both chunks, not one. */
  lemma WrapReadIsNotOneChunk(data: seq<Int16>, chunk: nat)
    requires chunk > 0 && |data| == 2 * chunk
    ensures |FileRead(data, chunk, chunk).samples| == 2 * chunk != chunk
    ensures FileRead(data, chunk, chunk).next == chunk
  {
  }
}
