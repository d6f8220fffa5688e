/**
 * What a display controller receives over SPI, as values: the bytes of
 * RGB565 pixels and the sizes of the bulk transactions that carry them.
 * Both drivers send each pixel high byte first; the LCD driver gets
 * there by byte-swapping a 16-bit word that the ESP32 then stores
 * little-endian.
 */
module PixelBus {

  /** Largest number of pixels one bulk SPI transaction carries. */
  const MaxPixelsPerTransaction: int := 2048

  function High(w: bv16): bv8 { (w >> 8) as bv8 }

  function Low(w: bv16): bv8 { (w & 0xFF) as bv8 }

  /** The two bytes of one pixel in the order the panel expects them. */
  function PixelBytes(c: bv16): (b: seq<bv8>)
    ensures |b| == 2
    ensures (b[0] as bv16 << 8) | b[1] as bv16 == c
  {
    [High(c), Low(c)]
  }

  /** The byte swap applied to a colour before it is stored in a transmit buffer. */
  function Swap16(w: bv16): (r: bv16)
    ensures High(r) == Low(w) && Low(r) == High(w)
  {
    (w << 8) | (w >> 8)
  }

  /** The bytes of a 16-bit word as stored in memory on a little-endian CPU. */
  function MemoryBytes(w: bv16): (b: seq<bv8>)
    ensures |b| == 2
  {
    [Low(w), High(w)]
  }

  /** A byte-swapped colour, sent from memory, arrives high byte first. */
  lemma SwappedWordArrivesInPanelOrder(c: bv16)
    ensures MemoryBytes(Swap16(c)) == PixelBytes(c)
  {
  }

  /** `n` pixels of colour `c`, as bytes on the wire. */
  function Repeat(c: bv16, n: nat): seq<bv8>
  {
    if n == 0 then [] else Repeat(c, n - 1) + PixelBytes(c)
  }

  /** `n` pixels take `2 n` bytes, pixel `k` in bytes `2 k` and `2 k + 1`. */
  lemma {:induction false} RepeatShape(c: bv16, n: nat)
    ensures |Repeat(c, n)| == 2 * n
    ensures forall k :: 0 <= k < n ==> Repeat(c, n)[2 * k] == High(c) && Repeat(c, n)[2 * k + 1] == Low(c)
  {
    if n > 0 {
      RepeatShape(c, n - 1);
    }
  }

  /** Sending `a` pixels and then `b` more is sending `a + b` pixels. */
  lemma {:induction false} RepeatAdd(c: bv16, a: nat, b: nat)
    ensures Repeat(c, a) + Repeat(c, b) == Repeat(c, a + b)
  {
    if b > 0 {
      RepeatAdd(c, a, b - 1);
      assert Repeat(c, a + b) == Repeat(c, a + b - 1) + PixelBytes(c);
    }
  }

  /**
   * A byte buffer whose first `n` pixel slots all hold `c` high byte
   * first, read as a prefix, is `n` pixels of `c`.
   */
  lemma {:induction false} FilledPrefix(buf: seq<bv8>, c: bv16, n: nat)
    requires 2 * n <= |buf|
    requires forall k :: 0 <= k < n ==> buf[2 * k] == High(c) && buf[2 * k + 1] == Low(c)
    ensures buf[..2 * n] == Repeat(c, n)
  {
    if n > 0 {
      FilledPrefix(buf, c, n - 1);
      assert buf[..2 * n] == buf[..2 * (n - 1)] + PixelBytes(c);
    }
  }

  /** The bytes a little-endian word buffer puts on the wire. */
  function Sent(words: seq<bv16>): (b: seq<bv8>)
    ensures |b| == 2 * |words|
  {
    if words == [] then [] else Sent(words[..|words| - 1]) + MemoryBytes(words[|words| - 1])
  }

  /**
   * A word buffer whose first `n` words all hold the byte-swapped colour
   * sends `n` pixels of that colour.
   */
  lemma {:induction false} SwappedPrefix(words: seq<bv16>, c: bv16, n: nat)
    requires n <= |words|
    requires forall k :: 0 <= k < n ==> words[k] == Swap16(c)
    ensures Sent(words[..n]) == Repeat(c, n)
  {
    if n > 0 {
      SwappedPrefix(words, c, n - 1);
      assert words[..n][..n - 1] == words[..n - 1];
      SwappedWordArrivesInPanelOrder(c);
    }
  }

  /**
   * How a bulk write of `total` pixels is split: transactions of `cap`
   * pixels until fewer remain, then one with the rest.
   */
  function Chunks(total: nat, cap: nat): seq<nat>
    requires cap > 0
    decreases total
  {
    if total == 0 then []
    else
      var m := if total > cap then cap else total;
      [m] + Chunks(total - m, cap)
  }

  function Sum(s: seq<nat>): nat
  {
    if s == [] then 0 else s[0] + Sum(s[1..])
  }

  /**
   * The split covers every pixel exactly once, and no transaction is
   * empty or larger than `cap`.
   */
  lemma {:induction false} ChunksCover(total: nat, cap: nat)
    requires cap > 0
    ensures Sum(Chunks(total, cap)) == total
    ensures forall k :: 0 <= k < |Chunks(total, cap)| ==> 0 < Chunks(total, cap)[k] <= cap
    decreases total
  {
    if total > 0 {
      var m := if total > cap then cap else total;
      ChunksCover(total - m, cap);
      assert Chunks(total, cap)[1..] == Chunks(total - m, cap);
    }
  }

  /** A bulk write of `total` pixels takes `total / 2048` transactions, rounded up. */
  lemma {:induction false} ChunkCount(total: nat)
    ensures |Chunks(total, MaxPixelsPerTransaction)| == (total + MaxPixelsPerTransaction - 1) / MaxPixelsPerTransaction
    decreases total
  {
    if total > MaxPixelsPerTransaction {
      ChunkCount(total - MaxPixelsPerTransaction);
    }
  }

  /**
   * One step of traffic to the panel controller: a command byte, a
   * data transaction, or the address window a following pixel write
   * fills (CASET, RASET and RAMWR with their bytes; each coordinate goes
   * out as one `uint8_t`, so it is taken modulo 256).
   */
  datatype Transfer = Command(op: bv8) | Data(bytes: seq<bv8>) | Window(x0: int, y0: int, x1: int, y1: int)

  /** Appending `b` and then `c` to a log appends `d` when `d` is `b + c`. */
  lemma Extend(a: seq<Transfer>, b: seq<Transfer>, c: seq<Transfer>, d: seq<Transfer>)
    requires d == b + c
    ensures (a + b) + c == a + d
  {
  }

  function WindowOf(x0: int, y0: int, x1: int, y1: int): (t: Transfer)
    ensures t.Window? && 0 <= t.x0 < 256 && 0 <= t.y0 < 256 && 0 <= t.x1 < 256 && 0 <= t.y1 < 256
    ensures 0 <= x0 < 256 && 0 <= y0 < 256 && 0 <= x1 < 256 && 0 <= y1 < 256 ==> t == Window(x0, y0, x1, y1)
  {
    Window(x0 % 256, y0 % 256, x1 % 256, y1 % 256)
  }

  /** All the pixel bytes a run of transfers carries, in order. */
  function Payload(ts: seq<Transfer>): seq<bv8>
  {
    if ts == [] then [] else (if ts[0].Data? then ts[0].bytes else []) + Payload(ts[1..])
  }

  /** One data transaction per chunk, each carrying that many pixels of `c`. */
  function DataChunks(c: bv16, cs: seq<nat>): seq<Transfer>
  {
    if cs == [] then [] else [Data(Repeat(c, cs[0]))] + DataChunks(c, cs[1..])
  }

  /** A bulk write of `total` pixels: its transactions. */
  function BulkWrite(c: bv16, total: nat): seq<Transfer>
  {
    DataChunks(c, Chunks(total, MaxPixelsPerTransaction))
  }

  /**
   * A bulk write of `total` pixels of `c` carries exactly `total` pixels
   * of `c`, in transactions of 1 to 2048 pixels each.
   */
  lemma {:induction false} BulkWriteSendsAll(c: bv16, total: nat)
    ensures Payload(BulkWrite(c, total)) == Repeat(c, total)
    ensures forall k :: 0 <= k < |BulkWrite(c, total)| ==>
      BulkWrite(c, total)[k].Data? && 2 <= |BulkWrite(c, total)[k].bytes| <= 2 * MaxPixelsPerTransaction
    decreases total
  {
    if total > 0 {
      var m := if total > MaxPixelsPerTransaction then MaxPixelsPerTransaction else total;
      BulkWriteSendsAll(c, total - m);
      assert Chunks(total, MaxPixelsPerTransaction)[1..] == Chunks(total - m, MaxPixelsPerTransaction);
      var ts := BulkWrite(c, total);
      assert ts == [Data(Repeat(c, m))] + BulkWrite(c, total - m);
      assert ts[1..] == BulkWrite(c, total - m);
      RepeatAdd(c, m, total - m);
      RepeatShape(c, m);
    }
  }

  /** The first transaction of a bulk write, and the bulk write of what is left. */
  lemma BulkWriteStep(c: bv16, total: nat)
    requires total > 0
    ensures var m := if total > MaxPixelsPerTransaction then MaxPixelsPerTransaction else total;
      BulkWrite(c, total) == [Data(Repeat(c, m))] + BulkWrite(c, total - m)
  {
    var m := if total > MaxPixelsPerTransaction then MaxPixelsPerTransaction else total;
    assert Chunks(total, MaxPixelsPerTransaction)[1..] == Chunks(total - m, MaxPixelsPerTransaction);
  }
}
