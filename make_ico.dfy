/** The Windows icon writer of the build scripts (make-ico.mjs): a six-byte ICONDIR header, one
    sixteen-byte ICONDIRENTRY per image and then the images' PNG bytes, laid out in a buffer
    written in place. The resized PNGs are given as byte sequences. */
module MakeIco {

  newtype byte = x: int | 0 <= x < 256

  /** A square PNG image of `size` pixels. */
  datatype Image = Image(size: nat, data: seq<byte>)

  /** An image with the offset at which its bytes are placed. */
  datatype Placed = Placed(size: nat, data: seq<byte>, offset: nat)

  const HeaderSize: nat := 6
  const EntrySize: nat := 16

  /** Where the image data starts: after the header and the directory. */
  function DataOffset(n: nat): nat {
    HeaderSize + EntrySize * n
  }

  // ---- Little-endian fields ----

  function LE16(v: nat): (r: seq<byte>)
    requires v < 0x1_0000
    ensures |r| == 2
  {
    [(v % 0x100) as byte, (v / 0x100) as byte]
  }

  function LE32(v: nat): (r: seq<byte>)
    requires v < 0x1_0000_0000
    ensures |r| == 4
  {
    [(v % 0x100) as byte, (v / 0x100 % 0x100) as byte, (v / 0x1_0000 % 0x100) as byte, (v / 0x100_0000) as byte]
  }

  /** The 16-bit little-endian value at `off`. */
  function U16At(s: seq<byte>, off: nat): nat
    requires off + 2 <= |s|
  {
    s[off] as nat + 0x100 * s[off + 1] as nat
  }

  /** The 32-bit little-endian value at `off`. */
  function U32At(s: seq<byte>, off: nat): nat
    requires off + 4 <= |s|
  {
    s[off] as nat + 0x100 * s[off + 1] as nat + 0x1_0000 * s[off + 2] as nat + 0x100_0000 * s[off + 3] as nat
  }

  lemma LE16RoundTrip(v: nat)
    requires v < 0x1_0000
    ensures U16At(LE16(v), 0) == v
  {
  }

  lemma LE32RoundTrip(v: nat)
    requires v < 0x1_0000_0000
    ensures U32At(LE32(v), 0) == v
  {
    var b0, b1, b2, b3 := v % 0x100, v / 0x100 % 0x100, v / 0x1_0000 % 0x100, v / 0x100_0000;
    assert v / 0x100 == b1 + 0x100 * (v / 0x1_0000);
    assert v / 0x1_0000 == b2 + 0x100 * b3;
  }

  // ---- The layout ----

  /** The total length of the first `k` images. */
  function DataLength(images: seq<Image>, k: nat): nat
    requires k <= |images|
  {
    if k == 0 then 0 else DataLength(images, k - 1) + |images[k - 1].data|
  }

  /** Where image `i` is placed: after the directory and every image before it. */
  function OffsetOf(images: seq<Image>, i: nat): (r: nat)
    requires i <= |images|
    ensures r >= HeaderSize + EntrySize * |images|
    ensures i < |images| ==> r + |images[i].data| <= DataOffset(|images|) + DataLength(images, |images|)
  {
    var r := DataOffset(|images|) + DataLength(images, i);
    if i < |images| then (DataLengthGrows(images, i + 1, |images|); r) else r
  }

  /** The size of the whole file. */
  function TotalSize(images: seq<Image>): nat {
    OffsetOf(images, |images|)
  }

  /** What Node's writers accept: at most 65535 images and a file below 4 GiB. */
  predicate Encodable(images: seq<Image>) {
    |images| < 0x1_0000 && TotalSize(images) < 0x1_0000_0000
  }

  /** The width or height byte: 0 stands for 256 pixels and more. */
  function Dimension(size: nat): (r: byte)
    ensures r == 0 <==> size == 0 || size >= 256
    ensures 0 < size < 256 ==> r as int == size
  {
    if size >= 256 then 0 else size as byte
  }

  function Header(n: nat): (r: seq<byte>)
    requires n < 0x1_0000
    ensures |r| == HeaderSize
  {
    LE16(0) + LE16(1) + LE16(n)
  }

  /** An ICONDIRENTRY: width, height, no palette, reserved, one plane, 32 bits per pixel, the
      data length and its offset. */
  function Entry(size: nat, length: nat, offset: nat): (r: seq<byte>)
    requires length < 0x1_0000_0000 && offset < 0x1_0000_0000
    ensures |r| == EntrySize
  {
    [Dimension(size), Dimension(size), 0, 0] + LE16(1) + LE16(32) + LE32(length) + LE32(offset)
  }

  lemma DataLengthGrows(images: seq<Image>, i: nat, j: nat)
    requires i <= j <= |images|
    ensures DataLength(images, i) <= DataLength(images, j)
    decreases j - i
  {
    if i < j {
      DataLengthGrows(images, i, j - 1);
    }
  }

  /** Image `i` ends where image `i + 1` starts, inside the file. */
  lemma ImageFits(images: seq<Image>, i: nat)
    requires i < |images|
    ensures DataLength(images, i + 1) == DataLength(images, i) + |images[i].data|
    ensures DataLength(images, i + 1) <= DataLength(images, |images|)
    ensures OffsetOf(images, i) + |images[i].data| <= TotalSize(images)
  {
    DataLengthGrows(images, i + 1, |images|);
  }

  /** The directory entries of the first `k` images. */
  function Entries(images: seq<Image>, k: nat): (r: seq<byte>)
    requires k <= |images| && Encodable(images)
    ensures |r| == EntrySize * k
  {
    if k == 0 then []
    else
      DataLengthGrows(images, k, |images|);
      var img := images[k - 1];
      Entries(images, k - 1) + Entry(img.size, |img.data|, OffsetOf(images, k - 1))
  }

  /** The bytes of the first `k` images, one after the other. */
  function Data(images: seq<Image>, k: nat): (r: seq<byte>)
    requires k <= |images|
    ensures |r| == DataLength(images, k)
  {
    if k == 0 then [] else Data(images, k - 1) + images[k - 1].data
  }

  /** The whole `.ico` file. */
  function IcoFile(images: seq<Image>): (r: seq<byte>)
    requires Encodable(images)
    ensures |r| == TotalSize(images)
  {
    Header(|images|) + Entries(images, |images|) + Data(images, |images|)
  }

  // ---- Properties of the layout ----

  /** The first image follows the directory, each further one follows the one before it, and the
      file ends with the last. */
  lemma OffsetsChain(images: seq<Image>)
    ensures OffsetOf(images, 0) == HeaderSize + EntrySize * |images|
    ensures forall i :: 0 <= i < |images| ==> OffsetOf(images, i + 1) == OffsetOf(images, i) + |images[i].data|
    ensures TotalSize(images) == HeaderSize + EntrySize * |images| + DataLength(images, |images|)
  {
  }

  /** The image ranges lie after the directory, inside the file, and do not overlap. */
  lemma RangesDisjoint(images: seq<Image>, i: nat, j: nat)
    requires i < j < |images|
    ensures DataOffset(|images|) <= OffsetOf(images, i)
    ensures OffsetOf(images, i) + |images[i].data| <= OffsetOf(images, j)
    ensures OffsetOf(images, j) + |images[j].data| <= TotalSize(images)
  {
    DataLengthGrows(images, i + 1, j);
    DataLengthGrows(images, j + 1, |images|);
  }

  lemma {:induction false} EntryInEntries(images: seq<Image>, k: nat, i: nat)
    requires i < k <= |images| && Encodable(images)
    ensures OffsetOf(images, i) + |images[i].data| <= TotalSize(images)
    ensures Entries(images, k)[EntrySize * i..EntrySize * (i + 1)]
      == Entry(images[i].size, |images[i].data|, OffsetOf(images, i))
  {
    DataLengthGrows(images, i + 1, |images|);
    if i < k - 1 {
      EntryInEntries(images, k - 1, i);
      var prev := Entries(images, k - 1);
      assert Entries(images, k)[..EntrySize * (k - 1)] == prev;
    }
  }

  lemma {:induction false} ImageInData(images: seq<Image>, k: nat, i: nat)
    requires i < k <= |images|
    ensures DataLength(images, i + 1) == DataLength(images, i) + |images[i].data|
    ensures DataLength(images, i + 1) <= DataLength(images, k)
    ensures Data(images, k)[DataLength(images, i)..DataLength(images, i + 1)] == images[i].data
  {
    if i < k - 1 {
      ImageInData(images, k - 1, i);
      DataLengthGrows(images, i + 1, k - 1);
      assert Data(images, k)[..DataLength(images, k - 1)] == Data(images, k - 1);
    }
  }

  /** The header holds reserved = 0, type = 1 and the image count. */
  lemma HeaderFields(images: seq<Image>)
    requires Encodable(images)
    ensures var f := IcoFile(images);
      U16At(f, 0) == 0 && U16At(f, 2) == 1 && U16At(f, 4) == |images|
  {
    var f := IcoFile(images);
    var n := |images|;
    assert f[..6] == Header(n);
    LE16RoundTrip(n);
    assert f[4..6] == LE16(n);
  }

  /** An entry's fields read back as written. */
  lemma EntryDecodes(size: nat, length: nat, offset: nat)
    requires length < 0x1_0000_0000 && offset < 0x1_0000_0000
    ensures var e := Entry(size, length, offset);
      && e[0] == Dimension(size) && e[1] == Dimension(size) && e[2] == 0 && e[3] == 0
      && U16At(e, 4) == 1 && U16At(e, 6) == 32
      && U32At(e, 8) == length && U32At(e, 12) == offset
  {
    var e := Entry(size, length, offset);
    LE32RoundTrip(length);
    LE32RoundTrip(offset);
    assert e[8..12] == LE32(length);
    assert e[12..16] == LE32(offset);
  }

  /** Entry `i` occupies bytes `[6 + 16i, 6 + 16i + 16)` of the file. */
  lemma EntryAt(images: seq<Image>, i: nat)
    requires Encodable(images) && i < |images|
    ensures OffsetOf(images, i) + |images[i].data| <= TotalSize(images)
    ensures var base := HeaderSize + EntrySize * i;
      IcoFile(images)[base..base + EntrySize] == Entry(images[i].size, |images[i].data|, OffsetOf(images, i))
  {
    var f := IcoFile(images);
    var n := |images|;
    EntryInEntries(images, n, i);
    assert f[6..6 + EntrySize * n] == Entries(images, n);
  }

  /** Entry `i` describes image `i`: its dimension, no palette, one plane, 32 bits, its length and
      its offset. */
  lemma EntryFields(images: seq<Image>, i: nat)
    requires Encodable(images) && i < |images|
    ensures var f := IcoFile(images);
      var base := HeaderSize + EntrySize * i;
      && f[base] == Dimension(images[i].size) && f[base + 1] == Dimension(images[i].size)
      && f[base + 2] == 0 && f[base + 3] == 0
      && U16At(f, base + 4) == 1 && U16At(f, base + 6) == 32
      && U32At(f, base + 8) == |images[i].data|
      && U32At(f, base + 12) == OffsetOf(images, i)
  {
    var f := IcoFile(images);
    var base := HeaderSize + EntrySize * i;
    EntryAt(images, i);
    var e := Entry(images[i].size, |images[i].data|, OffsetOf(images, i));
    EntryDecodes(images[i].size, |images[i].data|, OffsetOf(images, i));
    forall k | 0 <= k < EntrySize ensures f[base + k] == e[k] {
      assert f[base..base + EntrySize][k] == e[k];
    }
  }

  /** Image `i`'s bytes are at `[offset_i, offset_i + length_i)`. */
  lemma DataFields(images: seq<Image>, i: nat)
    requires Encodable(images) && i < |images|
    ensures OffsetOf(images, i) + |images[i].data| <= TotalSize(images)
    ensures IcoFile(images)[OffsetOf(images, i)..OffsetOf(images, i) + |images[i].data|] == images[i].data
  {
    var n := |images|;
    var f := IcoFile(images);
    ImageInData(images, n, i);
    DataLengthGrows(images, i + 1, n);
    var start := DataOffset(n);
    assert f[start..] == Data(images, n);
  }

  // ---- Writing the buffer in place ----

  /** `s` with `bytes` written from `off` on. */
  function Splice(s: seq<byte>, off: nat, bytes: seq<byte>): (r: seq<byte>)
    requires off + |bytes| <= |s|
    ensures |r| == |s|
  {
    s[..off] + bytes + s[off + |bytes|..]
  }

  /** Two writes side by side are one write of both. */
  lemma SpliceAdjacent(s: seq<byte>, off: nat, a: seq<byte>, b: seq<byte>)
    requires off + |a| + |b| <= |s|
    ensures Splice(Splice(s, off, a), off + |a|, b) == Splice(s, off, a + b)
  {
    var t := Splice(s, off, a);
    assert t[..off + |a|] == s[..off] + a;
    assert t[off + |a| + |b|..] == s[off + |a| + |b|..];
  }

  lemma SpliceEmpty(s: seq<byte>, off: nat)
    requires off <= |s|
    ensures Splice(s, off, []) == s
  {
    assert s[..off] + s[off..] == s;
  }

  lemma SpliceWhole(s: seq<byte>, bytes: seq<byte>)
    requires |bytes| == |s|
    ensures Splice(s, 0, bytes) == bytes
  {
  }

  method WriteUInt8(buf: array<byte>, v: byte, off: nat)
    requires off + 1 <= buf.Length
    modifies buf
    ensures buf[..] == Splice(old(buf[..]), off, [v])
  {
    buf[off] := v;
  }

  method WriteUInt16LE(buf: array<byte>, v: nat, off: nat)
    requires v < 0x1_0000 && off + 2 <= buf.Length
    modifies buf
    ensures buf[..] == Splice(old(buf[..]), off, LE16(v))
  {
    buf[off] := (v % 0x100) as byte;
    buf[off + 1] := (v / 0x100) as byte;
  }

  method WriteUInt32LE(buf: array<byte>, v: nat, off: nat)
    requires v < 0x1_0000_0000 && off + 4 <= buf.Length
    modifies buf
    ensures buf[..] == Splice(old(buf[..]), off, LE32(v))
  {
    buf[off] := (v % 0x100) as byte;
    buf[off + 1] := (v / 0x100 % 0x100) as byte;
    buf[off + 2] := (v / 0x1_0000 % 0x100) as byte;
    buf[off + 3] := (v / 0x100_0000) as byte;
  }

  /** `data.copy(buf, offset)`. */
  method Copy(data: seq<byte>, buf: array<byte>, offset: nat)
    requires offset + |data| <= buf.Length
    modifies buf
    ensures buf[..] == Splice(old(buf[..]), offset, data)
  {
    for j := 0 to |data|
      invariant buf[..] == Splice(old(buf[..]), offset, data[..j])
    {
      SpliceAdjacent(old(buf[..]), offset, data[..j], [data[j]]);
      assert data[..j] + [data[j]] == data[..j + 1];
      buf[offset + j] := data[j];
    }
    assert data[..|data|] == data;
  }

  /** The offsets of the images, from a running offset that starts after the directory. */
  method PlaceImages(images: seq<Image>) returns (entries: seq<Placed>, total: nat)
    ensures |entries| == |images|
    ensures forall i :: 0 <= i < |images| ==>
      entries[i] == Placed(images[i].size, images[i].data, OffsetOf(images, i))
    ensures total == TotalSize(images)
  {
    var currentOffset := DataOffset(|images|);
    entries := [];
    for i := 0 to |images|
      invariant |entries| == i && currentOffset == OffsetOf(images, i)
      invariant forall j :: 0 <= j < i ==> entries[j] == Placed(images[j].size, images[j].data, OffsetOf(images, j))
    {
      entries := entries + [Placed(images[i].size, images[i].data, currentOffset)];
      currentOffset := currentOffset + |images[i].data|;
    }
    total := currentOffset;
  }

  /** One ICONDIRENTRY, written field by field at `base`. */
  method WriteEntry(buf: array<byte>, e: Placed, base: nat)
    requires |e.data| < 0x1_0000_0000 && e.offset < 0x1_0000_0000 && base + EntrySize <= buf.Length
    modifies buf
    ensures buf[..] == Splice(old(buf[..]), base, Entry(e.size, |e.data|, e.offset))
  {
    ghost var s := buf[..];
    var dim := Dimension(e.size);
    WriteUInt8(buf, dim, base);
    WriteUInt8(buf, dim, base + 1);
    SpliceAdjacent(s, base, [dim], [dim]);
    assert [dim] + [dim] == [dim, dim];
    WriteUInt8(buf, 0, base + 2);
    SpliceAdjacent(s, base, [dim, dim], [0]);
    assert [dim, dim] + [0] == [dim, dim, 0];
    WriteUInt8(buf, 0, base + 3);
    SpliceAdjacent(s, base, [dim, dim, 0], [0]);
    assert [dim, dim, 0] + [0] == [dim, dim, 0, 0];
    ghost var fields := [dim, dim, 0, 0];
    WriteUInt16LE(buf, 1, base + 4);
    SpliceAdjacent(s, base, fields, LE16(1));
    fields := fields + LE16(1);
    WriteUInt16LE(buf, 32, base + 6);
    SpliceAdjacent(s, base, fields, LE16(32));
    fields := fields + LE16(32);
    WriteUInt32LE(buf, |e.data|, base + 8);
    SpliceAdjacent(s, base, fields, LE32(|e.data|));
    fields := fields + LE32(|e.data|);
    WriteUInt32LE(buf, e.offset, base + 12);
    SpliceAdjacent(s, base, fields, LE32(e.offset));
    fields := fields + LE32(e.offset);
    assert fields == Entry(e.size, |e.data|, e.offset);
  }

  /** The six header bytes: reserved, type 1 (icon), image count. */
  method WriteHeader(buf: array<byte>, n: nat)
    requires n < 0x1_0000 && HeaderSize <= buf.Length
    modifies buf
    ensures buf[..] == Splice(old(buf[..]), 0, Header(n))
  {
    ghost var s := buf[..];
    WriteUInt16LE(buf, 0, 0);
    WriteUInt16LE(buf, 1, 2);
    SpliceAdjacent(s, 0, LE16(0), LE16(1));
    WriteUInt16LE(buf, n, 4);
    SpliceAdjacent(s, 0, LE16(0) + LE16(1), LE16(n));
  }

  /** Writing entry `i` after the first `i` entries yields the first `i + 1`. */
  lemma DirectoryStep(s: seq<byte>, images: seq<Image>, i: nat)
    requires Encodable(images) && i < |images| && |s| == TotalSize(images)
    ensures |images[i].data| < 0x1_0000_0000 && OffsetOf(images, i) < 0x1_0000_0000
    ensures HeaderSize + EntrySize * i + EntrySize <= |s|
    ensures Splice(Splice(s, HeaderSize, Entries(images, i)), HeaderSize + EntrySize * i,
                   Entry(images[i].size, |images[i].data|, OffsetOf(images, i)))
         == Splice(s, HeaderSize, Entries(images, i + 1))
  {
    ImageFits(images, i);
    assert HeaderSize + EntrySize * (i + 1) <= DataOffset(|images|);
    var e := Entry(images[i].size, |images[i].data|, OffsetOf(images, i));
    SpliceAdjacent(s, HeaderSize, Entries(images, i), e);
  }

  /** One 16-byte directory entry per image, right after the header. */
  method WriteDirectory(buf: array<byte>, images: seq<Image>, entries: seq<Placed>)
    requires Encodable(images) && buf.Length == TotalSize(images)
    requires |entries| == |images|
    requires forall i :: 0 <= i < |images| ==>
      entries[i] == Placed(images[i].size, images[i].data, OffsetOf(images, i))
    modifies buf
    ensures buf[..] == Splice(old(buf[..]), HeaderSize, Entries(images, |images|))
  {
    ghost var s := buf[..];
    var n := |entries|;
    SpliceEmpty(s, HeaderSize);
    for i := 0 to n
      invariant HeaderSize + EntrySize * i <= DataOffset(n) <= |s|
      invariant buf[..] == Splice(s, HeaderSize, Entries(images, i))
    {
      var e := entries[i];
      assert e == Placed(images[i].size, images[i].data, OffsetOf(images, i));
      DirectoryStep(s, images, i);
      WriteEntry(buf, e, HeaderSize + EntrySize * i);
    }
  }

  /** Copying image `i` after the first `i` images yields the first `i + 1`. */
  lemma DataStep(s: seq<byte>, images: seq<Image>, i: nat)
    requires i < |images| && |s| == TotalSize(images)
    ensures DataLength(images, i + 1) <= DataLength(images, |images|)
    ensures OffsetOf(images, i) + |images[i].data| <= |s|
    ensures Splice(Splice(s, DataOffset(|images|), Data(images, i)), OffsetOf(images, i), images[i].data)
         == Splice(s, DataOffset(|images|), Data(images, i + 1))
  {
    ImageFits(images, i);
    SpliceAdjacent(s, DataOffset(|images|), Data(images, i), images[i].data);
  }

  /** The images' bytes, each at its offset, after the directory. */
  method WriteData(buf: array<byte>, images: seq<Image>, entries: seq<Placed>)
    requires buf.Length == TotalSize(images)
    requires |entries| == |images|
    requires forall i :: 0 <= i < |images| ==>
      entries[i] == Placed(images[i].size, images[i].data, OffsetOf(images, i))
    modifies buf
    ensures buf[..] == Splice(old(buf[..]), DataOffset(|images|), Data(images, |images|))
  {
    ghost var s := buf[..];
    var n := |entries|;
    SpliceEmpty(s, DataOffset(n));
    for i := 0 to n
      invariant DataLength(images, i) <= DataLength(images, n)
      invariant DataOffset(n) + DataLength(images, i) <= |s|
      invariant buf[..] == Splice(s, DataOffset(n), Data(images, i))
    {
      var e := entries[i];
      assert e == Placed(images[i].size, images[i].data, OffsetOf(images, i));
      DataStep(s, images, i);
      Copy(e.data, buf, e.offset);
    }
  }

  /** The script's encoder: the buffer it writes to `icon.ico` holds exactly the laid-out file. */
  method WriteIco(images: seq<Image>) returns (buf: array<byte>)
    requires Encodable(images)
    ensures fresh(buf) && buf[..] == IcoFile(images)
  {
    var entries, totalSize := PlaceImages(images);
    var n := |entries|;
    buf := new byte[totalSize];
    ghost var zeros := buf[..];
    WriteHeader(buf, n);
    WriteDirectory(buf, images, entries);
    SpliceAdjacent(zeros, 0, Header(n), Entries(images, n));
    WriteData(buf, images, entries);
    SpliceAdjacent(zeros, 0, Header(n) + Entries(images, n), Data(images, n));
    SpliceWhole(zeros, IcoFile(images));
  }
}
