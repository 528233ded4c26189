/**
 * The ICO and ICNS writers (branding/sources/package_icons.py), over arbitrary image bytes,
 * against independent readers of the two formats.
 *
 * `struct.pack` raises when a number does not fit its field; the writers then return `None`
 * and nothing is written.
 */
module PackageIcons {
  import opened Prelude

  type Bytes = seq<byte>

  const LIMIT32: nat := 0x1_0000_0000

  /** An image of `size` by `size` pixels. */
  datatype Image = Image(size: nat, data: Bytes)

  /** One ICNS chunk; `kind` is its four-byte type. */
  datatype Chunk = Chunk(kind: Bytes, data: Bytes)

  /** A directory entry as a reader sees it. */
  datatype Entry = Entry(size: nat, length: nat, offset: nat)

  // ---- Fields ----

  function PackLE16(n: nat): (b: Bytes)
    requires n < 0x1_0000
    ensures |b| == 2 && UnpackLE16(b) == n
  {
    [(n % 256) as byte, (n / 256) as byte]
  }

  function UnpackLE16(b: Bytes): nat
    requires |b| == 2
  {
    b[0] as nat + 256 * (b[1] as nat)
  }

  function PackLE32(n: nat): (b: Bytes)
    requires n < LIMIT32
    ensures |b| == 4 && UnpackLE32(b) == n
  {
    var low, high := PackLE16(n % 0x1_0000), PackLE16(n / 0x1_0000);
    assert (low + high)[..2] == low && (low + high)[2..] == high;
    low + high
  }

  function UnpackLE32(b: Bytes): nat
    requires |b| == 4
  {
    UnpackLE16(b[..2]) + 0x1_0000 * UnpackLE16(b[2..])
  }

  function Reversed(b: Bytes): (r: Bytes)
    requires |b| == 4
    ensures |r| == 4
  {
    [b[3], b[2], b[1], b[0]]
  }

  function PackBE32(n: nat): (b: Bytes)
    requires n < LIMIT32
    ensures |b| == 4 && UnpackBE32(b) == n
  {
    var le := PackLE32(n);
    assert Reversed(Reversed(le)) == le;
    Reversed(le)
  }

  function UnpackBE32(b: Bytes): nat
    requires |b| == 4
  {
    UnpackLE32(Reversed(b))
  }

  // ---- Readers ----

  function ReadEntry(b: Bytes): Entry
    requires |b| == 16
  {
    Entry(if b[0] == 0 then 256 else b[0] as nat, UnpackLE32(b[8..12]), UnpackLE32(b[12..16]))
  }

  /** The entry's fixed fields: square, no palette, one plane, 32 bits per pixel. */
  predicate PlainEntry(b: Bytes)
    requires |b| == 16
  {
    b[0] == b[1] && b[2] == 0 && b[3] == 0 && UnpackLE16(b[4..6]) == 1 && UnpackLE16(b[6..8]) == 32
  }

  function ReadIcoImages(file: Bytes, count: nat): Option<seq<Image>> {
    if count == 0 then Some([]) else
    var rest := ReadIcoImages(file, count - 1);
    var at := 6 + 16 * (count - 1);
    if rest == None || |file| < at + 16 || !PlainEntry(file[at..at + 16]) then None else
    var entry := ReadEntry(file[at..at + 16]);
    if entry.offset + entry.length > |file| then None
    else Some(rest.value + [Image(entry.size, file[entry.offset..entry.offset + entry.length])])
  }

  function ReadIco(file: Bytes): Option<seq<Image>> {
    if |file| < 6 || UnpackLE16(file[0..2]) != 0 || UnpackLE16(file[2..4]) != 1 then None
    else ReadIcoImages(file, UnpackLE16(file[4..6]))
  }

  function ReadChunks(payload: Bytes): Option<seq<Chunk>> {
    if payload == [] then Some([])
    else if |payload| < 8 then None
    else
      var length := UnpackBE32(payload[4..8]);
      if length < 8 || length > |payload| then None else
      var rest := ReadChunks(payload[length..]);
      if rest == None then None else Some([Chunk(payload[..4], payload[8..length])] + rest.value)
  }

  const ICNS: Bytes := [0x69, 0x63, 0x6E, 0x73]

  function ReadIcns(file: Bytes): Option<seq<Chunk>> {
    if |file| < 8 || file[..4] != ICNS || UnpackBE32(file[4..8]) != |file| then None else ReadChunks(file[8..])
  }

  // ---- What the writers write ----

  /** The data of the first `n` images, end to end. */
  function Data(images: seq<Image>, n: nat): Bytes
    requires n <= |images|
  {
    if n == 0 then [] else Data(images, n - 1) + images[n - 1].data
  }

  /** Where image `i` starts: after the directory and the images before it. */
  function OffsetOf(images: seq<Image>, i: nat): nat
    requires i <= |images|
  {
    6 + 16 * |images| + |Data(images, i)|
  }

  predicate EntryFits(images: seq<Image>, i: nat)
    requires i < |images|
  {
    |images[i].data| < LIMIT32 && OffsetOf(images, i) < LIMIT32
  }

  predicate FitsIco(images: seq<Image>) {
    forall i :: 0 <= i < |images| ==> EntryFits(images, i)
  }

  function PackEntry(size: nat, length: nat, offset: nat): (b: Bytes)
    requires length < LIMIT32 && offset < LIMIT32
    ensures |b| == 16
  {
    [(size % 256) as byte, (size % 256) as byte, 0, 0] + PackLE16(1) + PackLE16(32) + PackLE32(length) + PackLE32(offset)
  }

  lemma EntryRoundTrip(size: nat, length: nat, offset: nat)
    requires 1 <= size <= 256 && length < LIMIT32 && offset < LIMIT32
    ensures var b := PackEntry(size, length, offset);
            PlainEntry(b) && ReadEntry(b) == Entry(size, length, offset)
  {
    var b := PackEntry(size, length, offset);
    var front := [(size % 256) as byte, (size % 256) as byte, 0, 0] + PackLE16(1) + PackLE16(32);
    assert |front| == 8 && b == front + PackLE32(length) + PackLE32(offset);
    assert b[4..6] == PackLE16(1);
    assert b[6..8] == PackLE16(32);
    assert b[8..12] == PackLE32(length);
    assert b[12..] == PackLE32(offset);
    assert b[12..16] == b[12..];
  }

  function IcoHeader(count: nat): (b: Bytes)
    requires count < 0x1_0000
    ensures |b| == 6
  {
    PackLE16(0) + PackLE16(1) + PackLE16(count)
  }

  /** The header and the directory entries of the first `n` images. */
  function Directory(images: seq<Image>, n: nat): (b: Bytes)
    requires |images| < 0x1_0000 && n <= |images| && forall i :: 0 <= i < n ==> EntryFits(images, i)
    ensures |b| == 6 + 16 * n
  {
    if n == 0 then IcoHeader(|images|) else
    assert EntryFits(images, n - 1);
    Directory(images, n - 1) + PackEntry(images[n - 1].size, |images[n - 1].data|, OffsetOf(images, n - 1))
  }

  function IcoFile(images: seq<Image>): Bytes
    requires FitsIco(images) && |images| < 0x1_0000
  {
    Directory(images, |images|) + Data(images, |images|)
  }

  // ---- ICO ----

  lemma {:induction false} DataSlice(images: seq<Image>, i: nat, n: nat)
    requires i < n <= |images|
    ensures |Data(images, i + 1)| <= |Data(images, n)|
    ensures |Data(images, i + 1)| == |Data(images, i)| + |images[i].data|
    ensures Data(images, n)[|Data(images, i)|..|Data(images, i + 1)|] == images[i].data
  {
    if i + 1 < n {
      DataSlice(images, i, n - 1);
      assert Data(images, n) == Data(images, n - 1) + images[n - 1].data;
    }
  }

  /** Appending keeps earlier slices and puts the new piece at the end. */
  lemma AppendSlices(a: Bytes, b: Bytes, from: nat, to: nat)
    requires from <= to <= |a|
    ensures (a + b)[from..to] == a[from..to] && (a + b)[|a|..|a| + |b|] == b
  {
  }

  lemma {:induction false} DirectoryStarts(images: seq<Image>, n: nat)
    requires |images| < 0x1_0000 && n <= |images| && forall k :: 0 <= k < n ==> EntryFits(images, k)
    ensures Directory(images, n)[..6] == IcoHeader(|images|)
  {
    if n > 0 {
      assert EntryFits(images, n - 1);
      DirectoryStarts(images, n - 1);
      AppendSlices(Directory(images, n - 1),
                   PackEntry(images[n - 1].size, |images[n - 1].data|, OffsetOf(images, n - 1)), 0, 6);
    }
  }

  lemma {:induction false} DirectorySlice(images: seq<Image>, i: nat, n: nat)
    requires |images| < 0x1_0000 && i < n <= |images| && forall k :: 0 <= k < n ==> EntryFits(images, k)
    ensures EntryFits(images, i)
    ensures Directory(images, n)[6 + 16 * i..22 + 16 * i]
            == PackEntry(images[i].size, |images[i].data|, OffsetOf(images, i))
  {
    assert EntryFits(images, i) && EntryFits(images, n - 1);
    var last := PackEntry(images[n - 1].size, |images[n - 1].data|, OffsetOf(images, n - 1));
    if i + 1 < n {
      DirectorySlice(images, i, n - 1);
      AppendSlices(Directory(images, n - 1), last, 6 + 16 * i, 22 + 16 * i);
    } else {
      AppendSlices(Directory(images, n - 1), last, 0, 0);
    }
  }

  /** Images lie one after the other behind the directory, without gaps or overlaps, up to the end of the file. */
  lemma IcoSlices(images: seq<Image>, i: nat)
    requires FitsIco(images) && |images| < 0x1_0000 && i < |images|
    ensures OffsetOf(images, 0) == 6 + 16 * |images|
    ensures OffsetOf(images, i + 1) == OffsetOf(images, i) + |images[i].data|
    ensures OffsetOf(images, |images|) == |IcoFile(images)|
    ensures OffsetOf(images, i + 1) <= |IcoFile(images)|
    ensures IcoFile(images)[OffsetOf(images, i)..OffsetOf(images, i + 1)] == images[i].data
  {
    DataSlice(images, i, |images|);
  }

  /** A reader at entry `i` of the file finds the size, length and offset of image `i`. */
  lemma {:induction false} IcoEntryReads(images: seq<Image>, i: nat)
    requires FitsIco(images) && |images| < 0x1_0000 && i < |images| && 1 <= images[i].size <= 256
    ensures var file, at := IcoFile(images), 6 + 16 * i;
            && |file| >= at + 16
            && PlainEntry(file[at..at + 16])
            && ReadEntry(file[at..at + 16]) == Entry(images[i].size, |images[i].data|, OffsetOf(images, i))
  {
    DirectorySlice(images, i, |images|);
    EntryRoundTrip(images[i].size, |images[i].data|, OffsetOf(images, i));
    var at := 6 + 16 * i;
    assert IcoFile(images)[at..at + 16] == Directory(images, |images|)[at..at + 16];
  }

  lemma ReaderTakesImage(file: Bytes, images: seq<Image>, i: nat, offset: nat)
    requires i < |images| && ReadIcoImages(file, i) == Some(images[..i])
    requires |file| >= 6 + 16 * i + 16 && PlainEntry(file[6 + 16 * i..6 + 16 * i + 16])
    requires ReadEntry(file[6 + 16 * i..6 + 16 * i + 16]) == Entry(images[i].size, |images[i].data|, offset)
    requires offset + |images[i].data| <= |file| && file[offset..offset + |images[i].data|] == images[i].data
    ensures ReadIcoImages(file, i + 1) == Some(images[..i + 1])
  {
    assert images[..i + 1] == images[..i] + [Image(images[i].size, images[i].data)];
  }

  lemma {:induction false} ReaderTakesNext(file: Bytes, images: seq<Image>, i: nat)
    requires FitsIco(images) && |images| < 0x1_0000 && i < |images| && 1 <= images[i].size <= 256
    requires file == IcoFile(images) && ReadIcoImages(file, i) == Some(images[..i])
    ensures ReadIcoImages(file, i + 1) == Some(images[..i + 1])
  {
    IcoEntryReads(images, i);
    IcoSlices(images, i);
    ReaderTakesImage(file, images, i, OffsetOf(images, i));
  }

  lemma {:induction false} IcoReadsBack(images: seq<Image>, count: nat)
    requires FitsIco(images) && |images| < 0x1_0000 && count <= |images|
    requires forall i :: 0 <= i < |images| ==> 1 <= images[i].size <= 256
    ensures ReadIcoImages(IcoFile(images), count) == Some(images[..count])
  {
    if count > 0 {
      var i := count - 1;
      IcoReadsBack(images, i);
      ReaderTakesNext(IcoFile(images), images, i);
    }
  }

  /** Reading an ICO file gives back every size and exactly the bytes of every image. */
  lemma {:induction false} IcoRoundTrip(images: seq<Image>)
    requires FitsIco(images) && |images| < 0x1_0000
    requires forall i :: 0 <= i < |images| ==> 1 <= images[i].size <= 256
    ensures ReadIco(IcoFile(images)) == Some(images)
  {
    var file := IcoFile(images);
    DirectoryStarts(images, |images|);
    assert file[..6] == IcoHeader(|images|);
    assert file[0..2] == PackLE16(0);
    assert file[2..4] == PackLE16(1);
    assert file[4..6] == PackLE16(|images|);
    IcoReadsBack(images, |images|);
    assert images[..|images|] == images;
  }

  /** The writer: one pass accumulating the directory and the running offset. */
  method WriteIco(images: seq<Image>) returns (file: Option<Bytes>)
    requires |images| < 0x1_0000
    requires forall i :: 0 <= i < |images| ==> 1 <= images[i].size <= 256
    ensures file.Some? <==> FitsIco(images)
    ensures file.Some? ==> ReadIco(file.value) == Some(images) && file.value == IcoFile(images)
  {
    var directory := PackLE16(0) + PackLE16(1) + PackLE16(|images|);
    var offset := 6 + 16 * |images|;
    var joined: Bytes := [];
    var k := 0;
    while k < |images|
      invariant 0 <= k <= |images|
      invariant forall i :: 0 <= i < k ==> EntryFits(images, i)
      invariant offset == OffsetOf(images, k) && joined == Data(images, k)
      invariant directory == Directory(images, k)
    {
      var image := images[k];
      if |image.data| >= LIMIT32 || offset >= LIMIT32 {
        assert !EntryFits(images, k);
        return None;
      }
      assert EntryFits(images, k);
      directory := directory + PackEntry(image.size, |image.data|, offset);
      offset := offset + |image.data|;
      joined := joined + image.data;
      k := k + 1;
    }
    assert FitsIco(images);
    file := Some(directory + joined);
    IcoRoundTrip(images);
  }

  // ---- ICNS ----

  function PackChunk(c: Chunk): (b: Bytes)
    requires 8 + |c.data| < LIMIT32
    ensures |b| == |c.kind| + 4 + |c.data|
  {
    c.kind + PackBE32(8 + |c.data|) + c.data
  }

  predicate ChunkFits(c: Chunk) {
    8 + |c.data| < LIMIT32
  }

  function Payload(chunks: seq<Chunk>): Bytes
    requires forall c :: c in chunks ==> ChunkFits(c)
  {
    if chunks == [] then [] else
    assert ChunkFits(chunks[0]);
    PackChunk(chunks[0]) + Payload(chunks[1..])
  }

  lemma {:induction false} PayloadAppend(chunks: seq<Chunk>, c: Chunk)
    requires ChunkFits(c) && forall d :: d in chunks ==> ChunkFits(d)
    ensures Payload(chunks + [c]) == Payload(chunks) + PackChunk(c)
  {
    if chunks == [] {
      assert chunks + [c] == [c];
    } else {
      assert (chunks + [c])[1..] == chunks[1..] + [c];
      PayloadAppend(chunks[1..], c);
    }
  }

  lemma {:induction false} ChunksReadBack(chunks: seq<Chunk>)
    requires forall c :: c in chunks ==> ChunkFits(c) && |c.kind| == 4
    ensures ReadChunks(Payload(chunks)) == Some(chunks)
  {
    if chunks != [] {
      var c, rest := chunks[0], Payload(chunks[1..]);
      var payload := Payload(chunks);
      assert payload == PackChunk(c) + rest;
      assert payload[..4] == c.kind;
      assert payload[4..8] == PackBE32(8 + |c.data|);
      assert payload[8..8 + |c.data|] == c.data;
      assert payload[8 + |c.data|..] == rest;
      ChunksReadBack(chunks[1..]);
      assert chunks == [c] + chunks[1..];
    }
  }

  /** Each chunk and the whole file must fit a 32-bit length. */
  predicate FitsIcns(chunks: seq<Chunk>) {
    (forall c :: c in chunks ==> ChunkFits(c)) && 8 + |Payload(chunks)| < LIMIT32
  }

  /** The writer: chunks packed one by one, then the file header over the joined payload. */
  method WriteIcns(chunks: seq<Chunk>) returns (file: Option<Bytes>)
    requires forall c :: c in chunks ==> |c.kind| == 4
    ensures file.Some? <==> FitsIcns(chunks)
    ensures file.Some? ==> ReadIcns(file.value) == Some(chunks)
    ensures file.Some? ==> UnpackBE32(file.value[4..8]) == |file.value|
  {
    var payload: Bytes := [];
    var k := 0;
    while k < |chunks|
      invariant 0 <= k <= |chunks|
      invariant forall c :: c in chunks[..k] ==> ChunkFits(c)
      invariant payload == Payload(chunks[..k])
    {
      var c := chunks[k];
      if 8 + |c.data| >= LIMIT32 {
        return None;
      }
      payload := payload + PackChunk(c);
      assert chunks[..k + 1] == chunks[..k] + [c];
      PayloadAppend(chunks[..k], c);
      k := k + 1;
    }
    assert chunks[..k] == chunks;
    if 8 + |payload| >= LIMIT32 {
      return None;
    }
    var written := ICNS + PackBE32(8 + |payload|) + payload;
    assert written[..4] == ICNS;
    assert written[4..8] == PackBE32(8 + |payload|);
    assert written[8..] == payload;
    ChunksReadBack(chunks);
    file := Some(written);
  }

  // ---- The two files that are packaged ----

  const ICO_SIZES: seq<nat> := [16, 24, 32, 48, 64, 128, 256]

  /** Chunk types with the size of the image each holds; some sizes appear twice. */
  const ICNS_TYPES: seq<(string, nat)> := [
    ("icp4", 16), ("icp5", 32), ("icp6", 64), ("ic07", 128), ("ic08", 256), ("ic09", 512),
    ("ic10", 1024), ("ic11", 32), ("ic12", 64), ("ic13", 256), ("ic14", 512)]

  function Ascii(s: string): (b: Bytes)
    requires forall i :: 0 <= i < |s| ==> s[i] < 128 as char
    ensures |b| == |s|
  {
    seq(|s|, i requires 0 <= i < |s| => s[i] as int as byte)
  }

  function IcoImages(png: nat -> Bytes): seq<Image> {
    seq(|ICO_SIZES|, i requires 0 <= i < |ICO_SIZES| => Image(ICO_SIZES[i], png(ICO_SIZES[i])))
  }

  function IcnsChunks(png: nat -> Bytes): seq<Chunk> {
    seq(|ICNS_TYPES|, i requires 0 <= i < |ICNS_TYPES| => Chunk(Ascii(ICNS_TYPES[i].0), png(ICNS_TYPES[i].1)))
  }

  /** Packages the images `png` gives for each size; an ICO that cannot be written stops the run before the ICNS. */
  method Package(png: nat -> Bytes) returns (ico: Option<Bytes>, icns: Option<Bytes>)
    ensures ico.Some? <==> FitsIco(IcoImages(png))
    ensures ico.Some? ==> ReadIco(ico.value) == Some(IcoImages(png))
    ensures icns.Some? <==> ico.Some? && FitsIcns(IcnsChunks(png))
    ensures icns.Some? ==> ReadIcns(icns.value) == Some(IcnsChunks(png))
  {
    ico := WriteIco(IcoImages(png));
    if ico == None {
      return None, None;
    }
    icns := WriteIcns(IcnsChunks(png));
  }
}
