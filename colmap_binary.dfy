/** The COLMAP `points3D.bin` writer: a u64 point count, then one fixed-width
    51-byte record per point (u64 id, three f64 coordinates, three u8 colour
    bytes, f64 reprojection error, u64 track length) and no track payload.
    Integers are written little-endian. The IEEE-754 encoding of a double is a
    parameter `enc` of the writer; the decoder hands back each double's 8 bytes. */
module ColmapBinary {
  import opened PointCloud

  function Pow256(k: nat): (p: nat)
    ensures 1 <= p
  {
    if k == 0 then 1 else 256 * Pow256(k - 1)
  }

  /** One past the largest value `struct.pack("Q")` accepts. */
  const U64_LIMIT: nat := Pow256(8)

  type u64 = n: int | 0 <= n < U64_LIMIT

  /** `struct.pack("Q")` accepts exactly the integers below 2^64. */
  lemma U64LimitIsTwoToThe64()
    ensures U64_LIMIT == 0x1_0000_0000_0000_0000
  {
    assert Pow256(2) == 0x1_0000;
    assert Pow256(4) == 0x1_0000_0000;
    assert Pow256(6) == 0x1_0000_0000_0000;
  }

  /** The 8 bytes of an IEEE-754 double. */
  type Double = s: seq<byte> | |s| == 8 witness [0, 0, 0, 0, 0, 0, 0, 0]

  /** Bytes per record: id 8, x y z 24, r g b 3, error 8, track length 8. */
  const RECORD_SIZE: nat := 51

  /** Bytes of the point-count header. */
  const HEADER_SIZE: nat := 8

  /** The `width` low-order bytes of `n`, least significant first. */
  function LittleEndian(n: nat, width: nat): (bytes: seq<byte>)
    ensures |bytes| == width
  {
    if width == 0 then [] else [(n % 256) as byte] + LittleEndian(n / 256, width - 1)
  }

  /** The unsigned value of little-endian `bytes`. */
  function FromLittleEndian(bytes: seq<byte>): (n: nat)
    ensures n < Pow256(|bytes|)
  {
    if |bytes| == 0 then 0
    else
      var m := FromLittleEndian(bytes[1..]);
      assert bytes[0] as nat + 256 * m <= 255 + 256 * (Pow256(|bytes| - 1) - 1);
      bytes[0] as nat + 256 * m
  }

  lemma {:induction false} FromLittleEndianOfLittleEndian(n: nat, width: nat)
    requires n < Pow256(width)
    ensures FromLittleEndian(LittleEndian(n, width)) == n
  {
    if width > 0 {
      var bytes := LittleEndian(n, width);
      assert bytes[1..] == LittleEndian(n / 256, width - 1);
      assert n / 256 < Pow256(width - 1);
      FromLittleEndianOfLittleEndian(n / 256, width - 1);
    }
  }

  lemma {:induction false} LittleEndianOfFromLittleEndian(bytes: seq<byte>)
    ensures LittleEndian(FromLittleEndian(bytes), |bytes|) == bytes
  {
    if |bytes| > 0 {
      var m := FromLittleEndian(bytes[1..]);
      var n := bytes[0] as nat + 256 * m;
      assert n % 256 == bytes[0] as nat && n / 256 == m;
      LittleEndianOfFromLittleEndian(bytes[1..]);
      assert [bytes[0]] + bytes[1..] == bytes;
    }
  }

  /** `struct.pack("<Q", n)`. */
  function EncodeU64(n: u64): (bytes: seq<byte>)
    ensures |bytes| == 8
  {
    LittleEndian(n, 8)
  }

  /** `struct.unpack("<Q", bytes)`: inverse of `EncodeU64` in both directions. */
  function DecodeU64(bytes: seq<byte>): (n: u64)
    requires |bytes| == 8
    ensures EncodeU64(n) == bytes
  {
    LittleEndianOfFromLittleEndian(bytes);
    FromLittleEndian(bytes)
  }

  lemma DecodeEncodeU64(n: u64)
    ensures DecodeU64(EncodeU64(n)) == n
  {
    FromLittleEndianOfLittleEndian(n, 8);
  }

  /** One point of `points3D.bin` as it lies on disk. */
  datatype Record = Record(id: u64, x: Double, y: Double, z: Double,
                           r: byte, g: byte, b: byte, error: Double, trackLength: u64)

  /** The 51 bytes of a record, fields in file order. */
  function EncodeRecord(rec: Record): (bytes: seq<byte>)
    ensures |bytes| == RECORD_SIZE
  {
    EncodeU64(rec.id) + rec.x + rec.y + rec.z + [rec.r, rec.g, rec.b] + rec.error
      + EncodeU64(rec.trackLength)
  }

  /** Where each field of a record lies inside its 51 bytes. */
  lemma RecordFieldOffsets(rec: Record)
    ensures var bytes := EncodeRecord(rec);
      && bytes[0..8] == EncodeU64(rec.id)
      && bytes[8..16] == rec.x && bytes[16..24] == rec.y && bytes[24..32] == rec.z
      && bytes[32] == rec.r && bytes[33] == rec.g && bytes[34] == rec.b
      && bytes[35..43] == rec.error
      && bytes[43..51] == EncodeU64(rec.trackLength)
  {
  }

  /** Reads one record back from its 51 bytes. */
  function DecodeRecord(bytes: seq<byte>): (rec: Record)
    requires |bytes| == RECORD_SIZE
    ensures EncodeRecord(rec) == bytes
  {
    var rec := Record(DecodeU64(bytes[0..8]), bytes[8..16], bytes[16..24], bytes[24..32],
                      bytes[32], bytes[33], bytes[34], bytes[35..43], DecodeU64(bytes[43..51]));
    assert EncodeRecord(rec) == bytes by {
      RecordFieldOffsets(rec);
    }
    rec
  }

  /** A record survives a write followed by a read: records are fixed-width. */
  lemma RecordRoundTrip(rec: Record)
    ensures DecodeRecord(EncodeRecord(rec)) == rec
  {
    var bytes := EncodeRecord(rec);
    RecordFieldOffsets(rec);
    DecodeEncodeU64(rec.id);
    DecodeEncodeU64(rec.trackLength);
  }

  /** The records, back to back. */
  function EncodeRecords(recs: seq<Record>): (bytes: seq<byte>)
    ensures |bytes| == RECORD_SIZE * |recs|
  {
    if |recs| == 0 then [] else EncodeRecord(recs[0]) + EncodeRecords(recs[1..])
  }

  lemma {:induction false} EncodeRecordsAppend(recs: seq<Record>, rec: Record)
    ensures EncodeRecords(recs + [rec]) == EncodeRecords(recs) + EncodeRecord(rec)
    decreases |recs|
  {
    if |recs| == 0 {
      assert [] + [rec] == [rec];
      assert [rec][1..] == [];
    } else {
      assert (recs + [rec])[1..] == recs[1..] + [rec];
      EncodeRecordsAppend(recs[1..], rec);
    }
  }

  /** The whole file for a list of records. */
  function EncodeFile(recs: seq<Record>): (bytes: seq<byte>)
    requires |recs| < U64_LIMIT
    ensures |bytes| == HEADER_SIZE + RECORD_SIZE * |recs|
  {
    EncodeU64(|recs|) + EncodeRecords(recs)
  }

  /** Reads `n` consecutive records. */
  function DecodeRecords(bytes: seq<byte>, n: nat): (recs: seq<Record>)
    requires |bytes| == RECORD_SIZE * n
    ensures |recs| == n
  {
    if n == 0 then [] else [DecodeRecord(bytes[..RECORD_SIZE])] + DecodeRecords(bytes[RECORD_SIZE..], n - 1)
  }

  /** Reads a file: the count, then exactly that many 51-byte records;
      anything else is not a file this writer produces. */
  function DecodeFile(bytes: seq<byte>): Option<seq<Record>>
  {
    if |bytes| < HEADER_SIZE then None
    else
      var n := DecodeU64(bytes[..HEADER_SIZE]);
      if |bytes| != HEADER_SIZE + RECORD_SIZE * n then None
      else Some(DecodeRecords(bytes[HEADER_SIZE..], n))
  }

  lemma {:induction false} RecordsRoundTrip(recs: seq<Record>)
    ensures DecodeRecords(EncodeRecords(recs), |recs|) == recs
    decreases |recs|
  {
    if |recs| > 0 {
      var bytes := EncodeRecords(recs);
      assert bytes[..RECORD_SIZE] == EncodeRecord(recs[0]);
      assert bytes[RECORD_SIZE..] == EncodeRecords(recs[1..]);
      RecordRoundTrip(recs[0]);
      RecordsRoundTrip(recs[1..]);
      assert [recs[0]] + recs[1..] == recs;
    }
  }

  /** Every file the writer produces reads back as the records it was written from. */
  lemma FileRoundTrip(recs: seq<Record>)
    requires |recs| < U64_LIMIT
    ensures DecodeFile(EncodeFile(recs)) == Some(recs)
  {
    var bytes := EncodeFile(recs);
    assert bytes[..HEADER_SIZE] == EncodeU64(|recs|);
    assert bytes[HEADER_SIZE..] == EncodeRecords(recs);
    DecodeEncodeU64(|recs|);
    RecordsRoundTrip(recs);
  }

  /** Why `write_points3D_colmap_binary` stops: a property lookup that fails
      before the file is opened, or a colour value `struct.pack("BBB")` rejects. */
  datatype BinError = MissingProperty(name: string) | ColorOutOfRange(row: nat)

  /** The columns the writer reads: positions, and colour or the white fill. */
  datatype Columns = Columns(x: seq<real>, y: seq<real>, z: seq<real>,
                             red: seq<real>, green: seq<real>, blue: seq<real>)

  predicate ColumnsOf(c: Columns, n: nat)
  {
    |c.x| == n && |c.y| == n && |c.z| == n && |c.red| == n && |c.green| == n && |c.blue| == n
  }


  /** The properties the writer looks up without a fallback, in lookup order:
      the positions, then `green` and `blue` once `red` is declared. */
  function RequiredKeys(names: set<string>): seq<string>
  {
    POSITION_KEYS + (if "red" in names then ["green", "blue"] else [])
  }

  /** Looks up `x`, `y`, `z`, then the colour columns when `red` is declared
      (and only `red` is tested: `green` and `blue` are then looked up blindly),
      or fills every row with white. */
  function ReadColumns(v: Vertex): (res: Result<Columns, BinError>)
    requires Valid(v)
    ensures res.Ok? <==> ("x" in Names(v) && "y" in Names(v) && "z" in Names(v)
                          && ("red" in Names(v) ==> "green" in Names(v) && "blue" in Names(v)))
    ensures res.Err? ==> res.error.MissingProperty? && res.error.name !in Names(v)
    ensures res.Err? ==> MissingKey(Names(v), RequiredKeys(Names(v))) == Some(res.error.name)
    ensures res.Ok? ==> ColumnsOf(res.value, v.count)
                        && res.value.x == v.columns["x"] && res.value.y == v.columns["y"]
                        && res.value.z == v.columns["z"]
    ensures res.Ok? && "red" in Names(v) ==>
      res.value.red == v.columns["red"] && res.value.green == v.columns["green"]
      && res.value.blue == v.columns["blue"]
    ensures res.Ok? && "red" !in Names(v) ==>
      forall i :: 0 <= i < v.count ==>
        res.value.red[i] == WHITE as real && res.value.green[i] == WHITE as real && res.value.blue[i] == WHITE as real
  {
    PositionKeysPresent(Names(v));
    var missing := MissingKey(Names(v), POSITION_KEYS);
    var keys := RequiredKeys(Names(v));
    if missing.Some? then
      MissingKeyAt(Names(v), keys, FirstAbsent(Names(v), POSITION_KEYS));
      Err(MissingProperty(missing.value))
    else if "red" in v.columns then
      if "green" !in v.columns then
        MissingKeyAt(Names(v), keys, 3);
        Err(MissingProperty("green"))
      else if "blue" !in v.columns then
        MissingKeyAt(Names(v), keys, 4);
        Err(MissingProperty("blue"))
      else Ok(Columns(v.columns["x"], v.columns["y"], v.columns["z"],
                      v.columns["red"], v.columns["green"], v.columns["blue"]))
    else
      var white := seq(v.count, _ => WHITE as real);
      Ok(Columns(v.columns["x"], v.columns["y"], v.columns["z"], white, white, white))
  }

  predicate FitsByte(n: int)
  {
    0 <= n < 256
  }

  /** Row `i`'s colour, as `int()` gives it, can be packed as three bytes. */
  predicate RowFits(c: Columns, i: nat)
    requires i < |c.red| && i < |c.green| && i < |c.blue|
  {
    FitsByte(Trunc(c.red[i])) && FitsByte(Trunc(c.green[i])) && FitsByte(Trunc(c.blue[i]))
  }

  /** The record written for row `i`: id `i + 1`, error 0.0, empty track. */
  function PointRecord(c: Columns, enc: real -> Double, i: nat): Record
    requires ColumnsOf(c, |c.x|) && i < |c.x| < U64_LIMIT && RowFits(c, i)
  {
    Record(i + 1, enc(c.x[i]), enc(c.y[i]), enc(c.z[i]),
           Trunc(c.red[i]) as byte, Trunc(c.green[i]) as byte, Trunc(c.blue[i]) as byte,
           enc(0.0), 0)
  }

  /** The records for the first `n` rows. */
  function Records(c: Columns, enc: real -> Double, n: nat): (recs: seq<Record>)
    requires ColumnsOf(c, |c.x|) && n <= |c.x| < U64_LIMIT
    requires forall i :: 0 <= i < n ==> RowFits(c, i)
    ensures |recs| == n
  {
    seq(n, i requires 0 <= i < n => PointRecord(c, enc, i))
  }

  lemma ConcatAssoc(a: seq<byte>, b: seq<byte>, c: seq<byte>)
    ensures (a + b) + c == a + (b + c)
  {
  }

  lemma RecordsStep(c: Columns, enc: real -> Double, n: nat)
    requires ColumnsOf(c, |c.x|) && n < |c.x| < U64_LIMIT
    requires forall i :: 0 <= i <= n ==> RowFits(c, i)
    ensures EncodeRecords(Records(c, enc, n + 1))
            == EncodeRecords(Records(c, enc, n)) + EncodeRecord(PointRecord(c, enc, n))
  {
    assert Records(c, enc, n + 1) == Records(c, enc, n) + [PointRecord(c, enc, n)];
    EncodeRecordsAppend(Records(c, enc, n), PointRecord(c, enc, n));
  }

  /** A record is its id and position, followed by its colour, error and track length. */
  lemma EncodeRecordSplit(rec: Record)
    ensures EncodeRecord(rec)
            == (EncodeU64(rec.id) + rec.x + rec.y + rec.z)
               + ([rec.r, rec.g, rec.b] + rec.error + EncodeU64(rec.trackLength))
  {
  }

  /** One iteration of the writer's loop: appends row `i`'s id and position,
      then, if its colour fits in bytes, the rest of its record. */
  method WritePoint(c: Columns, enc: real -> Double, i: nat, out: seq<byte>) returns (fits: bool, out': seq<byte>)
    requires ColumnsOf(c, |c.x|) && i < |c.x| < U64_LIMIT
    ensures fits == RowFits(c, i)
    ensures fits ==> out' == out + EncodeRecord(PointRecord(c, enc, i))
    ensures !fits ==> out' == out + EncodeU64(i + 1) + enc(c.x[i]) + enc(c.y[i]) + enc(c.z[i])
  {
    var head := EncodeU64(i + 1) + enc(c.x[i]) + enc(c.y[i]) + enc(c.z[i]);
    out' := out + head;
    var r, g, b := Trunc(c.red[i]), Trunc(c.green[i]), Trunc(c.blue[i]);
    fits := FitsByte(r) && FitsByte(g) && FitsByte(b);
    if fits {
      var tail := [r as byte, g as byte, b as byte] + enc(0.0) + EncodeU64(0);
      out' := out' + tail;
      EncodeRecordSplit(PointRecord(c, enc, i));
      ConcatAssoc(out, head, tail);
    } else {
      assert out' == out + EncodeU64(i + 1) + enc(c.x[i]) + enc(c.y[i]) + enc(c.z[i]) by {
        assert EncodeU64(i + 1) + enc(c.x[i]) + enc(c.y[i]) + enc(c.z[i]) == head;
        ConcatAssoc(out, EncodeU64(i + 1) + enc(c.x[i]) + enc(c.y[i]), enc(c.z[i]));
        ConcatAssoc(out, EncodeU64(i + 1) + enc(c.x[i]), enc(c.y[i]));
        ConcatAssoc(out, EncodeU64(i + 1), enc(c.x[i]));
      }
    }
  }

  /** `write_points3D_colmap_binary` on an already-parsed vertex element:
      `out` is what ends up in the output file. A failed lookup leaves no file;
      a colour outside 0..255 stops the write after that row's id and position. */
  method WritePoints3DBinary(v: Vertex, enc: real -> Double) returns (err: Option<BinError>, out: seq<byte>)
    requires Valid(v) && v.count < U64_LIMIT
    ensures ReadColumns(v).Err? ==> err == Some(ReadColumns(v).error) && out == []
    ensures ReadColumns(v).Ok? ==>
      var c := ReadColumns(v).value;
      && (err.None? <==> forall i :: 0 <= i < v.count ==> RowFits(c, i))
      && (err.None? ==> out == EncodeFile(Records(c, enc, v.count)))
      && (err.Some? ==>
            && err.value.ColorOutOfRange?
            && var k := err.value.row;
            && k < v.count && !RowFits(c, k)
            && (forall i :: 0 <= i < k ==> RowFits(c, i))
            && out == EncodeU64(v.count) + EncodeRecords(Records(c, enc, k))
                      + EncodeU64(k + 1) + enc(c.x[k]) + enc(c.y[k]) + enc(c.z[k]))
  {
    var columns := ReadColumns(v);
    if columns.Err? {
      return Some(columns.error), [];
    }
    var c := columns.value;
    var n := v.count;
    out := EncodeU64(n);
    assert EncodeRecords(Records(c, enc, 0)) == [];
    var i := 0;
    while i < n
      invariant 0 <= i <= n
      invariant forall j :: 0 <= j < i ==> RowFits(c, j)
      invariant out == EncodeU64(n) + EncodeRecords(Records(c, enc, i))
    {
      ghost var done := EncodeRecords(Records(c, enc, i));
      var fits;
      fits, out := WritePoint(c, enc, i, out);
      if !fits {
        return Some(ColorOutOfRange(i)), out;
      }
      RecordsStep(c, enc, i);
      ConcatAssoc(EncodeU64(n), done, EncodeRecord(PointRecord(c, enc, i)));
      i := i + 1;
    }
    err := None;
  }

  /** What a reader of a successfully written file sees: the count N, N records
      whose ids are 1..N in row order, the colour bytes of each row (white when
      the element has no `red`), error 0.0 and track length 0 throughout; the
      file is 8 + 51 * N bytes long. */
  lemma WrittenFileDecodes(v: Vertex, enc: real -> Double, out: seq<byte>)
    requires Valid(v) && v.count < U64_LIMIT && ReadColumns(v).Ok?
    requires forall i :: 0 <= i < v.count ==> RowFits(ReadColumns(v).value, i)
    requires out == EncodeFile(Records(ReadColumns(v).value, enc, v.count))
    ensures |out| == HEADER_SIZE + RECORD_SIZE * v.count
    ensures DecodeFile(out).Some?
    ensures var recs := DecodeFile(out).value;
      && |recs| == v.count
      && forall i :: 0 <= i < v.count ==>
           && recs[i].id == i + 1
           && recs[i].x == enc(v.columns["x"][i])
           && recs[i].y == enc(v.columns["y"][i])
           && recs[i].z == enc(v.columns["z"][i])
           && recs[i].error == enc(0.0)
           && recs[i].trackLength == 0
           && ("red" !in Names(v) ==> recs[i].r == 255 && recs[i].g == 255 && recs[i].b == 255)
           && ("red" in Names(v) ==> recs[i].r as int == Trunc(v.columns["red"][i])
                                     && recs[i].g as int == Trunc(v.columns["green"][i])
                                     && recs[i].b as int == Trunc(v.columns["blue"][i]))
  {
    var c := ReadColumns(v).value;
    var recs := Records(c, enc, v.count);
    FileRoundTrip(recs);
    assert DecodeFile(out) == Some(recs);
    forall i | 0 <= i < v.count
      ensures recs[i] == PointRecord(c, enc, i)
    {
    }
  }
}
