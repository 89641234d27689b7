# 3d-format-toolkit converters, modelled in Dafny

This project models the three point-cloud converters of 3d-format-toolkit:

- **`ply2bin.py`** (`write_points3D_colmap_binary`) reads the `vertex` element of a
  PLY file. It writes COLMAP's `points3D.bin`:
  - an unsigned 64-bit point count;
  - one 51-byte record per point: id `i + 1`, x/y/z as doubles, r/g/b as bytes,
    error `0.0`, and a track length of `0` with no track entries.
- **`ply2txt.py`** (`ply_to_colmap_points3D`) writes COLMAP's `points3D.txt`:
  - two comment lines;
  - then one line per point: `id x y z r g b 1.0`.
- **`ply23dgs.py`** (`read_ply_xyzrgb`, `logit`, `rgb_to_sh_dc`, `build_3dgs_ply`)
  turns a coloured point cloud into a 3D Gaussian-splatting vertex table. Each point
  gets:
  - a spherical-harmonic DC colour;
  - zero higher-order coefficients;
  - an opacity logit;
  - log-space scales;
  - the identity rotation and a zero normal.
  The output fields come in a fixed order.

Modules:

- `PointCloud` (`point_cloud.dfy`) holds the shared data model. It contains:
  - a parsed PLY element, with one column of values per property name;
  - Python's `int()` truncation;
  - the first missing key of a lookup order;
  - the first complete group of a prioritised list of colour-name groups. The text
    writer's `if/elif` and the splat reader's loop with `break` are both proved
    against this one definition.
- `Text` (`text.dfy`) covers the decimal rendering of integers and Python's
  `str.split` and `join`.
- `ColmapBinary` (`colmap_binary.dfy`) is the binary writer. It comes with a decoder
  for the format it writes, and a proof that the decoder gives every record back.
- `ColmapText` (`colmap_text.dfy`) is the text writer. It proves that every data line
  splits back into its eight fields.
- `GaussianSplat` (`gaussian_splat.dfy`) is the splat converter.

Modelling choices:

- Every cell of the PLY element is a real number.
- The IEEE-754 encoding of a double is a parameter `enc: real -> Double`, and the
  text rendering of a float is a parameter `fmt: real -> string`.
- Natural logarithms are kept symbolic: `Ln(a)` stands for ln a. As a result,
  `sigmoid(ln a) = a / (1 + a)` is exact.
- The written files are byte and line sequences that the methods return.

## Model

| member | source | states |
|---|---|---|
| PointCloud.Trunc | ply2bin.py:58 | `int()` on a float truncates toward zero: the result is within 1 of the value, on the value's side of zero |
| PointCloud.FirstAbsent | ply2txt.py:20-22 | the index of the first key of the lookup order not among the property names; every earlier key is present |
| PointCloud.MissingKey | ply2txt.py:20-22 | the key the in-order presence check stops at; none exactly when every key is present, otherwise an absent key of the list all of whose predecessors are present, i.e. the first absent one |
| PointCloud.MissingKeyAt | ply2bin.py:17-25 | a key that is absent while every earlier key is present is the one the lookups fail on |
| PointCloud.PositionKeysPresent | ply2txt.py:20-22 | no position key is missing exactly when `x`, `y` and `z` are all declared |
| PointCloud.FirstCompleteGroup | ply23dgs.py:72-78 | the first colour group whose names are all present: every earlier group is incomplete, and the chosen one is complete |
| Text.NatToString | ply2txt.py:60 | the decimal rendering of an id is a non-empty string of digits with no leading zero (only 0 itself starts with `0`), as `str(n)` writes it |
| Text.NatStringRoundTrip | ply2txt.py:60 | parsing a rendered natural number gives it back |
| Text.NatToStringInjective | ply23dgs.py:131-132 | distinct numbers render to distinct strings |
| Text.IntToString | ply2txt.py:60 | a rendered integer is an optional minus sign, present exactly for negative values, followed by non-empty digits with no leading zero unless the value is 0 |
| Text.IntStringRoundTrip | ply2txt.py:60 | parsing a rendered colour integer gives it back |
| Text.Split | ply2txt.py:60 | `str.split` with a one-character separator keeps empty pieces, so it always yields at least one piece |
| Text.SplitPiece | ply2txt.py:60 | splitting a piece free of the separator, followed by the separator and a tail, yields that piece and then the tail's pieces |
| Text.SplitJoin | ply2txt.py:60 | splitting a space-joined line whose fields contain no space gives the fields back |
| Text.JoinChars | ply2txt.py:60 | a character in neither the separator nor any field is not in the joined line |
| ColmapBinary.U64LimitIsTwoToThe64 | ply2bin.py:38 | the bound `U64_LIMIT` of the 8-byte unsigned fields is 2^64, the range `struct.pack("Q")` accepts |
| ColmapBinary.LittleEndian | ply2bin.py:38 | a `width`-byte unsigned encoding has exactly `width` bytes |
| ColmapBinary.FromLittleEndian | ply2bin.py:38 | the value read from k bytes is below 256^k |
| ColmapBinary.FromLittleEndianOfLittleEndian | ply2bin.py:38 | decoding the little-endian encoding of n < 256^width gives n back |
| ColmapBinary.LittleEndianOfFromLittleEndian | ply2bin.py:38 | encoding a decoded byte string at its own width gives the bytes back |
| ColmapBinary.EncodeU64 | ply2bin.py:38 | `struct.pack("Q")` writes 8 bytes |
| ColmapBinary.DecodeU64 | ply2bin.py:52 | every 8 bytes are the encoding of the decoded u64 |
| ColmapBinary.DecodeEncodeU64 | ply2bin.py:52 | decoding an encoded u64 gives it back |
| ColmapBinary.EncodeRecord | ply2bin.py:52-64 | a point record is 8 + 24 + 3 + 8 + 8 = 51 bytes |
| ColmapBinary.RecordFieldOffsets | ply2bin.py:52-64 | each field occupies its fixed byte range of the record, in write order |
| ColmapBinary.DecodeRecord | ply2bin.py:52-64 | every 51 bytes are the encoding of the record decoded from them |
| ColmapBinary.RecordRoundTrip | ply2bin.py:52-64 | decoding an encoded record gives it back |
| ColmapBinary.EncodeRecordsAppend | ply2bin.py:47-64 | appending one record appends its 51 bytes |
| ColmapBinary.EncodeFile | ply2bin.py:36-64 | a file of n records is 8 + 51·n bytes |
| ColmapBinary.DecodeRecords | ply2bin.py:47-64 | decoding n records yields n records |
| ColmapBinary.RecordsRoundTrip | ply2bin.py:47-64 | decoding the concatenated records gives the records back |
| ColmapBinary.FileRoundTrip | ply2bin.py:36-64 | decoding a written file gives back exactly its records; the header count matches |
| ColmapBinary.ReadColumns | ply2bin.py:17-30 | succeeds exactly when x, y, z are present and, if `red` is present, `green` and `blue` are too; on failure it names the first absent property in the lookup order `RequiredKeys` (x, y, z, then green, blue once `red` is declared); columns are copied, and are all 255 without `red` |
| ColmapBinary.Records | ply2bin.py:47-64 | one record per row, in row order |
| ColmapBinary.RecordsStep | ply2bin.py:47-64 | the records of n + 1 rows are those of n rows, then row n's record |
| ColmapBinary.WritePoint | ply2bin.py:49-64 | writes row i's record when its colours fit a byte; otherwise only its id and coordinates are written before `struct.pack("BBB")` fails |
| ColmapBinary.WritePoints3DBinary | ply2bin.py:13-64 | a missing property fails before anything is written; otherwise the output is the count and then a record per row (ids from 1, error 0.0, track length 0); a colour outside 0..255 stops the write at that row, leaving the complete records before it |
| ColmapBinary.WrittenFileDecodes | ply2bin.py:36-64 | a successful output is 8 + 51·N bytes and decodes to N records, record i being `PointRecord` of row i: id i + 1, its coordinates, its truncated or white colour (in byte range, `RowFits`), error 0.0 and zero track length |
| ColmapText.ColorModeOf | ply2txt.py:25-33 | the colour mode is the first complete group of (`red`,`green`,`blue`), (`r`,`g`,`b`), else none |
| ColmapText.PointLines | ply2txt.py:40-61 | one data line per row written |
| ColmapText.CheckPosition | ply2txt.py:20-22 | the loop over `x`, `y`, `z` stops at the first absent key |
| ColmapText.WritePoints3DText | ply2txt.py:12-63 | fails exactly when a position key is missing, naming the first, with nothing written; otherwise it writes the two header lines and then one line per row, and reports the row count |
| ColmapText.FileTextLines | ply2txt.py:35-61 | the file's text, split at newlines, gives back the written lines followed by the empty string after the final newline |
| ColmapText.DecimalIsToken | ply2txt.py:60 | a rendered integer contains no space or newline |
| ColmapText.PointLineFields | ply2txt.py:40-61 | the data line `PointLine` for row i has no newline and splits into 8 fields: id i + 1, the formatted x/y/z, the row's colours `RowColor` (truncated, or 255) and `1.0` |
| ColmapText.PointLineStart | ply2txt.py:60 | a data line starts with a digit, so it is never taken for a comment |
| ColmapText.CommentsThenData | ply2txt.py:35-61 | the file has 2 + N lines; exactly the first two are comments; line k ≥ 2 is point k − 1's eight fields |
| GaussianSplat.Clip | ply23dgs.py:58 | `np.clip` stays within the bounds and leaves in-range values alone |
| GaussianSplat.NormalizeColor | ply23dgs.py:94 | a colour is scaled into [0, 1]; values within 0..255 scale exactly, out-of-range ones saturate at 0 or 1 |
| GaussianSplat.RgbToShDc | ply23dgs.py:49-54 | the DC coefficient maps back to the colour under the renderer's `0.5 + C0·dc` |
| GaussianSplat.ShDcOfRgb | ply23dgs.py:49-54 | the other direction: the colour of a coefficient maps back to that coefficient |
| GaussianSplat.ShDcBounds | ply23dgs.py:49-54 | a normalised colour gives a coefficient within ±0.5 / C0 |
| GaussianSplat.ClipOpacity | ply23dgs.py:58 | opacity is clipped into [1e-6, 1 − 1e-6]: values in range are kept, values below become exactly 1e-6, values above exactly 1 − 1e-6 |
| GaussianSplat.Sigmoid | ply23dgs.py:57-59 | the sigmoid of a log-odds lies strictly between 0 and 1 |
| GaussianSplat.Logit | ply23dgs.py:57-59 | the log is taken of a positive number, and the sigmoid of the result is the clipped probability |
| GaussianSplat.FloorScale | ply23dgs.py:114 | `np.maximum(s, 1e-8)`: at least the floor and at least s; values at or above the floor are unchanged, values below it become exactly 1e-8 |
| GaussianSplat.LogScales | ply23dgs.py:109-115 | every log is of a value ≥ 1e-8, namely the floored axis scale; a scalar scale gives three equal log-scales |
| GaussianSplat.RestCount | ply23dgs.py:100-101 | 3·((D+1)² − 1) = 3·D·(D+2) coefficients: a multiple of 3, and zero exactly for degree 0 |
| GaussianSplat.RestFieldIndex | ply23dgs.py:131-132 | the i-th higher-order field's name is `f_rest_` followed by decimal digits, and parsing those digits gives i back |
| GaussianSplat.FieldNames | ply23dgs.py:125-138 | 9 leading fields, the rest fields, then 8 trailing fields: 17 + rest names |
| GaussianSplat.BuildFieldNames | ply23dgs.py:125-138 | the appending loop builds exactly the field list |
| GaussianSplat.FixedFieldsShort | ply23dgs.py:125-138 | every fixed field name has at most 7 characters |
| GaussianSplat.FieldNamesDistinct | ply23dgs.py:125-140 | no two output fields share a name |
| GaussianSplat.SplatOf | ply23dgs.py:90-154 | a Gaussian keeps its point's position, has a zero normal and the identity rotation, RestCount zero coefficients, DC colours mapping back to the normalised colour, an opacity whose sigmoid is the clipped setting, and the floored log-scales |
| GaussianSplat.Build3dgs | ply23dgs.py:90-154 | emits the field names and one Gaussian per input point in order, each the reference Gaussian of that point; opacity, scale, rotation and normal are the same for every row |
| GaussianSplat.SelectColorGroup | ply23dgs.py:71-78 | the candidate loop picks the first complete colour group of (`red`…), (`r`…), (`diffuse_red`…), or none |
| GaussianSplat.ChosenGroup | ply23dgs.py:71-78 | a chosen group has three names, all present |
| GaussianSplat.ReadXyzRgb | ply23dgs.py:62-87 | fails exactly when x, y or z is missing, naming the first; otherwise returns one position per row and each row's colour `PointColor`: from the chosen group, or the default colour when no group is complete |
| GaussianSplat.DefaultSettings | ply23dgs.py:31-40 | the shipped settings give no higher-order coefficients, 17 fields, log-scales of 0.01 on every axis, and opacity ln 4, whose sigmoid is 0.8 |

## Left out

- PLY decoding (`PlyData.read`) and `save_ply` are not modelled. The input is an
  already-parsed element, and the splat output is the structured rows together with
  their field names.
- Console output (`print`), progress messages, `main`, `batch_convert` with its
  directory listing, and the module-level path settings are left out. They are I/O.
  The splat settings are passed as a `Config` value.
- The bit patterns of IEEE-754 doubles are not modelled. The binary writer takes the
  encoder as a parameter, and the decoder hands the 8 bytes back.
- ColmapBinary.EncodeU64: byte order is fixed to little-endian. `struct.pack("Q")`
  uses the machine's native order, which is little-endian on the platforms COLMAP
  targets.
- ColmapBinary.WritePoints3DBinary: the requirement `count < 2^64` stands for
  `struct.pack("Q")` failing on larger counts. The model does not include that
  error.
- Python's `repr` of a float (the `{x}` in the f-string) is a
  parameter `fmt`. Its properties are assumed only as a precondition of the parsing
  lemmas (no space or newline in a rendered float).
- GaussianSplat.SplatOf: the `float32` casts (`np.float32`, `.astype`) and their
  rounding are not modelled. Arithmetic is on reals.
- GaussianSplat.Logit: the logarithm is symbolic (`Ln(arg)`). Its numeric value is
  not computed, and only `sigmoid(ln a) = a / (1 + a)` is used.
- `SH_DEGREE` is a natural number. A negative setting,
  or a 3-vector scale given as a differently shaped array, is outside the model.
- Non-finite cells (NaN, infinities) are outside the model, which has only real
  numbers. In the source, `int()` on such a colour raises partway through the loop
  (ply2bin.py:58, ply2txt.py:47-53) and leaves a partial file.
- GaussianSplat.ReadXyzRgb: a colour group whose names are present but whose
  columns cannot be cast to float is not modelled. Every cell is a real.
- ColmapBinary.DecodeFile: it reads the records the writer produces, whose track
  length is always 0. It does not read track entries of general COLMAP files.
- The other scripts of the repository are not part of this model: `npy2png.py`,
  `txt2bin.py`, `jgz2txt.py`, `npy2txt.py` and `bin2txt.py`.

Behaviours of the source that the model keeps as written:

- `ply2bin.py` checks only for `red` before reading `green` and `blue`
  (ply2bin.py:22-25). An element with `red` but no `green` fails with a missing
  `green`.
- The binary writer stores error `0.0` (ply2bin.py:44). The text writer stores
  `1.0` (ply2txt.py:57).
- In `ply2bin.py` a colour outside 0..255 makes `struct.pack("BBB")` fail
  mid-file. The model returns the bytes written up to that point.
