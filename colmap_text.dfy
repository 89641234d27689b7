/** The COLMAP `points3D.txt` writer `ply_to_colmap_points3D`: checks that the
    element has `x`, `y` and `z`, picks its colour columns (`red green blue`,
    else `r g b`, else white), then writes two comment lines and one line
    `id x y z r g b error` per row, with ids 1..N, error 1.0 and no track. The
    text of a coordinate is a parameter `fmt` of the writer. */
module ColmapText {
  import opened PointCloud
  import opened Text

  /** The colour columns the writer reads, chosen once before any line is written. */
  datatype ColorMode = RgbFull | RgbShort | NoColor

  const FULL_NAMES: seq<string> := ["red", "green", "blue"]
  const SHORT_NAMES: seq<string> := ["r", "g", "b"]

  /** The colour-name groups in priority order. */
  const TEXT_COLOR_GROUPS: seq<seq<string>> := [FULL_NAMES, SHORT_NAMES]

  /** The mode that goes with each entry of the priority list, `NoColor` past its end. */
  function ModeOfGroup(k: nat): ColorMode
  {
    if k == 0 then RgbFull else if k == 1 then RgbShort else NoColor
  }

  /** The `if`/`elif`/`else` that chooses the colour columns: it agrees with
      taking the first complete group of the priority list. */
  function ColorModeOf(names: set<string>): (mode: ColorMode)
    ensures mode == ModeOfGroup(FirstCompleteGroup(names, TEXT_COLOR_GROUPS))
    ensures mode == RgbFull ==> "red" in names && "green" in names && "blue" in names
    ensures mode == RgbShort ==> "r" in names && "g" in names && "b" in names
  {
    assert Complete(names, FULL_NAMES) <==> "red" in names && "green" in names && "blue" in names by {
      assert FULL_NAMES[0] == "red" && FULL_NAMES[1] == "green" && FULL_NAMES[2] == "blue";
    }
    assert Complete(names, SHORT_NAMES) <==> "r" in names && "g" in names && "b" in names by {
      assert SHORT_NAMES[0] == "r" && SHORT_NAMES[1] == "g" && SHORT_NAMES[2] == "b";
    }
    assert TEXT_COLOR_GROUPS[1..][1..] == [];
    if "red" in names && "green" in names && "blue" in names then RgbFull
    else if "r" in names && "g" in names && "b" in names then RgbShort
    else NoColor
  }


  /** The colour written on row `i`, as `int()` of the chosen columns, or white. */
  function RowColor(v: Vertex, mode: ColorMode, i: nat): (int, int, int)
    requires Valid(v) && i < v.count && mode == ColorModeOf(Names(v))
  {
    match mode
    case RgbFull =>
      (Trunc(v.columns["red"][i]), Trunc(v.columns["green"][i]), Trunc(v.columns["blue"][i]))
    case RgbShort =>
      (Trunc(v.columns["r"][i]), Trunc(v.columns["g"][i]), Trunc(v.columns["b"][i]))
    case NoColor => (WHITE, WHITE, WHITE)
  }

  const COMMENT_MARK: char := '#'
  const HEADER_TITLE: string := [COMMENT_MARK] + " 3D point list with one line of data per point:"
  const HEADER_COLUMNS: string := [COMMENT_MARK] + " POINT3D_ID, X, Y, Z, R, G, B, ERROR, TRACK[]"

  /** The two comment lines that open the file. */
  const HEADER: seq<string> := [HEADER_TITLE, HEADER_COLUMNS]

  /** The reprojection error every line carries, as Python prints `1.0`. */
  const ERROR_TEXT: string := "1.0"

  /** The eight fields of one data line. */
  function PointFields(id: nat, x: string, y: string, z: string, color: (int, int, int)): seq<string>
  {
    [NatToString(id), x, y, z, IntToString(color.0), IntToString(color.1), IntToString(color.2), ERROR_TEXT]
  }

  /** The data line for row `i`, with id `i + 1`. */
  function PointLine(v: Vertex, fmt: real -> string, i: nat): string
    requires Valid(v) && i < v.count && "x" in Names(v) && "y" in Names(v) && "z" in Names(v)
  {
    var mode := ColorModeOf(Names(v));
    Join(' ', PointFields(i + 1, fmt(v.columns["x"][i]), fmt(v.columns["y"][i]), fmt(v.columns["z"][i]),
                          RowColor(v, mode, i)))
  }

  /** The data lines for the first `n` rows. */
  function PointLines(v: Vertex, fmt: real -> string, n: nat): (lines: seq<string>)
    requires Valid(v) && n <= v.count && "x" in Names(v) && "y" in Names(v) && "z" in Names(v)
    ensures |lines| == n
  {
    seq(n, i requires 0 <= i < n => PointLine(v, fmt, i))
  }

  datatype TextError = MissingProperty(name: string)

  /** The `for k in ("x", "y", "z")` check: the first position property missing. */
  method CheckPosition(names: set<string>) returns (missing: Option<string>)
    ensures missing == MissingKey(names, POSITION_KEYS)
  {
    var keys := POSITION_KEYS;
    var j := 0;
    while j < |keys|
      invariant 0 <= j <= |keys|
      invariant forall m :: 0 <= m < j ==> keys[m] in names
    {
      if keys[j] !in names {
        return Some(keys[j]);
      }
      j := j + 1;
    }
    return None;
  }

  /** `ply_to_colmap_points3D` on an already-parsed vertex element. `lines` are
      the lines of the output file (each followed by a newline), `written` the
      count it reports. A missing position property stops it before the file
      is opened. */
  method WritePoints3DText(v: Vertex, fmt: real -> string) returns (err: Option<TextError>, lines: seq<string>, written: nat)
    requires Valid(v)
    ensures err.Some? <==> !("x" in Names(v) && "y" in Names(v) && "z" in Names(v))
    ensures err == (var m := MissingKey(Names(v), POSITION_KEYS);
                    if m.Some? then Some(MissingProperty(m.value)) else None)
    ensures err.Some? ==> lines == []
    ensures err.None? ==> lines == HEADER + PointLines(v, fmt, v.count) && written == v.count
  {
    PositionKeysPresent(Names(v));
    var missing := CheckPosition(Names(v));
    if missing.Some? {
      return Some(MissingProperty(missing.value)), [], 0;
    }
    var mode := ColorModeOf(Names(v));
    lines := HEADER;
    var pointId := 1;
    while pointId <= v.count
      invariant 1 <= pointId <= v.count + 1
      invariant lines == HEADER + PointLines(v, fmt, pointId - 1)
    {
      var i := pointId - 1;
      var x, y, z := v.columns["x"][i], v.columns["y"][i], v.columns["z"][i];
      var r, g, b;
      if mode == RgbFull {
        r, g, b := Trunc(v.columns["red"][i]), Trunc(v.columns["green"][i]), Trunc(v.columns["blue"][i]);
      } else if mode == RgbShort {
        r, g, b := Trunc(v.columns["r"][i]), Trunc(v.columns["g"][i]), Trunc(v.columns["b"][i]);
      } else {
        r, g, b := WHITE, WHITE, WHITE;
      }
      var line := Join(' ', PointFields(pointId, fmt(x), fmt(y), fmt(z), (r, g, b)));
      assert line == PointLine(v, fmt, i);
      assert PointLines(v, fmt, pointId) == PointLines(v, fmt, i) + [line];
      lines := lines + [line];
      pointId := pointId + 1;
    }
    err, written := None, pointId - 1;
  }

  /** The file's text: every line followed by a newline. */
  function FileText(lines: seq<string>): string
  {
    if |lines| == 0 then "" else lines[0] + "\n" + FileText(lines[1..])
  }

  /** Reading the file back line by line (`split("\n")`) yields the lines
      written, then the empty piece after the final newline. */
  lemma {:induction false} FileTextLines(lines: seq<string>)
    requires forall k :: 0 <= k < |lines| ==> '\n' !in lines[k]
    ensures Split('\n', FileText(lines)) == lines + [""]
    decreases |lines|
  {
    if |lines| > 0 {
      SplitPiece('\n', lines[0], FileText(lines[1..]));
      FileTextLines(lines[1..]);
      assert [lines[0]] + (lines[1..] + [""]) == lines + [""];
    }
  }

  /** A coordinate's text never holds a blank or a line break, as Python's float repr. */
  predicate IsToken(s: string)
  {
    ' ' !in s && '\n' !in s
  }

  /** `fmt` renders every coordinate as a single field. */
  ghost predicate FormatsTokens(fmt: real -> string)
  {
    forall t :: IsToken(fmt(t))
  }

  lemma DecimalIsToken(i: int)
    ensures IsToken(IntToString(i)) && IsToken(NatToString(if i < 0 then -i else i))
  {
    var s := IntToString(i);
    assert forall k :: 0 <= k < |s| ==> IsDigit(s[k]) || s[k] == '-';
    var t := NatToString(if i < 0 then -i else i);
    assert forall k :: 0 <= k < |t| ==> IsDigit(t[k]);
  }

  /** Each data line splits on blanks into exactly eight fields: the id `i + 1`,
      the three coordinates, the three colour values of the chosen columns and
      the error 1.0; no track field follows. Each line is free of line breaks. */
  lemma PointLineFields(v: Vertex, fmt: real -> string, i: nat)
    requires Valid(v) && i < v.count && "x" in Names(v) && "y" in Names(v) && "z" in Names(v)
    requires FormatsTokens(fmt)
    ensures '\n' !in PointLine(v, fmt, i)
    ensures var fields := Split(' ', PointLine(v, fmt, i));
      && |fields| == 8
      && IsDigitString(fields[0]) && NatFromString(fields[0]) == i + 1
      && fields[1] == fmt(v.columns["x"][i])
      && fields[2] == fmt(v.columns["y"][i])
      && fields[3] == fmt(v.columns["z"][i])
      && IsIntString(fields[4]) && IsIntString(fields[5]) && IsIntString(fields[6])
      && (IntFromString(fields[4]), IntFromString(fields[5]), IntFromString(fields[6]))
         == RowColor(v, ColorModeOf(Names(v)), i)
      && fields[7] == "1.0"
  {
    var color := RowColor(v, ColorModeOf(Names(v)), i);
    var x, y, z := v.columns["x"][i], v.columns["y"][i], v.columns["z"][i];
    var tx, ty, tz := fmt(x), fmt(y), fmt(z);
    assert IsToken(tx) && IsToken(ty) && IsToken(tz);
    var parts := PointFields(i + 1, tx, ty, tz, color);
    DecimalIsToken(i + 1);
    DecimalIsToken(color.0);
    DecimalIsToken(color.1);
    DecimalIsToken(color.2);
    assert IsToken(ERROR_TEXT) by {
      assert ERROR_TEXT == ['1', '.', '0'];
    }
    assert IsToken(parts[0]) && IsToken(parts[1]) && IsToken(parts[2]) && IsToken(parts[3]);
    assert IsToken(parts[4]) && IsToken(parts[5]) && IsToken(parts[6]) && IsToken(parts[7]);
    assert forall k :: 0 <= k < |parts| ==> IsToken(parts[k]);
    SplitJoin(' ', parts);
    JoinChars(' ', parts, '\n');
    NatStringRoundTrip(i + 1);
    IntStringRoundTrip(color.0);
    IntStringRoundTrip(color.1);
    IntStringRoundTrip(color.2);
  }

  predicate IsDigitString(s: string)
  {
    forall k :: 0 <= k < |s| ==> IsDigit(s[k])
  }

  predicate IsComment(line: string)
  {
    0 < |line| && line[0] == COMMENT_MARK
  }

  /** A data line starts with the first digit of its id, never with `#`. */
  lemma PointLineStart(v: Vertex, fmt: real -> string, i: nat)
    requires Valid(v) && i < v.count && "x" in Names(v) && "y" in Names(v) && "z" in Names(v)
    ensures 0 < |PointLine(v, fmt, i)| && IsDigit(PointLine(v, fmt, i)[0])
  {
    var color := RowColor(v, ColorModeOf(Names(v)), i);
    var parts := PointFields(i + 1, fmt(v.columns["x"][i]), fmt(v.columns["y"][i]), fmt(v.columns["z"][i]), color);
    var id := NatToString(i + 1);
    assert parts[0] == id;
    assert PointLine(v, fmt, i) == id + [' '] + Join(' ', parts[1..]);
    assert IsDigit(id[0]);
  }

  /** Of the written lines exactly the first two are `#` comments, and the data
      line at position `k` carries id `k - 1`: ids run 1..N in row order. */
  lemma CommentsThenData(v: Vertex, fmt: real -> string, lines: seq<string>)
    requires Valid(v) && "x" in Names(v) && "y" in Names(v) && "z" in Names(v)
    requires FormatsTokens(fmt)
    requires lines == HEADER + PointLines(v, fmt, v.count)
    ensures |lines| == 2 + v.count
    ensures forall k :: 0 <= k < |lines| ==> (IsComment(lines[k]) <==> k < 2)
    ensures forall k :: 2 <= k < |lines| ==>
      var fields := Split(' ', lines[k]);
      |fields| == 8 && IsDigitString(fields[0]) && NatFromString(fields[0]) == k - 1
  {
    assert lines[0] == HEADER[0] && lines[1] == HEADER[1];
    assert HEADER_TITLE[0] == COMMENT_MARK && HEADER_COLUMNS[0] == COMMENT_MARK;
    forall k | 2 <= k < |lines|
      ensures !IsComment(lines[k])
      ensures var fields := Split(' ', lines[k]);
        |fields| == 8 && IsDigitString(fields[0]) && NatFromString(fields[0]) == k - 1
    {
      assert lines[k] == PointLine(v, fmt, k - 2);
      PointLineStart(v, fmt, k - 2);
      PointLineFields(v, fmt, k - 2);
    }
  }
}
