/** Console output: every message is printed indented by two spaces, continuation lines
    included; `header` frames a text between two tiled borders. */
module Console {

  /** `str.replace('\n', '\n  ')`: every line break is followed by a two-space indent. */
  function Indent(t: string): (r: string)
    ensures |r| >= |t|
  {
    if t == [] then []
    else (if t[0] == '\n' then "\n  " else [t[0]]) + Indent(t[1..])
  }

  /** Undoes `Indent`: a line break followed by two spaces loses the spaces. */
  function Unindent(r: string): string
  {
    if r == [] then []
    else if |r| >= 3 && r[..3] == "\n  " then "\n" + Unindent(r[3..])
    else [r[0]] + Unindent(r[1..])
  }

  /** Number of line breaks in `t`. */
  function Breaks(t: string): nat
  {
    if t == [] then 0 else (if t[0] == '\n' then 1 else 0) + Breaks(t[1..])
  }

  /** What `push_text(t)` prints: two spaces, the indented text and the line end `print` adds. */
  function Rendered(t: string): string
  {
    "  " + Indent(t) + "\n"
  }

  /** The printed text starts with the two-space indent and ends with the line end, and each
      line break of the text costs two more characters. */
  lemma {:induction false} RenderedShape(t: string)
    ensures var r := Rendered(t);
      |r| == |t| + 2 * Breaks(t) + 3 && r[..2] == "  " && r[|r| - 1] == '\n'
  {
    IndentLength(t);
  }

  /** The indentation loses nothing: removing it gives back the text. */
  lemma {:induction false} UnindentIndent(t: string)
    ensures Unindent(Indent(t)) == t
  {
    if t != [] {
      var head := if t[0] == '\n' then "\n  " else [t[0]];
      var r := head + Indent(t[1..]);
      UnindentIndent(t[1..]);
      if t[0] == '\n' {
        assert r[..3] == "\n  " && r[3..] == Indent(t[1..]);
      } else {
        assert r[0] == t[0] && r[1..] == Indent(t[1..]);
        assert !(|r| >= 3 && r[..3] == "\n  ") by {
          if |r| >= 3 { assert r[..3][0] == t[0]; }
        }
      }
      assert [t[0]] + t[1..] == t;
    }
  }

  /** Each line break gains exactly two characters. */
  lemma {:induction false} IndentLength(t: string)
    ensures |Indent(t)| == |t| + 2 * Breaks(t)
  {
    if t != [] {
      IndentLength(t[1..]);
    }
  }

  /** In the indented text every line break is followed by two spaces. */
  lemma {:induction false} IndentBreaks(t: string, k: nat)
    requires k < |Indent(t)| && Indent(t)[k] == '\n'
    ensures k + 3 <= |Indent(t)| && Indent(t)[k + 1] == ' ' && Indent(t)[k + 2] == ' '
  {
    var head := if t[0] == '\n' then "\n  " else [t[0]];
    assert Indent(t) == head + Indent(t[1..]);
    if k >= |head| {
      assert Indent(t)[k] == Indent(t[1..])[k - |head|];
      IndentBreaks(t[1..], k - |head|);
    }
  }

  /** `s * n` in Python: `n` copies of `s`, none when `n` is not positive. */
  function Repeat(s: string, n: int): (r: string)
    decreases if n <= 0 then 0 else n
  {
    if n <= 0 then [] else Repeat(s, n - 1) + s
  }

  lemma {:induction false} RepeatLength(s: string, n: int)
    ensures |Repeat(s, n)| == if n <= 0 then 0 else n * |s|
    decreases if n <= 0 then 0 else n
  {
    if n > 0 {
      RepeatLength(s, n - 1);
    }
  }

  /** The three texts `header` pushes: a border of `pattern` tiled once more than fits in
      `|text| + margin`, the text padded on both sides, and the border again. The division is
      Python's floor division, which for a positive divisor is Dafny's. */
  function Header(text: string, pattern: string, margin: int): (lines: seq<string>)
    requires |pattern| > 0
    ensures |lines| == 3 && lines[0] == lines[2]
  {
    var width := |text| + margin;
    var tiles := width / |pattern| + 1;
    var padding := Repeat(" ", (tiles * |pattern| - width) / 2 + margin / 2);
    var border := Repeat(pattern, tiles);
    [border, padding + text + padding, border]
  }

  /** When the box width is not negative, the border is strictly wider than the text plus
      its margin, and by less than one more tile. */
  lemma {:induction false} HeaderBorderWidth(text: string, pattern: string, margin: int)
    requires |pattern| > 0 && |text| + margin >= 0
    ensures var border := Header(text, pattern, margin)[0];
      |text| + margin < |border| <= |text| + margin + |pattern|
  {
    var width := |text| + margin;
    var tiles := width / |pattern| + 1;
    RepeatLength(pattern, tiles);
    assert tiles * |pattern| == (width / |pattern|) * |pattern| + |pattern|;
    assert width == (width / |pattern|) * |pattern| + width % |pattern|;
  }

  /** With a non-negative even margin, the padded text is as wide as the border or one
      character narrower: the text is centred under it. */
  lemma {:induction false} HeaderCentred(text: string, pattern: string, margin: int)
    requires |pattern| > 0 && margin >= 0 && margin % 2 == 0
    ensures var lines := Header(text, pattern, margin);
      |lines[0]| - 1 <= |lines[1]| <= |lines[0]|
  {
    var width := |text| + margin;
    var tiles := width / |pattern| + 1;
    var gap := tiles * |pattern| - width;
    HeaderBorderWidth(text, pattern, margin);
    RepeatLength(pattern, tiles);
    var pad := gap / 2 + margin / 2;
    RepeatLength(" ", pad);
    assert 2 * (margin / 2) == margin;
    assert gap - 1 <= 2 * (gap / 2) <= gap;
  }
}
