/**
 * The line layout shared by the message writers of ST7920.py and ST7565.py:
 * Python's `str.split`, the alignment margins computed from the free space
 * `add`, and the placement of a rendered line in a fixed-width row, padded
 * when it fits and cut to a window when it overflows.  Also the proportional
 * glyph composition of ST7565.py: glyphs back to back with one blank column
 * between neighbours.
 */
module Layout {
  import opened Bus

  // ------------------------------------------------------------- split

  /** Python's `s.split(sep)`: the pieces between separators, at least one. */
  function Split<T(==)>(s: seq<T>, sep: T): (r: seq<seq<T>>)
    ensures |r| >= 1
    decreases |s|
  {
    if s == [] then [[]]
    else
      var rest := Split(s[1..], sep);
      if s[0] == sep then [[]] + rest else [[s[0]] + rest[0]] + rest[1..]
  }

  /** Python's `sep.join(pieces)`. */
  function Join<T>(pieces: seq<seq<T>>, sep: T): seq<T>
    requires |pieces| >= 1
    decreases |pieces|
  {
    if |pieces| == 1 then pieces[0] else pieces[0] + [sep] + Join(pieces[1..], sep)
  }

  /** How often x occurs in s. */
  function Count<T(==)>(s: seq<T>, x: T): nat
  {
    if s == [] then 0 else (if s[0] == x then 1 else 0) + Count(s[1..], x)
  }

  /**
   * Splitting loses nothing and keeps no separator: joining the pieces gives
   * the text back, no piece holds the separator, and there is one piece more
   * than separators.
   */
  lemma {:induction false} SplitJoin<T>(s: seq<T>, sep: T)
    ensures Join(Split(s, sep), sep) == s
    ensures forall k :: 0 <= k < |Split(s, sep)| ==> sep !in Split(s, sep)[k]
    ensures |Split(s, sep)| == Count(s, sep) + 1
  {
    if s != [] {
      var rest := Split(s[1..], sep);
      SplitJoin(s[1..], sep);
      if s[0] == sep {
        assert Split(s, sep)[1..] == rest;
      } else {
        var r := Split(s, sep);
        if |rest| == 1 {
          assert r == [[s[0]] + rest[0]];
        } else {
          assert r[1..] == rest[1..];
          assert Join(rest, sep) == rest[0] + [sep] + Join(rest[1..], sep);
        }
        forall k | 0 <= k < |r|
          ensures sep !in r[k]
        {
          if k > 0 {
            assert r[k] == rest[k];
          }
        }
      }
    }
  }

  // ----------------------------------------------------------- margins

  /** The blank space before (`left`) and after (`right`) a line. */
  datatype Margins = Margins(left: int, right: int)

  /**
   * addl and addr from the free space `add` and the alignment letter; None
   * for any other letter, where the writer prints a complaint and then
   * fails on the unset addl.  Centring gives `add - add//2` to the left,
   * so an odd blank unit goes to the left.
   */
  function AlignMargins(add: int, align: char): (r: Option<Margins>)
    ensures r.Some? <==> align == 'l' || align == 'r' || align == 'c'
    ensures r.Some? ==> r.value.left + r.value.right == add
    ensures align == 'l' ==> r == Some(Margins(0, add))
    ensures align == 'r' ==> r == Some(Margins(add, 0))
  {
    if align == 'l' then Some(Margins(0, add))
    else if align == 'r' then Some(Margins(add, 0))
    else if align == 'c' then Some(Margins(add - PyFloorDiv(add, 2), PyFloorDiv(add, 2)))
    else None
  }

  /**
   * Centring splits the free space evenly with the odd unit on the left,
   * and an overflow evenly with the odd unit cut on the left.
   */
  lemma CentreOddLeft(add: int)
    ensures var m := AlignMargins(add, 'c').value;
      m.left == m.right || m.left == m.right + 1
    ensures var m := AlignMargins(add, 'c').value;
      (add >= 0 ==> m.left >= 0 && m.right >= 0) && (add < 0 ==> m.left <= 0 && m.right <= 0)
    ensures AlignMargins(7, 'c') == Some(Margins(4, 3))
  {
  }

  /** Margins a valid alignment gives are both non-negative or both non-positive. */
  predicate SameSign(m: Margins)
  {
    (m.left >= 0 && m.right >= 0) || (m.left <= 0 && m.right <= 0)
  }

  lemma MarginsSameSign(add: int, align: char)
    requires AlignMargins(add, align).Some?
    ensures SameSign(AlignMargins(add, align).value)
    ensures SameSign(Margins(8 * AlignMargins(add, align).value.left, 8 * AlignMargins(add, align).value.right))
    ensures SameSign(Margins(2 * AlignMargins(add, align).value.left, 2 * AlignMargins(add, align).value.right))
  {
    if align == 'c' {
      CentreOddLeft(add);
    }
  }

  // ---------------------------------------------------------- placement

  /** n copies of a byte. */
  function Fill(b: bv8, n: int): (r: seq<bv8>)
    ensures |r| == if n > 0 then n else 0
    ensures forall k :: 0 <= k < |r| ==> r[k] == b
  {
    if n <= 0 then [] else seq(n, k => b)
  }

  /**
   * A rendered line placed in a row of `width` bytes with margins of `left`
   * and `right` bytes of `fill`: the row is the margins around the content
   * when they are non-negative, and otherwise the window
   * `content[-right : width - right]`.
   */
  function Place(content: seq<bv8>, width: nat, m: Margins, fill: bv8): (r: seq<bv8>)
    requires m.left + m.right + |content| == width
    requires SameSign(m)
    ensures |r| == width
  {
    if m.left >= 0 && m.right >= 0 then Fill(fill, m.left) + content + Fill(fill, m.right)
    else content[-m.right .. width - m.right]
  }

  /** A line that fits lies at offset `left` with `fill` everywhere else. */
  lemma PlaceFits(content: seq<bv8>, width: nat, m: Margins, fill: bv8, k: nat)
    requires m.left + m.right + |content| == width && m.left >= 0 && m.right >= 0
    requires k < width
    ensures Place(content, width, m, fill)[k] ==
      if m.left <= k < m.left + |content| then content[k - m.left] else fill
  {
    var a, b := Fill(fill, m.left), Fill(fill, m.right);
    assert Place(content, width, m, fill) == a + content + b;
    if k < m.left {
      assert (a + content + b)[k] == a[k];
    } else if k < m.left + |content| {
      assert (a + content + b)[k] == content[k - m.left];
    } else {
      assert (a + content + b)[k] == b[k - m.left - |content|];
    }
  }

  /** A piece of a line that fits, found at offset a of the line, lies at left + a in the row. */
  lemma PlacedPiece(content: seq<bv8>, width: nat, m: Margins, fill: bv8, a: nat, piece: seq<bv8>)
    requires m.left + m.right + |content| == width && m.left >= 0 && m.right >= 0
    requires a + |piece| <= |content| && content[a .. a + |piece|] == piece
    ensures forall c :: 0 <= c < |piece| ==>
      m.left + a + c < width && Place(content, width, m, fill)[m.left + a + c] == piece[c]
  {
    forall c | 0 <= c < |piece|
      ensures m.left + a + c < width && Place(content, width, m, fill)[m.left + a + c] == piece[c]
    {
      PlaceFits(content, width, m, fill, m.left + a + c);
      assert content[a + c] == content[a .. a + |piece|][c];
    }
  }

  /**
   * A line that overflows shows `width` consecutive bytes of itself that
   * start `-right` bytes in: the window lies inside the line.
   */
  lemma PlaceOverflows(content: seq<bv8>, width: nat, m: Margins, fill: bv8)
    requires m.left + m.right + |content| == width && SameSign(m) && m.left + m.right < 0
    ensures 0 <= -m.right && -m.right + width <= |content|
    ensures Place(content, width, m, fill) == content[-m.right .. -m.right + width]
  {
  }

  /**
   * The alignments in a row: left puts the line first, right puts it last;
   * on overflow left keeps the last `width` bytes and right the first.
   */
  lemma AlignedPlacement(content: seq<bv8>, width: nat, fill: bv8)
    ensures var l := Place(content, width, AlignMargins(width - |content|, 'l').value, fill);
      (|content| <= width ==> l[..|content|] == content && l[|content|..] == Fill(fill, width - |content|))
      && (|content| > width ==> l == content[|content| - width..])
    ensures var r := Place(content, width, AlignMargins(width - |content|, 'r').value, fill);
      (|content| <= width ==> r[width - |content|..] == content && r[..width - |content|] == Fill(fill, width - |content|))
      && (|content| > width ==> r == content[..width])
  {
    var add := width - |content|;
    if add >= 0 {
      var l := Place(content, width, Margins(0, add), fill);
      assert l == [] + content + Fill(fill, add);
      var r := Place(content, width, Margins(add, 0), fill);
      assert r == Fill(fill, add) + content + [];
    }
  }

  // ----------------------------------------------------- proportional glyphs

  /** Glyphs back to back with one zero column between neighbours. */
  function Composed(glyphs: seq<seq<bv8>>): seq<bv8>
  {
    if |glyphs| == 0 then []
    else if |glyphs| == 1 then glyphs[0]
    else Composed(glyphs[..|glyphs| - 1]) + [0] + glyphs[|glyphs| - 1]
  }

  /** The total width of the glyphs. */
  function SumWidths(glyphs: seq<seq<bv8>>): nat
  {
    if glyphs == [] then 0 else SumWidths(glyphs[..|glyphs| - 1]) + |glyphs[|glyphs| - 1]|
  }

  /** The column where glyph k starts: the widths before it plus one gap each. */
  function GlyphStart(glyphs: seq<seq<bv8>>, k: nat): nat
    requires k <= |glyphs|
  {
    SumWidths(glyphs[..k]) + k
  }

  /**
   * The composed line is Σwidths + (n - 1) columns wide (0 when empty);
   * glyph k occupies the columns from GlyphStart(k), and the column after
   * every glyph but the last is blank.
   */
  lemma {:induction false} ComposedLayout(glyphs: seq<seq<bv8>>, k: nat)
    requires k < |glyphs|
    ensures |Composed(glyphs)| == SumWidths(glyphs) + |glyphs| - 1
    ensures GlyphStart(glyphs, k) + |glyphs[k]| <= |Composed(glyphs)|
    ensures Composed(glyphs)[GlyphStart(glyphs, k) .. GlyphStart(glyphs, k) + |glyphs[k]|] == glyphs[k]
    ensures k + 1 < |glyphs| ==> GlyphStart(glyphs, k) + |glyphs[k]| < |Composed(glyphs)|
    ensures k + 1 < |glyphs| ==> Composed(glyphs)[GlyphStart(glyphs, k) + |glyphs[k]|] == 0
    decreases |glyphs|
  {
    var n := |glyphs|;
    if n == 1 {
      assert glyphs[..0] == [];
    } else {
      var init := glyphs[..n - 1];
      var prev := Composed(init);
      assert Composed(glyphs) == prev + [0] + glyphs[n - 1];
      ComposedLayout(init, if k < n - 1 then k else 0);
      assert |prev| == SumWidths(init) + n - 2;
      if k < n - 1 {
        assert init[k] == glyphs[k];
        assert glyphs[..k] == init[..k];
        var s := GlyphStart(glyphs, k);
        assert s == GlyphStart(init, k);
        assert Composed(glyphs)[s .. s + |glyphs[k]|] == prev[s .. s + |glyphs[k]|];
        if k + 1 < n - 1 {
          assert Composed(glyphs)[s + |glyphs[k]|] == prev[s + |glyphs[k]|];
        } else {
          assert glyphs[..k + 1] == init;
          assert s + |glyphs[k]| == |prev|;
        }
      } else {
        assert glyphs[..k] == init;
        assert GlyphStart(glyphs, k) == |prev| + 1;
      }
    }
  }

  /**
   * A composed line placed in a row it fits: glyph k starts at column
   * left + GlyphStart(k), a blank column follows every glyph but the last,
   * and the margins hold the fill.
   */
  lemma ComposedPlaced(glyphs: seq<seq<bv8>>, width: nat, m: Margins, k: nat)
    requires k < |glyphs|
    requires m.left + m.right + |Composed(glyphs)| == width && m.left >= 0 && m.right >= 0
    ensures var row := Place(Composed(glyphs), width, m, 0);
      var s := m.left + GlyphStart(glyphs, k);
      (forall c :: 0 <= c < |glyphs[k]| ==> s + c < width && row[s + c] == glyphs[k][c])
      && (k + 1 < |glyphs| ==> s + |glyphs[k]| < width && row[s + |glyphs[k]|] == 0)
      && (forall i :: 0 <= i < width && (i < m.left || i >= m.left + |Composed(glyphs)|) ==> row[i] == 0)
  {
    var content := Composed(glyphs);
    ComposedLayout(glyphs, k);
    var a := GlyphStart(glyphs, k);
    PlacedPiece(content, width, m, 0, a, glyphs[k]);
    if k + 1 < |glyphs| {
      PlaceFits(content, width, m, 0, m.left + a + |glyphs[k]|);
    }
    forall i | 0 <= i < width && (i < m.left || i >= m.left + |content|)
      ensures Place(content, width, m, 0)[i] == 0
    {
      PlaceFits(content, width, m, 0, i);
    }
  }

  /** Width of the composed line: 0 for no glyphs, else Σwidths + (n - 1). */
  lemma ComposedWidth(glyphs: seq<seq<bv8>>)
    ensures |Composed(glyphs)| == if glyphs == [] then 0 else SumWidths(glyphs) + |glyphs| - 1
  {
    if glyphs != [] {
      ComposedLayout(glyphs, 0);
    }
  }

  /** For example glyphs of widths 3 and 4 compose to 8 columns. */
  lemma ComposedExample()
    ensures Composed([[1, 2, 3], [4, 5, 6, 7]]) == [1, 2, 3, 0, 4, 5, 6, 7]
  {
    var gs: seq<seq<bv8>> := [[1, 2, 3], [4, 5, 6, 7]];
    assert gs[..1] == [[1, 2, 3]];
  }

  /** Monospaced glyphs simply concatenated, as message_m copies them. */
  function Concat(glyphs: seq<seq<bv8>>): seq<bv8>
  {
    if glyphs == [] then [] else Concat(glyphs[..|glyphs| - 1]) + glyphs[|glyphs| - 1]
  }

  /** Eight-byte glyphs: glyph k is at bytes 8k .. 8k + 8. */
  lemma {:induction false} ConcatLayout(glyphs: seq<seq<bv8>>, k: nat)
    requires forall j :: 0 <= j < |glyphs| ==> |glyphs[j]| == 8
    requires k < |glyphs|
    ensures |Concat(glyphs)| == 8 * |glyphs|
    ensures Concat(glyphs)[8 * k .. 8 * k + 8] == glyphs[k]
    decreases |glyphs|
  {
    var n := |glyphs|;
    var init := glyphs[..n - 1];
    if n == 1 {
      assert Concat(glyphs) == [] + glyphs[0];
    } else {
      ConcatLayout(init, if k < n - 1 then k else 0);
      if k < n - 1 {
        assert init[k] == glyphs[k];
      }
    }
  }
}
