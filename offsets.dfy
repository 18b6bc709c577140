/**
 * The offsets part of the HTML report: the table of P-site offsets per
 * RPF length, and the section that shows it, with the plastid image only
 * when the offsets were computed by plastid.
 */
module Offsets {
  import opened Wrappers
  import Decimal

  /** One line of the offsets file: an RPF length and the offset chosen for it. */
  datatype OffsetRow = OffsetRow(rpf: int, offset: int)

  /**
   * Why no table can be built: the offsets file holds no line, or some
   * length between the smallest and the largest has not exactly one
   * offset (`found` of them), so the selection cannot become one integer.
   */
  datatype TableError = NoOffsets | NotOneOffset(rpf: int, found: nat)

  /** The smallest RPF length in the file. */
  function MinRpf(rows: seq<OffsetRow>): (m: int)
    requires rows != []
    ensures forall i :: 0 <= i < |rows| ==> m <= rows[i].rpf
    ensures exists i :: 0 <= i < |rows| && rows[i].rpf == m
  {
    if |rows| == 1 then rows[0].rpf
    else
      var m := MinRpf(rows[1..]);
      if rows[0].rpf <= m then rows[0].rpf else m
  }

  /** The largest RPF length in the file. */
  function MaxRpf(rows: seq<OffsetRow>): (m: int)
    requires rows != []
    ensures forall i :: 0 <= i < |rows| ==> rows[i].rpf <= m
    ensures exists i :: 0 <= i < |rows| && rows[i].rpf == m
  {
    if |rows| == 1 then rows[0].rpf
    else
      var m := MaxRpf(rows[1..]);
      if m <= rows[0].rpf then rows[0].rpf else m
  }

  /** The offsets recorded for length `len`, in file order: the selection of the offset column. */
  function OffsetsFor(rows: seq<OffsetRow>, len: int): (sel: seq<int>)
    ensures |sel| <= |rows|
  {
    if rows == [] then []
    else (if rows[0].rpf == len then [rows[0].offset] else []) + OffsetsFor(rows[1..], len)
  }

  /** Row `i` is the one and only line of the file for length `len`. */
  predicate OnlyRowFor(rows: seq<OffsetRow>, len: int, i: int)
  {
    0 <= i < |rows| && rows[i].rpf == len &&
    forall j :: 0 <= j < |rows| && rows[j].rpf == len ==> j == i
  }

  /** The selection for a length is a single offset exactly when one line of the file has that length, and it is that line's offset. */
  lemma {:induction false} SingleOffset(rows: seq<OffsetRow>, len: int)
    ensures |OffsetsFor(rows, len)| == 1 ==> exists i :: OnlyRowFor(rows, len, i)
    ensures forall i :: OnlyRowFor(rows, len, i) ==> OffsetsFor(rows, len) == [rows[i].offset]
  {
    if rows != [] {
      var tail := rows[1..];
      SingleOffset(tail, len);
      if rows[0].rpf == len {
        if |OffsetsFor(rows, len)| == 1 {
          assert OffsetsFor(tail, len) == [];
          NoOffsetNoRow(tail, len);
          assert OnlyRowFor(rows, len, 0);
        }
        forall i | OnlyRowFor(rows, len, i)
          ensures OffsetsFor(rows, len) == [rows[i].offset]
        {
          assert i == 0;
          forall j | 0 <= j < |tail|
            ensures tail[j].rpf != len
          {
            assert rows[j + 1] == tail[j];
          }
          NoRowNoOffset(tail, len);
        }
      } else {
        if |OffsetsFor(rows, len)| == 1 {
          var k :| OnlyRowFor(tail, len, k);
          forall j | 0 <= j < |rows| && rows[j].rpf == len
            ensures j == k + 1
          {
            assert j != 0;
            assert tail[j - 1] == rows[j];
          }
          assert OnlyRowFor(rows, len, k + 1);
        }
        forall i | OnlyRowFor(rows, len, i)
          ensures OffsetsFor(rows, len) == [rows[i].offset]
        {
          assert i != 0;
          assert tail[i - 1] == rows[i];
          forall j | 0 <= j < |tail| && tail[j].rpf == len
            ensures j == i - 1
          {
            assert rows[j + 1] == tail[j];
          }
          assert OnlyRowFor(tail, len, i - 1);
        }
      }
    }
  }

  /** An empty selection means no line has that length. */
  lemma {:induction false} NoOffsetNoRow(rows: seq<OffsetRow>, len: int)
    requires OffsetsFor(rows, len) == []
    ensures forall j :: 0 <= j < |rows| ==> rows[j].rpf != len
  {
    if rows != [] {
      NoOffsetNoRow(rows[1..], len);
      forall j | 1 <= j < |rows|
        ensures rows[j].rpf != len
      {
        assert rows[1..][j - 1] == rows[j];
      }
    }
  }

  /** When no line has that length, the selection is empty. */
  lemma {:induction false} NoRowNoOffset(rows: seq<OffsetRow>, len: int)
    requires forall j :: 0 <= j < |rows| ==> rows[j].rpf != len
    ensures OffsetsFor(rows, len) == []
  {
    if rows != [] {
      var tail := rows[1..];
      forall j | 0 <= j < |tail|
        ensures tail[j].rpf != len
      {
        assert tail[j] == rows[j + 1];
      }
      NoRowNoOffset(tail, len);
    }
  }

  /** Every length from `lo` up to but excluding `hi` has exactly one offset. */
  predicate SingleFromTo(rows: seq<OffsetRow>, lo: int, hi: int)
  {
    forall len :: lo <= len < hi ==> |OffsetsFor(rows, len)| == 1
  }

  /** The file can be turned into a table: it is not empty and every length from the smallest to the largest occurs once. */
  predicate EachLengthOnce(rows: seq<OffsetRow>)
  {
    rows != [] && SingleFromTo(rows, MinRpf(rows), MaxRpf(rows) + 1)
  }

  /** The (length, offset) pairs for the lengths `lo` up to but excluding `hi`, in ascending order. */
  function RowsFromTo(rows: seq<OffsetRow>, lo: int, hi: int): seq<(int, int)>
    requires SingleFromTo(rows, lo, hi)
    decreases hi - lo
  {
    if hi <= lo then []
    else RowsFromTo(rows, lo, hi - 1) + [(hi - 1, OffsetsFor(rows, hi - 1)[0])]
  }

  /** The rows the report shows: one per length from the smallest to the largest. */
  function TableRows(rows: seq<OffsetRow>): seq<(int, int)>
    requires EachLengthOnce(rows)
  {
    RowsFromTo(rows, MinRpf(rows), MaxRpf(rows) + 1)
  }

  /** The opening tag of an HTML element: its name and attribute text in angle brackets. */
  function Open(name: string, attrs: string): string
  {
    "<" + name + attrs + ">"
  }

  /** The closing tag of an HTML element. */
  function Close(name: string): string
  {
    "</" + name + ">"
  }

  /** A line break followed by `n` spaces, as the report template lays out its lines. */
  function Break(n: nat): string
  {
    "\n" + seq(n, _ => ' ')
  }

  /** The HTML of one table row. */
  function RowHtml(len: int, offset: int): string
  {
    Open("tr", "") + Break(8) + Open("td", "") + Decimal.IntToString(len) + Close("td") + Break(8) +
    Open("td", "") + Decimal.IntToString(offset) + Close("td") + Break(8) + Close("tr") + Break(8)
  }

  /** The HTML of a sequence of table rows, in order. */
  function RenderRows(t: seq<(int, int)>): string
  {
    if t == [] then ""
    else RenderRows(t[..|t| - 1]) + RowHtml(t[|t| - 1].0, t[|t| - 1].1)
  }

  lemma {:induction false} RowsFromToShape(rows: seq<OffsetRow>, lo: int, hi: int)
    requires SingleFromTo(rows, lo, hi)
    ensures lo <= hi ==> |RowsFromTo(rows, lo, hi)| == hi - lo
    ensures hi < lo ==> RowsFromTo(rows, lo, hi) == []
    ensures forall k :: 0 <= k < |RowsFromTo(rows, lo, hi)| ==>
              RowsFromTo(rows, lo, hi)[k] == (lo + k, OffsetsFor(rows, lo + k)[0])
    decreases hi - lo
  {
    if lo < hi {
      RowsFromToShape(rows, lo, hi - 1);
    }
  }

  /**
   * The table has exactly max-min+1 rows, in ascending length order with
   * no gap.
   */
  lemma TableRowsInOrder(rows: seq<OffsetRow>)
    requires EachLengthOnce(rows)
    ensures |TableRows(rows)| == MaxRpf(rows) - MinRpf(rows) + 1
    ensures forall k :: 0 <= k < |TableRows(rows)| ==> TableRows(rows)[k].0 == MinRpf(rows) + k
    ensures forall k, l :: 0 <= k < l < |TableRows(rows)| ==> TableRows(rows)[k].0 < TableRows(rows)[l].0
  {
    RowsFromToShape(rows, MinRpf(rows), MaxRpf(rows) + 1);
  }

  /** Each row of the table shows the offset of the one line that has its length. */
  lemma TableRowsBacked(rows: seq<OffsetRow>)
    requires EachLengthOnce(rows)
    ensures forall k :: 0 <= k < |TableRows(rows)| ==>
              exists i :: OnlyRowFor(rows, TableRows(rows)[k].0, i) && rows[i].offset == TableRows(rows)[k].1
  {
    forall k | 0 <= k < |TableRows(rows)|
      ensures exists i :: OnlyRowFor(rows, TableRows(rows)[k].0, i) && rows[i].offset == TableRows(rows)[k].1
    {
      RowBacked(rows, MinRpf(rows), MaxRpf(rows) + 1, k);
    }
  }

  /** Row `k` of the rows for `lo` up to `hi` shows the offset of the one line that has its length. */
  lemma RowBacked(rows: seq<OffsetRow>, lo: int, hi: int, k: int)
    requires SingleFromTo(rows, lo, hi)
    requires 0 <= k < |RowsFromTo(rows, lo, hi)|
    ensures exists i :: OnlyRowFor(rows, RowsFromTo(rows, lo, hi)[k].0, i) &&
                        rows[i].offset == RowsFromTo(rows, lo, hi)[k].1
  {
    RowsFromToShape(rows, lo, hi);
    OnlyRowOffset(rows, lo + k);
  }

  /** A single selected offset is the offset of the one line with that length. */
  lemma OnlyRowOffset(rows: seq<OffsetRow>, len: int)
    requires |OffsetsFor(rows, len)| == 1
    ensures exists i :: OnlyRowFor(rows, len, i) && rows[i].offset == OffsetsFor(rows, len)[0]
  {
    SingleOffset(rows, len);
    var i :| OnlyRowFor(rows, len, i);
    assert OffsetsFor(rows, len) == [rows[i].offset];
  }

  /** Every length that occurs in the file gets a row of the table. */
  lemma TableRowsCover(rows: seq<OffsetRow>)
    requires EachLengthOnce(rows)
    ensures forall i :: 0 <= i < |rows| ==> exists k :: 0 <= k < |TableRows(rows)| && TableRows(rows)[k].0 == rows[i].rpf
  {
    var lo := MinRpf(rows);
    TableRowsInOrder(rows);
    var t := TableRows(rows);
    forall i | 0 <= i < |rows|
      ensures exists k :: 0 <= k < |t| && t[k].0 == rows[i].rpf
    {
      var k := rows[i].rpf - lo;
      assert t[k].0 == rows[i].rpf;
    }
  }

  /** Extending the lengths by one appends the row of that length to the HTML. */
  lemma RenderNextRow(rows: seq<OffsetRow>, lo: int, hi: int)
    requires lo <= hi
    requires SingleFromTo(rows, lo, hi + 1)
    ensures RenderRows(RowsFromTo(rows, lo, hi + 1)) ==
            RenderRows(RowsFromTo(rows, lo, hi)) + RowHtml(hi, OffsetsFor(rows, hi)[0])
  {
    var before := RowsFromTo(rows, lo, hi);
    var after := RowsFromTo(rows, lo, hi + 1);
    assert after == before + [(hi, OffsetsFor(rows, hi)[0])];
    assert after[..|after| - 1] == before;
  }

  /**
   * The loop of the report writer: walks the lengths from the smallest to
   * the largest and appends one row each. It fails on an empty file and
   * at the first length whose selection is not a single offset.
   */
  method OffsetsTable(rows: seq<OffsetRow>) returns (r: Result<string, TableError>)
    ensures rows == [] ==> r == Err(NoOffsets)
    ensures r.Ok? <==> EachLengthOnce(rows)
    ensures r.Ok? ==> r.value == RenderRows(TableRows(rows))
    ensures r.Err? && rows != [] ==>
              r.error.NotOneOffset? && MinRpf(rows) <= r.error.rpf <= MaxRpf(rows) &&
              r.error.found == |OffsetsFor(rows, r.error.rpf)| && r.error.found != 1 &&
              SingleFromTo(rows, MinRpf(rows), r.error.rpf)
  {
    if rows == [] {
      return Err(NoOffsets);
    }
    var minRpf := MinRpf(rows);
    var maxRpf := MaxRpf(rows);
    var table := "";
    var ofs := minRpf;
    while ofs < maxRpf + 1
      invariant minRpf <= ofs <= maxRpf + 1
      invariant SingleFromTo(rows, minRpf, ofs)
      invariant table == RenderRows(RowsFromTo(rows, minRpf, ofs))
      decreases maxRpf + 1 - ofs
    {
      var sel := OffsetsFor(rows, ofs);
      if |sel| != 1 {
        return Err(NotOneOffset(ofs, |sel|));
      }
      RenderNextRow(rows, minRpf, ofs);
      table := table + RowHtml(ofs, sel[0]);
      ofs := ofs + 1;
    }
    return Ok(table);
  }

  /** The offset mode whose section also shows the plastid image. */
  const PlastidMode: string := "plastid"

  /**
   * The image element of the plastid section. The run always passes the
   * name of the copied plot, `offsets.png`, not the plastid image path.
   */
  function ImageHtml(img: string): string
  {
    Open("img", " src=\"" + img + "\" alt=\"Plastid analysis\" id=\"plastid_plot\"")
  }

  /** The navigation entry for the offsets section. */
  function OffsetsNavHtml(plastid: string): (html: string)
  {
    if plastid == PlastidMode then "<li><a href=\"#section2\">Plastid offset analysis</a></li>"
    else "<li><a href=\"#section2\">Offsets overview</a></li>"
  }

  /**
   * The text of a section before the table rows: the anchor, the heading
   * `title` and the table's header row. Both modes share this layout and
   * differ in the title and in the indentation `indent` of its lines.
   */
  function TableHead(title: string, indent: nat): string
  {
    Open("span", " class=\"anchor\" id=\"section2\"") + Close("span") + Break(indent) +
    Open("h2", " id=\"plastid\"") + title + Close("h2") + Break(indent) +
    Open("p", "") + Break(indent) + Open("table", " id=\"offset_table\"") + Break(indent + 4) +
    Open("tr", "") + Break(indent + 8) +
    Open("th", " id=\"table_header\"") + "RPF length" + Close("th") + Break(indent + 8) +
    Open("th", " id=\"table_header\"") + "Offset" + Close("th") + Break(indent + 4) +
    Close("tr") + Break(indent + 4)
  }

  /** The text of the plastid-mode section before the table rows. */
  const PlastidHead: string := TableHead("Plastid offset analysis", 8)

  /** The text of the plastid-mode section between the table rows and the image. */
  const PlastidMiddle: string :=
    Break(8) + Close("table") + Break(8) + Open("div", " class=\"img\" id=\"plastid_img\"") + Break(12)

  /** The text of the plastid-mode section after the image. */
  const PlastidTail: string := Break(8) + Close("div") + Break(8) + Close("p") + Break(8)

  /** The text of the section in any other mode before the table rows. */
  const OverviewHead: string := TableHead("Offsets overview", 16)

  /** The text of the section in any other mode after the table rows. */
  const OverviewTail: string := Break(16) + Close("table") + Break(16) + Close("p") + Break(16)

  /** The offsets section of the report around the rendered table rows. */
  function OffsetsSectionHtml(plastid: string, table: string, img: string): string
  {
    if plastid == PlastidMode then PlastidHead + table + PlastidMiddle + ImageHtml(img) + PlastidTail
    else OverviewHead + table + OverviewTail
  }

  /** `w` occurs in `s` from position `i` on. */
  predicate OccursAt(w: string, s: string, i: int)
  {
    0 <= i <= |s| - |w| && s[i..i + |w|] == w
  }

  /** `w` occurs in `s` at some position. */
  ghost predicate Occurs(w: string, s: string)
  {
    exists i :: 0 <= i <= |s| && OccursAt(w, s, i)
  }

  /** A word occurs at the end of itself appended to any text. */
  lemma OccursAtEnd(a: string, w: string)
    ensures OccursAt(w, a + w, |a|)
  {
    assert (a + w)[|a|..|a| + |w|] == w;
  }

  /** An occurrence stays where it is when text is appended. */
  lemma OccursExtend(w: string, s: string, b: string, i: int)
    requires OccursAt(w, s, i)
    ensures OccursAt(w, s + b, i)
  {
    assert (s + b)[i..i + |w|] == s[i..i + |w|];
  }

  /** Equal texts with the same prefix have equal remainders. */
  lemma CancelPrefix(x: string, y: string, z: string)
    requires x + y == x + z
    ensures y == z
  {
    assert y == (x + y)[|x|..];
    assert z == (x + z)[|x|..];
  }

  /** Equal texts with the same suffix have equal beginnings. */
  lemma CancelSuffix(y: string, z: string, x: string)
    requires y + x == z + x
    ensures y == z
  {
    assert y == (y + x)[..|y|];
    assert z == (z + x)[..|z|];
  }

  /** Whatever the mode, the section shows the table rows. */
  lemma SectionShowsTable(plastid: string, table: string, img: string)
    ensures Occurs(table, OffsetsSectionHtml(plastid, table, img))
  {
    if plastid == PlastidMode {
      var i := |PlastidHead|;
      OccursAtEnd(PlastidHead, table);
      OccursExtend(table, PlastidHead + table, PlastidMiddle, i);
      OccursExtend(table, PlastidHead + table + PlastidMiddle, ImageHtml(img), i);
      OccursExtend(table, PlastidHead + table + PlastidMiddle + ImageHtml(img), PlastidTail, i);
    } else {
      OccursAtEnd(OverviewHead, table);
      OccursExtend(table, OverviewHead + table, OverviewTail, |OverviewHead|);
    }
  }

  /** In plastid mode the section holds the image element for the given plot. */
  lemma PlastidSectionShowsImage(table: string, img: string)
    ensures Occurs(ImageHtml(img), OffsetsSectionHtml(PlastidMode, table, img))
  {
    var before := PlastidHead + table + PlastidMiddle;
    OccursAtEnd(before, ImageHtml(img));
    OccursExtend(ImageHtml(img), before + ImageHtml(img), PlastidTail, |before|);
  }

  /** In plastid mode the image path is part of the section: two paths give two different sections. */
  lemma PlastidSectionDependsOnImage(table: string, img1: string, img2: string)
    requires OffsetsSectionHtml(PlastidMode, table, img1) == OffsetsSectionHtml(PlastidMode, table, img2)
    ensures img1 == img2
  {
    var before := PlastidHead + table + PlastidMiddle;
    CancelSuffix(before + ImageHtml(img1), before + ImageHtml(img2), PlastidTail);
    CancelPrefix(before, ImageHtml(img1), ImageHtml(img2));
    var src, rest := " src=\"", "\" alt=\"Plastid analysis\" id=\"plastid_plot\"";
    CancelSuffix("<" + "img" + (src + img1 + rest), "<" + "img" + (src + img2 + rest), ">");
    CancelPrefix("<" + "img", src + img1 + rest, src + img2 + rest);
    CancelSuffix(src + img1, src + img2, rest);
    CancelPrefix(src, img1, img2);
  }

  /** In every other mode no image is shown: the section does not depend on the image path at all. */
  lemma OtherModeIgnoresImage(plastid: string, table: string, img1: string, img2: string)
    requires plastid != PlastidMode
    ensures OffsetsSectionHtml(plastid, table, img1) == OffsetsSectionHtml(plastid, table, img2)
  {
  }

  /**
   * No '<' in `s` is directly followed by 'i', and `s` does not end in '<':
   * no tag in `s` starts with the letter i, even once more text is appended.
   */
  predicate NoITag(s: string)
  {
    (forall k :: 0 <= k < |s| - 1 && s[k] == '<' ==> s[k + 1] != 'i') &&
    (s == [] || s[|s| - 1] != '<')
  }

  /** Joining two such texts makes another. */
  lemma NoITagConcat(a: string, b: string)
    requires NoITag(a) && NoITag(b)
    ensures NoITag(a + b)
  {
    var s := a + b;
    forall k | 0 <= k < |s| - 1 && s[k] == '<'
      ensures s[k + 1] != 'i'
    {
      if k < |a| - 1 {
        assert s[k] == a[k] && s[k + 1] == a[k + 1];
      } else if k >= |a| {
        assert s[k] == b[k - |a|] && s[k + 1] == b[k + 1 - |a|];
      }
    }
    if b != [] {
      assert s[|s| - 1] == b[|b| - 1];
    }
  }

  lemma NoLessThan(s: string)
    requires '<' !in s
    ensures NoITag(s)
  {
    if s != [] {
      assert s[|s| - 1] in s;
    }
  }

  lemma OpenNoITag(name: string, attrs: string)
    requires name != [] && name[0] != 'i' && '<' !in name && '<' !in attrs
    ensures NoITag(Open(name, attrs))
  {
    var s := Open(name, attrs);
    assert s == ['<'] + (name + attrs + ">");
    forall k | 1 <= k < |s|
      ensures s[k] != '<'
    {
      if k <= |name| {
        assert s[k] == name[k - 1];
      } else if k < |s| - 1 {
        assert s[k] == attrs[k - 1 - |name|];
      }
    }
    assert s[1] == name[0];
  }

  lemma CloseNoITag(name: string)
    requires '<' !in name
    ensures NoITag(Close(name))
  {
    var s := Close(name);
    forall k | 1 <= k < |s|
      ensures s[k] != '<'
    {
      if 2 <= k < |s| - 1 {
        assert s[k] == name[k - 2];
      }
    }
  }

  lemma BreakNoITag(n: nat)
    ensures NoITag(Break(n))
  {
    var s := Break(n);
    forall k | 0 <= k < |s|
      ensures s[k] != '<'
    {
      if k > 0 {
        assert s[k] == seq(n, _ => ' ')[k - 1];
      }
    }
    NoLessThan(s);
  }

  lemma NumberNoITag(n: int)
    ensures NoITag(Decimal.IntToString(n))
  {
    var s := Decimal.IntToString(n);
    var d := Decimal.NatToString(if n < 0 then -n else n);
    forall k | 0 <= k < |s|
      ensures s[k] != '<'
    {
      if n < 0 && k > 0 {
        assert s[k] == d[k - 1];
      }
    }
    NoLessThan(s);
  }

  /** A table row contains no tag starting with i. */
  lemma RowNoITag(len: int, offset: int)
    ensures NoITag(RowHtml(len, offset))
  {
    OpenNoITag("tr", "");
    OpenNoITag("td", "");
    CloseNoITag("td");
    CloseNoITag("tr");
    BreakNoITag(8);
    NumberNoITag(len);
    NumberNoITag(offset);
    NoITagConcat(Open("tr", ""), Break(8));
    NoITagConcat(Open("tr", "") + Break(8), Open("td", ""));
    NoITagConcat(Open("tr", "") + Break(8) + Open("td", ""), Decimal.IntToString(len));
    NoITagConcat(Open("tr", "") + Break(8) + Open("td", "") + Decimal.IntToString(len), Close("td"));
    NoITagConcat(Open("tr", "") + Break(8) + Open("td", "") + Decimal.IntToString(len) + Close("td"), Break(8));
    NoITagConcat(Open("tr", "") + Break(8) + Open("td", "") + Decimal.IntToString(len) + Close("td") + Break(8), Open("td", ""));
    NoITagConcat(Open("tr", "") + Break(8) + Open("td", "") + Decimal.IntToString(len) + Close("td") + Break(8) + Open("td", ""), Decimal.IntToString(offset));
    NoITagConcat(Open("tr", "") + Break(8) + Open("td", "") + Decimal.IntToString(len) + Close("td") + Break(8) + Open("td", "") + Decimal.IntToString(offset), Close("td"));
    NoITagConcat(Open("tr", "") + Break(8) + Open("td", "") + Decimal.IntToString(len) + Close("td") + Break(8) + Open("td", "") + Decimal.IntToString(offset) + Close("td"), Break(8));
    NoITagConcat(Open("tr", "") + Break(8) + Open("td", "") + Decimal.IntToString(len) + Close("td") + Break(8) + Open("td", "") + Decimal.IntToString(offset) + Close("td") + Break(8), Close("tr"));
    NoITagConcat(Open("tr", "") + Break(8) + Open("td", "") + Decimal.IntToString(len) + Close("td") + Break(8) + Open("td", "") + Decimal.IntToString(offset) + Close("td") + Break(8) + Close("tr"), Break(8));
  }

  /** The rendered table rows contain no tag starting with i. */
  lemma {:induction false} RowsNoITag(t: seq<(int, int)>)
    ensures NoITag(RenderRows(t))
  {
    if t != [] {
      RowsNoITag(t[..|t| - 1]);
      RowNoITag(t[|t| - 1].0, t[|t| - 1].1);
      NoITagConcat(RenderRows(t[..|t| - 1]), RowHtml(t[|t| - 1].0, t[|t| - 1].1));
    } else {
      NoLessThan("");
    }
  }

  /** The text of a section before its rows has no tag starting with i when its title has no '<'. */
  lemma TableHeadNoITag(title: string, indent: nat)
    requires '<' !in title
    ensures NoITag(TableHead(title, indent))
  {
    OpenNoITag("span", " class=\"anchor\" id=\"section2\"");
    CloseNoITag("span");
    OpenNoITag("h2", " id=\"plastid\"");
    NoLessThan(title);
    CloseNoITag("h2");
    OpenNoITag("p", "");
    OpenNoITag("table", " id=\"offset_table\"");
    OpenNoITag("tr", "");
    OpenNoITag("th", " id=\"table_header\"");
    NoLessThan("RPF length");
    NoLessThan("Offset");
    CloseNoITag("th");
    CloseNoITag("tr");
    BreakNoITag(indent);
    BreakNoITag(indent + 4);
    BreakNoITag(indent + 8);
    NoITagConcat(Open("span", " class=\"anchor\" id=\"section2\""), Close("span"));
    NoITagConcat(Open("span", " class=\"anchor\" id=\"section2\"") + Close("span"), Break(indent));
    NoITagConcat(Open("span", " class=\"anchor\" id=\"section2\"") + Close("span") + Break(indent), Open("h2", " id=\"plastid\""));
    NoITagConcat(Open("span", " class=\"anchor\" id=\"section2\"") + Close("span") + Break(indent) + Open("h2", " id=\"plastid\""), title);
    NoITagConcat(Open("span", " class=\"anchor\" id=\"section2\"") + Close("span") + Break(indent) + Open("h2", " id=\"plastid\"") + title, Close("h2"));
    NoITagConcat(Open("span", " class=\"anchor\" id=\"section2\"") + Close("span") + Break(indent) + Open("h2", " id=\"plastid\"") + title + Close("h2"), Break(indent));
    NoITagConcat(Open("span", " class=\"anchor\" id=\"section2\"") + Close("span") + Break(indent) + Open("h2", " id=\"plastid\"") + title + Close("h2") + Break(indent), Open("p", ""));
    NoITagConcat(Open("span", " class=\"anchor\" id=\"section2\"") + Close("span") + Break(indent) + Open("h2", " id=\"plastid\"") + title + Close("h2") + Break(indent) + Open("p", ""), Break(indent));
    NoITagConcat(Open("span", " class=\"anchor\" id=\"section2\"") + Close("span") + Break(indent) + Open("h2", " id=\"plastid\"") + title + Close("h2") + Break(indent) + Open("p", "") + Break(indent), Open("table", " id=\"offset_table\""));
    NoITagConcat(Open("span", " class=\"anchor\" id=\"section2\"") + Close("span") + Break(indent) + Open("h2", " id=\"plastid\"") + title + Close("h2") + Break(indent) + Open("p", "") + Break(indent) + Open("table", " id=\"offset_table\""), Break(indent + 4));
    NoITagConcat(Open("span", " class=\"anchor\" id=\"section2\"") + Close("span") + Break(indent) + Open("h2", " id=\"plastid\"") + title + Close("h2") + Break(indent) + Open("p", "") + Break(indent) + Open("table", " id=\"offset_table\"") + Break(indent + 4), Open("tr", ""));
    NoITagConcat(Open("span", " class=\"anchor\" id=\"section2\"") + Close("span") + Break(indent) + Open("h2", " id=\"plastid\"") + title + Close("h2") + Break(indent) + Open("p", "") + Break(indent) + Open("table", " id=\"offset_table\"") + Break(indent + 4) + Open("tr", ""), Break(indent + 8));
    NoITagConcat(Open("span", " class=\"anchor\" id=\"section2\"") + Close("span") + Break(indent) + Open("h2", " id=\"plastid\"") + title + Close("h2") + Break(indent) + Open("p", "") + Break(indent) + Open("table", " id=\"offset_table\"") + Break(indent + 4) + Open("tr", "") + Break(indent + 8), Open("th", " id=\"table_header\""));
    NoITagConcat(Open("span", " class=\"anchor\" id=\"section2\"") + Close("span") + Break(indent) + Open("h2", " id=\"plastid\"") + title + Close("h2") + Break(indent) + Open("p", "") + Break(indent) + Open("table", " id=\"offset_table\"") + Break(indent + 4) + Open("tr", "") + Break(indent + 8) + Open("th", " id=\"table_header\""), "RPF length");
    NoITagConcat(Open("span", " class=\"anchor\" id=\"section2\"") + Close("span") + Break(indent) + Open("h2", " id=\"plastid\"") + title + Close("h2") + Break(indent) + Open("p", "") + Break(indent) + Open("table", " id=\"offset_table\"") + Break(indent + 4) + Open("tr", "") + Break(indent + 8) + Open("th", " id=\"table_header\"") + "RPF length", Close("th"));
    NoITagConcat(Open("span", " class=\"anchor\" id=\"section2\"") + Close("span") + Break(indent) + Open("h2", " id=\"plastid\"") + title + Close("h2") + Break(indent) + Open("p", "") + Break(indent) + Open("table", " id=\"offset_table\"") + Break(indent + 4) + Open("tr", "") + Break(indent + 8) + Open("th", " id=\"table_header\"") + "RPF length" + Close("th"), Break(indent + 8));
    NoITagConcat(Open("span", " class=\"anchor\" id=\"section2\"") + Close("span") + Break(indent) + Open("h2", " id=\"plastid\"") + title + Close("h2") + Break(indent) + Open("p", "") + Break(indent) + Open("table", " id=\"offset_table\"") + Break(indent + 4) + Open("tr", "") + Break(indent + 8) + Open("th", " id=\"table_header\"") + "RPF length" + Close("th") + Break(indent + 8), Open("th", " id=\"table_header\""));
    NoITagConcat(Open("span", " class=\"anchor\" id=\"section2\"") + Close("span") + Break(indent) + Open("h2", " id=\"plastid\"") + title + Close("h2") + Break(indent) + Open("p", "") + Break(indent) + Open("table", " id=\"offset_table\"") + Break(indent + 4) + Open("tr", "") + Break(indent + 8) + Open("th", " id=\"table_header\"") + "RPF length" + Close("th") + Break(indent + 8) + Open("th", " id=\"table_header\""), "Offset");
    NoITagConcat(Open("span", " class=\"anchor\" id=\"section2\"") + Close("span") + Break(indent) + Open("h2", " id=\"plastid\"") + title + Close("h2") + Break(indent) + Open("p", "") + Break(indent) + Open("table", " id=\"offset_table\"") + Break(indent + 4) + Open("tr", "") + Break(indent + 8) + Open("th", " id=\"table_header\"") + "RPF length" + Close("th") + Break(indent + 8) + Open("th", " id=\"table_header\"") + "Offset", Close("th"));
    NoITagConcat(Open("span", " class=\"anchor\" id=\"section2\"") + Close("span") + Break(indent) + Open("h2", " id=\"plastid\"") + title + Close("h2") + Break(indent) + Open("p", "") + Break(indent) + Open("table", " id=\"offset_table\"") + Break(indent + 4) + Open("tr", "") + Break(indent + 8) + Open("th", " id=\"table_header\"") + "RPF length" + Close("th") + Break(indent + 8) + Open("th", " id=\"table_header\"") + "Offset" + Close("th"), Break(indent + 4));
    NoITagConcat(Open("span", " class=\"anchor\" id=\"section2\"") + Close("span") + Break(indent) + Open("h2", " id=\"plastid\"") + title + Close("h2") + Break(indent) + Open("p", "") + Break(indent) + Open("table", " id=\"offset_table\"") + Break(indent + 4) + Open("tr", "") + Break(indent + 8) + Open("th", " id=\"table_header\"") + "RPF length" + Close("th") + Break(indent + 8) + Open("th", " id=\"table_header\"") + "Offset" + Close("th") + Break(indent + 4), Close("tr"));
    NoITagConcat(Open("span", " class=\"anchor\" id=\"section2\"") + Close("span") + Break(indent) + Open("h2", " id=\"plastid\"") + title + Close("h2") + Break(indent) + Open("p", "") + Break(indent) + Open("table", " id=\"offset_table\"") + Break(indent + 4) + Open("tr", "") + Break(indent + 8) + Open("th", " id=\"table_header\"") + "RPF length" + Close("th") + Break(indent + 8) + Open("th", " id=\"table_header\"") + "Offset" + Close("th") + Break(indent + 4) + Close("tr"), Break(indent + 4));
  }

  /** The text of the section in any other mode after the rows has no tag starting with i. */
  lemma OverviewTailNoITag()
    ensures NoITag(OverviewTail)
  {
    BreakNoITag(16);
    CloseNoITag("table");
    CloseNoITag("p");
    NoITagConcat(Break(16), Close("table"));
    NoITagConcat(Break(16) + Close("table"), Break(16));
    NoITagConcat(Break(16) + Close("table") + Break(16), Close("p"));
    NoITagConcat(Break(16) + Close("table") + Break(16) + Close("p"), Break(16));
  }

  /** Text with no tag starting with i holds no image element. */
  lemma NoITagNoImage(s: string)
    requires NoITag(s)
    ensures !Occurs("<img", s)
  {
    forall i | 0 <= i <= |s|
      ensures !OccursAt("<img", s, i)
    {
      if i + 4 <= |s| && s[i] == '<' {
        assert s[i..i + 4][1] == s[i + 1] != 'i';
      } else if i + 4 <= |s| {
        assert s[i..i + 4][0] == s[i] != '<';
      }
    }
  }

  /**
   * In every other mode the section shows no image element at all: neither
   * its fixed text nor the rendered table rows hold one.
   */
  lemma OtherModeShowsNoImage(plastid: string, t: seq<(int, int)>, img: string)
    requires plastid != PlastidMode
    ensures !Occurs("<img", OffsetsSectionHtml(plastid, RenderRows(t), img))
  {
    TableHeadNoITag("Offsets overview", 16);
    OverviewTailNoITag();
    RowsNoITag(t);
    NoITagConcat(OverviewHead, RenderRows(t));
    NoITagConcat(OverviewHead + RenderRows(t), OverviewTail);
    NoITagNoImage(OffsetsSectionHtml(plastid, RenderRows(t), img));
  }

  /** In plastid mode the section does show an image element. */
  lemma PlastidModeShowsImage(table: string, img: string)
    ensures Occurs("<img", OffsetsSectionHtml(PlastidMode, table, img))
  {
    var before := PlastidHead + table + PlastidMiddle;
    var s := OffsetsSectionHtml(PlastidMode, table, img);
    OccursAtEnd(before, ImageHtml(img));
    OccursExtend(ImageHtml(img), before + ImageHtml(img), PlastidTail, |before|);
    ImageStartsTag(img);
    OccursPrefix("<img", ImageHtml(img), s, |before|);
  }

  /** The image element starts with its tag. */
  lemma ImageStartsTag(img: string)
    ensures |ImageHtml(img)| >= 4 && ImageHtml(img)[..4] == "<img"
  {
    var attrs := " src=\"" + img + "\" alt=\"Plastid analysis\" id=\"plastid_plot\"";
    assert ImageHtml(img) == "<img" + (attrs + ">");
  }

  /** A beginning of a word occurs wherever the word does. */
  lemma OccursPrefix(w: string, v: string, s: string, i: int)
    requires OccursAt(v, s, i) && |w| <= |v| && v[..|w|] == w
    ensures OccursAt(w, s, i)
  {
    assert s[i..i + |w|] == s[i..i + |v|][..|w|];
  }


  /** The navigation entry names the plastid analysis exactly in plastid mode. */
  lemma NavNamesPlastid(plastid: string)
    ensures OffsetsNavHtml(plastid) == "<li><a href=\"#section2\">Plastid offset analysis</a></li>" <==> plastid == PlastidMode
  {
    if plastid != PlastidMode {
      var other := "<li><a href=\"#section2\">Offsets overview</a></li>";
      assert other[24] != "<li><a href=\"#section2\">Plastid offset analysis</a></li>"[24];
    }
  }
}
