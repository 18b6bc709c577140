/** The layout of the triplet identity figure (triplet_plots,
    mqc_tools/mQC.py:744-778): the triplets of the dictionary, sorted by
    amino-acid name, are placed row by row into an 8-wide grid of an 8 x 9
    GridSpec, each titled "<triplet>: <amino acid>" in its title colour. The
    pies themselves are not modelled. */
module TripletGrid {
  import opened Wrappers
  import opened Codons

  /** GridSpec(8, 9): 8 rows, 9 columns. */
  const GridRows := 8
  const GridCols := 9
  /** grid_i wraps to 0 when it reaches 8. */
  const RowWidth := 8

  /** Python's ordering of byte strings: lexicographic on character codes,
      a proper prefix first. */
  predicate LexLe(a: string, b: string)
    decreases |a|
  {
    if a == [] then true
    else if b == [] then false
    else if a[0] != b[0] then a[0] < b[0]
    else LexLe(a[1..], b[1..])
  }

  lemma {:induction false} LexLeTotal(a: string, b: string)
    ensures LexLe(a, b) || LexLe(b, a)
    decreases |a|
  {
    if a != [] && b != [] && a[0] == b[0] {
      LexLeTotal(a[1..], b[1..]);
    }
  }

  lemma {:induction false} LexLeTransitive(a: string, b: string, c: string)
    requires LexLe(a, b) && LexLe(b, c)
    ensures LexLe(a, c)
    decreases |a|
  {
    if a != [] && b != [] && c != [] && a[0] == b[0] == c[0] {
      LexLeTransitive(a[1..], b[1..], c[1..]);
    }
  }

  /** The names the triplets are sorted by: get_AA looks them up in the
      codon table, which the layout passes in as `table`. */
  type AminoTable = map<string, string>

  predicate AllIn(s: seq<string>, table: AminoTable)
  {
    forall i :: 0 <= i < |s| ==> s[i] in table
  }

  /** The order never decreases by amino-acid name. */
  predicate SortedByAA(s: seq<string>, table: AminoTable)
    requires AllIn(s, table)
  {
    forall i :: 0 <= i < |s| - 1 ==> LexLe(table[s[i]], table[s[i + 1]])
  }

  /** Insert t behind every element whose amino acid is not after its own. */
  function InsertByAA(t: string, s: seq<string>, table: AminoTable): (r: seq<string>)
    requires t in table && AllIn(s, table)
    ensures |r| == |s| + 1 && AllIn(r, table)
    ensures multiset(r) == multiset(s) + multiset{t}
    ensures r[0] == t || (s != [] && r[0] == s[0])
    ensures SortedByAA(s, table) ==> SortedByAA(r, table)
  {
    if s == [] then [t]
    else if LexLe(table[s[0]], table[t]) then
      var rest := InsertByAA(t, s[1..], table);
      assert s == [s[0]] + s[1..];
      [s[0]] + rest
    else
      LexLeTotal(table[s[0]], table[t]);
      [t] + s
  }

  /** sorted(keys, key=get_AA): a stable sort of the dictionary's keys by
      amino-acid name. */
  function SortByAA(s: seq<string>, table: AminoTable): (r: seq<string>)
    requires AllIn(s, table)
    ensures AllIn(r, table) && SortedByAA(r, table)
    ensures multiset(r) == multiset(s) && |r| == |s|
  {
    if s == [] then []
    else
      var init := s[..|s| - 1];
      assert s == init + [s[|s| - 1]];
      InsertByAA(s[|s| - 1], SortByAA(init, table), table)
  }

  /** Every later triplet's amino acid sorts no earlier than every earlier
      one's. */
  lemma {:induction false} SortedAllPairs(s: seq<string>, table: AminoTable, i: nat, j: nat)
    requires AllIn(s, table) && SortedByAA(s, table) && i <= j < |s|
    ensures LexLe(table[s[i]], table[s[j]])
    decreases j - i
  {
    if i == j {
      LexLeTotal(table[s[i]], table[s[i]]);
    } else {
      SortedAllPairs(s, table, i + 1, j);
      LexLeTransitive(table[s[i]], table[s[i + 1]], table[s[j]]);
    }
  }

  datatype Panel = Panel(triplet: string, row: nat, col: nat, title: string, colour: Colour)

  datatype GridError =
    | UnknownTriplet(triplet: string)  // get_AA raised KeyError inside sorted()
    | NoPanels                         // no subplot drawn: 'ax' unbound at the legend

  /** The reference placement: the k-th triplet of the order goes to row
      k div 8 and column k mod 8, titled with its amino acid. */
  function Layout(order: seq<string>, table: AminoTable): seq<Panel>
    requires AllIn(order, table)
  {
    seq(|order|, k requires 0 <= k < |order| =>
      Panel(order[k], k / RowWidth, k % RowWidth, order[k] + ": " + table[order[k]], TitleColour(order[k])))
  }

  /** The first key, in dictionary order, that the lookup rejects. */
  function FirstUnknown(keys: seq<string>, table: AminoTable): (u: Option<string>)
    ensures u.None? <==> AllIn(keys, table)
    ensures u.Some? ==> u.value in keys && u.value !in table
    ensures u.Some? ==> exists i :: 0 <= i < |keys| && keys[i] == u.value && AllIn(keys[..i], table)
  {
    if keys == [] then None
    else if keys[0] !in table then
      assert keys[0] == keys[0] && AllIn(keys[..0], table);
      Some(keys[0])
    else
      var rest := FirstUnknown(keys[1..], table);
      assert forall i :: 1 <= i < |keys| ==> keys[i] == keys[1..][i - 1];
      if rest.Some? then
        var j :| 0 <= j < |keys[1..]| && keys[1..][j] == rest.value && AllIn(keys[1..][..j], table);
        assert keys[..j + 1] == [keys[0]] + keys[1..][..j];
        assert keys[j + 1] == rest.value && AllIn(keys[..j + 1], table);
        rest
      else
        rest
  }

  /** With at most 64 triplets every subplot lies inside the 8 x 9 grid and
      no two share a cell. */
  lemma LayoutInGrid(order: seq<string>, table: AminoTable)
    requires AllIn(order, table) && |order| <= 64
    ensures forall k :: 0 <= k < |order| ==> Layout(order, table)[k].row < GridRows && Layout(order, table)[k].col < GridCols
    ensures forall k, l :: 0 <= k < l < |order| ==>
              (Layout(order, table)[k].row, Layout(order, table)[k].col) != (Layout(order, table)[l].row, Layout(order, table)[l].col)
  {
    var p := Layout(order, table);
    forall k, l | 0 <= k < l < |order|
      ensures (p[k].row, p[k].col) != (p[l].row, p[l].col)
    {
      assert k == RowWidth * p[k].row + p[k].col;
      assert l == RowWidth * p[l].row + p[l].col;
    }
  }

  /** triplet_plots without the drawing: sort the keys by amino acid (get_AA
      raises on the first key outside the codon table), then place one
      subplot per triplet. Every subplot lands inside the 8 x 9 grid. */
  method TripletPanels(keys: seq<string>) returns (r: Result<seq<Panel>, GridError>)
    requires forall i, j :: 0 <= i < j < |keys| ==> keys[i] != keys[j]
    ensures FirstUnknown(keys, CodonTable()).Some? ==>
              r == Err(UnknownTriplet(FirstUnknown(keys, CodonTable()).value))
    ensures FirstUnknown(keys, CodonTable()).None? && keys == [] ==> r == Err(NoPanels)
    ensures FirstUnknown(keys, CodonTable()).None? && keys != [] ==>
              r == Ok(Layout(SortByAA(keys, CodonTable()), CodonTable()))
    ensures r.Ok? ==> forall p :: p in r.value ==> p.row < GridRows && p.col < GridCols
  {
    var table := CodonTable();
    var unknown := FirstUnknown(keys, table);
    if unknown.Some? {
      return Err(UnknownTriplet(unknown.value));
    }
    var order := SortByAA(keys, table);
    var panels := PlacePanels(order, table);
    if panels == [] {
      return Err(NoPanels);
    }
    AtMost64Codons(keys);
    LayoutInGrid(order, table);
    r := Ok(panels);
  }

  /** The loop of triplet_plots: grid_i (column) starts at -1 and grid_j
      (row) at 0; per triplet grid_i steps by one and, on reaching 8, wraps
      to 0 while grid_j steps by one. */
  method PlacePanels(order: seq<string>, table: AminoTable) returns (panels: seq<Panel>)
    requires AllIn(order, table)
    ensures panels == Layout(order, table)
  {
    panels := [];
    var gridI := -1;
    var gridJ: nat := 0;
    var n := 0;
    while n < |order|
      invariant 0 <= n <= |order|
      invariant -1 <= gridI < RowWidth && RowWidth * gridJ + gridI == n - 1
      invariant panels == Layout(order, table)[..n]
    {
      gridI := gridI + 1;
      if gridI == RowWidth {
        gridI := 0;
        gridJ := gridJ + 1;
      }
      var t := order[n];
      panels := panels + [Panel(t, gridJ, gridI, t + ": " + table[t], TitleColour(t))];
      n := n + 1;
    }
  }
}
