/** The summary tables behind the phase charts (get_plot_data,
    mqc_tools/mQC.py:1145-1178): rpf_phase.csv gives per RPF length the
    counts in phases 0, 1 and 2; their column sums are the total phase
    distribution; total_triplet.csv gives per triplet and phase a count.
    Each line arrives already split at its commas. */
module PlotData {
  import opened Wrappers
  import opened Decimal

  /** Counts for the three reading-frame phases '0', '1' and '2'. */
  datatype PhaseCounts = PhaseCounts(p0: int, p1: int, p2: int)
  {
    function Plus(o: PhaseCounts): PhaseCounts
    {
      PhaseCounts(p0 + o.p0, p1 + o.p1, p2 + o.p2)
    }

    function Minus(o: PhaseCounts): PhaseCounts
    {
      PhaseCounts(p0 - o.p0, p1 - o.p1, p2 - o.p2)
    }
  }

  const Zero := PhaseCounts(0, 0, 0)

  /** RPF length (the first field, kept as text as the program keeps it)
      to its phase counts. */
  type PhaseDistr = map<string, PhaseCounts>

  /** Triplet to phase to count. */
  type TripletDistr = map<string, map<int, int>>

  datatype InputFile = RpfPhaseFile | TripletFile

  /** The line of a summary file on which int() or an index raised. */
  datatype ParseError = ParseError(file: InputFile, line: nat)

  datatype RpfRow = RpfRow(rpf: string, counts: PhaseCounts)

  datatype TripletRow = TripletRow(triplet: string, phase: int, count: int)

  datatype PlotInput = PlotInput(phaseDistr: PhaseDistr, total: PhaseCounts, tripletDistr: TripletDistr)

  /** A line of rpf_phase.csv: length, then the counts of phases 0, 1, 2;
      fields beyond the fourth are ignored. */
  function ParseRpfLine(fields: seq<string>): Option<RpfRow>
  {
    if |fields| < 4 then None
    else
      match (ParseInt(fields[1]), ParseInt(fields[2]), ParseInt(fields[3]))
      case (Some(a), Some(b), Some(c)) => Some(RpfRow(fields[0], PhaseCounts(a, b, c)))
      case _ => None
  }

  /** A line of total_triplet.csv: triplet, phase, count. */
  function ParseTripletLine(fields: seq<string>): Option<TripletRow>
  {
    if |fields| < 3 then None
    else
      match (ParseInt(fields[1]), ParseInt(fields[2]))
      case (Some(p), Some(c)) => Some(TripletRow(fields[0], p, c))
      case _ => None
  }

  /** A line written as the upstream pipeline writes it is read back as the
      row it came from. */
  lemma RpfLineRoundTrip(rpf: string, counts: PhaseCounts, rest: seq<string>)
    ensures ParseRpfLine([rpf, IntToString(counts.p0), IntToString(counts.p1), IntToString(counts.p2)] + rest)
            == Some(RpfRow(rpf, counts))
  {
    ParseIntToString(counts.p0);
    ParseIntToString(counts.p1);
    ParseIntToString(counts.p2);
  }

  /** Reading a file line by line: each line that parses updates the table
      with add; the first line that does not parse ends the read with its
      index. */
  function Load<R, M>(lines: seq<seq<string>>, parse: seq<string> -> Option<R>, add: (M, R) -> M, empty: M): Result<M, nat>
  {
    if lines == [] then Ok(empty)
    else
      match Load(lines[..|lines| - 1], parse, add, empty)
      case Err(e) => Err(e)
      case Ok(m) =>
        match parse(lines[|lines| - 1])
        case None => Err(|lines| - 1)
        case Some(row) => Ok(add(m, row))
  }

  /** A read succeeds exactly when every line parses, and otherwise reports
      the first line that does not. */
  lemma {:induction false} LoadOutcome<R, M>(lines: seq<seq<string>>, parse: seq<string> -> Option<R>, add: (M, R) -> M, empty: M)
    ensures Load(lines, parse, add, empty).Ok? <==> forall i :: 0 <= i < |lines| ==> parse(lines[i]).Some?
    ensures Load(lines, parse, add, empty).Err? ==>
              var e := Load(lines, parse, add, empty).error;
              e < |lines| && parse(lines[e]).None? && forall i :: 0 <= i < e ==> parse(lines[i]).Some?
    decreases |lines|
  {
    if lines != [] {
      var init := lines[..|lines| - 1];
      LoadOutcome(init, parse, add, empty);
      assert forall i :: 0 <= i < |init| ==> init[i] == lines[i];
    }
  }

  /** Once a prefix of the file fails to read, so does the whole file, at the
      same line. */
  lemma {:induction false} LoadErrorPersists<R, M>(lines: seq<seq<string>>, n: nat, parse: seq<string> -> Option<R>, add: (M, R) -> M, empty: M)
    requires n <= |lines| && Load(lines[..n], parse, add, empty).Err?
    ensures Load(lines, parse, add, empty) == Load(lines[..n], parse, add, empty)
    decreases |lines| - n
  {
    if n < |lines| {
      assert lines[..|lines| - 1][..n] == lines[..n];
      LoadErrorPersists(lines[..|lines| - 1], n, parse, add, empty);
    } else {
      assert lines[..n] == lines;
    }
  }

  /** Reading one more line: the read so far goes on with that line's row,
      or stops at that line. */
  lemma LoadExtend<R, M>(lines: seq<seq<string>>, i: nat, parse: seq<string> -> Option<R>, add: (M, R) -> M, empty: M)
    requires i < |lines| && Load(lines[..i], parse, add, empty).Ok?
    ensures Load(lines[..i + 1], parse, add, empty) ==
            match parse(lines[i])
            case None => Err(i)
            case Some(row) => Ok(add(Load(lines[..i], parse, add, empty).value, row))
  {
    assert lines[..i + 1][..i] == lines[..i];
  }

  function AddRpfRow(m: PhaseDistr, row: RpfRow): PhaseDistr
  {
    m[row.rpf := row.counts]
  }

  function AddTripletRow(m: TripletDistr, row: TripletRow): TripletDistr
  {
    var inner := if row.triplet in m then m[row.triplet] else map[];
    m[row.triplet := inner[row.phase := row.count]]
  }

  /** The phase-by-length map after reading rpf_phase.csv, or the index of
      the first line that does not parse. */
  function RpfTable(lines: seq<seq<string>>): Result<PhaseDistr, nat>
  {
    Load(lines, ParseRpfLine, AddRpfRow, map[])
  }

  /** The triplet map after reading total_triplet.csv. */
  function TripletTable(lines: seq<seq<string>>): Result<TripletDistr, nat>
  {
    Load(lines, ParseTripletLine, AddTripletRow, map[])
  }

  /** The counts on the last line of the file that names RPF length k, if
      any: the reference reading of rpf_phase.csv. */
  function LastRpfCounts(lines: seq<seq<string>>, k: string): Option<PhaseCounts>
    requires forall i :: 0 <= i < |lines| ==> ParseRpfLine(lines[i]).Some?
  {
    if lines == [] then None
    else
      var row := ParseRpfLine(lines[|lines| - 1]).value;
      if row.rpf == k then Some(row.counts) else LastRpfCounts(lines[..|lines| - 1], k)
  }

  /** The count on the last line that names the pair (t, p), if any. */
  function LastTripletCount(lines: seq<seq<string>>, t: string, p: int): Option<int>
    requires forall i :: 0 <= i < |lines| ==> ParseTripletLine(lines[i]).Some?
  {
    if lines == [] then None
    else
      var row := ParseTripletLine(lines[|lines| - 1]).value;
      if row.triplet == t && row.phase == p then Some(row.count) else LastTripletCount(lines[..|lines| - 1], t, p)
  }

  /** A repeated RPF length is overwritten, not accumulated: the table holds
      exactly the lengths named in the file, each with the counts of the last
      line naming it. */
  lemma {:induction false} RpfTableLastLineWins(lines: seq<seq<string>>)
    requires RpfTable(lines).Ok?
    ensures forall i :: 0 <= i < |lines| ==> ParseRpfLine(lines[i]).Some?
    ensures forall k :: LastRpfCounts(lines, k) == Get(RpfTable(lines).value, k)
    decreases |lines|
  {
    LoadOutcome(lines, ParseRpfLine, AddRpfRow, map[]);
    if lines != [] {
      var init := lines[..|lines| - 1];
      assert forall i :: 0 <= i < |init| ==> init[i] == lines[i];
      LoadOutcome(init, ParseRpfLine, AddRpfRow, map[]);
      RpfTableLastLineWins(init);
    }
  }

  /** A repeated (triplet, phase) pair is overwritten: the table holds
      exactly the pairs named in the file, each with the count of the last
      line naming it; a triplet is present only with at least one phase. */
  lemma {:induction false} TripletTableLastLineWins(lines: seq<seq<string>>)
    requires TripletTable(lines).Ok?
    ensures forall i :: 0 <= i < |lines| ==> ParseTripletLine(lines[i]).Some?
    ensures var m := TripletTable(lines).value;
      forall t, p :: LastTripletCount(lines, t, p) == if t in m then Get(m[t], p) else None
    ensures var m := TripletTable(lines).value;
      forall t :: t in m ==> m[t] != map[]
    decreases |lines|
  {
    LoadOutcome(lines, ParseTripletLine, AddTripletRow, map[]);
    if lines != [] {
      var init := lines[..|lines| - 1];
      assert forall i :: 0 <= i < |init| ==> init[i] == lines[i];
      LoadOutcome(init, ParseTripletLine, AddTripletRow, map[]);
      TripletTableLastLineWins(init);
      var row := ParseTripletLine(lines[|lines| - 1]).value;
      AddTripletRowEffect(TripletTable(init).value, row);
    }
  }

  /** One triplet line sets the count of its own (triplet, phase) pair and
      leaves every other pair as it was. */
  lemma AddTripletRowEffect(m: TripletDistr, row: TripletRow)
    requires forall t :: t in m ==> m[t] != map[]
    ensures var m' := AddTripletRow(m, row);
      forall t, p :: (if t in m' then Get(m'[t], p) else None) ==
                     if t == row.triplet && p == row.phase then Some(row.count)
                     else if t in m then Get(m[t], p) else None
    ensures var m' := AddTripletRow(m, row);
      forall t :: t in m' ==> m'[t] != map[]
  {
    var m' := AddTripletRow(m, row);
    assert row.phase in m'[row.triplet];
  }

  function Get<K, V>(m: map<K, V>, k: K): Option<V>
  {
    if k in m then Some(m[k]) else None
  }

  /** The column sums of the counts of the lengths in keys. */
  ghost function SumOver(m: PhaseDistr, keys: set<string>): PhaseCounts
    requires keys <= m.Keys
    decreases keys
  {
    if keys == {} then Zero
    else
      var k :| k in keys;
      m[k].Plus(SumOver(m, keys - {k}))
  }

  /** The total phase distribution: the column sums over all distinct lengths. */
  ghost function Totals(m: PhaseDistr): PhaseCounts
  {
    SumOver(m, m.Keys)
  }

  /** The sum does not depend on the order in which the lengths are visited:
      any length can be taken out first. */
  lemma {:induction false} SumOverSplit(m: PhaseDistr, keys: set<string>, k: string)
    requires k in keys && keys <= m.Keys
    ensures SumOver(m, keys) == m[k].Plus(SumOver(m, keys - {k}))
    decreases keys
  {
    var j :| j in keys && SumOver(m, keys) == m[j].Plus(SumOver(m, keys - {j}));
    if j != k {
      var rest := keys - {j} - {k};
      assert keys - {k} - {j} == rest;
      SumOverSplit(m, keys - {j}, k);
      SumOverSplit(m, keys - {k}, j);
      assert SumOver(m, keys) == m[j].Plus(m[k].Plus(SumOver(m, rest)));
      assert SumOver(m, keys - {k}) == m[j].Plus(SumOver(m, rest));
    }
  }

  /** Changing the counts of a length that is not summed leaves the sum alone. */
  lemma {:induction false} SumOverOtherKey(m: PhaseDistr, keys: set<string>, k: string, c: PhaseCounts)
    requires keys <= m.Keys && k !in keys
    ensures SumOver(m[k := c], keys) == SumOver(m, keys)
    decreases keys
  {
    if keys != {} {
      var j :| j in keys;
      SumOverSplit(m, keys, j);
      SumOverSplit(m[k := c], keys, j);
      SumOverOtherKey(m, keys - {j}, k, c);
    }
  }

  /** A line for a length already seen replaces its counts in the totals; a
      line for a new length adds to them. */
  lemma TotalsAfterLine(m: PhaseDistr, k: string, c: PhaseCounts)
    ensures Totals(m[k := c]) == if k in m then Totals(m).Minus(m[k]).Plus(c) else Totals(m).Plus(c)
  {
    var m' := m[k := c];
    SumOverSplit(m', m'.Keys, k);
    SumOverOtherKey(m, m.Keys - {k}, k, c);
    assert m'.Keys - {k} == m.Keys - {k};
    if k in m {
      SumOverSplit(m, m.Keys, k);
    } else {
      assert m.Keys - {k} == m.Keys;
    }
  }

  /** The worked example: lengths 28 with (10, 20, 5) and 29 with (1, 2, 3)
      give the totals (11, 22, 8). */
  lemma TotalsExample()
    ensures Totals(map["28" := PhaseCounts(10, 20, 5), "29" := PhaseCounts(1, 2, 3)]) == PhaseCounts(11, 22, 8)
  {
    var m := map["28" := PhaseCounts(10, 20, 5), "29" := PhaseCounts(1, 2, 3)];
    assert m.Keys == {"28", "29"};
    SumOverSplit(m, m.Keys, "28");
    assert m.Keys - {"28"} == {"29"};
    SumOverSplit(m, {"29"}, "29");
    assert {"29"} - {"29"} == {};
  }

  /** get_plot_data: fill the phase-by-length map line by line, sum its
      columns over the distinct lengths into the totals '0', '1', '2', then
      fill the triplet map line by line. A line of rpf_phase.csv that does not
      parse stops the run before total_triplet.csv is read. */
  method GetPlotData(rpfLines: seq<seq<string>>, tripletLines: seq<seq<string>>) returns (r: Result<PlotInput, ParseError>)
    ensures r.Ok? <==> RpfTable(rpfLines).Ok? && TripletTable(tripletLines).Ok?
    ensures RpfTable(rpfLines).Err? ==> r == Err(ParseError(RpfPhaseFile, RpfTable(rpfLines).error))
    ensures RpfTable(rpfLines).Ok? && TripletTable(tripletLines).Err? ==>
              r == Err(ParseError(TripletFile, TripletTable(tripletLines).error))
    ensures r.Ok? ==> r.value.phaseDistr == RpfTable(rpfLines).value
    ensures r.Ok? ==> r.value.total == Totals(r.value.phaseDistr)
    ensures r.Ok? ==> r.value.tripletDistr == TripletTable(tripletLines).value
  {
    var phaseDistr := ReadRpfPhase(rpfLines);
    if phaseDistr.Err? {
      return Err(ParseError(RpfPhaseFile, phaseDistr.error));
    }
    var total := PhaseTotals(phaseDistr.value);
    var tripletDistr := ReadTriplets(tripletLines);
    if tripletDistr.Err? {
      return Err(ParseError(TripletFile, tripletDistr.error));
    }
    r := Ok(PlotInput(phaseDistr.value, total, tripletDistr.value));
  }

  /** The first loop of get_plot_data: one assignment per line of
      rpf_phase.csv. */
  method ReadRpfPhase(lines: seq<seq<string>>) returns (r: Result<PhaseDistr, nat>)
    ensures r == RpfTable(lines)
  {
    var phaseDistr: PhaseDistr := map[];
    var i := 0;
    while i < |lines|
      invariant 0 <= i <= |lines|
      invariant RpfTable(lines[..i]) == Ok(phaseDistr)
    {
      LoadExtend(lines, i, ParseRpfLine, AddRpfRow, map[]);
      var row := ParseRpfLine(lines[i]);
      if row.None? {
        LoadErrorPersists(lines, i + 1, ParseRpfLine, AddRpfRow, map[]);
        return Err(i);
      }
      phaseDistr := phaseDistr[row.value.rpf := row.value.counts];
      i := i + 1;
    }
    assert lines[..i] == lines;
    r := Ok(phaseDistr);
  }

  /** The second loop: the totals start at 0 and each distinct length adds
      its three counts, visited in whatever order the dictionary yields. */
  method PhaseTotals(phaseDistr: PhaseDistr) returns (total: PhaseCounts)
    ensures total == Totals(phaseDistr)
  {
    total := Zero;
    var remaining := phaseDistr.Keys;
    while remaining != {}
      invariant remaining <= phaseDistr.Keys
      invariant total.Plus(SumOver(phaseDistr, remaining)) == Totals(phaseDistr)
      decreases remaining
    {
      var rpf :| rpf in remaining;
      SumOverSplit(phaseDistr, remaining, rpf);
      total := total.Plus(phaseDistr[rpf]);
      remaining := remaining - {rpf};
    }
  }

  /** The third loop: one assignment per line of total_triplet.csv. */
  method ReadTriplets(lines: seq<seq<string>>) returns (r: Result<TripletDistr, nat>)
    ensures r == TripletTable(lines)
  {
    var tripletDistr: TripletDistr := map[];
    var j := 0;
    while j < |lines|
      invariant 0 <= j <= |lines|
      invariant TripletTable(lines[..j]) == Ok(tripletDistr)
    {
      LoadExtend(lines, j, ParseTripletLine, AddTripletRow, map[]);
      var row := ParseTripletLine(lines[j]);
      if row.None? {
        LoadErrorPersists(lines, j + 1, ParseTripletLine, AddTripletRow, map[]);
        return Err(j);
      }
      var inner := if row.value.triplet in tripletDistr then tripletDistr[row.value.triplet] else map[];
      tripletDistr := tripletDistr[row.value.triplet := inner[row.value.phase := row.value.count]];
      j := j + 1;
    }
    assert lines[..j] == lines;
    r := Ok(tripletDistr);
  }
}
