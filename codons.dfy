/** The standard codon table, the amino-acid lookup used to order the
    triplet pie charts, and the colour of each chart's title
    (get_codontable and get_AA, mqc_tools/mQC.py:1211-1240; title colours,
    mqc_tools/mQC.py:765-770). */
module Codons {
  import opened Wrappers

  /** get_codontable: DNA triplet to three-letter amino-acid name, 'STOP'
      for the three stop codons. The one dictionary of the program is written
      here as the union of its four blocks of sixteen entries, in the
      program's order (a single 64-entry display nests too deeply for the
      verifier to look keys up in it). */
  function CodonTable(): map<string, string>
  {
    TableA() + TableC() + TableG() + TableT()
  }

  function TableA(): map<string, string>
  {
    map[
      "ATA" := "Ile", "ATC" := "Ile", "ATT" := "Ile", "ATG" := "Met",
      "ACA" := "Thr", "ACC" := "Thr", "ACG" := "Thr", "ACT" := "Thr",
      "AAC" := "Asn", "AAT" := "Asn", "AAA" := "Lys", "AAG" := "Lys",
      "AGC" := "Ser", "AGT" := "Ser", "AGA" := "Arg", "AGG" := "Arg"
    ]
  }

  function TableC(): map<string, string>
  {
    map[
      "CTA" := "Leu", "CTC" := "Leu", "CTG" := "Leu", "CTT" := "Leu",
      "CCA" := "Pro", "CCC" := "Pro", "CCG" := "Pro", "CCT" := "Pro",
      "CAC" := "His", "CAT" := "His", "CAA" := "Gln", "CAG" := "Gln",
      "CGA" := "Arg", "CGC" := "Arg", "CGG" := "Arg", "CGT" := "Arg"
    ]
  }

  function TableG(): map<string, string>
  {
    map[
      "GTA" := "Val", "GTC" := "Val", "GTG" := "Val", "GTT" := "Val",
      "GCA" := "Ala", "GCC" := "Ala", "GCG" := "Ala", "GCT" := "Ala",
      "GAC" := "Asp", "GAT" := "Asp", "GAA" := "Glu", "GAG" := "Glu",
      "GGA" := "Gly", "GGC" := "Gly", "GGG" := "Gly", "GGT" := "Gly"
    ]
  }

  function TableT(): map<string, string>
  {
    map[
      "TCA" := "Ser", "TCC" := "Ser", "TCG" := "Ser", "TCT" := "Ser",
      "TTC" := "Phe", "TTT" := "Phe", "TTA" := "Leu", "TTG" := "Leu",
      "TAC" := "Tyr", "TAT" := "Tyr", "TAA" := "STOP", "TAG" := "STOP",
      "TGC" := "Cys", "TGT" := "Cys", "TGA" := "STOP", "TGG" := "Trp"
    ]
  }

  predicate IsBase(c: char) { c == 'A' || c == 'C' || c == 'G' || c == 'T' }

  /** A three-letter word over the DNA alphabet {A, C, G, T}. */
  predicate IsTriplet(t: string) { |t| == 3 && IsBase(t[0]) && IsBase(t[1]) && IsBase(t[2]) }

  predicate IsStop(t: string) { t == "TAA" || t == "TAG" || t == "TGA" }

  /** get_AA: the amino acid of a triplet; a word outside the table raises
      KeyError, which is None here. */
  function AminoAcid(t: string): (aa: Option<string>)
    ensures aa.Some? <==> IsTriplet(t)
    ensures aa == Some("STOP") <==> IsStop(t)
    ensures aa == Some("Met") <==> t == "ATG"
  {
    TableDomain(t);
    if t in CodonTable() then Some(CodonTable()[t]) else None
  }

  /** The table is defined on exactly the 64 triplets over {A, C, G, T};
      exactly TAA, TAG and TGA are stop codons, and only ATG codes Met. */
  lemma TableDomain(t: string)
    ensures t in CodonTable() <==> IsTriplet(t)
    ensures t in CodonTable() ==> (CodonTable()[t] == "STOP" <==> IsStop(t))
    ensures t in CodonTable() ==> (CodonTable()[t] == "Met" <==> t == "ATG")
  {
    if IsTriplet(t) {
      assert t == [t[0], t[1], t[2]];
      TripletInTable(t[0], t[1], t[2]);
    }
    if t in TableT() {
      BlockT(t);
    } else if t in TableG() {
      BlockG(t);
      assert CodonTable()[t] == TableG()[t];
    } else if t in TableC() {
      BlockC(t);
      if t in TableG() { BlockG(t); }
      assert CodonTable()[t] == TableC()[t];
    } else if t in TableA() {
      BlockA(t);
      if t in TableG() { BlockG(t); }
      if t in TableC() { BlockC(t); }
      assert CodonTable()[t] == TableA()[t];
    }
  }

  lemma BlockA(t: string)
    requires t in TableA()
    ensures IsTriplet(t) && t[0] == 'A'
    ensures TableA()[t] == "STOP" <==> IsStop(t)
    ensures TableA()[t] == "Met" <==> t == "ATG"
  {
  }

  lemma BlockC(t: string)
    requires t in TableC()
    ensures IsTriplet(t) && t[0] == 'C'
    ensures TableC()[t] == "STOP" <==> IsStop(t)
    ensures TableC()[t] == "Met" <==> t == "ATG"
  {
  }

  lemma BlockG(t: string)
    requires t in TableG()
    ensures IsTriplet(t) && t[0] == 'G'
    ensures TableG()[t] == "STOP" <==> IsStop(t)
    ensures TableG()[t] == "Met" <==> t == "ATG"
  {
  }

  lemma BlockT(t: string)
    requires t in TableT()
    ensures IsTriplet(t) && t[0] == 'T'
    ensures TableT()[t] == "STOP" <==> IsStop(t)
    ensures TableT()[t] == "Met" <==> t == "ATG"
  {
  }

  lemma TripletInTable(a: char, b: char, c: char)
    requires IsBase(a) && IsBase(b) && IsBase(c)
    ensures [a, b, c] in CodonTable()
  {
    if a == 'A' { TripletInTableA(b, c); }
    else if a == 'C' { TripletInTableC(b, c); }
    else if a == 'G' { TripletInTableG(b, c); }
    else { TripletInTableT(b, c); }
  }

  lemma TripletInTableA(b: char, c: char)
    requires IsBase(b) && IsBase(c)
    ensures ['A', b, c] in CodonTable()
  {
    var t := ['A', b, c];
    if b == 'A' {
      if c == 'A' { assert t == "AAA"; }
      else if c == 'C' { assert t == "AAC"; }
      else if c == 'G' { assert t == "AAG"; }
      else { assert t == "AAT"; }
    }
    else if b == 'C' {
      if c == 'A' { assert t == "ACA"; }
      else if c == 'C' { assert t == "ACC"; }
      else if c == 'G' { assert t == "ACG"; }
      else { assert t == "ACT"; }
    }
    else if b == 'G' {
      if c == 'A' { assert t == "AGA"; }
      else if c == 'C' { assert t == "AGC"; }
      else if c == 'G' { assert t == "AGG"; }
      else { assert t == "AGT"; }
    }
    else {
      if c == 'A' { assert t == "ATA"; }
      else if c == 'C' { assert t == "ATC"; }
      else if c == 'G' { assert t == "ATG"; }
      else { assert t == "ATT"; }
    }
  }

  lemma TripletInTableC(b: char, c: char)
    requires IsBase(b) && IsBase(c)
    ensures ['C', b, c] in CodonTable()
  {
    var t := ['C', b, c];
    if b == 'A' {
      if c == 'A' { assert t == "CAA"; }
      else if c == 'C' { assert t == "CAC"; }
      else if c == 'G' { assert t == "CAG"; }
      else { assert t == "CAT"; }
    }
    else if b == 'C' {
      if c == 'A' { assert t == "CCA"; }
      else if c == 'C' { assert t == "CCC"; }
      else if c == 'G' { assert t == "CCG"; }
      else { assert t == "CCT"; }
    }
    else if b == 'G' {
      if c == 'A' { assert t == "CGA"; }
      else if c == 'C' { assert t == "CGC"; }
      else if c == 'G' { assert t == "CGG"; }
      else { assert t == "CGT"; }
    }
    else {
      if c == 'A' { assert t == "CTA"; }
      else if c == 'C' { assert t == "CTC"; }
      else if c == 'G' { assert t == "CTG"; }
      else { assert t == "CTT"; }
    }
  }

  lemma TripletInTableG(b: char, c: char)
    requires IsBase(b) && IsBase(c)
    ensures ['G', b, c] in CodonTable()
  {
    var t := ['G', b, c];
    if b == 'A' {
      if c == 'A' { assert t == "GAA"; }
      else if c == 'C' { assert t == "GAC"; }
      else if c == 'G' { assert t == "GAG"; }
      else { assert t == "GAT"; }
    }
    else if b == 'C' {
      if c == 'A' { assert t == "GCA"; }
      else if c == 'C' { assert t == "GCC"; }
      else if c == 'G' { assert t == "GCG"; }
      else { assert t == "GCT"; }
    }
    else if b == 'G' {
      if c == 'A' { assert t == "GGA"; }
      else if c == 'C' { assert t == "GGC"; }
      else if c == 'G' { assert t == "GGG"; }
      else { assert t == "GGT"; }
    }
    else {
      if c == 'A' { assert t == "GTA"; }
      else if c == 'C' { assert t == "GTC"; }
      else if c == 'G' { assert t == "GTG"; }
      else { assert t == "GTT"; }
    }
  }

  lemma TripletInTableT(b: char, c: char)
    requires IsBase(b) && IsBase(c)
    ensures ['T', b, c] in CodonTable()
  {
    var t := ['T', b, c];
    if b == 'A' {
      if c == 'A' { assert t == "TAA"; }
      else if c == 'C' { assert t == "TAC"; }
      else if c == 'G' { assert t == "TAG"; }
      else { assert t == "TAT"; }
    }
    else if b == 'C' {
      if c == 'A' { assert t == "TCA"; }
      else if c == 'C' { assert t == "TCC"; }
      else if c == 'G' { assert t == "TCG"; }
      else { assert t == "TCT"; }
    }
    else if b == 'G' {
      if c == 'A' { assert t == "TGA"; }
      else if c == 'C' { assert t == "TGC"; }
      else if c == 'G' { assert t == "TGG"; }
      else { assert t == "TGT"; }
    }
    else {
      if c == 'A' { assert t == "TTA"; }
      else if c == 'C' { assert t == "TTC"; }
      else if c == 'G' { assert t == "TTG"; }
      else { assert t == "TTT"; }
    }
  }

  datatype Colour = Green | Red | Black

  /** The title colour of a triplet's pie chart: green '#00ff00' for ATG,
      red '#ff0000' for TGA, TAG and TAA, black 'k' otherwise. */
  function TitleColour(t: string): Colour
  {
    if t == "ATG" then Green
    else if t == "TGA" || t == "TAG" || t == "TAA" then Red
    else Black
  }

  /** The colour follows the table: red exactly for the triplets that code
      STOP, green exactly for the one that codes Met, black for the rest. */
  lemma TitleColourFollowsTable(t: string)
    requires t in CodonTable()
    ensures TitleColour(t) == Red <==> CodonTable()[t] == "STOP"
    ensures TitleColour(t) == Green <==> CodonTable()[t] == "Met"
    ensures TitleColour(t) == Black <==> CodonTable()[t] != "STOP" && CodonTable()[t] != "Met"
  {
    TableDomain(t);
  }

  function BaseIndex(c: char): nat
    requires IsBase(c)
  {
    if c == 'A' then 0 else if c == 'C' then 1 else if c == 'G' then 2 else 3
  }

  /** The position of a triplet in the enumeration AAA, AAC, ..., TTT. */
  function TripletIndex(t: string): (i: nat)
    requires IsTriplet(t)
    ensures i < 64
  {
    16 * BaseIndex(t[0]) + 4 * BaseIndex(t[1]) + BaseIndex(t[2])
  }

  lemma TripletIndexInjective(t: string, u: string)
    requires IsTriplet(t) && IsTriplet(u) && TripletIndex(t) == TripletIndex(u)
    ensures t == u
  {
    assert t == [t[0], t[1], t[2]] && u == [u[0], u[1], u[2]];
  }

  /** A list of distinct values below n has at most n elements. */
  lemma {:induction false} DistinctBelow(s: seq<nat>, n: nat)
    requires forall i, j :: 0 <= i < j < |s| ==> s[i] != s[j]
    requires forall i :: 0 <= i < |s| ==> s[i] < n
    ensures |s| <= n
    decreases n
  {
    if s != [] {
      assert s[0] < n;
      if top :| 0 <= top < |s| && s[top] == n - 1 {
        var rest := s[..top] + s[top + 1..];
        assert forall i :: 0 <= i < |rest| ==> rest[i] == if i < top then s[i] else s[i + 1];
        DistinctBelow(rest, n - 1);
      } else {
        DistinctBelow(s, n - 1);
      }
    }
  }

  /** The keys of a triplet dictionary that get_AA accepts are distinct
      codons, so there are at most 64 of them. */
  lemma AtMost64Codons(keys: seq<string>)
    requires forall i, j :: 0 <= i < j < |keys| ==> keys[i] != keys[j]
    requires forall i :: 0 <= i < |keys| ==> keys[i] in CodonTable()
    ensures |keys| <= 64
  {
    forall i | 0 <= i < |keys| ensures IsTriplet(keys[i]) {
      TableDomain(keys[i]);
    }
    var codes := seq(|keys|, i requires 0 <= i < |keys| => TripletIndex(keys[i]));
    forall i, j | 0 <= i < j < |codes| ensures codes[i] != codes[j] {
      if codes[i] == codes[j] {
        TripletIndexInjective(keys[i], keys[j]);
      }
    }
    DistinctBelow(codes, 64);
  }
}
