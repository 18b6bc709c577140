# mappingQC report core, modelled in Dafny

mappingQC (`mqc_tools/mQC.py`) builds a quality-control report for
ribosome-profiling alignments. Most of the program draws charts, copies files
and calls shell tools. This project models the parts that have logic of their
own and proves properties about them:

- **Option handling** (`options.dfy`, module `Options`). The options of `main`
  get their defaults and are checked in the program's fixed order, and the
  first fatal problem ends the run. Two problems are only reported as
  warnings: a zip path whose file name cannot be extracted, and plastid mode
  without a plastid image. The module also covers the short names of the
  output HTML and zip files, which come from the regular expression on the
  path, and the archive folder name derived from the zip short name.
- **Summary tables** (`plot_data.dfy`, module `PlotData`). `get_plot_data`
  reads `rpf_phase.csv` and `total_triplet.csv` into dictionaries, where a
  repeated key is overwritten, and sums the phase totals over the distinct
  lengths. A line that `int()` cannot read ends the run.
- **Decimal text** (`decimal.dfy`, module `Decimal`). This covers Python's
  `str(n)` and Python 2's `int(s)` with surrounding white space and a sign.
  It also covers `format_thousands`, which groups digits by three and uses a
  space as the separator.
- **Codon table** (`codons.dfy`, module `Codons`). It contains
  `get_codontable`, `get_AA`, whose KeyError becomes `None`, and the title
  colour of each triplet chart.
- **Triplet chart grid** (`triplet_grid.dfy`, module `TripletGrid`). The
  dictionary keys are sorted by amino-acid name with a stable sort. The
  subplots are then placed by the program's two grid counters in an 8 x 9
  `GridSpec`.
- **Offsets section of the report** (`offsets.dfy`, module `Offsets`). The
  table loop goes over every RPF length from the smallest to the largest, and
  each length must select exactly one offset. The plastid-mode section shows
  the plastid image and the other mode does not.
- **Alignment count** (`alignments.dfy`, module `Alignments`). It chooses
  which file `maps_out_of_sam` counts from the extension and the Galaxy flags.
  It reads the count line back and falls back to 0 when the line cannot be
  parsed.

`wrappers.dfy` holds the `Option` and `Result` datatypes. A Python exception
that ends the run becomes an `Err` value, or `None` in a lookup.

Three behaviours of the code worth noting:

- Extra columns in a summary file are ignored. Only missing columns or
  unreadable numbers fail (`mQC.py:1159-1162`).
- The usage text calls the plastid image mandatory in plastid mode
  (`mQC.py:68-69`). A missing image is still only reported, and the run
  goes on (`mQC.py:262-264`).
- A gap in the RPF lengths of the offsets file is not filled. `int()` of an
  empty selection fails, so the table fails at the first such length
  (`mQC.py:375-378`).

## Model

| member | source | states |
|---|---|---|
| Decimal.NatToString | mqc_tools/mQC.py:377 | `str(n)` of a natural number is a non-empty string of decimal digits with no leading zero |
| Decimal.DigitsValueOfNatToString | mqc_tools/mQC.py:377 | the digits written for n denote n |
| Decimal.ParseInt | mqc_tools/mQC.py:1160-1162 | when `int()` succeeds, the stripped text is non-empty and ends in a digit |
| Decimal.ParseIntToString | mqc_tools/mQC.py:1160-1162 | `int(str(n)) == n` for every integer, negative ones included |
| Decimal.ParseIntTrailingSpace | mqc_tools/mQC.py:1198 | a trailing white-space character, such as the newline `readline` keeps, does not change what `int()` reads |
| Decimal.GroupThousandsShape | mqc_tools/mQC.py:1207-1208 | the grouped number has one separator per full group of three below the leading group; separators sit exactly at every fourth position from the right, and every other character is a digit |
| Decimal.RemoveSpacesGroupThousands | mqc_tools/mQC.py:1207-1208 | deleting the separators from the grouped digits gives the digits back |
| Decimal.FormatThousandsUngrouped | mqc_tools/mQC.py:1207-1208 | deleting the separators from `format_thousands(x)` gives `str(x)`, so `int()` reads x back |
| PlotData.RpfLineRoundTrip | mqc_tools/mQC.py:1159-1162 | a line written as length plus three counts, with any extra fields, is read back as that length and those counts |
| PlotData.LoadOutcome | mqc_tools/mQC.py:1157-1162 | reading a file succeeds exactly when every line parses; otherwise the error names the first line that does not |
| PlotData.LoadErrorPersists | mqc_tools/mQC.py:1157-1162 | once a prefix of the file fails to read, the whole file fails the same way |
| PlotData.RpfTableLastLineWins | mqc_tools/mQC.py:1158-1162 | the phase table maps each length named in the file to the counts on the last line naming it, and holds no other length |
| PlotData.TripletTableLastLineWins | mqc_tools/mQC.py:1173-1176 | the triplet table holds exactly the (triplet, phase) pairs named in the file, each with the count of the last line naming it; every triplet present has at least one phase |
| PlotData.AddTripletRowEffect | mqc_tools/mQC.py:1176 | one triplet line sets its own (triplet, phase) count and leaves every other pair unchanged |
| PlotData.SumOverSplit | mqc_tools/mQC.py:1165-1169 | the totals are the same whichever length is added first: the order of the dictionary's keys does not matter |
| PlotData.SumOverOtherKey | mqc_tools/mQC.py:1165-1169 | changing the counts of a length outside the summed keys leaves the sum unchanged |
| PlotData.TotalsAfterLine | mqc_tools/mQC.py:1160-1169 | a line for a length seen before replaces that length's counts in the totals; a new length adds its counts |
| PlotData.TotalsExample | mqc_tools/mQC.py:1165-1169 | lengths 28 with (10, 20, 5) and 29 with (1, 2, 3) total (11, 22, 8) |
| PlotData.ReadRpfPhase | mqc_tools/mQC.py:1157-1162 | the first loop yields the reference phase table, or the index of the first unreadable line |
| PlotData.PhaseTotals | mqc_tools/mQC.py:1165-1169 | the second loop yields the column sums over all distinct lengths |
| PlotData.ReadTriplets | mqc_tools/mQC.py:1173-1176 | the third loop yields the reference triplet table, or the index of the first unreadable line |
| PlotData.GetPlotData | mqc_tools/mQC.py:1145-1178 | succeeds exactly when both files read; otherwise the error names the first failing file and line; the totals are the sums of the phase table |
| Codons.AminoAcid | mqc_tools/mQC.py:1211-1216 | `get_AA` succeeds exactly on the 64 triplets over A, C, G and T; it gives STOP exactly for TAA, TAG and TGA, and Met exactly for ATG |
| Codons.TableDomain | mqc_tools/mQC.py:1219-1240 | the keys of the codon table are exactly the 64 DNA triplets; exactly the three stop codons map to STOP and only ATG maps to Met |
| Codons.TitleColourFollowsTable | mqc_tools/mQC.py:765-770 | a chart title is red exactly for the triplets coding STOP, green exactly for the one coding Met, and black otherwise |
| Codons.AtMost64Codons | mqc_tools/mQC.py:752 | a dictionary whose keys `get_AA` accepts has at most 64 keys |
| TripletGrid.InsertByAA | mqc_tools/mQC.py:752 | inserting a triplet adds exactly that triplet and keeps the order by amino acid |
| TripletGrid.SortByAA | mqc_tools/mQC.py:752 | the sorted keys are a permutation of the keys and never decrease by amino-acid name |
| TripletGrid.SortedAllPairs | mqc_tools/mQC.py:752 | in the sorted order every later triplet's amino acid sorts no earlier than every earlier one's |
| TripletGrid.FirstUnknown | mqc_tools/mQC.py:752 | no key is reported exactly when every key is in the codon table; a reported key is the first key, in dictionary order, outside the table |
| TripletGrid.LayoutInGrid | mqc_tools/mQC.py:749-757 | with at most 64 triplets every subplot lies inside the 8 x 9 grid and no two subplots share a cell |
| TripletGrid.PlacePanels | mqc_tools/mQC.py:750-771 | the grid counters put the k-th triplet at row k div 8 and column k mod 8, titled `<triplet>: <amino acid>` in its title colour |
| TripletGrid.TripletPanels | mqc_tools/mQC.py:744-778 | a key outside the codon table fails with the first such key in dictionary order; an empty dictionary fails at the legend; otherwise the panels are the layout of the sorted keys, all inside the grid |
| Offsets.MinRpf | mqc_tools/mQC.py:373 | the smallest RPF length is at most every length in the file and is one of them |
| Offsets.MaxRpf | mqc_tools/mQC.py:372 | the largest RPF length is at least every length in the file and is one of them |
| Offsets.SingleOffset | mqc_tools/mQC.py:378 | the selection for a length is a single offset exactly when one line has that length, and it is that line's offset |
| Offsets.NoOffsetNoRow | mqc_tools/mQC.py:378 | an empty selection means no line has that length |
| Offsets.NoRowNoOffset | mqc_tools/mQC.py:378 | when no line has a length, its selection is empty |
| Offsets.TableRowsInOrder | mqc_tools/mQC.py:375 | the table has max-min+1 rows, in ascending length order with no gap |
| Offsets.TableRowsBacked | mqc_tools/mQC.py:375-378 | each row shows the offset of the one line with that length |
| Offsets.TableRowsCover | mqc_tools/mQC.py:372-375 | every length in the file gets a row |
| Offsets.OffsetsTable | mqc_tools/mQC.py:371-380 | the table loop fails on an empty file; it succeeds exactly when every length from min to max has one offset, and then renders the rows in order; otherwise it fails at the first length without exactly one offset and reports how many it found |
| Offsets.SectionShowsTable | mqc_tools/mQC.py:383-415 | in either mode the section contains the rendered table |
| Offsets.PlastidSectionShowsImage | mqc_tools/mQC.py:387-401 | in plastid mode the section contains the image element for the given plot |
| Offsets.PlastidSectionDependsOnImage | mqc_tools/mQC.py:387-401 | in plastid mode two different image paths give two different sections |
| Offsets.OtherModeIgnoresImage | mqc_tools/mQC.py:402-415 | in any other mode the section does not depend on the image path |
| Offsets.OtherModeShowsNoImage | mqc_tools/mQC.py:402-415 | in any other mode the section for any rendered table contains no `<img` element |
| Offsets.PlastidModeShowsImage | mqc_tools/mQC.py:387-401 | in plastid mode the section contains an `<img` element, whatever the table and the image path |
| Offsets.NavNamesPlastid | mqc_tools/mQC.py:385-403 | the navigation entry names the plastid analysis exactly in plastid mode |
| Options.LastMatchBefore | mqc_tools/mQC.py:238 | finds the last '/' before a position that is followed by a name with one of the extensions up to the end, or reports that there is none |
| Options.ShortName | mqc_tools/mQC.py:238-240 | the extracted name is the text after the last '/' that is followed by a non-empty name, a dot and one of the extensions at the end; no name is extracted exactly when no '/' is followed by such a name |
| Options.ShortNameIsBaseName | mqc_tools/mQC.py:238-240 | for a path whose final part has one of the extensions, the extracted name is that final part |
| Options.ShortNameNeedsSlash | mqc_tools/mQC.py:236-237 | a path without '/' gives no extracted name |
| Options.RunSettings | mqc_tools/mQC.py:207-231 | the Galaxy flags, the paths and the experiment name: fails exactly when one of the first three checks fires, with the first in order; otherwise gives the defaulted values |
| Options.OutputNames | mqc_tools/mQC.py:232-256 | fails exactly for a HTML path with '/' and no extractable name; a zip path in that state is only flagged and its short name stays unbound; otherwise gives the defaulted paths and their short names |
| Options.AnalysisSettings | mqc_tools/mQC.py:257-281 | the remaining checks fail exactly with the first fatal problem; the plastid image warning is raised exactly in plastid mode without an image once the offset mode check passes |
| Options.Validate | mqc_tools/mQC.py:207-281 | the validation as the run performs it yields exactly the reference outcome: the warnings reported up to the stopping point, then the first fatal problem or the defaulted configuration |
| Options.FirstFatalIsFirst | mqc_tools/mQC.py:207-281 | the reported fatal problem is one that fires, and no check made before it fires |
| Options.FailsIffSomeCheckFires | mqc_tools/mQC.py:207-281 | validation fails exactly when some check fires, and the reported problem is one of those that fire |
| Options.ResolvedConfigIsValid | mqc_tools/mQC.py:207-281 | a configuration that passes has Y/N flags and a known offset mode; the required names are filled in, and the HTML short name is bound when the HTML path holds a '/' |
| Options.DefaultsApply | mqc_tools/mQC.py:207-281 | with only the four required options given, there is no warning and every other option takes its default |
| Options.PlotToolNeverValidated | mqc_tools/mQC.py:277-278 | any plotting-tool value leaves the warnings and the success or failure unchanged; it only sets that field |
| Options.PlastidImageOnlyWarns | mqc_tools/mQC.py:262-264 | the plastid image never decides success or the fatal problem; the missing-image warning appears exactly in plastid mode without an image, once the offset mode check passes |
| Options.HtmlShortUnboundWithoutSlash | mqc_tools/mQC.py:235-237 | a HTML path without '/' never raises the bad HTML path error, and a run that succeeds leaves the HTML short name unbound |
| Options.HtmlShortIsTail | mqc_tools/mQC.py:236-240 | a bound HTML short name ends in .html or .dat and is the tail of the given path after a '/' |
| Options.ArchiveFolder | mqc_tools/mQC.py:343-347 | there is an archive folder exactly when the zip short name is bound |
| Options.ArchiveFolderOfZipName | mqc_tools/mQC.py:343-347 | a short name ending in ".zip" gives a non-empty folder that, with ".zip" appended, is the short name; any other short name gives `mQC_archive/` |
| Options.DefaultArchiveFolder | mqc_tools/mQC.py:343-347 | with no zip path given, the archive folder is `mQC` |
| Options.LostZipNameStopsArchive | mqc_tools/mQC.py:343-347 | a zip path with '/' and no extractable name is reported, yet a run that passes validation then has no archive folder |
| Alignments.Extension | mqc_tools/mQC.py:1187 | there is no extension exactly when the name holds no '.'; otherwise it is the dot-free text after the last '.' |
| Alignments.ExtensionOfName | mqc_tools/mQC.py:1187 | a stem, a dot and a dot-free extension give back that extension |
| Alignments.MapsOutOfSam | mqc_tools/mQC.py:1181-1205 | fails exactly for a name without '.'; a BAM input, or a Galaxy run whose input is not SAM, is counted as the converted SAM file and any other input as given; the count is the parsed line, 0 when it cannot be parsed, and n when the line is `str(n)` and a newline |
| Alignments.CountLineRead | mqc_tools/mQC.py:1194-1198 | the line `wc -l` writes for n alignments reads back as n |

## Left out

- Chart drawing: seaborn, matplotlib, the pies, legends, figure sizes and
  saving are left out. Only the placement, titles and title colours of the
  triplet subplots are modelled.
- Pie slice labels (`map(format_thousands, ...)` at `mQC.py:761`) are not
  modelled as a list. `format_thousands` itself is modelled on integers.
- Shell commands (`os.system`: samtools, wc, mkdir, cp, mv, zip, rm, wget)
  and all file reading and writing are left out. The counting pipeline's
  first output line is the `countLine` parameter of
  `Alignments.MapsOutOfSam`, and the summary files arrive as lines of fields.
- `os.getcwd()` is the `cwd` parameter of the option functions. `os.chdir`
  and `getopt` parsing are left out, so options arrive as sixteen strings
  that are `""` when absent.
- The rest of the HTML template (head, styles, metadata table, time fields,
  the other sections) and `print_dict` are left out. Only the offsets table,
  the offsets section and its navigation entry are modelled.
- Splitting a CSV line on ',' is left out, and lines arrive already split
  into fields. The trailing newline stays on the last field. `int()` strips
  it, which `Decimal.ParseIntTrailingSpace` captures.
- pandas is reduced to what the offsets loop uses. Column types, NaN values
  and non-integer cells of the offsets file are left out, and its rows arrive
  as integer pairs.
- Copying the plastid image into the output folder (`mQC.py:325`) is left
  out. The image path `img` of the offsets section is the name of the copy,
  `offsets.png` (`mQC.py:323`, `mQC.py:338`), not the `plastid_img` option.
- The extension of the input name is taken from the whole path, as
  `rsplit('.', 1)` does.
- Decimal.ParseInt: Python 2 leniencies of `int()` on byte strings are not
  modelled. This is white space between the sign and the digits. The model
  rejects such text, which the program would accept.
- Options.ShortName: the newline rules of `.` and `$` in Python regular
  expressions (`mQC.py:238`) are not modelled. The model treats a newline
  like any other character.
- Options.ArchiveFolder: the same newline rules of `(.+)\.zip$`
  (`mQC.py:345`) are not modelled. A newline counts as an ordinary
  character of the folder name.
- TripletGrid.SortByAA: the sort is proved sorted and a permutation. Its
  stability (triplets with the same amino acid keep dictionary order) is not
  stated as a property.
- The dictionary iteration order of `data.keys()` is a parameter: the keys
  arrive as a sequence.
