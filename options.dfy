/**
 * The command-line options of the mapping QC run: defaults for the options
 * left empty, validation in a fixed order that stops at the first fatal
 * problem, the short names of the output HTML and zip files, and the name
 * of the archive folder derived from the zip name.
 */
module Options {
  import opened Wrappers

  /** The sixteen option values as given on the command line ("" when absent). */
  datatype Options = Options(
    workdir: string, samfile: string, expName: string, outfolder: string,
    outhtml: string, outzip: string, plastidOption: string, plastidImg: string,
    ensDb: string, ensVersion: string, unique: string, plotRpfTool: string,
    tmpFolder: string, species: string, galaxy: string, galaxySam: string)

  /**
   * The options after defaulting. A short name is None where the run
   * leaves it unbound.
   */
  datatype Config = Config(
    galaxy: string, galaxySam: string, workdir: string, tmpFolder: string,
    samfile: string, expName: string, outfolder: string,
    outhtml: string, htmlShort: Option<string>, outzip: string, zipShort: Option<string>,
    plastidOption: string, plastidImg: string, ensDb: string, ensVersion: string,
    unique: string, plotRpfTool: string, species: string)

  /** The problems that end the run, in the order they are checked. */
  datatype Fatal =
    | BadGalaxy | BadGalaxySam | MissingExpName | BadHtmlPath | BadPlastidOption
    | MissingEnsemblDb | MissingEnsemblVersion | BadUnique | MissingSpecies

  /** The problems that are only reported. */
  datatype Warning = ZipNameNotExtracted | MissingPlastidImage

  /** What validation yields: the warnings reported, then the configuration or the fatal problem. */
  datatype Outcome = Outcome(warnings: seq<Warning>, result: Result<Config, Fatal>)

  const HtmlExts: seq<string> := ["html", "dat"]
  const ZipExts: seq<string> := ["zip", "dat"]
  const PlastidModes: set<string> := {"plastid", "standard", "from_file"}

  /** `w` is a non-empty name followed by a dot and one of the extensions. */
  predicate NameWithExt(w: string, exts: seq<string>)
  {
    exists k :: 0 <= k < |exts| && |w| >= |exts[k]| + 2 && w[|w| - |exts[k]| - 1..] == "." + exts[k]
  }

  /** Position `j` of `s` is a '/' followed by a name with one of the extensions up to the end. */
  predicate MatchAt(s: string, exts: seq<string>, j: int)
  {
    0 <= j < |s| && s[j] == '/' && NameWithExt(s[j + 1..], exts)
  }

  /** The last position before `n` where MatchAt holds. */
  function LastMatchBefore(s: string, exts: seq<string>, n: nat): (r: Option<nat>)
    requires n <= |s|
    ensures r.Some? ==> r.value < n && MatchAt(s, exts, r.value)
    ensures r.Some? ==> forall j :: r.value < j < n ==> !MatchAt(s, exts, j)
    ensures r.None? ==> forall j :: 0 <= j < n ==> !MatchAt(s, exts, j)
  {
    if n == 0 then None
    else if MatchAt(s, exts, n - 1) then Some(n - 1)
    else LastMatchBefore(s, exts, n - 1)
  }

  /**
   * The file name the path search of the option handling extracts (any
   * prefix, a '/', then a lazily matched name, a dot and one of the
   * extensions at the end): the greedy prefix runs up to the last '/'
   * after which a name with one of the extensions reaches the end.
   */
  function ShortName(s: string, exts: seq<string>): (r: Option<string>)
    ensures r.Some? ==> |r.value| < |s| && MatchAt(s, exts, |s| - |r.value| - 1) && r.value == s[|s| - |r.value|..]
    ensures r.Some? ==> forall j :: |s| - |r.value| - 1 < j < |s| ==> !MatchAt(s, exts, j)
    ensures r.None? <==> forall j :: 0 <= j < |s| ==> !MatchAt(s, exts, j)
  {
    match LastMatchBefore(s, exts, |s|)
    case None => None
    case Some(j) => Some(s[j + 1..])
  }

  /** Text after the last '/' of a path that holds one. */
  lemma ShortNameIsBaseName(s: string, exts: seq<string>, j: nat)
    requires j < |s| && s[j] == '/' && '/' !in s[j + 1..]
    requires NameWithExt(s[j + 1..], exts)
    ensures ShortName(s, exts) == Some(s[j + 1..])
  {
    assert MatchAt(s, exts, j);
  }

  /** A path without '/' gives no short name. */
  lemma ShortNameNeedsSlash(s: string, exts: seq<string>)
    requires '/' !in s
    ensures ShortName(s, exts) == None
  {
  }

  /** Python's `x or default` on strings. */
  function OrDefault(s: string, default: string): string
  {
    if s == "" then default else s
  }

  predicate IsYesNo(s: string)
  {
    s == "Y" || s == "N"
  }

  /** The condition under which each fatal problem is raised, when the run gets to its check. */
  predicate Fires(o: Options, f: Fatal)
  {
    match f
    case BadGalaxy => o.galaxy != "" && !IsYesNo(o.galaxy)
    case BadGalaxySam => o.galaxySam != "" && !IsYesNo(o.galaxySam)
    case MissingExpName => o.expName == ""
    case BadHtmlPath => o.outhtml != "" && '/' in o.outhtml && ShortName(o.outhtml, HtmlExts).None?
    case BadPlastidOption => o.plastidOption != "" && o.plastidOption !in PlastidModes
    case MissingEnsemblDb => o.ensDb == ""
    case MissingEnsemblVersion => o.ensVersion == ""
    case BadUnique => o.unique != "" && !IsYesNo(o.unique)
    case MissingSpecies => o.species == ""
  }

  /** The position of each check in the validation order. */
  function Rank(f: Fatal): nat
  {
    match f
    case BadGalaxy => 0
    case BadGalaxySam => 1
    case MissingExpName => 2
    case BadHtmlPath => 3
    case BadPlastidOption => 4
    case MissingEnsemblDb => 5
    case MissingEnsemblVersion => 6
    case BadUnique => 7
    case MissingSpecies => 8
  }

  /** The fatal problem reported: the first in the validation order that fires. */
  function FirstFatal(o: Options): Option<Fatal>
  {
    if Fires(o, BadGalaxy) then Some(BadGalaxy)
    else if Fires(o, BadGalaxySam) then Some(BadGalaxySam)
    else if Fires(o, MissingExpName) then Some(MissingExpName)
    else if Fires(o, BadHtmlPath) then Some(BadHtmlPath)
    else if Fires(o, BadPlastidOption) then Some(BadPlastidOption)
    else if Fires(o, MissingEnsemblDb) then Some(MissingEnsemblDb)
    else if Fires(o, MissingEnsemblVersion) then Some(MissingEnsemblVersion)
    else if Fires(o, BadUnique) then Some(BadUnique)
    else if Fires(o, MissingSpecies) then Some(MissingSpecies)
    else None
  }

  /** The run gets past the first `n` checks. */
  predicate Reaches(o: Options, n: nat)
  {
    FirstFatal(o).None? || Rank(FirstFatal(o).value) >= n
  }

  /** A zip path with a '/' from which no file name can be extracted. */
  predicate ZipNameLost(o: Options)
  {
    o.outzip != "" && '/' in o.outzip && ShortName(o.outzip, ZipExts).None?
  }

  /** Plastid mode without a plastid image. */
  predicate PlastidImageMissing(o: Options)
  {
    o.plastidOption == "plastid" && o.plastidImg == ""
  }

  /**
   * The warnings reported: the zip-name warning comes after the HTML path
   * check and the plastid-image warning after the plastid option check.
   */
  function Warnings(o: Options): seq<Warning>
  {
    (if Reaches(o, 4) && ZipNameLost(o) then [ZipNameNotExtracted] else []) +
    (if Reaches(o, 5) && PlastidImageMissing(o) then [MissingPlastidImage] else [])
  }

  /** The short HTML name: the default one, the extracted one, or unbound for a path without '/'. */
  function HtmlShort(outhtml: string): Option<string>
  {
    if outhtml == "" then Some("mQC.html")
    else if '/' in outhtml then ShortName(outhtml, HtmlExts)
    else None
  }

  /** The short zip name: the default one, the extracted one, or the given name when it holds no '/'. */
  function ZipShort(outzip: string): Option<string>
  {
    if outzip == "" then Some("mQC.zip")
    else if '/' in outzip then ShortName(outzip, ZipExts)
    else Some(outzip)
  }

  /** The configuration the run goes on with, every empty option replaced by its default. */
  function Configure(o: Options, cwd: string): Config
  {
    var workdir := OrDefault(o.workdir, cwd);
    Config(
      galaxy := OrDefault(o.galaxy, "N"),
      galaxySam := OrDefault(o.galaxySam, "Y"),
      workdir := workdir,
      tmpFolder := OrDefault(o.tmpFolder, workdir + "/tmp"),
      samfile := OrDefault(o.samfile, "STAR/fastq1/untreat.sam"),
      expName := o.expName,
      outfolder := OrDefault(o.outfolder, workdir + "/mappingQC_output/"),
      outhtml := OrDefault(o.outhtml, workdir + "/mQC.html"),
      htmlShort := HtmlShort(o.outhtml),
      outzip := OrDefault(o.outzip, workdir + "/mQC.zip"),
      zipShort := ZipShort(o.outzip),
      plastidOption := OrDefault(o.plastidOption, "standard"),
      plastidImg := o.plastidImg,
      ensDb := o.ensDb,
      ensVersion := o.ensVersion,
      unique := OrDefault(o.unique, "Y"),
      plotRpfTool := OrDefault(o.plotRpfTool, "grouped2D"),
      species := o.species)
  }

  /** The outcome of validation, stated check by check. */
  function Resolve(o: Options, cwd: string): Outcome
  {
    Outcome(Warnings(o),
            match FirstFatal(o)
            case Some(f) => Err(f)
            case None => Ok(Configure(o, cwd)))
  }

  /**
   * The output HTML and zip names with their short names. A HTML path
   * with a '/' but no extractable name ends the run; a zip path in the
   * same state is only reported (`zipLost`) and leaves its short name
   * unbound; a zip path without '/' is its own short name.
   */
  method OutputNames(outhtml0: string, outzip0: string, workdir: string)
    returns (r: Result<(string, Option<string>, string, Option<string>, bool), Fatal>)
    ensures r.Err? <==> outhtml0 != "" && '/' in outhtml0 && ShortName(outhtml0, HtmlExts).None?
    ensures r.Err? ==> r.error == BadHtmlPath
    ensures r.Ok? ==> r.value.0 == OrDefault(outhtml0, workdir + "/mQC.html") && r.value.1 == HtmlShort(outhtml0)
    ensures r.Ok? ==> r.value.2 == OrDefault(outzip0, workdir + "/mQC.zip") && r.value.3 == ZipShort(outzip0)
    ensures r.Ok? ==> (r.value.4 <==> outzip0 != "" && '/' in outzip0 && ShortName(outzip0, ZipExts).None?)
    ensures r.Ok? && r.value.4 ==> r.value.3 == None
  {
    var outhtml := outhtml0;
    var htmlShort: Option<string> := None;
    if outhtml == "" {
      outhtml := workdir + "/mQC.html";
      htmlShort := Some("mQC.html");
    } else if '/' in outhtml {
      var m := ShortName(outhtml, HtmlExts);
      if m.None? {
        return Err(BadHtmlPath);
      }
      htmlShort := m;
    }
    var outzip := outzip0;
    var zipShort: Option<string> := None;
    var zipLost := false;
    if outzip == "" {
      outzip := workdir + "/mQC.zip";
      zipShort := Some("mQC.zip");
    } else if '/' in outzip {
      var m := ShortName(outzip, ZipExts);
      if m.None? {
        zipLost := true;
      }
      zipShort := m;
    } else {
      zipShort := Some(outzip);
    }
    return Ok((outhtml, htmlShort, outzip, zipShort, zipLost));
  }

  /**
   * The first stretch of validation: the Galaxy flags, the working,
   * temporary and input paths, the experiment name and the output folder.
   */
  method RunSettings(o: Options, cwd: string)
    returns (r: Result<(string, string, string, string, string, string), Fatal>)
    ensures r.Err? <==> Fires(o, BadGalaxy) || Fires(o, BadGalaxySam) || Fires(o, MissingExpName)
    ensures r.Err? ==> r.error == if Fires(o, BadGalaxy) then BadGalaxy
                                 else if Fires(o, BadGalaxySam) then BadGalaxySam
                                 else MissingExpName
    ensures r.Ok? ==> var workdir := OrDefault(o.workdir, cwd);
      r.value == (OrDefault(o.galaxy, "N"), OrDefault(o.galaxySam, "Y"), workdir,
                  OrDefault(o.tmpFolder, workdir + "/tmp"), OrDefault(o.samfile, "STAR/fastq1/untreat.sam"),
                  OrDefault(o.outfolder, workdir + "/mappingQC_output/"))
  {
    var galaxy := o.galaxy;
    if galaxy == "" {
      galaxy := "N";
    } else if galaxy != "N" && galaxy != "Y" {
      return Err(BadGalaxy);
    }
    var galaxySam := o.galaxySam;
    if galaxySam == "" {
      galaxySam := "Y";
    } else if galaxySam != "N" && galaxySam != "Y" {
      return Err(BadGalaxySam);
    }
    var workdir := o.workdir;
    if workdir == "" {
      workdir := cwd;
    }
    var tmpFolder := o.tmpFolder;
    if tmpFolder == "" {
      tmpFolder := workdir + "/tmp";
    }
    var samfile := o.samfile;
    if samfile == "" {
      samfile := "STAR/fastq1/untreat.sam";
    }
    if o.expName == "" {
      return Err(MissingExpName);
    }
    var outfolder := o.outfolder;
    if outfolder == "" {
      outfolder := workdir + "/mappingQC_output/";
    }
    return Ok((galaxy, galaxySam, workdir, tmpFolder, samfile, outfolder));
  }

  /**
   * The last stretch of validation, reached once the earlier checks have
   * passed: the offset mode, the plastid image warning (`warned`), the
   * Ensembl database and version, the unique flag, the plotting tool and
   * the species.
   */
  method AnalysisSettings(o: Options) returns (warned: bool, r: Result<(string, string, string), Fatal>)
    requires !Fires(o, BadGalaxy) && !Fires(o, BadGalaxySam)
    requires !Fires(o, MissingExpName) && !Fires(o, BadHtmlPath)
    ensures r.Err? <==> FirstFatal(o).Some?
    ensures r.Err? ==> FirstFatal(o) == Some(r.error)
    ensures warned <==> Reaches(o, 5) && PlastidImageMissing(o)
    ensures r.Ok? ==> r.value == (OrDefault(o.plastidOption, "standard"), OrDefault(o.unique, "Y"),
                                  OrDefault(o.plotRpfTool, "grouped2D"))
  {
    warned := false;
    var plastid := o.plastidOption;
    if plastid == "" {
      plastid := "standard";
    } else if plastid != "standard" && plastid != "plastid" && plastid != "from_file" {
      return false, Err(BadPlastidOption);
    }
    if plastid == "plastid" && o.plastidImg == "" {
      warned := true;
    }
    if o.ensDb == "" {
      return warned, Err(MissingEnsemblDb);
    }
    if o.ensVersion == "" {
      return warned, Err(MissingEnsemblVersion);
    }
    var unique := o.unique;
    if unique == "" {
      unique := "Y";
    } else if unique != "Y" && unique != "N" {
      return warned, Err(BadUnique);
    }
    var plotRpfTool := o.plotRpfTool;
    if plotRpfTool == "" {
      plotRpfTool := "grouped2D";
    }
    if o.species == "" {
      return warned, Err(MissingSpecies);
    }
    return warned, Ok((plastid, unique, plotRpfTool));
  }

  /**
   * The validation as the run performs it: every option is defaulted or
   * checked in turn, warnings are reported as they arise, and the first
   * fatal problem ends it.
   */
  method Validate(o: Options, cwd: string) returns (outcome: Outcome)
    ensures outcome == Resolve(o, cwd)
  {
    var warnings: seq<Warning> := [];
    var run := RunSettings(o, cwd);
    if run.Err? {
      EarlyExit(o, cwd);
      return Outcome(warnings, Err(run.error));
    }
    var (galaxy, galaxySam, workdir, tmpFolder, samfile, outfolder) := run.value;
    var names := OutputNames(o.outhtml, o.outzip, workdir);
    if names.Err? {
      EarlyExit(o, cwd);
      return Outcome(warnings, Err(BadHtmlPath));
    }
    var (outhtml, htmlShort, outzip, zipShort, zipLost) := names.value;
    if zipLost {
      warnings := warnings + [ZipNameNotExtracted];
    }
    var warned, analysis := AnalysisSettings(o);
    if warned {
      warnings := warnings + [MissingPlastidImage];
    }
    LateWarnings(o);
    if analysis.Err? {
      ResolveWithFatal(o, cwd);
      return Outcome(warnings, Err(analysis.error));
    }
    var (plastid, unique, plotRpfTool) := analysis.value;
    var config := Config(galaxy, galaxySam, workdir, tmpFolder, samfile, o.expName,
                         outfolder, outhtml, htmlShort, outzip, zipShort, plastid,
                         o.plastidImg, o.ensDb, o.ensVersion, unique, plotRpfTool, o.species);
    AssembledConfig(o, cwd, run.value, names.value, analysis.value);
    ResolveWithoutFatal(o, cwd);
    return Outcome(warnings, Ok(config));
  }

  /** A run that stops at one of the first four checks has reported no warning. */
  lemma EarlyExit(o: Options, cwd: string)
    requires Fires(o, BadGalaxy) || Fires(o, BadGalaxySam) || Fires(o, MissingExpName) || Fires(o, BadHtmlPath)
    ensures Resolve(o, cwd) == Outcome([], Err(
      if Fires(o, BadGalaxy) then BadGalaxy
      else if Fires(o, BadGalaxySam) then BadGalaxySam
      else if Fires(o, MissingExpName) then MissingExpName
      else BadHtmlPath))
  {
  }

  /** Past the first four checks, the warnings are those of the zip name and of the plastid image, in that order. */
  lemma LateWarnings(o: Options)
    requires !Fires(o, BadGalaxy) && !Fires(o, BadGalaxySam)
    requires !Fires(o, MissingExpName) && !Fires(o, BadHtmlPath)
    ensures Warnings(o) == (if ZipNameLost(o) then [ZipNameNotExtracted] else []) +
                           (if Reaches(o, 5) && PlastidImageMissing(o) then [MissingPlastidImage] else [])
  {
  }

  lemma ResolveWithFatal(o: Options, cwd: string)
    requires FirstFatal(o).Some?
    ensures Resolve(o, cwd) == Outcome(Warnings(o), Err(FirstFatal(o).value))
  {
  }

  lemma ResolvedIsConfigured(o: Options, cwd: string)
    requires Resolve(o, cwd).result.Ok?
    ensures FirstFatal(o) == None
    ensures Resolve(o, cwd).result.value == Configure(o, cwd)
  {
  }

  lemma ResolveWithoutFatal(o: Options, cwd: string)
    requires FirstFatal(o) == None
    ensures Resolve(o, cwd) == Outcome(Warnings(o), Ok(Configure(o, cwd)))
  {
  }

  /** The values the three stretches of validation produce make up the configuration. */
  lemma AssembledConfig(o: Options, cwd: string,
                        run: (string, string, string, string, string, string),
                        names: (string, Option<string>, string, Option<string>, bool),
                        analysis: (string, string, string))
    requires var workdir := OrDefault(o.workdir, cwd);
      run == (OrDefault(o.galaxy, "N"), OrDefault(o.galaxySam, "Y"), workdir,
              OrDefault(o.tmpFolder, workdir + "/tmp"), OrDefault(o.samfile, "STAR/fastq1/untreat.sam"),
              OrDefault(o.outfolder, workdir + "/mappingQC_output/"))
    requires names.0 == OrDefault(o.outhtml, run.2 + "/mQC.html") && names.1 == HtmlShort(o.outhtml)
    requires names.2 == OrDefault(o.outzip, run.2 + "/mQC.zip") && names.3 == ZipShort(o.outzip)
    requires analysis == (OrDefault(o.plastidOption, "standard"), OrDefault(o.unique, "Y"),
                          OrDefault(o.plotRpfTool, "grouped2D"))
    ensures Config(run.0, run.1, run.2, run.3, run.4, o.expName, run.5, names.0, names.1, names.2,
                   names.3, analysis.0, o.plastidImg, o.ensDb, o.ensVersion, analysis.1, analysis.2,
                   o.species) == Configure(o, cwd)
  {
  }

  /** The fatal problem reported is one that fires, and none checked before it fires. */
  lemma FirstFatalIsFirst(o: Options, f: Fatal)
    ensures FirstFatal(o) == Some(f) <==> Fires(o, f) && forall g: Fatal :: Rank(g) < Rank(f) ==> !Fires(o, g)
  {
  }

  /** Validation fails exactly when some check fires. */
  lemma FailsIffSomeCheckFires(o: Options, cwd: string)
    ensures Resolve(o, cwd).result.Err? <==> exists f: Fatal :: Fires(o, f)
    ensures Resolve(o, cwd).result.Err? ==> Fires(o, Resolve(o, cwd).result.error)
  {
    if FirstFatal(o).None? {
      forall f: Fatal
        ensures !Fires(o, f)
      {
        match f
        case BadGalaxy =>
        case BadGalaxySam =>
        case MissingExpName =>
        case BadHtmlPath =>
        case BadPlastidOption =>
        case MissingEnsemblDb =>
        case MissingEnsemblVersion =>
        case BadUnique =>
        case MissingSpecies =>
      }
    }
  }

  /**
   * A configuration that passes validation has Y/N flags, a known offset
   * mode, the required names filled in, and the HTML short name bound
   * whenever the HTML path holds a '/'.
   */
  lemma ResolvedConfigIsValid(o: Options, cwd: string)
    requires Resolve(o, cwd).result.Ok?
    ensures var c := Resolve(o, cwd).result.value;
      IsYesNo(c.galaxy) && IsYesNo(c.galaxySam) && IsYesNo(c.unique) &&
      c.plastidOption in PlastidModes &&
      c.expName != "" && c.ensDb != "" && c.ensVersion != "" && c.species != "" &&
      c.plotRpfTool != "" && c.outhtml != "" && c.outzip != "" &&
      ('/' in c.outhtml ==> c.htmlShort.Some?)
  {
  }

  /** The options every run must be given. */
  predicate RequiredGiven(o: Options)
  {
    o.expName != "" && o.ensDb != "" && o.ensVersion != "" && o.species != ""
  }

  /** With only the required options given, every other option takes its default. */
  lemma DefaultsApply(o: Options, cwd: string)
    requires RequiredGiven(o)
    requires o.workdir == "" && o.samfile == "" && o.outfolder == "" && o.outhtml == "" && o.outzip == ""
    requires o.plastidOption == "" && o.unique == "" && o.plotRpfTool == "" && o.tmpFolder == ""
    requires o.galaxy == "" && o.galaxySam == ""
    ensures Resolve(o, cwd).warnings == []
    ensures Resolve(o, cwd).result.Ok?
    ensures var c := Resolve(o, cwd).result.value;
      c.galaxy == "N" && c.galaxySam == "Y" && c.unique == "Y" && c.plastidOption == "standard" &&
      c.plotRpfTool == "grouped2D" && c.workdir == cwd && c.tmpFolder == cwd + "/tmp" &&
      c.samfile == "STAR/fastq1/untreat.sam" && c.outfolder == cwd + "/mappingQC_output/" &&
      c.outhtml == cwd + "/mQC.html" && c.htmlShort == Some("mQC.html") &&
      c.outzip == cwd + "/mQC.zip" && c.zipShort == Some("mQC.zip")
  {
  }

  /** The plotting tool is never checked: any value leaves the outcome the same apart from that field. */
  lemma PlotToolNeverValidated(o: Options, cwd: string, tool: string)
    ensures Resolve(o.(plotRpfTool := tool), cwd).warnings == Resolve(o, cwd).warnings
    ensures Resolve(o.(plotRpfTool := tool), cwd).result.Ok? == Resolve(o, cwd).result.Ok?
    ensures Resolve(o.(plotRpfTool := tool), cwd).result.Err? ==>
              Resolve(o.(plotRpfTool := tool), cwd).result == Resolve(o, cwd).result
    ensures Resolve(o.(plotRpfTool := tool), cwd).result.Ok? ==>
              Resolve(o.(plotRpfTool := tool), cwd).result.value.plotRpfTool == OrDefault(tool, "grouped2D")
  {
    var o2 := o.(plotRpfTool := tool);
    assert forall f :: Fires(o2, f) == Fires(o, f);
    assert FirstFatal(o2) == FirstFatal(o);
    assert Warnings(o2) == Warnings(o);
    if FirstFatal(o).None? {
      assert Resolve(o2, cwd).result.value == Configure(o2, cwd);
    }
  }

  /**
   * A missing plastid image never ends the run: the image path does not
   * decide success or the fatal problem, and the warning is reported
   * exactly in plastid mode without an image once the run gets past the
   * offset mode check.
   */
  lemma PlastidImageOnlyWarns(o: Options, cwd: string, img: string)
    ensures Resolve(o.(plastidImg := img), cwd).result.Err? <==> Resolve(o, cwd).result.Err?
    ensures Resolve(o, cwd).result.Err? ==> Resolve(o.(plastidImg := img), cwd).result == Resolve(o, cwd).result
    ensures MissingPlastidImage in Resolve(o, cwd).warnings <==>
              o.plastidOption == "plastid" && o.plastidImg == "" && Reaches(o, 5)
  {
    assert FirstFatal(o.(plastidImg := img)) == FirstFatal(o);
  }

  /** Without a '/' in the HTML path no short name is bound, and the run does not mind. */
  lemma HtmlShortUnboundWithoutSlash(o: Options, cwd: string)
    requires o.outhtml != "" && '/' !in o.outhtml
    ensures !Fires(o, BadHtmlPath)
    ensures Resolve(o, cwd).result.Ok? ==> Resolve(o, cwd).result.value.htmlShort == None
  {
  }

  /** A bound HTML short name ends in .html or .dat and is the tail of the given path after a '/'. */
  lemma HtmlShortIsTail(o: Options, cwd: string)
    requires Resolve(o, cwd).result.Ok? && o.outhtml != ""
    requires Resolve(o, cwd).result.value.htmlShort.Some?
    ensures var w := Resolve(o, cwd).result.value.htmlShort.value;
      NameWithExt(w, HtmlExts) && |w| < |o.outhtml| &&
      o.outhtml[|o.outhtml| - |w| - 1] == '/' && o.outhtml[|o.outhtml| - |w|..] == w
  {
    ResolvedIsConfigured(o, cwd);
    assert Configure(o, cwd).htmlShort == ShortName(o.outhtml, HtmlExts);
  }

  /** The archive folder used when no name can be taken from the zip name. */
  const DefaultArchive: string := "mQC_archive/"

  /**
   * The archive folder: the zip short name without a final ".zip" when
   * something precedes it, the default folder otherwise, and nothing when
   * the short name was never bound (the run stops there).
   */
  function ArchiveFolder(zipShort: Option<string>): (r: Option<string>)
    ensures r.None? <==> zipShort.None?
  {
    match zipShort
    case None => None
    case Some(z) =>
      if |z| > 4 && z[|z| - 4..] == ".zip" then Some(z[..|z| - 4]) else Some(DefaultArchive)
  }

  /** A zip name ending in ".zip" gives back a folder that, with ".zip" appended, is that name; any other gives the default folder. */
  lemma ArchiveFolderOfZipName(z: string)
    ensures |z| > 4 && z[|z| - 4..] == ".zip" ==>
              ArchiveFolder(Some(z)).value + ".zip" == z && ArchiveFolder(Some(z)).value != ""
    ensures !(|z| > 4 && z[|z| - 4..] == ".zip") ==> ArchiveFolder(Some(z)) == Some(DefaultArchive)
  {
    if |z| > 4 && z[|z| - 4..] == ".zip" {
      assert z[..|z| - 4] + z[|z| - 4..] == z;
    }
  }

  /** With no zip path given, the archive folder is "mQC". */
  lemma DefaultArchiveFolder(o: Options, cwd: string)
    requires Resolve(o, cwd).result.Ok? && o.outzip == ""
    ensures ArchiveFolder(Resolve(o, cwd).result.value.zipShort) == Some("mQC")
  {
    assert "mQC.zip"[..3] == "mQC";
  }

  /**
   * A zip path with a '/' from which no name can be extracted is only
   * reported, yet it leaves the short name unbound, so a run that passes
   * validation has no archive folder and stops when it needs one.
   */
  lemma LostZipNameStopsArchive(o: Options, cwd: string)
    requires ZipNameLost(o)
    requires Resolve(o, cwd).result.Ok?
    ensures ZipNameNotExtracted in Resolve(o, cwd).warnings
    ensures ArchiveFolder(Resolve(o, cwd).result.value.zipShort) == None
  {
  }
}
