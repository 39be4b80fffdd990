/**
 * What `__main__` derives from the validated options before it runs bcbio:
 * the reference data directory, the substitution maps for the project and
 * system YAML files, the choice of project template, and the rendered texts.
 */
module Config {
  import opened Wrappers
  import opened Text
  import opened Template
  import opened BcbioTemplates
  import opened Options

  /** Where the final results go when `--output_dir` is not given. */
  const DefaultOutputDir: string := "./final"

  /** The structural-variant caller line set when structural calling is requested. */
  const SvCallerFragment: string := "svcaller: [cnvkit, lumpy, delly]"

  /** The core count written to the system YAML when detection fails. */
  const DefaultCoreCount: nat := 16

  // ---- Directories ----

  /**
   * `os.path.join(path, '')`: the directory with exactly one trailing `/`
   * added, unless it is empty or already ends in one.
   */
  function JoinDirectory(path: string): (r: string)
    ensures |path| <= |r| <= |path| + 1 && r[..|path|] == path
    ensures r == [] <==> path == []
    ensures r != [] ==> r[|r| - 1] == '/'
    ensures |r| == |path| + 1 ==> path != [] && path[|path| - 1] != '/'
  {
    if path == [] || path[|path| - 1] == '/' then path else path + "/"
  }

  /** Whether a string option was given with a non-empty value (Python truthiness). */
  predicate Given(s: Option<string>)
  {
    s.Some? && s.value != []
  }

  /**
   * The reference data directory: `<cwd>/data/`, or the `--data_dir` value
   * with a trailing `/`. A `--data_file` tar is unpacked into `<cwd>/data/`,
   * so it does not change the directory.
   */
  method ResolveDataDir(cwd: string, o: RunOptions) returns (datadir: string)
    ensures Given(o.dataDir) ==> datadir == JoinDirectory(o.dataDir.value)
    ensures !Given(o.dataDir) ==> datadir == cwd + "/data/"
    ensures datadir != [] && datadir[|datadir| - 1] == '/'
  {
    datadir := cwd;
    datadir := cwd + "/data/";
    if Given(o.dataDir) {
      datadir := o.dataDir.value;
      datadir := JoinDirectory(datadir);
    }
  }

  // ---- The project substitution map ----

  /** The text a file group renders as: its files joined by `,`, or `""` when absent. */
  function GroupText(group: Option<seq<string>>): string
  {
    if group.Some? then Join(",", group.value) else ""
  }

  /** The map with `key` set to the joined group, only when the group is non-empty. */
  function WithFileGroup(values: map<string, string>, key: string, group: Option<seq<string>>): map<string, string>
  {
    if group.Some? && group.value != [] then values[key := Join(",", group.value)] else values
  }

  /** The `output_dir` value: the option when given, `./final` otherwise. */
  function OutputDir(o: RunOptions): string
  {
    if Given(o.outputDir) then o.outputDir.value else DefaultOutputDir
  }

  /** The `svcaller_info` value: the caller line exactly when structural calling is requested. */
  function SvCallerInfo(workflow: seq<Workflow>): string
  {
    if StructuralVariantCalling in workflow then SvCallerFragment else ""
  }

  /** The keys the project map can hold. */
  const ProjectKeys: set<string> :=
    {"working_dir", "bed_file", "output_dir", "sample_files", "normal_sample_files",
     "tumor_sample_files", "svcaller_info"}

  /** The entries set before `svcaller_info`; none of them depends on the workflow. */
  function FileValues(cwd: string, o: RunOptions): (r: map<string, string>)
    ensures r.Keys <= ProjectKeys - {"svcaller_info"}
    ensures Get(r, "working_dir") == cwd + "/work/" && Get(r, "bed_file") == o.bedFile
    ensures Get(r, "output_dir") == OutputDir(o)
    ensures Get(r, "sample_files") == GroupText(o.sampleFiles)
    ensures Get(r, "normal_sample_files") == GroupText(o.normalSampleFiles)
    ensures Get(r, "tumor_sample_files") == GroupText(o.tumorSampleFiles)
  {
    var values := map["working_dir" := cwd + "/work/", "bed_file" := o.bedFile, "output_dir" := OutputDir(o)];
    var values := WithFileGroup(values, "sample_files", o.sampleFiles);
    var values := WithFileGroup(values, "normal_sample_files", o.normalSampleFiles);
    WithFileGroup(values, "tumor_sample_files", o.tumorSampleFiles)
  }

  /** A file group's key is set exactly when the group is non-empty. */
  lemma FileValuesKeys(cwd: string, o: RunOptions)
    ensures ("sample_files" in FileValues(cwd, o)) <==> o.sampleFiles.Some? && o.sampleFiles.value != []
    ensures ("normal_sample_files" in FileValues(cwd, o)) <==> o.normalSampleFiles.Some? && o.normalSampleFiles.value != []
    ensures ("tumor_sample_files" in FileValues(cwd, o)) <==> o.tumorSampleFiles.Some? && o.tumorSampleFiles.value != []
  {
    var base := map["working_dir" := cwd + "/work/", "bed_file" := o.bedFile, "output_dir" := OutputDir(o)];
    var withSamples := WithFileGroup(base, "sample_files", o.sampleFiles);
    var withNormal := WithFileGroup(withSamples, "normal_sample_files", o.normalSampleFiles);
    assert "sample_files" in withSamples <==> o.sampleFiles.Some? && o.sampleFiles.value != [];
    assert "normal_sample_files" in withNormal <==> o.normalSampleFiles.Some? && o.normalSampleFiles.value != [];
  }

  /** The entries before `svcaller_info` do not depend on the workflow. */
  lemma FileValuesIgnoreWorkflow(cwd: string, o: RunOptions, workflow: seq<Workflow>)
    ensures FileValues(cwd, o.(workflow := workflow)) == FileValues(cwd, o)
  {
    assert OutputDir(o.(workflow := workflow)) == OutputDir(o);
  }

  /** The finished `yaml_substitute_values` defaultdict, as seen through lookups. */
  function ProjectValues(cwd: string, o: RunOptions): (r: map<string, string>)
    ensures r.Keys <= ProjectKeys
    ensures Get(r, "working_dir") == cwd + "/work/"
    ensures Get(r, "bed_file") == o.bedFile
    ensures Get(r, "output_dir") == (if Given(o.outputDir) then o.outputDir.value else "./final")
    ensures Get(r, "sample_files") == GroupText(o.sampleFiles)
    ensures Get(r, "normal_sample_files") == GroupText(o.normalSampleFiles)
    ensures Get(r, "tumor_sample_files") == GroupText(o.tumorSampleFiles)
    ensures ("sample_files" in r) <==> o.sampleFiles.Some? && o.sampleFiles.value != []
    ensures ("normal_sample_files" in r) <==> o.normalSampleFiles.Some? && o.normalSampleFiles.value != []
    ensures ("tumor_sample_files" in r) <==> o.tumorSampleFiles.Some? && o.tumorSampleFiles.value != []
    ensures StructuralVariantCalling in o.workflow ==> Get(r, "svcaller_info") == "svcaller: [cnvkit, lumpy, delly]"
    ensures StructuralVariantCalling !in o.workflow ==> Get(r, "svcaller_info") == ""
  {
    FileValuesKeys(cwd, o);
    FileValues(cwd, o)["svcaller_info" := SvCallerInfo(o.workflow)]
  }

  /**
   * Fills `yaml_substitute_values` entry by entry, in the order `__main__`
   * does.
   */
  method BuildProjectValues(cwd: string, o: RunOptions) returns (values: map<string, string>)
    ensures values == ProjectValues(cwd, o)
  {
    values := map[];
    var workingDir := cwd + "/work/";
    values := values["working_dir" := workingDir];
    // `"".join` of a string is the string itself
    var bedFileText := o.bedFile;
    values := values["bed_file" := bedFileText];
    var outputDirText := DefaultOutputDir;
    if Given(o.outputDir) {
      outputDirText := o.outputDir.value;
    }
    values := values["output_dir" := outputDirText];
    ghost var before := values;
    if o.sampleFiles.Some? && o.sampleFiles.value != [] {
      values := values["sample_files" := Join(",", o.sampleFiles.value)];
    }
    assert values == WithFileGroup(before, "sample_files", o.sampleFiles);
    before := values;
    if o.normalSampleFiles.Some? && o.normalSampleFiles.value != [] {
      values := values["normal_sample_files" := Join(",", o.normalSampleFiles.value)];
    }
    assert values == WithFileGroup(before, "normal_sample_files", o.normalSampleFiles);
    before := values;
    if o.tumorSampleFiles.Some? && o.tumorSampleFiles.value != [] {
      values := values["tumor_sample_files" := Join(",", o.tumorSampleFiles.value)];
    }
    assert values == WithFileGroup(before, "tumor_sample_files", o.tumorSampleFiles);
    assert values == FileValues(cwd, o);
    values := values["svcaller_info" := ""];
    if StructuralVariantCalling in o.workflow {
      values := values["svcaller_info" := SvCallerFragment];
    }
    assert values == FileValues(cwd, o)["svcaller_info" := SvCallerInfo(o.workflow)];
  }

  /**
   * A file group's text splits back into its files on `,` when no file name
   * holds a comma.
   */
  lemma GroupTextRoundTrip(files: seq<string>)
    requires files != []
    requires forall k | 0 <= k < |files| :: ',' !in files[k]
    ensures Split(GroupText(Some(files)), ',') == files
  {
    SplitJoinRoundTrip(files, ',');
  }

  // ---- Template selection and rendering ----

  /**
   * The project template: germline when requested, overridden by cancer when
   * that is requested; none when neither is.
   */
  function SelectWorkflowTemplate(workflow: seq<Workflow>): (r: Option<Template>)
    ensures r.Some? <==> CancerVariantCalling in workflow || GermlineVariantCalling in workflow
    ensures r == Some(CancerTemplate) <==> CancerVariantCalling in workflow
    ensures r == Some(GermlineTemplate) <==> CancerVariantCalling !in workflow && GermlineVariantCalling in workflow
  {
    var template := if GermlineVariantCalling in workflow then Some(GermlineTemplate) else None;
    if CancerVariantCalling in workflow then Some(CancerTemplate) else template
  }

  /** How a run ends before bcbio starts, when it does not produce a text. */
  datatype RunError =
    | Usage(UsageError)              // `parser.error`: exit with a usage message
    | NoWorkflowTemplate             // the template variable is never bound
    | Malformed(TemplateError)       // an uncaught `ValueError` from the scanner

  /** The `except KeyError` around `substitute`: the text stays `""`. */
  function CatchKeyError(r: Result<string, TemplateError>): (c: Result<string, RunError>)
    ensures r.Ok? ==> c == Ok(r.value)
    ensures r.Err? && r.error.KeyError? ==> c == Ok("")
    ensures c.Err? <==> r == Err(InvalidPlaceholder)
    ensures c.Err? ==> c.error == Malformed(InvalidPlaceholder)
  {
    match r
    case Ok(s) => Ok(s)
    case Err(KeyError(_)) => Ok("")
    case Err(InvalidPlaceholder) => Err(Malformed(InvalidPlaceholder))
  }

  /** The text `__main__` writes to the project YAML for options `o` run from `cwd`. */
  function ProjectYaml(cwd: string, o: RunOptions): Result<string, RunError>
  {
    var checked := Validate(o);
    if checked.Err? then Err(Usage(checked.error))
    else
      match SelectWorkflowTemplate(o.workflow)
      case None => Err(NoWorkflowTemplate)
      case Some(t) => CatchKeyError(Substitute(TemplateText(t), DefaultDict(ProjectValues(cwd, o))))
  }

  /** The template an accepted run renders: the selected one (every accepted run selects one). */
  function SelectedTemplate(o: RunOptions): Template
  {
    SelectWorkflowTemplate(o.workflow).GetOr(GermlineTemplate)
  }

  /**
   * The project YAML is produced exactly for the accepted option sets, and it
   * is then the selected template filled from the project map; the scanner
   * never fails on these templates, so the `KeyError` handler has nothing to
   * catch.
   */
  lemma ProjectYamlRendersTemplate(cwd: string, o: RunOptions)
    ensures Parsed(o) ==> (ProjectYaml(cwd, o).Ok? <==> AcceptedRun(o))
    ensures AcceptedRun(o) ==> ProjectYaml(cwd, o) == Ok(Fill(SelectedTemplate(o), ProjectValues(cwd, o)))
    ensures ProjectYaml(cwd, o).Err? ==> !ProjectYaml(cwd, o).error.Malformed?
    ensures Validate(o).Ok? && |o.workflow| == 0 ==> ProjectYaml(cwd, o) == Err(NoWorkflowTemplate)
  {
    if AcceptedRun(o) {
      AcceptedProjectYaml(cwd, o);
    }
  }

  /** An accepted run's project YAML is the selected template filled from the project map. */
  lemma AcceptedProjectYaml(cwd: string, o: RunOptions)
    requires AcceptedRun(o)
    ensures ProjectYaml(cwd, o) == Ok(Fill(SelectedTemplate(o), ProjectValues(cwd, o)))
  {
    var e := ProjectValues(cwd, o);
    assert Validate(o) == Ok(o);
    if CancerVariantCalling in o.workflow {
      assert SelectWorkflowTemplate(o.workflow) == Some(CancerTemplate);
      CancerTemplateWellFormed();
      SubstituteFilled(CancerTemplate, e);
    } else {
      assert SelectWorkflowTemplate(o.workflow) == Some(GermlineTemplate);
      GermlineTemplateWellFormed();
      SubstituteFilled(GermlineTemplate, e);
    }
  }

  /**
   * An accepted germline run's project YAML, written out: the working
   * directory, the output directory and the comma-joined sample files in
   * their places.
   */
  lemma GermlineProjectText(cwd: string, o: RunOptions)
    requires AcceptedRun(o) && GermlineVariantCalling in o.workflow
    ensures ProjectYaml(cwd, o) ==
      Ok(GermlineText(cwd + "/work/", OutputDir(o), Join(",", o.sampleFiles.value)))
  {
    AcceptedProjectYaml(cwd, o);
    assert SelectedTemplate(o) == GermlineTemplate;
    GermlineFill(ProjectValues(cwd, o));
  }

  /**
   * An accepted cancer run's project YAML, written out: the BED file and the
   * caller line each appear twice, once per sample section.
   */
  lemma CancerProjectText(cwd: string, o: RunOptions)
    requires AcceptedRun(o) && CancerVariantCalling in o.workflow
    ensures ProjectYaml(cwd, o) ==
      Ok(CancerText(
           o.bedFile, SvCallerInfo(o.workflow),
           Join(",", o.normalSampleFiles.value), Join(",", o.tumorSampleFiles.value),
           OutputDir(o), cwd + "/work/"))
  {
    AcceptedProjectYaml(cwd, o);
    assert SelectedTemplate(o) == CancerTemplate;
    CancerFill(ProjectValues(cwd, o));
    CancerValues(cwd, o);
  }

  /** The values an accepted cancer run's map gives the cancer placeholders. */
  lemma CancerValues(cwd: string, o: RunOptions)
    requires AcceptedRun(o) && CancerVariantCalling in o.workflow
    ensures var e := ProjectValues(cwd, o);
      CancerText(
        Get(e, "bed_file"), Get(e, "svcaller_info"),
        Get(e, "normal_sample_files"), Get(e, "tumor_sample_files"),
        Get(e, "output_dir"), Get(e, "working_dir")) ==
      CancerText(
        o.bedFile, SvCallerInfo(o.workflow),
        Join(",", o.normalSampleFiles.value), Join(",", o.tumorSampleFiles.value),
        OutputDir(o), cwd + "/work/")
  {
    var e := ProjectValues(cwd, o);
    assert [Get(e, "bed_file"), Get(e, "svcaller_info"), Get(e, "normal_sample_files"),
            Get(e, "tumor_sample_files"), Get(e, "output_dir"), Get(e, "working_dir")] ==
           [o.bedFile, SvCallerInfo(o.workflow), Join(",", o.normalSampleFiles.value),
            Join(",", o.tumorSampleFiles.value), OutputDir(o), cwd + "/work/"];
  }

  /**
   * The accepted run's project YAML cut at its `$svcaller_info` places, with
   * every other placeholder filled; it does not depend on whether structural
   * calling was requested.
   */
  function ProjectFrame(cwd: string, o: RunOptions): seq<string>
  {
    TemplateSegments(SelectedTemplate(o), FileValues(cwd, o), "svcaller_info")
  }

  /** An accepted run's project YAML is its frame joined by the `svcaller_info` value. */
  lemma ProjectYamlFromFrame(cwd: string, o: RunOptions)
    requires AcceptedRun(o)
    ensures ProjectYaml(cwd, o) == Ok(Join(SvCallerInfo(o.workflow), ProjectFrame(cwd, o)))
  {
    AcceptedProjectYaml(cwd, o);
    assert ProjectValues(cwd, o) == FileValues(cwd, o)["svcaller_info" := SvCallerInfo(o.workflow)];
    FillAt(SelectedTemplate(o), FileValues(cwd, o), "svcaller_info", SvCallerInfo(o.workflow));
  }

  /**
   * Requesting structural calling changes the project YAML only at the
   * `$svcaller_info` places: both texts are the same frame, joined by the
   * caller line or by nothing.
   */
  lemma StructuralOnlyChangesSvCaller(cwd: string, o: RunOptions, o': RunOptions)
    requires AcceptedRun(o) && AcceptedRun(o')
    requires o' == o.(workflow := o'.workflow)
    requires CancerVariantCalling in o.workflow <==> CancerVariantCalling in o'.workflow
    ensures ProjectFrame(cwd, o) == ProjectFrame(cwd, o')
    ensures ProjectYaml(cwd, o) == Ok(Join(SvCallerInfo(o.workflow), ProjectFrame(cwd, o)))
    ensures ProjectYaml(cwd, o') == Ok(Join(SvCallerInfo(o'.workflow), ProjectFrame(cwd, o)))
  {
    FileValuesIgnoreWorkflow(cwd, o, o'.workflow);
    assert SelectedTemplate(o) == SelectedTemplate(o');
    ProjectYamlFromFrame(cwd, o);
    ProjectYamlFromFrame(cwd, o');
  }

  /**
   * The germline template holds neither `$bed_file` nor `$svcaller_info`: two
   * accepted germline runs with the same sample files and output directory
   * write the same project YAML, whatever their BED files and whether
   * structural calling was requested.
   */
  lemma GermlineIgnoresBedAndStructural(cwd: string, o: RunOptions, o': RunOptions)
    requires AcceptedRun(o) && AcceptedRun(o')
    requires GermlineVariantCalling in o.workflow && GermlineVariantCalling in o'.workflow
    requires o.sampleFiles == o'.sampleFiles && o.outputDir == o'.outputDir
    ensures ProjectYaml(cwd, o) == ProjectYaml(cwd, o')
  {
    GermlineProjectText(cwd, o);
    GermlineProjectText(cwd, o');
    assert OutputDir(o) == OutputDir(o');
  }

  // ---- The system resources file ----

  /**
   * The `sys_yaml_substitute_values` defaultdict: `core_count` only, the
   * detected count when detection succeeds and 16 otherwise.
   */
  function SystemValues(detected: Option<nat>): (r: map<string, string>)
    ensures r.Keys == {"core_count"}
    ensures && (forall k | 0 <= k < |r["core_count"]| :: IsDigit(r["core_count"][k]))
            && DecimalValue(r["core_count"]) == (if detected.Some? then detected.value else DefaultCoreCount)
    ensures r["core_count"] == NatToString(detected.GetOr(DefaultCoreCount))
  {
    NatToStringRoundTrip(detected.GetOr(DefaultCoreCount));
    map["core_count" := NatToString(detected.GetOr(DefaultCoreCount))]
  }

  /** Fills `sys_yaml_substitute_values`, first with the default count and then with the detected one. */
  method BuildSystemValues(detected: Option<nat>) returns (values: map<string, string>)
    ensures values == SystemValues(detected)
  {
    values := map[];
    values := values["core_count" := NatToString(DefaultCoreCount)];
    var coreCount: nat := DefaultCoreCount;
    if detected.Some? {
      coreCount := detected.value;
    }
    values := values["core_count" := NatToString(coreCount)];
  }

  /** The text written to `bcbio_system.yaml` when the data directory is empty. */
  function SystemYaml(detected: Option<nat>): Result<string, RunError>
  {
    CatchKeyError(Substitute(TemplateText(SystemTemplate), DefaultDict(SystemValues(detected))))
  }

  /**
   * The system YAML, written out: the commented-out temporary directory and
   * Galaxy configuration path render empty, and the core count is the
   * decimal text of the detected count, or of 16.
   */
  lemma SystemYamlText(detected: Option<nat>)
    ensures SystemYaml(detected) == Ok(SystemText("", NatToString(detected.GetOr(DefaultCoreCount)), ""))
  {
    var e := SystemValues(detected);
    assert e == map["core_count" := NatToString(detected.GetOr(DefaultCoreCount))];
    assert Get(e, "temp_dir") == "" && Get(e, "galaxy_config_path") == "";
    SystemTemplateWellFormed();
    SubstituteText(SystemTemplate, DefaultDict(e));
    assert SystemYaml(detected) == Ok(Fill(SystemTemplate, e));
    SystemFill(e);
  }
}
