/**
 * The wrapper's command-line options and the five consistency rules that
 * `parse_arguments` enforces after argparse has run.
 */
module Options {
  import opened Wrappers

  /** The three values the repeatable `--workflow` flag accepts. */
  datatype Workflow =
    | CancerVariantCalling      // "cancer-variant-calling"
    | GermlineVariantCalling    // "germline-variant-calling"
    | StructuralVariantCalling  // "structural-variant-calling"

  /**
   * The options record argparse hands back. Flags declared with
   * `action='append'` are lists, or absent (`None`) when never given.
   */
  datatype RunOptions = RunOptions(
    workflow: seq<Workflow>,
    sampleFiles: Option<seq<string>>,
    tumorSampleFiles: Option<seq<string>>,
    normalSampleFiles: Option<seq<string>>,
    numCores: int,
    gatkFile: Option<string>,
    bedFile: string,
    dataDir: Option<string>,
    dataFile: Option<string>,
    outputDir: Option<string>)

  /** An appended flag is either absent or holds at least one value. */
  predicate AppendedGroup(g: Option<seq<string>>)
  {
    g.Some? ==> |g.value| > 0
  }

  /**
   * What argparse itself guarantees before the rules below run: `--workflow`
   * is required and repeatable, the appended groups are never empty lists,
   * and `--data_dir` and `--data_file` form a mutually exclusive group.
   */
  predicate Parsed(o: RunOptions)
  {
    && |o.workflow| > 0
    && AppendedGroup(o.sampleFiles)
    && AppendedGroup(o.tumorSampleFiles)
    && AppendedGroup(o.normalSampleFiles)
    && !(o.dataDir.Some? && o.dataFile.Some?)
  }

  /** The five `parser.error` messages, in the order they are checked. */
  datatype UsageError =
    | StructuralAlone           // structural calling needs germline or cancer
    | GermlineWithCancer        // germline and cancer are exclusive
    | GermlineWithoutSamples    // germline needs --sample_files
    | CancerWithoutTumorNormal  // cancer needs --normal_sample_files and --tumor_sample_files
    | SamplesWithTumorNormal    // --sample_files excludes the tumor/normal switches

  /** The position of a rule in the checking order. */
  function Rank(e: UsageError): nat
  {
    match e
    case StructuralAlone => 0
    case GermlineWithCancer => 1
    case GermlineWithoutSamples => 2
    case CancerWithoutTumorNormal => 3
    case SamplesWithTumorNormal => 4
  }

  /** The condition under which each rule rejects an option set. */
  predicate Violates(o: RunOptions, e: UsageError)
  {
    var w := o.workflow;
    match e
    case StructuralAlone =>
      StructuralVariantCalling in w && GermlineVariantCalling !in w && CancerVariantCalling !in w
    case GermlineWithCancer =>
      GermlineVariantCalling in w && CancerVariantCalling in w
    case GermlineWithoutSamples =>
      GermlineVariantCalling in w && o.sampleFiles.None?
    case CancerWithoutTumorNormal =>
      CancerVariantCalling in w && (o.normalSampleFiles.None? || o.tumorSampleFiles.None?)
    case SamplesWithTumorNormal =>
      (o.normalSampleFiles.Some? || o.tumorSampleFiles.Some?) && o.sampleFiles.Some?
  }

  /**
   * The accepted option sets, written as a table of their own: a germline run
   * (optionally with structural calling) with sample files and no tumor/normal
   * switches, or a cancer run (optionally with structural calling) with both
   * tumor and normal files and no sample files.
   */
  predicate AcceptedRun(o: RunOptions)
  {
    var w := o.workflow;
    || (&& GermlineVariantCalling in w && CancerVariantCalling !in w
        && o.sampleFiles.Some? && o.tumorSampleFiles.None? && o.normalSampleFiles.None?)
    || (&& CancerVariantCalling in w && GermlineVariantCalling !in w
        && o.tumorSampleFiles.Some? && o.normalSampleFiles.Some? && o.sampleFiles.None?)
  }

  /**
   * The checks at the end of `parse_arguments`: the first violated rule ends
   * the program with its message; otherwise the options are returned as they
   * are.
   */
  function Validate(o: RunOptions): (r: Result<RunOptions, UsageError>)
    ensures r.Ok? ==> r.value == o
    ensures r.Ok? <==> forall e :: !Violates(o, e)
    ensures r.Err? ==> Violates(o, r.error)
    ensures r.Err? ==> forall e | Rank(e) < Rank(r.error) :: !Violates(o, e)
    ensures |o.workflow| > 0 ==> (r.Ok? <==> AcceptedRun(o))
  {
    var w := o.workflow;
    if StructuralVariantCalling in w && GermlineVariantCalling !in w && CancerVariantCalling !in w then
      assert Violates(o, StructuralAlone);
      Err(StructuralAlone)
    else if GermlineVariantCalling in w && CancerVariantCalling in w then
      assert Violates(o, GermlineWithCancer);
      Err(GermlineWithCancer)
    else if GermlineVariantCalling in w && o.sampleFiles.None? then
      assert Violates(o, GermlineWithoutSamples);
      Err(GermlineWithoutSamples)
    else if CancerVariantCalling in w && (o.normalSampleFiles.None? || o.tumorSampleFiles.None?) then
      assert Violates(o, CancerWithoutTumorNormal);
      Err(CancerWithoutTumorNormal)
    else if (o.normalSampleFiles.Some? || o.tumorSampleFiles.Some?) && o.sampleFiles.Some? then
      assert Violates(o, SamplesWithTumorNormal);
      Err(SamplesWithTumorNormal)
    else
      assert |w| > 0 ==> w[0] in w && (w[0] == StructuralVariantCalling || w[0] in [CancerVariantCalling, GermlineVariantCalling]);
      Ok(o)
  }

  /** Structural calling alone is refused, whatever files are given. */
  lemma StructuralAloneRejected(o: RunOptions)
    requires forall x | x in o.workflow :: x == StructuralVariantCalling
    requires |o.workflow| > 0
    ensures Validate(o) == Err(StructuralAlone)
  {
    assert o.workflow[0] in o.workflow;
  }

  /**
   * Germline and cancer together are refused; a germline run needs sample
   * files and a cancer run needs both tumor and normal files; sample files
   * together with tumor or normal files are refused whatever the workflow.
   */
  lemma ConflictingOptionsRejected(o: RunOptions)
    ensures (GermlineVariantCalling in o.workflow && CancerVariantCalling in o.workflow)
      ==> Validate(o) == Err(GermlineWithCancer)
    ensures (GermlineVariantCalling in o.workflow && o.sampleFiles.None?) ==> Validate(o).Err?
    ensures (CancerVariantCalling in o.workflow && (o.tumorSampleFiles.None? || o.normalSampleFiles.None?))
      ==> Validate(o).Err?
    ensures (o.sampleFiles.Some? && (o.tumorSampleFiles.Some? || o.normalSampleFiles.Some?))
      ==> Validate(o).Err?
  {
    if o.sampleFiles.Some? && (o.tumorSampleFiles.Some? || o.normalSampleFiles.Some?) {
      assert Violates(o, SamplesWithTumorNormal);
    }
  }

  /** Adding structural calling to an accepted run keeps it accepted. */
  lemma StructuralIsOptional(o: RunOptions, extra: seq<Workflow>)
    requires AcceptedRun(o)
    requires forall x | x in extra :: x == StructuralVariantCalling
    ensures Validate(o.(workflow := o.workflow + extra)) == Ok(o.(workflow := o.workflow + extra))
  {
    var o' := o.(workflow := o.workflow + extra);
    assert forall x | x in o.workflow :: x in o'.workflow;
    assert CancerVariantCalling in o'.workflow <==> CancerVariantCalling in o.workflow;
    assert GermlineVariantCalling in o'.workflow <==> GermlineVariantCalling in o.workflow;
  }
}
