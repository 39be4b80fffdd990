/**
 * The three configuration templates of the wrapper, cut at their placeholders.
 * Together the constants of a template spell its text exactly as the wrapper
 * holds it: the leading newline, trailing spaces, and the indentation before
 * the closing quotes. The literal between two placeholders is written as short
 * chunks (at most 36 characters, long lines split at word boundaries) joined
 * with `+`. Lemmas show each chunk, and so each literal, `$`-free, so that the
 * cut is the one Python's scanner makes.
 */
module BcbioTemplates {
  import Text
  import opened Template

  // ---- system resources, bcbio_system.yaml (UCSCbcbioTool.py:128-166) ----

  const SystemHead: string := "\n" + "#\n" + "resources:\n" + "#  tmp:\n" + "#    dir: "

  lemma SystemHeadDollarFree() ensures DollarFree(SystemHead) { assert '$' !in SystemHead; DollarFreeIff(SystemHead); }

  const SystemAfterTempDir: string := "\n" + "  default:\n" + "    cores: "

  lemma SystemAfterTempDirDollarFree() ensures DollarFree(SystemAfterTempDir) { assert '$' !in SystemAfterTempDir; DollarFreeIff(SystemAfterTempDir); }

  lemma TempDirIsIdentifier() ensures IsIdentifier("temp_dir") { }

  lemma SystemSlot0WellFormed()
    ensures SlotWellFormed(Slot("temp_dir", SystemAfterTempDir))
  {
    TempDirIsIdentifier();
    SystemAfterTempDirDollarFree();
  }

  const SystemAfterCoreCount: string :=
    SystemAfterCoreCountChunk1 + SystemAfterCoreCountChunk2 + SystemAfterCoreCountChunk3 + SystemAfterCoreCountChunk4 +
    SystemAfterCoreCountChunk5 + SystemAfterCoreCountChunk6 + SystemAfterCoreCountChunk7 + SystemAfterCoreCountChunk8 +
    SystemAfterCoreCountChunk9 + SystemAfterCoreCountChunk10 + SystemAfterCoreCountChunk11 + SystemAfterCoreCountChunk12 +
    SystemAfterCoreCountChunk13

  const SystemAfterCoreCountChunk1: string := "\n" + "    jvm_opts:\n" + "    - -Xms750m\n"
  lemma SystemAfterCoreCountChunk1DollarFree() ensures DollarFree(SystemAfterCoreCountChunk1) { assert '$' !in SystemAfterCoreCountChunk1; DollarFreeIff(SystemAfterCoreCountChunk1); }

  const SystemAfterCoreCountChunk2: string := "    - -Xmx3500m\n" + "    memory: 3G\n"
  lemma SystemAfterCoreCountChunk2DollarFree() ensures DollarFree(SystemAfterCoreCountChunk2) { assert '$' !in SystemAfterCoreCountChunk2; DollarFreeIff(SystemAfterCoreCountChunk2); }

  const SystemAfterCoreCountChunk3: string := "  dexseq:\n" + "    memory: 10g\n"
  lemma SystemAfterCoreCountChunk3DollarFree() ensures DollarFree(SystemAfterCoreCountChunk3) { assert '$' !in SystemAfterCoreCountChunk3; DollarFreeIff(SystemAfterCoreCountChunk3); }

  const SystemAfterCoreCountChunk4: string := "  express:\n" + "    memory: 8g\n" + "  gatk:\n"
  lemma SystemAfterCoreCountChunk4DollarFree() ensures DollarFree(SystemAfterCoreCountChunk4) { assert '$' !in SystemAfterCoreCountChunk4; DollarFreeIff(SystemAfterCoreCountChunk4); }

  const SystemAfterCoreCountChunk5: string := "    jvm_opts:\n" + "    - -Xms500m\n"
  lemma SystemAfterCoreCountChunk5DollarFree() ensures DollarFree(SystemAfterCoreCountChunk5) { assert '$' !in SystemAfterCoreCountChunk5; DollarFreeIff(SystemAfterCoreCountChunk5); }

  const SystemAfterCoreCountChunk6: string := "    - -Xmx3500m\n" + "  macs2:\n"
  lemma SystemAfterCoreCountChunk6DollarFree() ensures DollarFree(SystemAfterCoreCountChunk6) { assert '$' !in SystemAfterCoreCountChunk6; DollarFreeIff(SystemAfterCoreCountChunk6); }

  const SystemAfterCoreCountChunk7: string := "    memory: 8g\n" + "  qualimap:\n"
  lemma SystemAfterCoreCountChunk7DollarFree() ensures DollarFree(SystemAfterCoreCountChunk7) { assert '$' !in SystemAfterCoreCountChunk7; DollarFreeIff(SystemAfterCoreCountChunk7); }

  const SystemAfterCoreCountChunk8: string := "    memory: 4g\n" + "  seqcluster:\n"
  lemma SystemAfterCoreCountChunk8DollarFree() ensures DollarFree(SystemAfterCoreCountChunk8) { assert '$' !in SystemAfterCoreCountChunk8; DollarFreeIff(SystemAfterCoreCountChunk8); }

  const SystemAfterCoreCountChunk9: string := "    memory: 8g\n" + "  snpeff:\n"
  lemma SystemAfterCoreCountChunk9DollarFree() ensures DollarFree(SystemAfterCoreCountChunk9) { assert '$' !in SystemAfterCoreCountChunk9; DollarFreeIff(SystemAfterCoreCountChunk9); }

  const SystemAfterCoreCountChunk10: string := "    jvm_opts:\n" + "    - -Xms750m\n"
  lemma SystemAfterCoreCountChunk10DollarFree() ensures DollarFree(SystemAfterCoreCountChunk10) { assert '$' !in SystemAfterCoreCountChunk10; DollarFreeIff(SystemAfterCoreCountChunk10); }

  const SystemAfterCoreCountChunk11: string := "    - -Xmx4g\n"
  lemma SystemAfterCoreCountChunk11DollarFree() ensures DollarFree(SystemAfterCoreCountChunk11) { assert '$' !in SystemAfterCoreCountChunk11; DollarFreeIff(SystemAfterCoreCountChunk11); }

  const SystemAfterCoreCountChunk12: string := "galaxy_config: /mnt/biodata/galaxy/\n"
  lemma SystemAfterCoreCountChunk12DollarFree() ensures DollarFree(SystemAfterCoreCountChunk12) { assert '$' !in SystemAfterCoreCountChunk12; DollarFreeIff(SystemAfterCoreCountChunk12); }

  const SystemAfterCoreCountChunk13: string := "#  galaxy_config: "
  lemma SystemAfterCoreCountChunk13DollarFree() ensures DollarFree(SystemAfterCoreCountChunk13) { assert '$' !in SystemAfterCoreCountChunk13; DollarFreeIff(SystemAfterCoreCountChunk13); }

  lemma SystemAfterCoreCountDollarFree()
    ensures DollarFree(SystemAfterCoreCount)
  {
    SystemAfterCoreCountChunk1DollarFree();
    SystemAfterCoreCountChunk2DollarFree();
    SystemAfterCoreCountChunk3DollarFree();
    SystemAfterCoreCountChunk4DollarFree();
    SystemAfterCoreCountChunk5DollarFree();
    SystemAfterCoreCountChunk6DollarFree();
    SystemAfterCoreCountChunk7DollarFree();
    SystemAfterCoreCountChunk8DollarFree();
    SystemAfterCoreCountChunk9DollarFree();
    SystemAfterCoreCountChunk10DollarFree();
    SystemAfterCoreCountChunk11DollarFree();
    SystemAfterCoreCountChunk12DollarFree();
    SystemAfterCoreCountChunk13DollarFree();
    DollarFreeAppend(SystemAfterCoreCountChunk1, SystemAfterCoreCountChunk2);
    DollarFreeAppend(SystemAfterCoreCountChunk1 + SystemAfterCoreCountChunk2, SystemAfterCoreCountChunk3);
    DollarFreeAppend(SystemAfterCoreCountChunk1 + SystemAfterCoreCountChunk2 + SystemAfterCoreCountChunk3, SystemAfterCoreCountChunk4);
    DollarFreeAppend(SystemAfterCoreCountChunk1 + SystemAfterCoreCountChunk2 + SystemAfterCoreCountChunk3 + SystemAfterCoreCountChunk4, SystemAfterCoreCountChunk5);
    DollarFreeAppend(SystemAfterCoreCountChunk1 + SystemAfterCoreCountChunk2 + SystemAfterCoreCountChunk3 + SystemAfterCoreCountChunk4 + SystemAfterCoreCountChunk5, SystemAfterCoreCountChunk6);
    DollarFreeAppend(SystemAfterCoreCountChunk1 + SystemAfterCoreCountChunk2 + SystemAfterCoreCountChunk3 + SystemAfterCoreCountChunk4 + SystemAfterCoreCountChunk5 + SystemAfterCoreCountChunk6, SystemAfterCoreCountChunk7);
    DollarFreeAppend(SystemAfterCoreCountChunk1 + SystemAfterCoreCountChunk2 + SystemAfterCoreCountChunk3 + SystemAfterCoreCountChunk4 + SystemAfterCoreCountChunk5 + SystemAfterCoreCountChunk6 + SystemAfterCoreCountChunk7, SystemAfterCoreCountChunk8);
    DollarFreeAppend(SystemAfterCoreCountChunk1 + SystemAfterCoreCountChunk2 + SystemAfterCoreCountChunk3 + SystemAfterCoreCountChunk4 + SystemAfterCoreCountChunk5 + SystemAfterCoreCountChunk6 + SystemAfterCoreCountChunk7 + SystemAfterCoreCountChunk8, SystemAfterCoreCountChunk9);
    DollarFreeAppend(SystemAfterCoreCountChunk1 + SystemAfterCoreCountChunk2 + SystemAfterCoreCountChunk3 + SystemAfterCoreCountChunk4 + SystemAfterCoreCountChunk5 + SystemAfterCoreCountChunk6 + SystemAfterCoreCountChunk7 + SystemAfterCoreCountChunk8 + SystemAfterCoreCountChunk9, SystemAfterCoreCountChunk10);
    DollarFreeAppend(SystemAfterCoreCountChunk1 + SystemAfterCoreCountChunk2 + SystemAfterCoreCountChunk3 + SystemAfterCoreCountChunk4 + SystemAfterCoreCountChunk5 + SystemAfterCoreCountChunk6 + SystemAfterCoreCountChunk7 + SystemAfterCoreCountChunk8 + SystemAfterCoreCountChunk9 + SystemAfterCoreCountChunk10, SystemAfterCoreCountChunk11);
    DollarFreeAppend(SystemAfterCoreCountChunk1 + SystemAfterCoreCountChunk2 + SystemAfterCoreCountChunk3 + SystemAfterCoreCountChunk4 + SystemAfterCoreCountChunk5 + SystemAfterCoreCountChunk6 + SystemAfterCoreCountChunk7 + SystemAfterCoreCountChunk8 + SystemAfterCoreCountChunk9 + SystemAfterCoreCountChunk10 + SystemAfterCoreCountChunk11, SystemAfterCoreCountChunk12);
    DollarFreeAppend(SystemAfterCoreCountChunk1 + SystemAfterCoreCountChunk2 + SystemAfterCoreCountChunk3 + SystemAfterCoreCountChunk4 + SystemAfterCoreCountChunk5 + SystemAfterCoreCountChunk6 + SystemAfterCoreCountChunk7 + SystemAfterCoreCountChunk8 + SystemAfterCoreCountChunk9 + SystemAfterCoreCountChunk10 + SystemAfterCoreCountChunk11 + SystemAfterCoreCountChunk12, SystemAfterCoreCountChunk13);
  }

  lemma CoreCountIsIdentifier() ensures IsIdentifier("core_count") { }

  lemma SystemAfterCoreCountDelimited()
    ensures !IsIdentifierChar(SystemAfterCoreCount[0])
  {
    assert !IsIdentifierChar(SystemAfterCoreCountChunk1[0]);
    FirstOfAppend(SystemAfterCoreCountChunk1, SystemAfterCoreCountChunk2);
    FirstOfAppend(SystemAfterCoreCountChunk1 + SystemAfterCoreCountChunk2, SystemAfterCoreCountChunk3);
    FirstOfAppend(SystemAfterCoreCountChunk1 + SystemAfterCoreCountChunk2 + SystemAfterCoreCountChunk3, SystemAfterCoreCountChunk4);
    FirstOfAppend(SystemAfterCoreCountChunk1 + SystemAfterCoreCountChunk2 + SystemAfterCoreCountChunk3 + SystemAfterCoreCountChunk4, SystemAfterCoreCountChunk5);
    FirstOfAppend(SystemAfterCoreCountChunk1 + SystemAfterCoreCountChunk2 + SystemAfterCoreCountChunk3 + SystemAfterCoreCountChunk4 + SystemAfterCoreCountChunk5, SystemAfterCoreCountChunk6);
    FirstOfAppend(SystemAfterCoreCountChunk1 + SystemAfterCoreCountChunk2 + SystemAfterCoreCountChunk3 + SystemAfterCoreCountChunk4 + SystemAfterCoreCountChunk5 + SystemAfterCoreCountChunk6, SystemAfterCoreCountChunk7);
    FirstOfAppend(SystemAfterCoreCountChunk1 + SystemAfterCoreCountChunk2 + SystemAfterCoreCountChunk3 + SystemAfterCoreCountChunk4 + SystemAfterCoreCountChunk5 + SystemAfterCoreCountChunk6 + SystemAfterCoreCountChunk7, SystemAfterCoreCountChunk8);
    FirstOfAppend(SystemAfterCoreCountChunk1 + SystemAfterCoreCountChunk2 + SystemAfterCoreCountChunk3 + SystemAfterCoreCountChunk4 + SystemAfterCoreCountChunk5 + SystemAfterCoreCountChunk6 + SystemAfterCoreCountChunk7 + SystemAfterCoreCountChunk8, SystemAfterCoreCountChunk9);
    FirstOfAppend(SystemAfterCoreCountChunk1 + SystemAfterCoreCountChunk2 + SystemAfterCoreCountChunk3 + SystemAfterCoreCountChunk4 + SystemAfterCoreCountChunk5 + SystemAfterCoreCountChunk6 + SystemAfterCoreCountChunk7 + SystemAfterCoreCountChunk8 + SystemAfterCoreCountChunk9, SystemAfterCoreCountChunk10);
    FirstOfAppend(SystemAfterCoreCountChunk1 + SystemAfterCoreCountChunk2 + SystemAfterCoreCountChunk3 + SystemAfterCoreCountChunk4 + SystemAfterCoreCountChunk5 + SystemAfterCoreCountChunk6 + SystemAfterCoreCountChunk7 + SystemAfterCoreCountChunk8 + SystemAfterCoreCountChunk9 + SystemAfterCoreCountChunk10, SystemAfterCoreCountChunk11);
    FirstOfAppend(SystemAfterCoreCountChunk1 + SystemAfterCoreCountChunk2 + SystemAfterCoreCountChunk3 + SystemAfterCoreCountChunk4 + SystemAfterCoreCountChunk5 + SystemAfterCoreCountChunk6 + SystemAfterCoreCountChunk7 + SystemAfterCoreCountChunk8 + SystemAfterCoreCountChunk9 + SystemAfterCoreCountChunk10 + SystemAfterCoreCountChunk11, SystemAfterCoreCountChunk12);
    FirstOfAppend(SystemAfterCoreCountChunk1 + SystemAfterCoreCountChunk2 + SystemAfterCoreCountChunk3 + SystemAfterCoreCountChunk4 + SystemAfterCoreCountChunk5 + SystemAfterCoreCountChunk6 + SystemAfterCoreCountChunk7 + SystemAfterCoreCountChunk8 + SystemAfterCoreCountChunk9 + SystemAfterCoreCountChunk10 + SystemAfterCoreCountChunk11 + SystemAfterCoreCountChunk12, SystemAfterCoreCountChunk13);
  }

  lemma SystemSlot1WellFormed()
    ensures SlotWellFormed(Slot("core_count", SystemAfterCoreCount))
  {
    CoreCountIsIdentifier();
    SystemAfterCoreCountDollarFree();
    SystemAfterCoreCountDelimited();
  }

  const SystemAfterGalaxyConfigPath: string := "\n" + "    "

  lemma SystemAfterGalaxyConfigPathDollarFree() ensures DollarFree(SystemAfterGalaxyConfigPath) { assert '$' !in SystemAfterGalaxyConfigPath; DollarFreeIff(SystemAfterGalaxyConfigPath); }

  lemma GalaxyConfigPathIsIdentifier() ensures IsIdentifier("galaxy_config_path") { }

  lemma SystemSlot2WellFormed()
    ensures SlotWellFormed(Slot("galaxy_config_path", SystemAfterGalaxyConfigPath))
  {
    GalaxyConfigPathIsIdentifier();
    SystemAfterGalaxyConfigPathDollarFree();
  }

  const SystemTemplate: Template := Template(SystemHead, [
    Slot("temp_dir", SystemAfterTempDir),
    Slot("core_count", SystemAfterCoreCount),
    Slot("galaxy_config_path", SystemAfterGalaxyConfigPath)
  ])

  /** The system resources, bcbio_system.yaml text with the given values in place of its placeholders. */
  function SystemText(tempDir: string, coreCount: string, galaxyConfigPath: string): string
  {
    SystemHead + Text.Join("", [
      tempDir, SystemAfterTempDir,
      coreCount, SystemAfterCoreCount,
      galaxyConfigPath, SystemAfterGalaxyConfigPath])
  }

  /** The system resources, bcbio_system.yaml template filled from `e`. */
  lemma SystemFill(e: map<string, string>)
    ensures Fill(SystemTemplate, e) == SystemText(Get(e, "temp_dir"), Get(e, "core_count"), Get(e, "galaxy_config_path"))
  {
    FillSlotsPieces(SystemTemplate.slots, e);
    PiecesOfThree(
      Slot("temp_dir", SystemAfterTempDir),
      Slot("core_count", SystemAfterCoreCount),
      Slot("galaxy_config_path", SystemAfterGalaxyConfigPath),
      e);
  }

  /** The system resources, bcbio_system.yaml template reads back as itself under Python's scanner. */
  lemma SystemTemplateWellFormed()
    ensures WellFormed(SystemTemplate)
  {
    SystemHeadDollarFree();
    SystemSlot0WellFormed();
    SystemSlot1WellFormed();
    SystemSlot2WellFormed();
    WellFormedOfThree(
      SystemHead,
      Slot("temp_dir", SystemAfterTempDir),
      Slot("core_count", SystemAfterCoreCount),
      Slot("galaxy_config_path", SystemAfterGalaxyConfigPath));
  }

  // ---- germline variant calling project (UCSCbcbioTool.py:170-210) ----

  const GermlineHead: string :=
    GermlineHeadChunk1 + GermlineHeadChunk2 + GermlineHeadChunk3 + GermlineHeadChunk4 +
    GermlineHeadChunk5 + GermlineHeadChunk6 + GermlineHeadChunk7 + GermlineHeadChunk8

  const GermlineHeadChunk1: string := "\n" + "# See the bcbio-nextgen "
  lemma GermlineHeadChunk1DollarFree() ensures DollarFree(GermlineHeadChunk1) { assert '$' !in GermlineHeadChunk1; DollarFreeIff(GermlineHeadChunk1); }

  const GermlineHeadChunk2: string := "documentation for a description of "
  lemma GermlineHeadChunk2DollarFree() ensures DollarFree(GermlineHeadChunk2) { assert '$' !in GermlineHeadChunk2; DollarFreeIff(GermlineHeadChunk2); }

  const GermlineHeadChunk3: string := "the pipeline this was\n"
  lemma GermlineHeadChunk3DollarFree() ensures DollarFree(GermlineHeadChunk3) { assert '$' !in GermlineHeadChunk3; DollarFreeIff(GermlineHeadChunk3); }

  const GermlineHeadChunk4: string := "# derived from \n" + "# https://"
  lemma GermlineHeadChunk4DollarFree() ensures DollarFree(GermlineHeadChunk4) { assert '$' !in GermlineHeadChunk4; DollarFreeIff(GermlineHeadChunk4); }

  const GermlineHeadChunk5: string := "bcbio-nextgen.readthedocs.org/en/"
  lemma GermlineHeadChunk5DollarFree() ensures DollarFree(GermlineHeadChunk5) { assert '$' !in GermlineHeadChunk5; DollarFreeIff(GermlineHeadChunk5); }

  const GermlineHeadChunk6: string := "latest/contents/"
  lemma GermlineHeadChunk6DollarFree() ensures DollarFree(GermlineHeadChunk6) { assert '$' !in GermlineHeadChunk6; DollarFreeIff(GermlineHeadChunk6); }

  const GermlineHeadChunk7: string := "testing.html#example-pipelines\n" + "---\n"
  lemma GermlineHeadChunk7DollarFree() ensures DollarFree(GermlineHeadChunk7) { assert '$' !in GermlineHeadChunk7; DollarFreeIff(GermlineHeadChunk7); }

  const GermlineHeadChunk8: string := "resources:\n" + "  tmp:\n" + "    dir: "
  lemma GermlineHeadChunk8DollarFree() ensures DollarFree(GermlineHeadChunk8) { assert '$' !in GermlineHeadChunk8; DollarFreeIff(GermlineHeadChunk8); }

  lemma GermlineHeadDollarFree()
    ensures DollarFree(GermlineHead)
  {
    GermlineHeadChunk1DollarFree();
    GermlineHeadChunk2DollarFree();
    GermlineHeadChunk3DollarFree();
    GermlineHeadChunk4DollarFree();
    GermlineHeadChunk5DollarFree();
    GermlineHeadChunk6DollarFree();
    GermlineHeadChunk7DollarFree();
    GermlineHeadChunk8DollarFree();
    DollarFreeAppend(GermlineHeadChunk1, GermlineHeadChunk2);
    DollarFreeAppend(GermlineHeadChunk1 + GermlineHeadChunk2, GermlineHeadChunk3);
    DollarFreeAppend(GermlineHeadChunk1 + GermlineHeadChunk2 + GermlineHeadChunk3, GermlineHeadChunk4);
    DollarFreeAppend(GermlineHeadChunk1 + GermlineHeadChunk2 + GermlineHeadChunk3 + GermlineHeadChunk4, GermlineHeadChunk5);
    DollarFreeAppend(GermlineHeadChunk1 + GermlineHeadChunk2 + GermlineHeadChunk3 + GermlineHeadChunk4 + GermlineHeadChunk5, GermlineHeadChunk6);
    DollarFreeAppend(GermlineHeadChunk1 + GermlineHeadChunk2 + GermlineHeadChunk3 + GermlineHeadChunk4 + GermlineHeadChunk5 + GermlineHeadChunk6, GermlineHeadChunk7);
    DollarFreeAppend(GermlineHeadChunk1 + GermlineHeadChunk2 + GermlineHeadChunk3 + GermlineHeadChunk4 + GermlineHeadChunk5 + GermlineHeadChunk6 + GermlineHeadChunk7, GermlineHeadChunk8);
  }

  const GermlineAfterWorkingDir: string := "\n" + "    #dir: ./work\n" + "upload:\n" + "  dir: "

  lemma GermlineAfterWorkingDirDollarFree() ensures DollarFree(GermlineAfterWorkingDir) { assert '$' !in GermlineAfterWorkingDir; DollarFreeIff(GermlineAfterWorkingDir); }

  lemma WorkingDirIsIdentifier() ensures IsIdentifier("working_dir") { }

  lemma GermlineSlot0WellFormed()
    ensures SlotWellFormed(Slot("working_dir", GermlineAfterWorkingDir))
  {
    WorkingDirIsIdentifier();
    GermlineAfterWorkingDirDollarFree();
  }

  const GermlineAfterOutputDir: string :=
    GermlineAfterOutputDirChunk1 + GermlineAfterOutputDirChunk2 + GermlineAfterOutputDirChunk3 + GermlineAfterOutputDirChunk4

  const GermlineAfterOutputDirChunk1: string := "\n" + "details:\n"
  lemma GermlineAfterOutputDirChunk1DollarFree() ensures DollarFree(GermlineAfterOutputDirChunk1) { assert '$' !in GermlineAfterOutputDirChunk1; DollarFreeIff(GermlineAfterOutputDirChunk1); }

  const GermlineAfterOutputDirChunk2: string := "#   - files: [../input/NA12878_"
  lemma GermlineAfterOutputDirChunk2DollarFree() ensures DollarFree(GermlineAfterOutputDirChunk2) { assert '$' !in GermlineAfterOutputDirChunk2; DollarFreeIff(GermlineAfterOutputDirChunk2); }

  const GermlineAfterOutputDirChunk3: string := "1.fastq.gz, ../input/NA12878_"
  lemma GermlineAfterOutputDirChunk3DollarFree() ensures DollarFree(GermlineAfterOutputDirChunk3) { assert '$' !in GermlineAfterOutputDirChunk3; DollarFreeIff(GermlineAfterOutputDirChunk3); }

  const GermlineAfterOutputDirChunk4: string := "2.fastq.gz]\n" + "  - files: [ "
  lemma GermlineAfterOutputDirChunk4DollarFree() ensures DollarFree(GermlineAfterOutputDirChunk4) { assert '$' !in GermlineAfterOutputDirChunk4; DollarFreeIff(GermlineAfterOutputDirChunk4); }

  lemma GermlineAfterOutputDirDollarFree()
    ensures DollarFree(GermlineAfterOutputDir)
  {
    GermlineAfterOutputDirChunk1DollarFree();
    GermlineAfterOutputDirChunk2DollarFree();
    GermlineAfterOutputDirChunk3DollarFree();
    GermlineAfterOutputDirChunk4DollarFree();
    DollarFreeAppend(GermlineAfterOutputDirChunk1, GermlineAfterOutputDirChunk2);
    DollarFreeAppend(GermlineAfterOutputDirChunk1 + GermlineAfterOutputDirChunk2, GermlineAfterOutputDirChunk3);
    DollarFreeAppend(GermlineAfterOutputDirChunk1 + GermlineAfterOutputDirChunk2 + GermlineAfterOutputDirChunk3, GermlineAfterOutputDirChunk4);
  }

  lemma OutputDirIsIdentifier() ensures IsIdentifier("output_dir") { }

  lemma GermlineAfterOutputDirDelimited()
    ensures !IsIdentifierChar(GermlineAfterOutputDir[0])
  {
    assert !IsIdentifierChar(GermlineAfterOutputDirChunk1[0]);
    FirstOfAppend(GermlineAfterOutputDirChunk1, GermlineAfterOutputDirChunk2);
    FirstOfAppend(GermlineAfterOutputDirChunk1 + GermlineAfterOutputDirChunk2, GermlineAfterOutputDirChunk3);
    FirstOfAppend(GermlineAfterOutputDirChunk1 + GermlineAfterOutputDirChunk2 + GermlineAfterOutputDirChunk3, GermlineAfterOutputDirChunk4);
  }

  lemma GermlineSlot1WellFormed()
    ensures SlotWellFormed(Slot("output_dir", GermlineAfterOutputDir))
  {
    OutputDirIsIdentifier();
    GermlineAfterOutputDirDollarFree();
    GermlineAfterOutputDirDelimited();
  }

  const GermlineAfterSampleFiles: string :=
    GermlineAfterSampleFilesChunk1 + GermlineAfterSampleFilesChunk2 + GermlineAfterSampleFilesChunk3 + GermlineAfterSampleFilesChunk4 +
    GermlineAfterSampleFilesChunk5 + GermlineAfterSampleFilesChunk6 + GermlineAfterSampleFilesChunk7 + GermlineAfterSampleFilesChunk8 +
    GermlineAfterSampleFilesChunk9 + GermlineAfterSampleFilesChunk10 + GermlineAfterSampleFilesChunk11 + GermlineAfterSampleFilesChunk12 +
    GermlineAfterSampleFilesChunk13 + GermlineAfterSampleFilesChunk14 + GermlineAfterSampleFilesChunk15 + GermlineAfterSampleFilesChunk16 +
    GermlineAfterSampleFilesChunk17

  const GermlineAfterSampleFilesChunk1: string := " ]\n" + "    description: NA12878\n"
  lemma GermlineAfterSampleFilesChunk1DollarFree() ensures DollarFree(GermlineAfterSampleFilesChunk1) { assert '$' !in GermlineAfterSampleFilesChunk1; DollarFreeIff(GermlineAfterSampleFilesChunk1); }

  const GermlineAfterSampleFilesChunk2: string := "    metadata:\n" + "      batch: ceph\n"
  lemma GermlineAfterSampleFilesChunk2DollarFree() ensures DollarFree(GermlineAfterSampleFilesChunk2) { assert '$' !in GermlineAfterSampleFilesChunk2; DollarFreeIff(GermlineAfterSampleFilesChunk2); }

  const GermlineAfterSampleFilesChunk3: string := "      sex: female\n"
  lemma GermlineAfterSampleFilesChunk3DollarFree() ensures DollarFree(GermlineAfterSampleFilesChunk3) { assert '$' !in GermlineAfterSampleFilesChunk3; DollarFreeIff(GermlineAfterSampleFilesChunk3); }

  const GermlineAfterSampleFilesChunk4: string := "    analysis: variant2\n"
  lemma GermlineAfterSampleFilesChunk4DollarFree() ensures DollarFree(GermlineAfterSampleFilesChunk4) { assert '$' !in GermlineAfterSampleFilesChunk4; DollarFreeIff(GermlineAfterSampleFilesChunk4); }

  const GermlineAfterSampleFilesChunk5: string := "    genome_build: GRCh37\n"
  lemma GermlineAfterSampleFilesChunk5DollarFree() ensures DollarFree(GermlineAfterSampleFilesChunk5) { assert '$' !in GermlineAfterSampleFilesChunk5; DollarFreeIff(GermlineAfterSampleFilesChunk5); }

  const GermlineAfterSampleFilesChunk6: string := "    algorithm:\n" + "      aligner: bwa\n"
  lemma GermlineAfterSampleFilesChunk6DollarFree() ensures DollarFree(GermlineAfterSampleFilesChunk6) { assert '$' !in GermlineAfterSampleFilesChunk6; DollarFreeIff(GermlineAfterSampleFilesChunk6); }

  const GermlineAfterSampleFilesChunk7: string := "      align_split_size: 5000000\n"
  lemma GermlineAfterSampleFilesChunk7DollarFree() ensures DollarFree(GermlineAfterSampleFilesChunk7) { assert '$' !in GermlineAfterSampleFilesChunk7; DollarFreeIff(GermlineAfterSampleFilesChunk7); }

  const GermlineAfterSampleFilesChunk8: string := "      mark_duplicates: true\n"
  lemma GermlineAfterSampleFilesChunk8DollarFree() ensures DollarFree(GermlineAfterSampleFilesChunk8) { assert '$' !in GermlineAfterSampleFilesChunk8; DollarFreeIff(GermlineAfterSampleFilesChunk8); }

  const GermlineAfterSampleFilesChunk9: string := "      recalibrate: false\n"
  lemma GermlineAfterSampleFilesChunk9DollarFree() ensures DollarFree(GermlineAfterSampleFilesChunk9) { assert '$' !in GermlineAfterSampleFilesChunk9; DollarFreeIff(GermlineAfterSampleFilesChunk9); }

  const GermlineAfterSampleFilesChunk10: string := "      realign: false\n"
  lemma GermlineAfterSampleFilesChunk10DollarFree() ensures DollarFree(GermlineAfterSampleFilesChunk10) { assert '$' !in GermlineAfterSampleFilesChunk10; DollarFreeIff(GermlineAfterSampleFilesChunk10); }

  const GermlineAfterSampleFilesChunk11: string := "      variantcaller: [freebayes, "
  lemma GermlineAfterSampleFilesChunk11DollarFree() ensures DollarFree(GermlineAfterSampleFilesChunk11) { assert '$' !in GermlineAfterSampleFilesChunk11; DollarFreeIff(GermlineAfterSampleFilesChunk11); }

  const GermlineAfterSampleFilesChunk12: string := "gatk-haplotype, platypus, samtools]\n"
  lemma GermlineAfterSampleFilesChunk12DollarFree() ensures DollarFree(GermlineAfterSampleFilesChunk12) { assert '$' !in GermlineAfterSampleFilesChunk12; DollarFreeIff(GermlineAfterSampleFilesChunk12); }

  const GermlineAfterSampleFilesChunk13: string := "      remove_lcr: true\n"
  lemma GermlineAfterSampleFilesChunk13DollarFree() ensures DollarFree(GermlineAfterSampleFilesChunk13) { assert '$' !in GermlineAfterSampleFilesChunk13; DollarFreeIff(GermlineAfterSampleFilesChunk13); }

  const GermlineAfterSampleFilesChunk14: string := "#      validate: ../input/GiaB_v2_"
  lemma GermlineAfterSampleFilesChunk14DollarFree() ensures DollarFree(GermlineAfterSampleFilesChunk14) { assert '$' !in GermlineAfterSampleFilesChunk14; DollarFreeIff(GermlineAfterSampleFilesChunk14); }

  const GermlineAfterSampleFilesChunk15: string := "19.vcf.gz\n"
  lemma GermlineAfterSampleFilesChunk15DollarFree() ensures DollarFree(GermlineAfterSampleFilesChunk15) { assert '$' !in GermlineAfterSampleFilesChunk15; DollarFreeIff(GermlineAfterSampleFilesChunk15); }

  const GermlineAfterSampleFilesChunk16: string := "#      validate_regions: ../input/"
  lemma GermlineAfterSampleFilesChunk16DollarFree() ensures DollarFree(GermlineAfterSampleFilesChunk16) { assert '$' !in GermlineAfterSampleFilesChunk16; DollarFreeIff(GermlineAfterSampleFilesChunk16); }

  const GermlineAfterSampleFilesChunk17: string := "GiaB_v2_19_regions.bed\n" + "    "
  lemma GermlineAfterSampleFilesChunk17DollarFree() ensures DollarFree(GermlineAfterSampleFilesChunk17) { assert '$' !in GermlineAfterSampleFilesChunk17; DollarFreeIff(GermlineAfterSampleFilesChunk17); }

  lemma GermlineAfterSampleFilesDollarFree()
    ensures DollarFree(GermlineAfterSampleFiles)
  {
    GermlineAfterSampleFilesChunk1DollarFree();
    GermlineAfterSampleFilesChunk2DollarFree();
    GermlineAfterSampleFilesChunk3DollarFree();
    GermlineAfterSampleFilesChunk4DollarFree();
    GermlineAfterSampleFilesChunk5DollarFree();
    GermlineAfterSampleFilesChunk6DollarFree();
    GermlineAfterSampleFilesChunk7DollarFree();
    GermlineAfterSampleFilesChunk8DollarFree();
    GermlineAfterSampleFilesChunk9DollarFree();
    GermlineAfterSampleFilesChunk10DollarFree();
    GermlineAfterSampleFilesChunk11DollarFree();
    GermlineAfterSampleFilesChunk12DollarFree();
    GermlineAfterSampleFilesChunk13DollarFree();
    GermlineAfterSampleFilesChunk14DollarFree();
    GermlineAfterSampleFilesChunk15DollarFree();
    GermlineAfterSampleFilesChunk16DollarFree();
    GermlineAfterSampleFilesChunk17DollarFree();
    DollarFreeAppend(GermlineAfterSampleFilesChunk1, GermlineAfterSampleFilesChunk2);
    DollarFreeAppend(GermlineAfterSampleFilesChunk1 + GermlineAfterSampleFilesChunk2, GermlineAfterSampleFilesChunk3);
    DollarFreeAppend(GermlineAfterSampleFilesChunk1 + GermlineAfterSampleFilesChunk2 + GermlineAfterSampleFilesChunk3, GermlineAfterSampleFilesChunk4);
    DollarFreeAppend(GermlineAfterSampleFilesChunk1 + GermlineAfterSampleFilesChunk2 + GermlineAfterSampleFilesChunk3 + GermlineAfterSampleFilesChunk4, GermlineAfterSampleFilesChunk5);
    DollarFreeAppend(GermlineAfterSampleFilesChunk1 + GermlineAfterSampleFilesChunk2 + GermlineAfterSampleFilesChunk3 + GermlineAfterSampleFilesChunk4 + GermlineAfterSampleFilesChunk5, GermlineAfterSampleFilesChunk6);
    DollarFreeAppend(GermlineAfterSampleFilesChunk1 + GermlineAfterSampleFilesChunk2 + GermlineAfterSampleFilesChunk3 + GermlineAfterSampleFilesChunk4 + GermlineAfterSampleFilesChunk5 + GermlineAfterSampleFilesChunk6, GermlineAfterSampleFilesChunk7);
    DollarFreeAppend(GermlineAfterSampleFilesChunk1 + GermlineAfterSampleFilesChunk2 + GermlineAfterSampleFilesChunk3 + GermlineAfterSampleFilesChunk4 + GermlineAfterSampleFilesChunk5 + GermlineAfterSampleFilesChunk6 + GermlineAfterSampleFilesChunk7, GermlineAfterSampleFilesChunk8);
    DollarFreeAppend(GermlineAfterSampleFilesChunk1 + GermlineAfterSampleFilesChunk2 + GermlineAfterSampleFilesChunk3 + GermlineAfterSampleFilesChunk4 + GermlineAfterSampleFilesChunk5 + GermlineAfterSampleFilesChunk6 + GermlineAfterSampleFilesChunk7 + GermlineAfterSampleFilesChunk8, GermlineAfterSampleFilesChunk9);
    DollarFreeAppend(GermlineAfterSampleFilesChunk1 + GermlineAfterSampleFilesChunk2 + GermlineAfterSampleFilesChunk3 + GermlineAfterSampleFilesChunk4 + GermlineAfterSampleFilesChunk5 + GermlineAfterSampleFilesChunk6 + GermlineAfterSampleFilesChunk7 + GermlineAfterSampleFilesChunk8 + GermlineAfterSampleFilesChunk9, GermlineAfterSampleFilesChunk10);
    DollarFreeAppend(GermlineAfterSampleFilesChunk1 + GermlineAfterSampleFilesChunk2 + GermlineAfterSampleFilesChunk3 + GermlineAfterSampleFilesChunk4 + GermlineAfterSampleFilesChunk5 + GermlineAfterSampleFilesChunk6 + GermlineAfterSampleFilesChunk7 + GermlineAfterSampleFilesChunk8 + GermlineAfterSampleFilesChunk9 + GermlineAfterSampleFilesChunk10, GermlineAfterSampleFilesChunk11);
    DollarFreeAppend(GermlineAfterSampleFilesChunk1 + GermlineAfterSampleFilesChunk2 + GermlineAfterSampleFilesChunk3 + GermlineAfterSampleFilesChunk4 + GermlineAfterSampleFilesChunk5 + GermlineAfterSampleFilesChunk6 + GermlineAfterSampleFilesChunk7 + GermlineAfterSampleFilesChunk8 + GermlineAfterSampleFilesChunk9 + GermlineAfterSampleFilesChunk10 + GermlineAfterSampleFilesChunk11, GermlineAfterSampleFilesChunk12);
    DollarFreeAppend(GermlineAfterSampleFilesChunk1 + GermlineAfterSampleFilesChunk2 + GermlineAfterSampleFilesChunk3 + GermlineAfterSampleFilesChunk4 + GermlineAfterSampleFilesChunk5 + GermlineAfterSampleFilesChunk6 + GermlineAfterSampleFilesChunk7 + GermlineAfterSampleFilesChunk8 + GermlineAfterSampleFilesChunk9 + GermlineAfterSampleFilesChunk10 + GermlineAfterSampleFilesChunk11 + GermlineAfterSampleFilesChunk12, GermlineAfterSampleFilesChunk13);
    DollarFreeAppend(GermlineAfterSampleFilesChunk1 + GermlineAfterSampleFilesChunk2 + GermlineAfterSampleFilesChunk3 + GermlineAfterSampleFilesChunk4 + GermlineAfterSampleFilesChunk5 + GermlineAfterSampleFilesChunk6 + GermlineAfterSampleFilesChunk7 + GermlineAfterSampleFilesChunk8 + GermlineAfterSampleFilesChunk9 + GermlineAfterSampleFilesChunk10 + GermlineAfterSampleFilesChunk11 + GermlineAfterSampleFilesChunk12 + GermlineAfterSampleFilesChunk13, GermlineAfterSampleFilesChunk14);
    DollarFreeAppend(GermlineAfterSampleFilesChunk1 + GermlineAfterSampleFilesChunk2 + GermlineAfterSampleFilesChunk3 + GermlineAfterSampleFilesChunk4 + GermlineAfterSampleFilesChunk5 + GermlineAfterSampleFilesChunk6 + GermlineAfterSampleFilesChunk7 + GermlineAfterSampleFilesChunk8 + GermlineAfterSampleFilesChunk9 + GermlineAfterSampleFilesChunk10 + GermlineAfterSampleFilesChunk11 + GermlineAfterSampleFilesChunk12 + GermlineAfterSampleFilesChunk13 + GermlineAfterSampleFilesChunk14, GermlineAfterSampleFilesChunk15);
    DollarFreeAppend(GermlineAfterSampleFilesChunk1 + GermlineAfterSampleFilesChunk2 + GermlineAfterSampleFilesChunk3 + GermlineAfterSampleFilesChunk4 + GermlineAfterSampleFilesChunk5 + GermlineAfterSampleFilesChunk6 + GermlineAfterSampleFilesChunk7 + GermlineAfterSampleFilesChunk8 + GermlineAfterSampleFilesChunk9 + GermlineAfterSampleFilesChunk10 + GermlineAfterSampleFilesChunk11 + GermlineAfterSampleFilesChunk12 + GermlineAfterSampleFilesChunk13 + GermlineAfterSampleFilesChunk14 + GermlineAfterSampleFilesChunk15, GermlineAfterSampleFilesChunk16);
    DollarFreeAppend(GermlineAfterSampleFilesChunk1 + GermlineAfterSampleFilesChunk2 + GermlineAfterSampleFilesChunk3 + GermlineAfterSampleFilesChunk4 + GermlineAfterSampleFilesChunk5 + GermlineAfterSampleFilesChunk6 + GermlineAfterSampleFilesChunk7 + GermlineAfterSampleFilesChunk8 + GermlineAfterSampleFilesChunk9 + GermlineAfterSampleFilesChunk10 + GermlineAfterSampleFilesChunk11 + GermlineAfterSampleFilesChunk12 + GermlineAfterSampleFilesChunk13 + GermlineAfterSampleFilesChunk14 + GermlineAfterSampleFilesChunk15 + GermlineAfterSampleFilesChunk16, GermlineAfterSampleFilesChunk17);
  }

  lemma SampleFilesIsIdentifier() ensures IsIdentifier("sample_files") { }

  lemma GermlineAfterSampleFilesDelimited()
    ensures !IsIdentifierChar(GermlineAfterSampleFiles[0])
  {
    assert !IsIdentifierChar(GermlineAfterSampleFilesChunk1[0]);
    FirstOfAppend(GermlineAfterSampleFilesChunk1, GermlineAfterSampleFilesChunk2);
    FirstOfAppend(GermlineAfterSampleFilesChunk1 + GermlineAfterSampleFilesChunk2, GermlineAfterSampleFilesChunk3);
    FirstOfAppend(GermlineAfterSampleFilesChunk1 + GermlineAfterSampleFilesChunk2 + GermlineAfterSampleFilesChunk3, GermlineAfterSampleFilesChunk4);
    FirstOfAppend(GermlineAfterSampleFilesChunk1 + GermlineAfterSampleFilesChunk2 + GermlineAfterSampleFilesChunk3 + GermlineAfterSampleFilesChunk4, GermlineAfterSampleFilesChunk5);
    FirstOfAppend(GermlineAfterSampleFilesChunk1 + GermlineAfterSampleFilesChunk2 + GermlineAfterSampleFilesChunk3 + GermlineAfterSampleFilesChunk4 + GermlineAfterSampleFilesChunk5, GermlineAfterSampleFilesChunk6);
    FirstOfAppend(GermlineAfterSampleFilesChunk1 + GermlineAfterSampleFilesChunk2 + GermlineAfterSampleFilesChunk3 + GermlineAfterSampleFilesChunk4 + GermlineAfterSampleFilesChunk5 + GermlineAfterSampleFilesChunk6, GermlineAfterSampleFilesChunk7);
    FirstOfAppend(GermlineAfterSampleFilesChunk1 + GermlineAfterSampleFilesChunk2 + GermlineAfterSampleFilesChunk3 + GermlineAfterSampleFilesChunk4 + GermlineAfterSampleFilesChunk5 + GermlineAfterSampleFilesChunk6 + GermlineAfterSampleFilesChunk7, GermlineAfterSampleFilesChunk8);
    FirstOfAppend(GermlineAfterSampleFilesChunk1 + GermlineAfterSampleFilesChunk2 + GermlineAfterSampleFilesChunk3 + GermlineAfterSampleFilesChunk4 + GermlineAfterSampleFilesChunk5 + GermlineAfterSampleFilesChunk6 + GermlineAfterSampleFilesChunk7 + GermlineAfterSampleFilesChunk8, GermlineAfterSampleFilesChunk9);
    FirstOfAppend(GermlineAfterSampleFilesChunk1 + GermlineAfterSampleFilesChunk2 + GermlineAfterSampleFilesChunk3 + GermlineAfterSampleFilesChunk4 + GermlineAfterSampleFilesChunk5 + GermlineAfterSampleFilesChunk6 + GermlineAfterSampleFilesChunk7 + GermlineAfterSampleFilesChunk8 + GermlineAfterSampleFilesChunk9, GermlineAfterSampleFilesChunk10);
    FirstOfAppend(GermlineAfterSampleFilesChunk1 + GermlineAfterSampleFilesChunk2 + GermlineAfterSampleFilesChunk3 + GermlineAfterSampleFilesChunk4 + GermlineAfterSampleFilesChunk5 + GermlineAfterSampleFilesChunk6 + GermlineAfterSampleFilesChunk7 + GermlineAfterSampleFilesChunk8 + GermlineAfterSampleFilesChunk9 + GermlineAfterSampleFilesChunk10, GermlineAfterSampleFilesChunk11);
    FirstOfAppend(GermlineAfterSampleFilesChunk1 + GermlineAfterSampleFilesChunk2 + GermlineAfterSampleFilesChunk3 + GermlineAfterSampleFilesChunk4 + GermlineAfterSampleFilesChunk5 + GermlineAfterSampleFilesChunk6 + GermlineAfterSampleFilesChunk7 + GermlineAfterSampleFilesChunk8 + GermlineAfterSampleFilesChunk9 + GermlineAfterSampleFilesChunk10 + GermlineAfterSampleFilesChunk11, GermlineAfterSampleFilesChunk12);
    FirstOfAppend(GermlineAfterSampleFilesChunk1 + GermlineAfterSampleFilesChunk2 + GermlineAfterSampleFilesChunk3 + GermlineAfterSampleFilesChunk4 + GermlineAfterSampleFilesChunk5 + GermlineAfterSampleFilesChunk6 + GermlineAfterSampleFilesChunk7 + GermlineAfterSampleFilesChunk8 + GermlineAfterSampleFilesChunk9 + GermlineAfterSampleFilesChunk10 + GermlineAfterSampleFilesChunk11 + GermlineAfterSampleFilesChunk12, GermlineAfterSampleFilesChunk13);
    FirstOfAppend(GermlineAfterSampleFilesChunk1 + GermlineAfterSampleFilesChunk2 + GermlineAfterSampleFilesChunk3 + GermlineAfterSampleFilesChunk4 + GermlineAfterSampleFilesChunk5 + GermlineAfterSampleFilesChunk6 + GermlineAfterSampleFilesChunk7 + GermlineAfterSampleFilesChunk8 + GermlineAfterSampleFilesChunk9 + GermlineAfterSampleFilesChunk10 + GermlineAfterSampleFilesChunk11 + GermlineAfterSampleFilesChunk12 + GermlineAfterSampleFilesChunk13, GermlineAfterSampleFilesChunk14);
    FirstOfAppend(GermlineAfterSampleFilesChunk1 + GermlineAfterSampleFilesChunk2 + GermlineAfterSampleFilesChunk3 + GermlineAfterSampleFilesChunk4 + GermlineAfterSampleFilesChunk5 + GermlineAfterSampleFilesChunk6 + GermlineAfterSampleFilesChunk7 + GermlineAfterSampleFilesChunk8 + GermlineAfterSampleFilesChunk9 + GermlineAfterSampleFilesChunk10 + GermlineAfterSampleFilesChunk11 + GermlineAfterSampleFilesChunk12 + GermlineAfterSampleFilesChunk13 + GermlineAfterSampleFilesChunk14, GermlineAfterSampleFilesChunk15);
    FirstOfAppend(GermlineAfterSampleFilesChunk1 + GermlineAfterSampleFilesChunk2 + GermlineAfterSampleFilesChunk3 + GermlineAfterSampleFilesChunk4 + GermlineAfterSampleFilesChunk5 + GermlineAfterSampleFilesChunk6 + GermlineAfterSampleFilesChunk7 + GermlineAfterSampleFilesChunk8 + GermlineAfterSampleFilesChunk9 + GermlineAfterSampleFilesChunk10 + GermlineAfterSampleFilesChunk11 + GermlineAfterSampleFilesChunk12 + GermlineAfterSampleFilesChunk13 + GermlineAfterSampleFilesChunk14 + GermlineAfterSampleFilesChunk15, GermlineAfterSampleFilesChunk16);
    FirstOfAppend(GermlineAfterSampleFilesChunk1 + GermlineAfterSampleFilesChunk2 + GermlineAfterSampleFilesChunk3 + GermlineAfterSampleFilesChunk4 + GermlineAfterSampleFilesChunk5 + GermlineAfterSampleFilesChunk6 + GermlineAfterSampleFilesChunk7 + GermlineAfterSampleFilesChunk8 + GermlineAfterSampleFilesChunk9 + GermlineAfterSampleFilesChunk10 + GermlineAfterSampleFilesChunk11 + GermlineAfterSampleFilesChunk12 + GermlineAfterSampleFilesChunk13 + GermlineAfterSampleFilesChunk14 + GermlineAfterSampleFilesChunk15 + GermlineAfterSampleFilesChunk16, GermlineAfterSampleFilesChunk17);
  }

  lemma GermlineSlot2WellFormed()
    ensures SlotWellFormed(Slot("sample_files", GermlineAfterSampleFiles))
  {
    SampleFilesIsIdentifier();
    GermlineAfterSampleFilesDollarFree();
    GermlineAfterSampleFilesDelimited();
  }

  const GermlineTemplate: Template := Template(GermlineHead, [
    Slot("working_dir", GermlineAfterWorkingDir),
    Slot("output_dir", GermlineAfterOutputDir),
    Slot("sample_files", GermlineAfterSampleFiles)
  ])

  /** The germline variant calling project text with the given values in place of its placeholders. */
  function GermlineText(workingDir: string, outputDir: string, sampleFiles: string): string
  {
    GermlineHead + Text.Join("", [
      workingDir, GermlineAfterWorkingDir,
      outputDir, GermlineAfterOutputDir,
      sampleFiles, GermlineAfterSampleFiles])
  }

  /** The germline variant calling project template filled from `e`. */
  lemma GermlineFill(e: map<string, string>)
    ensures Fill(GermlineTemplate, e) == GermlineText(Get(e, "working_dir"), Get(e, "output_dir"), Get(e, "sample_files"))
  {
    FillSlotsPieces(GermlineTemplate.slots, e);
    PiecesOfThree(
      Slot("working_dir", GermlineAfterWorkingDir),
      Slot("output_dir", GermlineAfterOutputDir),
      Slot("sample_files", GermlineAfterSampleFiles),
      e);
  }

  /** The germline variant calling project template reads back as itself under Python's scanner. */
  lemma GermlineTemplateWellFormed()
    ensures WellFormed(GermlineTemplate)
  {
    GermlineHeadDollarFree();
    GermlineSlot0WellFormed();
    GermlineSlot1WellFormed();
    GermlineSlot2WellFormed();
    WellFormedOfThree(
      GermlineHead,
      Slot("working_dir", GermlineAfterWorkingDir),
      Slot("output_dir", GermlineAfterOutputDir),
      Slot("sample_files", GermlineAfterSampleFiles));
  }

  // ---- cancer (tumor/normal) variant calling project (UCSCbcbioTool.py:214-316) ----

  const CancerHead: string :=
    CancerHeadChunk1 + CancerHeadChunk2 + CancerHeadChunk3 + CancerHeadChunk4 +
    CancerHeadChunk5 + CancerHeadChunk6 + CancerHeadChunk7 + CancerHeadChunk8 +
    CancerHeadChunk9 + CancerHeadChunk10 + CancerHeadChunk11 + CancerHeadChunk12 +
    CancerHeadChunk13 + CancerHeadChunk14 + CancerHeadChunk15 + CancerHeadChunk16 +
    CancerHeadChunk17 + CancerHeadChunk18 + CancerHeadChunk19 + CancerHeadChunk20 +
    CancerHeadChunk21

  const CancerHeadChunk1: string := "\n" + "# Cancer tumor/normal calling "
  lemma CancerHeadChunk1DollarFree() ensures DollarFree(CancerHeadChunk1) { assert '$' !in CancerHeadChunk1; DollarFreeIff(CancerHeadChunk1); }

  const CancerHeadChunk2: string := "evaluation using synthetic dataset "
  lemma CancerHeadChunk2DollarFree() ensures DollarFree(CancerHeadChunk2) { assert '$' !in CancerHeadChunk2; DollarFreeIff(CancerHeadChunk2); }

  const CancerHeadChunk3: string := "3\n" + "# from the ICGC-TCGA DREAM "
  lemma CancerHeadChunk3DollarFree() ensures DollarFree(CancerHeadChunk3) { assert '$' !in CancerHeadChunk3; DollarFreeIff(CancerHeadChunk3); }

  const CancerHeadChunk4: string := "challenge:\n"
  lemma CancerHeadChunk4DollarFree() ensures DollarFree(CancerHeadChunk4) { assert '$' !in CancerHeadChunk4; DollarFreeIff(CancerHeadChunk4); }

  const CancerHeadChunk5: string := "# https://www.synapse.org/"
  lemma CancerHeadChunk5DollarFree() ensures DollarFree(CancerHeadChunk5) { assert '$' !in CancerHeadChunk5; DollarFreeIff(CancerHeadChunk5); }

  const CancerHeadChunk6: string := "#!Synapse:syn312572/wiki/62018\n" + "---\n"
  lemma CancerHeadChunk6DollarFree() ensures DollarFree(CancerHeadChunk6) { assert '$' !in CancerHeadChunk6; DollarFreeIff(CancerHeadChunk6); }

  const CancerHeadChunk7: string := "details:\n" + "- algorithm:\n"
  lemma CancerHeadChunk7DollarFree() ensures DollarFree(CancerHeadChunk7) { assert '$' !in CancerHeadChunk7; DollarFreeIff(CancerHeadChunk7); }

  const CancerHeadChunk8: string := "    aligner: bwa\n"
  lemma CancerHeadChunk8DollarFree() ensures DollarFree(CancerHeadChunk8) { assert '$' !in CancerHeadChunk8; DollarFreeIff(CancerHeadChunk8); }

  const CancerHeadChunk9: string := "    align_split_size: 5000000\n"
  lemma CancerHeadChunk9DollarFree() ensures DollarFree(CancerHeadChunk9) { assert '$' !in CancerHeadChunk9; DollarFreeIff(CancerHeadChunk9); }

  const CancerHeadChunk10: string := "    nomap_split_targets: 100\n"
  lemma CancerHeadChunk10DollarFree() ensures DollarFree(CancerHeadChunk10) { assert '$' !in CancerHeadChunk10; DollarFreeIff(CancerHeadChunk10); }

  const CancerHeadChunk11: string := "    mark_duplicates: true\n"
  lemma CancerHeadChunk11DollarFree() ensures DollarFree(CancerHeadChunk11) { assert '$' !in CancerHeadChunk11; DollarFreeIff(CancerHeadChunk11); }

  const CancerHeadChunk12: string := "    recalibrate: true\n"
  lemma CancerHeadChunk12DollarFree() ensures DollarFree(CancerHeadChunk12) { assert '$' !in CancerHeadChunk12; DollarFreeIff(CancerHeadChunk12); }

  const CancerHeadChunk13: string := "    realign: true\n"
  lemma CancerHeadChunk13DollarFree() ensures DollarFree(CancerHeadChunk13) { assert '$' !in CancerHeadChunk13; DollarFreeIff(CancerHeadChunk13); }

  const CancerHeadChunk14: string := "    remove_lcr: true\n"
  lemma CancerHeadChunk14DollarFree() ensures DollarFree(CancerHeadChunk14) { assert '$' !in CancerHeadChunk14; DollarFreeIff(CancerHeadChunk14); }

  const CancerHeadChunk15: string := "    platform: illumina\n"
  lemma CancerHeadChunk15DollarFree() ensures DollarFree(CancerHeadChunk15) { assert '$' !in CancerHeadChunk15; DollarFreeIff(CancerHeadChunk15); }

  const CancerHeadChunk16: string := "    quality_format: standard\n"
  lemma CancerHeadChunk16DollarFree() ensures DollarFree(CancerHeadChunk16) { assert '$' !in CancerHeadChunk16; DollarFreeIff(CancerHeadChunk16); }

  const CancerHeadChunk17: string := "    variantcaller: [mutect2, "
  lemma CancerHeadChunk17DollarFree() ensures DollarFree(CancerHeadChunk17) { assert '$' !in CancerHeadChunk17; DollarFreeIff(CancerHeadChunk17); }

  const CancerHeadChunk18: string := "freebayes, vardict, varscan]\n"
  lemma CancerHeadChunk18DollarFree() ensures DollarFree(CancerHeadChunk18) { assert '$' !in CancerHeadChunk18; DollarFreeIff(CancerHeadChunk18); }

  const CancerHeadChunk19: string := "    indelcaller: false\n"
  lemma CancerHeadChunk19DollarFree() ensures DollarFree(CancerHeadChunk19) { assert '$' !in CancerHeadChunk19; DollarFreeIff(CancerHeadChunk19); }

  const CancerHeadChunk20: string := "    ensemble:\n" + "      numpass: 2\n"
  lemma CancerHeadChunk20DollarFree() ensures DollarFree(CancerHeadChunk20) { assert '$' !in CancerHeadChunk20; DollarFreeIff(CancerHeadChunk20); }

  const CancerHeadChunk21: string := "    variant_regions: "
  lemma CancerHeadChunk21DollarFree() ensures DollarFree(CancerHeadChunk21) { assert '$' !in CancerHeadChunk21; DollarFreeIff(CancerHeadChunk21); }

  lemma CancerHeadDollarFree()
    ensures DollarFree(CancerHead)
  {
    CancerHeadChunk1DollarFree();
    CancerHeadChunk2DollarFree();
    CancerHeadChunk3DollarFree();
    CancerHeadChunk4DollarFree();
    CancerHeadChunk5DollarFree();
    CancerHeadChunk6DollarFree();
    CancerHeadChunk7DollarFree();
    CancerHeadChunk8DollarFree();
    CancerHeadChunk9DollarFree();
    CancerHeadChunk10DollarFree();
    CancerHeadChunk11DollarFree();
    CancerHeadChunk12DollarFree();
    CancerHeadChunk13DollarFree();
    CancerHeadChunk14DollarFree();
    CancerHeadChunk15DollarFree();
    CancerHeadChunk16DollarFree();
    CancerHeadChunk17DollarFree();
    CancerHeadChunk18DollarFree();
    CancerHeadChunk19DollarFree();
    CancerHeadChunk20DollarFree();
    CancerHeadChunk21DollarFree();
    DollarFreeAppend(CancerHeadChunk1, CancerHeadChunk2);
    DollarFreeAppend(CancerHeadChunk1 + CancerHeadChunk2, CancerHeadChunk3);
    DollarFreeAppend(CancerHeadChunk1 + CancerHeadChunk2 + CancerHeadChunk3, CancerHeadChunk4);
    DollarFreeAppend(CancerHeadChunk1 + CancerHeadChunk2 + CancerHeadChunk3 + CancerHeadChunk4, CancerHeadChunk5);
    DollarFreeAppend(CancerHeadChunk1 + CancerHeadChunk2 + CancerHeadChunk3 + CancerHeadChunk4 + CancerHeadChunk5, CancerHeadChunk6);
    DollarFreeAppend(CancerHeadChunk1 + CancerHeadChunk2 + CancerHeadChunk3 + CancerHeadChunk4 + CancerHeadChunk5 + CancerHeadChunk6, CancerHeadChunk7);
    DollarFreeAppend(CancerHeadChunk1 + CancerHeadChunk2 + CancerHeadChunk3 + CancerHeadChunk4 + CancerHeadChunk5 + CancerHeadChunk6 + CancerHeadChunk7, CancerHeadChunk8);
    DollarFreeAppend(CancerHeadChunk1 + CancerHeadChunk2 + CancerHeadChunk3 + CancerHeadChunk4 + CancerHeadChunk5 + CancerHeadChunk6 + CancerHeadChunk7 + CancerHeadChunk8, CancerHeadChunk9);
    DollarFreeAppend(CancerHeadChunk1 + CancerHeadChunk2 + CancerHeadChunk3 + CancerHeadChunk4 + CancerHeadChunk5 + CancerHeadChunk6 + CancerHeadChunk7 + CancerHeadChunk8 + CancerHeadChunk9, CancerHeadChunk10);
    DollarFreeAppend(CancerHeadChunk1 + CancerHeadChunk2 + CancerHeadChunk3 + CancerHeadChunk4 + CancerHeadChunk5 + CancerHeadChunk6 + CancerHeadChunk7 + CancerHeadChunk8 + CancerHeadChunk9 + CancerHeadChunk10, CancerHeadChunk11);
    DollarFreeAppend(CancerHeadChunk1 + CancerHeadChunk2 + CancerHeadChunk3 + CancerHeadChunk4 + CancerHeadChunk5 + CancerHeadChunk6 + CancerHeadChunk7 + CancerHeadChunk8 + CancerHeadChunk9 + CancerHeadChunk10 + CancerHeadChunk11, CancerHeadChunk12);
    DollarFreeAppend(CancerHeadChunk1 + CancerHeadChunk2 + CancerHeadChunk3 + CancerHeadChunk4 + CancerHeadChunk5 + CancerHeadChunk6 + CancerHeadChunk7 + CancerHeadChunk8 + CancerHeadChunk9 + CancerHeadChunk10 + CancerHeadChunk11 + CancerHeadChunk12, CancerHeadChunk13);
    DollarFreeAppend(CancerHeadChunk1 + CancerHeadChunk2 + CancerHeadChunk3 + CancerHeadChunk4 + CancerHeadChunk5 + CancerHeadChunk6 + CancerHeadChunk7 + CancerHeadChunk8 + CancerHeadChunk9 + CancerHeadChunk10 + CancerHeadChunk11 + CancerHeadChunk12 + CancerHeadChunk13, CancerHeadChunk14);
    DollarFreeAppend(CancerHeadChunk1 + CancerHeadChunk2 + CancerHeadChunk3 + CancerHeadChunk4 + CancerHeadChunk5 + CancerHeadChunk6 + CancerHeadChunk7 + CancerHeadChunk8 + CancerHeadChunk9 + CancerHeadChunk10 + CancerHeadChunk11 + CancerHeadChunk12 + CancerHeadChunk13 + CancerHeadChunk14, CancerHeadChunk15);
    DollarFreeAppend(CancerHeadChunk1 + CancerHeadChunk2 + CancerHeadChunk3 + CancerHeadChunk4 + CancerHeadChunk5 + CancerHeadChunk6 + CancerHeadChunk7 + CancerHeadChunk8 + CancerHeadChunk9 + CancerHeadChunk10 + CancerHeadChunk11 + CancerHeadChunk12 + CancerHeadChunk13 + CancerHeadChunk14 + CancerHeadChunk15, CancerHeadChunk16);
    DollarFreeAppend(CancerHeadChunk1 + CancerHeadChunk2 + CancerHeadChunk3 + CancerHeadChunk4 + CancerHeadChunk5 + CancerHeadChunk6 + CancerHeadChunk7 + CancerHeadChunk8 + CancerHeadChunk9 + CancerHeadChunk10 + CancerHeadChunk11 + CancerHeadChunk12 + CancerHeadChunk13 + CancerHeadChunk14 + CancerHeadChunk15 + CancerHeadChunk16, CancerHeadChunk17);
    DollarFreeAppend(CancerHeadChunk1 + CancerHeadChunk2 + CancerHeadChunk3 + CancerHeadChunk4 + CancerHeadChunk5 + CancerHeadChunk6 + CancerHeadChunk7 + CancerHeadChunk8 + CancerHeadChunk9 + CancerHeadChunk10 + CancerHeadChunk11 + CancerHeadChunk12 + CancerHeadChunk13 + CancerHeadChunk14 + CancerHeadChunk15 + CancerHeadChunk16 + CancerHeadChunk17, CancerHeadChunk18);
    DollarFreeAppend(CancerHeadChunk1 + CancerHeadChunk2 + CancerHeadChunk3 + CancerHeadChunk4 + CancerHeadChunk5 + CancerHeadChunk6 + CancerHeadChunk7 + CancerHeadChunk8 + CancerHeadChunk9 + CancerHeadChunk10 + CancerHeadChunk11 + CancerHeadChunk12 + CancerHeadChunk13 + CancerHeadChunk14 + CancerHeadChunk15 + CancerHeadChunk16 + CancerHeadChunk17 + CancerHeadChunk18, CancerHeadChunk19);
    DollarFreeAppend(CancerHeadChunk1 + CancerHeadChunk2 + CancerHeadChunk3 + CancerHeadChunk4 + CancerHeadChunk5 + CancerHeadChunk6 + CancerHeadChunk7 + CancerHeadChunk8 + CancerHeadChunk9 + CancerHeadChunk10 + CancerHeadChunk11 + CancerHeadChunk12 + CancerHeadChunk13 + CancerHeadChunk14 + CancerHeadChunk15 + CancerHeadChunk16 + CancerHeadChunk17 + CancerHeadChunk18 + CancerHeadChunk19, CancerHeadChunk20);
    DollarFreeAppend(CancerHeadChunk1 + CancerHeadChunk2 + CancerHeadChunk3 + CancerHeadChunk4 + CancerHeadChunk5 + CancerHeadChunk6 + CancerHeadChunk7 + CancerHeadChunk8 + CancerHeadChunk9 + CancerHeadChunk10 + CancerHeadChunk11 + CancerHeadChunk12 + CancerHeadChunk13 + CancerHeadChunk14 + CancerHeadChunk15 + CancerHeadChunk16 + CancerHeadChunk17 + CancerHeadChunk18 + CancerHeadChunk19 + CancerHeadChunk20, CancerHeadChunk21);
  }

  const CancerAfterBedFile1: string :=
    CancerAfterBedFile1Chunk1 + CancerAfterBedFile1Chunk2 + CancerAfterBedFile1Chunk3 + CancerAfterBedFile1Chunk4

  const CancerAfterBedFile1Chunk1: string := "\n" + "#    variant_regions: /mnt/"
  lemma CancerAfterBedFile1Chunk1DollarFree() ensures DollarFree(CancerAfterBedFile1Chunk1) { assert '$' !in CancerAfterBedFile1Chunk1; DollarFreeIff(CancerAfterBedFile1Chunk1); }

  const CancerAfterBedFile1Chunk2: string := "cancer-dream-syn3/input/NGv3.bed\n"
  lemma CancerAfterBedFile1Chunk2DollarFree() ensures DollarFree(CancerAfterBedFile1Chunk2) { assert '$' !in CancerAfterBedFile1Chunk2; DollarFreeIff(CancerAfterBedFile1Chunk2); }

  const CancerAfterBedFile1Chunk3: string := "    # svcaller: [cnvkit, lumpy, "
  lemma CancerAfterBedFile1Chunk3DollarFree() ensures DollarFree(CancerAfterBedFile1Chunk3) { assert '$' !in CancerAfterBedFile1Chunk3; DollarFreeIff(CancerAfterBedFile1Chunk3); }

  const CancerAfterBedFile1Chunk4: string := "delly]\n" + "    "
  lemma CancerAfterBedFile1Chunk4DollarFree() ensures DollarFree(CancerAfterBedFile1Chunk4) { assert '$' !in CancerAfterBedFile1Chunk4; DollarFreeIff(CancerAfterBedFile1Chunk4); }

  lemma CancerAfterBedFile1DollarFree()
    ensures DollarFree(CancerAfterBedFile1)
  {
    CancerAfterBedFile1Chunk1DollarFree();
    CancerAfterBedFile1Chunk2DollarFree();
    CancerAfterBedFile1Chunk3DollarFree();
    CancerAfterBedFile1Chunk4DollarFree();
    DollarFreeAppend(CancerAfterBedFile1Chunk1, CancerAfterBedFile1Chunk2);
    DollarFreeAppend(CancerAfterBedFile1Chunk1 + CancerAfterBedFile1Chunk2, CancerAfterBedFile1Chunk3);
    DollarFreeAppend(CancerAfterBedFile1Chunk1 + CancerAfterBedFile1Chunk2 + CancerAfterBedFile1Chunk3, CancerAfterBedFile1Chunk4);
  }

  lemma BedFileIsIdentifier() ensures IsIdentifier("bed_file") { }

  lemma CancerAfterBedFile1Delimited()
    ensures !IsIdentifierChar(CancerAfterBedFile1[0])
  {
    assert !IsIdentifierChar(CancerAfterBedFile1Chunk1[0]);
    FirstOfAppend(CancerAfterBedFile1Chunk1, CancerAfterBedFile1Chunk2);
    FirstOfAppend(CancerAfterBedFile1Chunk1 + CancerAfterBedFile1Chunk2, CancerAfterBedFile1Chunk3);
    FirstOfAppend(CancerAfterBedFile1Chunk1 + CancerAfterBedFile1Chunk2 + CancerAfterBedFile1Chunk3, CancerAfterBedFile1Chunk4);
  }

  lemma CancerSlot0WellFormed()
    ensures SlotWellFormed(Slot("bed_file", CancerAfterBedFile1))
  {
    BedFileIsIdentifier();
    CancerAfterBedFile1DollarFree();
    CancerAfterBedFile1Delimited();
  }

  const CancerAfterSvCallerInfo1: string :=
    CancerAfterSvCallerInfo1Chunk1 + CancerAfterSvCallerInfo1Chunk2 + CancerAfterSvCallerInfo1Chunk3 + CancerAfterSvCallerInfo1Chunk4 +
    CancerAfterSvCallerInfo1Chunk5 + CancerAfterSvCallerInfo1Chunk6 + CancerAfterSvCallerInfo1Chunk7 + CancerAfterSvCallerInfo1Chunk8 +
    CancerAfterSvCallerInfo1Chunk9

  const CancerAfterSvCallerInfo1Chunk1: string := "\n" + "    # coverage_interval: amplicon\n"
  lemma CancerAfterSvCallerInfo1Chunk1DollarFree() ensures DollarFree(CancerAfterSvCallerInfo1Chunk1) { assert '$' !in CancerAfterSvCallerInfo1Chunk1; DollarFreeIff(CancerAfterSvCallerInfo1Chunk1); }

  const CancerAfterSvCallerInfo1Chunk2: string := "  analysis: variant2\n"
  lemma CancerAfterSvCallerInfo1Chunk2DollarFree() ensures DollarFree(CancerAfterSvCallerInfo1Chunk2) { assert '$' !in CancerAfterSvCallerInfo1Chunk2; DollarFreeIff(CancerAfterSvCallerInfo1Chunk2); }

  const CancerAfterSvCallerInfo1Chunk3: string := "  description: syn3-normal\n" + "\n"
  lemma CancerAfterSvCallerInfo1Chunk3DollarFree() ensures DollarFree(CancerAfterSvCallerInfo1Chunk3) { assert '$' !in CancerAfterSvCallerInfo1Chunk3; DollarFreeIff(CancerAfterSvCallerInfo1Chunk3); }

  const CancerAfterSvCallerInfo1Chunk4: string := "  # The YAML below should look like "
  lemma CancerAfterSvCallerInfo1Chunk4DollarFree() ensures DollarFree(CancerAfterSvCallerInfo1Chunk4) { assert '$' !in CancerAfterSvCallerInfo1Chunk4; DollarFreeIff(CancerAfterSvCallerInfo1Chunk4); }

  const CancerAfterSvCallerInfo1Chunk5: string := "the following after substitution:\n"
  lemma CancerAfterSvCallerInfo1Chunk5DollarFree() ensures DollarFree(CancerAfterSvCallerInfo1Chunk5) { assert '$' !in CancerAfterSvCallerInfo1Chunk5; DollarFreeIff(CancerAfterSvCallerInfo1Chunk5); }

  const CancerAfterSvCallerInfo1Chunk6: string := "  # files: [ <path and file name of "
  lemma CancerAfterSvCallerInfo1Chunk6DollarFree() ensures DollarFree(CancerAfterSvCallerInfo1Chunk6) { assert '$' !in CancerAfterSvCallerInfo1Chunk6; DollarFreeIff(CancerAfterSvCallerInfo1Chunk6); }

  const CancerAfterSvCallerInfo1Chunk7: string := "normal paired end reads>, <path and "
  lemma CancerAfterSvCallerInfo1Chunk7DollarFree() ensures DollarFree(CancerAfterSvCallerInfo1Chunk7) { assert '$' !in CancerAfterSvCallerInfo1Chunk7; DollarFreeIff(CancerAfterSvCallerInfo1Chunk7); }

  const CancerAfterSvCallerInfo1Chunk8: string := "file name of other end of normal "
  lemma CancerAfterSvCallerInfo1Chunk8DollarFree() ensures DollarFree(CancerAfterSvCallerInfo1Chunk8) { assert '$' !in CancerAfterSvCallerInfo1Chunk8; DollarFreeIff(CancerAfterSvCallerInfo1Chunk8); }

  const CancerAfterSvCallerInfo1Chunk9: string := "paired end reads> ]\n" + "  files: ["
  lemma CancerAfterSvCallerInfo1Chunk9DollarFree() ensures DollarFree(CancerAfterSvCallerInfo1Chunk9) { assert '$' !in CancerAfterSvCallerInfo1Chunk9; DollarFreeIff(CancerAfterSvCallerInfo1Chunk9); }

  lemma CancerAfterSvCallerInfo1DollarFree()
    ensures DollarFree(CancerAfterSvCallerInfo1)
  {
    CancerAfterSvCallerInfo1Chunk1DollarFree();
    CancerAfterSvCallerInfo1Chunk2DollarFree();
    CancerAfterSvCallerInfo1Chunk3DollarFree();
    CancerAfterSvCallerInfo1Chunk4DollarFree();
    CancerAfterSvCallerInfo1Chunk5DollarFree();
    CancerAfterSvCallerInfo1Chunk6DollarFree();
    CancerAfterSvCallerInfo1Chunk7DollarFree();
    CancerAfterSvCallerInfo1Chunk8DollarFree();
    CancerAfterSvCallerInfo1Chunk9DollarFree();
    DollarFreeAppend(CancerAfterSvCallerInfo1Chunk1, CancerAfterSvCallerInfo1Chunk2);
    DollarFreeAppend(CancerAfterSvCallerInfo1Chunk1 + CancerAfterSvCallerInfo1Chunk2, CancerAfterSvCallerInfo1Chunk3);
    DollarFreeAppend(CancerAfterSvCallerInfo1Chunk1 + CancerAfterSvCallerInfo1Chunk2 + CancerAfterSvCallerInfo1Chunk3, CancerAfterSvCallerInfo1Chunk4);
    DollarFreeAppend(CancerAfterSvCallerInfo1Chunk1 + CancerAfterSvCallerInfo1Chunk2 + CancerAfterSvCallerInfo1Chunk3 + CancerAfterSvCallerInfo1Chunk4, CancerAfterSvCallerInfo1Chunk5);
    DollarFreeAppend(CancerAfterSvCallerInfo1Chunk1 + CancerAfterSvCallerInfo1Chunk2 + CancerAfterSvCallerInfo1Chunk3 + CancerAfterSvCallerInfo1Chunk4 + CancerAfterSvCallerInfo1Chunk5, CancerAfterSvCallerInfo1Chunk6);
    DollarFreeAppend(CancerAfterSvCallerInfo1Chunk1 + CancerAfterSvCallerInfo1Chunk2 + CancerAfterSvCallerInfo1Chunk3 + CancerAfterSvCallerInfo1Chunk4 + CancerAfterSvCallerInfo1Chunk5 + CancerAfterSvCallerInfo1Chunk6, CancerAfterSvCallerInfo1Chunk7);
    DollarFreeAppend(CancerAfterSvCallerInfo1Chunk1 + CancerAfterSvCallerInfo1Chunk2 + CancerAfterSvCallerInfo1Chunk3 + CancerAfterSvCallerInfo1Chunk4 + CancerAfterSvCallerInfo1Chunk5 + CancerAfterSvCallerInfo1Chunk6 + CancerAfterSvCallerInfo1Chunk7, CancerAfterSvCallerInfo1Chunk8);
    DollarFreeAppend(CancerAfterSvCallerInfo1Chunk1 + CancerAfterSvCallerInfo1Chunk2 + CancerAfterSvCallerInfo1Chunk3 + CancerAfterSvCallerInfo1Chunk4 + CancerAfterSvCallerInfo1Chunk5 + CancerAfterSvCallerInfo1Chunk6 + CancerAfterSvCallerInfo1Chunk7 + CancerAfterSvCallerInfo1Chunk8, CancerAfterSvCallerInfo1Chunk9);
  }

  lemma SvcallerInfoIsIdentifier() ensures IsIdentifier("svcaller_info") { }

  lemma CancerAfterSvCallerInfo1Delimited()
    ensures !IsIdentifierChar(CancerAfterSvCallerInfo1[0])
  {
    assert !IsIdentifierChar(CancerAfterSvCallerInfo1Chunk1[0]);
    FirstOfAppend(CancerAfterSvCallerInfo1Chunk1, CancerAfterSvCallerInfo1Chunk2);
    FirstOfAppend(CancerAfterSvCallerInfo1Chunk1 + CancerAfterSvCallerInfo1Chunk2, CancerAfterSvCallerInfo1Chunk3);
    FirstOfAppend(CancerAfterSvCallerInfo1Chunk1 + CancerAfterSvCallerInfo1Chunk2 + CancerAfterSvCallerInfo1Chunk3, CancerAfterSvCallerInfo1Chunk4);
    FirstOfAppend(CancerAfterSvCallerInfo1Chunk1 + CancerAfterSvCallerInfo1Chunk2 + CancerAfterSvCallerInfo1Chunk3 + CancerAfterSvCallerInfo1Chunk4, CancerAfterSvCallerInfo1Chunk5);
    FirstOfAppend(CancerAfterSvCallerInfo1Chunk1 + CancerAfterSvCallerInfo1Chunk2 + CancerAfterSvCallerInfo1Chunk3 + CancerAfterSvCallerInfo1Chunk4 + CancerAfterSvCallerInfo1Chunk5, CancerAfterSvCallerInfo1Chunk6);
    FirstOfAppend(CancerAfterSvCallerInfo1Chunk1 + CancerAfterSvCallerInfo1Chunk2 + CancerAfterSvCallerInfo1Chunk3 + CancerAfterSvCallerInfo1Chunk4 + CancerAfterSvCallerInfo1Chunk5 + CancerAfterSvCallerInfo1Chunk6, CancerAfterSvCallerInfo1Chunk7);
    FirstOfAppend(CancerAfterSvCallerInfo1Chunk1 + CancerAfterSvCallerInfo1Chunk2 + CancerAfterSvCallerInfo1Chunk3 + CancerAfterSvCallerInfo1Chunk4 + CancerAfterSvCallerInfo1Chunk5 + CancerAfterSvCallerInfo1Chunk6 + CancerAfterSvCallerInfo1Chunk7, CancerAfterSvCallerInfo1Chunk8);
    FirstOfAppend(CancerAfterSvCallerInfo1Chunk1 + CancerAfterSvCallerInfo1Chunk2 + CancerAfterSvCallerInfo1Chunk3 + CancerAfterSvCallerInfo1Chunk4 + CancerAfterSvCallerInfo1Chunk5 + CancerAfterSvCallerInfo1Chunk6 + CancerAfterSvCallerInfo1Chunk7 + CancerAfterSvCallerInfo1Chunk8, CancerAfterSvCallerInfo1Chunk9);
  }

  lemma CancerSlot1WellFormed()
    ensures SlotWellFormed(Slot("svcaller_info", CancerAfterSvCallerInfo1))
  {
    SvcallerInfoIsIdentifier();
    CancerAfterSvCallerInfo1DollarFree();
    CancerAfterSvCallerInfo1Delimited();
  }

  const CancerAfterNormalSampleFiles: string :=
    CancerAfterNormalSampleFilesChunk1 + CancerAfterNormalSampleFilesChunk2 + CancerAfterNormalSampleFilesChunk3 + CancerAfterNormalSampleFilesChunk4 +
    CancerAfterNormalSampleFilesChunk5 + CancerAfterNormalSampleFilesChunk6 + CancerAfterNormalSampleFilesChunk7 + CancerAfterNormalSampleFilesChunk8 +
    CancerAfterNormalSampleFilesChunk9 + CancerAfterNormalSampleFilesChunk10 + CancerAfterNormalSampleFilesChunk11 + CancerAfterNormalSampleFilesChunk12 +
    CancerAfterNormalSampleFilesChunk13 + CancerAfterNormalSampleFilesChunk14 + CancerAfterNormalSampleFilesChunk15 + CancerAfterNormalSampleFilesChunk16 +
    CancerAfterNormalSampleFilesChunk17 + CancerAfterNormalSampleFilesChunk18 + CancerAfterNormalSampleFilesChunk19 + CancerAfterNormalSampleFilesChunk20 +
    CancerAfterNormalSampleFilesChunk21 + CancerAfterNormalSampleFilesChunk22 + CancerAfterNormalSampleFilesChunk23 + CancerAfterNormalSampleFilesChunk24 +
    CancerAfterNormalSampleFilesChunk25 + CancerAfterNormalSampleFilesChunk26

  const CancerAfterNormalSampleFilesChunk1: string := "]\n" + "\n" + "  #files: /mnt/cancer-dream-syn3/"
  lemma CancerAfterNormalSampleFilesChunk1DollarFree() ensures DollarFree(CancerAfterNormalSampleFilesChunk1) { assert '$' !in CancerAfterNormalSampleFilesChunk1; DollarFreeIff(CancerAfterNormalSampleFilesChunk1); }

  const CancerAfterNormalSampleFilesChunk2: string := "input/"
  lemma CancerAfterNormalSampleFilesChunk2DollarFree() ensures DollarFree(CancerAfterNormalSampleFilesChunk2) { assert '$' !in CancerAfterNormalSampleFilesChunk2; DollarFreeIff(CancerAfterNormalSampleFilesChunk2); }

  const CancerAfterNormalSampleFilesChunk3: string := "synthetic.challenge.set3.normal.bam\n"
  lemma CancerAfterNormalSampleFilesChunk3DollarFree() ensures DollarFree(CancerAfterNormalSampleFilesChunk3) { assert '$' !in CancerAfterNormalSampleFilesChunk3; DollarFreeIff(CancerAfterNormalSampleFilesChunk3); }

  const CancerAfterNormalSampleFilesChunk4: string := "#  files:\n"
  lemma CancerAfterNormalSampleFilesChunk4DollarFree() ensures DollarFree(CancerAfterNormalSampleFilesChunk4) { assert '$' !in CancerAfterNormalSampleFilesChunk4; DollarFreeIff(CancerAfterNormalSampleFilesChunk4); }

  const CancerAfterNormalSampleFilesChunk5: string := "#    - /mnt/cancer-dream-syn3/input/"
  lemma CancerAfterNormalSampleFilesChunk5DollarFree() ensures DollarFree(CancerAfterNormalSampleFilesChunk5) { assert '$' !in CancerAfterNormalSampleFilesChunk5; DollarFreeIff(CancerAfterNormalSampleFilesChunk5); }

  const CancerAfterNormalSampleFilesChunk6: string := "synthetic_challenge_set3_normal_"
  lemma CancerAfterNormalSampleFilesChunk6DollarFree() ensures DollarFree(CancerAfterNormalSampleFilesChunk6) { assert '$' !in CancerAfterNormalSampleFilesChunk6; DollarFreeIff(CancerAfterNormalSampleFilesChunk6); }

  const CancerAfterNormalSampleFilesChunk7: string := "NGv3_1.fq.gz\n"
  lemma CancerAfterNormalSampleFilesChunk7DollarFree() ensures DollarFree(CancerAfterNormalSampleFilesChunk7) { assert '$' !in CancerAfterNormalSampleFilesChunk7; DollarFreeIff(CancerAfterNormalSampleFilesChunk7); }

  const CancerAfterNormalSampleFilesChunk8: string := "#    - /mnt/cancer-dream-syn3/input/"
  lemma CancerAfterNormalSampleFilesChunk8DollarFree() ensures DollarFree(CancerAfterNormalSampleFilesChunk8) { assert '$' !in CancerAfterNormalSampleFilesChunk8; DollarFreeIff(CancerAfterNormalSampleFilesChunk8); }

  const CancerAfterNormalSampleFilesChunk9: string := "synthetic_challenge_set3_normal_"
  lemma CancerAfterNormalSampleFilesChunk9DollarFree() ensures DollarFree(CancerAfterNormalSampleFilesChunk9) { assert '$' !in CancerAfterNormalSampleFilesChunk9; DollarFreeIff(CancerAfterNormalSampleFilesChunk9); }

  const CancerAfterNormalSampleFilesChunk10: string := "NGv3_2.fq.gz\n" + "  genome_build: GRCh37\n"
  lemma CancerAfterNormalSampleFilesChunk10DollarFree() ensures DollarFree(CancerAfterNormalSampleFilesChunk10) { assert '$' !in CancerAfterNormalSampleFilesChunk10; DollarFreeIff(CancerAfterNormalSampleFilesChunk10); }

  const CancerAfterNormalSampleFilesChunk11: string := "  metadata:\n" + "    batch: syn3\n"
  lemma CancerAfterNormalSampleFilesChunk11DollarFree() ensures DollarFree(CancerAfterNormalSampleFilesChunk11) { assert '$' !in CancerAfterNormalSampleFilesChunk11; DollarFreeIff(CancerAfterNormalSampleFilesChunk11); }

  const CancerAfterNormalSampleFilesChunk12: string := "    phenotype: normal\n" + "- algorithm:\n"
  lemma CancerAfterNormalSampleFilesChunk12DollarFree() ensures DollarFree(CancerAfterNormalSampleFilesChunk12) { assert '$' !in CancerAfterNormalSampleFilesChunk12; DollarFreeIff(CancerAfterNormalSampleFilesChunk12); }

  const CancerAfterNormalSampleFilesChunk13: string := "    aligner: bwa\n"
  lemma CancerAfterNormalSampleFilesChunk13DollarFree() ensures DollarFree(CancerAfterNormalSampleFilesChunk13) { assert '$' !in CancerAfterNormalSampleFilesChunk13; DollarFreeIff(CancerAfterNormalSampleFilesChunk13); }

  const CancerAfterNormalSampleFilesChunk14: string := "    align_split_size: 5000000\n"
  lemma CancerAfterNormalSampleFilesChunk14DollarFree() ensures DollarFree(CancerAfterNormalSampleFilesChunk14) { assert '$' !in CancerAfterNormalSampleFilesChunk14; DollarFreeIff(CancerAfterNormalSampleFilesChunk14); }

  const CancerAfterNormalSampleFilesChunk15: string := "    nomap_split_targets: 100\n"
  lemma CancerAfterNormalSampleFilesChunk15DollarFree() ensures DollarFree(CancerAfterNormalSampleFilesChunk15) { assert '$' !in CancerAfterNormalSampleFilesChunk15; DollarFreeIff(CancerAfterNormalSampleFilesChunk15); }

  const CancerAfterNormalSampleFilesChunk16: string := "    mark_duplicates: true\n"
  lemma CancerAfterNormalSampleFilesChunk16DollarFree() ensures DollarFree(CancerAfterNormalSampleFilesChunk16) { assert '$' !in CancerAfterNormalSampleFilesChunk16; DollarFreeIff(CancerAfterNormalSampleFilesChunk16); }

  const CancerAfterNormalSampleFilesChunk17: string := "    recalibrate: true\n"
  lemma CancerAfterNormalSampleFilesChunk17DollarFree() ensures DollarFree(CancerAfterNormalSampleFilesChunk17) { assert '$' !in CancerAfterNormalSampleFilesChunk17; DollarFreeIff(CancerAfterNormalSampleFilesChunk17); }

  const CancerAfterNormalSampleFilesChunk18: string := "    realign: true\n"
  lemma CancerAfterNormalSampleFilesChunk18DollarFree() ensures DollarFree(CancerAfterNormalSampleFilesChunk18) { assert '$' !in CancerAfterNormalSampleFilesChunk18; DollarFreeIff(CancerAfterNormalSampleFilesChunk18); }

  const CancerAfterNormalSampleFilesChunk19: string := "    remove_lcr: true\n"
  lemma CancerAfterNormalSampleFilesChunk19DollarFree() ensures DollarFree(CancerAfterNormalSampleFilesChunk19) { assert '$' !in CancerAfterNormalSampleFilesChunk19; DollarFreeIff(CancerAfterNormalSampleFilesChunk19); }

  const CancerAfterNormalSampleFilesChunk20: string := "    platform: illumina\n"
  lemma CancerAfterNormalSampleFilesChunk20DollarFree() ensures DollarFree(CancerAfterNormalSampleFilesChunk20) { assert '$' !in CancerAfterNormalSampleFilesChunk20; DollarFreeIff(CancerAfterNormalSampleFilesChunk20); }

  const CancerAfterNormalSampleFilesChunk21: string := "    quality_format: standard\n"
  lemma CancerAfterNormalSampleFilesChunk21DollarFree() ensures DollarFree(CancerAfterNormalSampleFilesChunk21) { assert '$' !in CancerAfterNormalSampleFilesChunk21; DollarFreeIff(CancerAfterNormalSampleFilesChunk21); }

  const CancerAfterNormalSampleFilesChunk22: string := "    variantcaller: [mutect2, "
  lemma CancerAfterNormalSampleFilesChunk22DollarFree() ensures DollarFree(CancerAfterNormalSampleFilesChunk22) { assert '$' !in CancerAfterNormalSampleFilesChunk22; DollarFreeIff(CancerAfterNormalSampleFilesChunk22); }

  const CancerAfterNormalSampleFilesChunk23: string := "freebayes, vardict, varscan]\n"
  lemma CancerAfterNormalSampleFilesChunk23DollarFree() ensures DollarFree(CancerAfterNormalSampleFilesChunk23) { assert '$' !in CancerAfterNormalSampleFilesChunk23; DollarFreeIff(CancerAfterNormalSampleFilesChunk23); }

  const CancerAfterNormalSampleFilesChunk24: string := "    indelcaller: false\n"
  lemma CancerAfterNormalSampleFilesChunk24DollarFree() ensures DollarFree(CancerAfterNormalSampleFilesChunk24) { assert '$' !in CancerAfterNormalSampleFilesChunk24; DollarFreeIff(CancerAfterNormalSampleFilesChunk24); }

  const CancerAfterNormalSampleFilesChunk25: string := "    ensemble:\n" + "      numpass: 2\n"
  lemma CancerAfterNormalSampleFilesChunk25DollarFree() ensures DollarFree(CancerAfterNormalSampleFilesChunk25) { assert '$' !in CancerAfterNormalSampleFilesChunk25; DollarFreeIff(CancerAfterNormalSampleFilesChunk25); }

  const CancerAfterNormalSampleFilesChunk26: string := "    variant_regions: "
  lemma CancerAfterNormalSampleFilesChunk26DollarFree() ensures DollarFree(CancerAfterNormalSampleFilesChunk26) { assert '$' !in CancerAfterNormalSampleFilesChunk26; DollarFreeIff(CancerAfterNormalSampleFilesChunk26); }

  lemma CancerAfterNormalSampleFilesDollarFree()
    ensures DollarFree(CancerAfterNormalSampleFiles)
  {
    CancerAfterNormalSampleFilesChunk1DollarFree();
    CancerAfterNormalSampleFilesChunk2DollarFree();
    CancerAfterNormalSampleFilesChunk3DollarFree();
    CancerAfterNormalSampleFilesChunk4DollarFree();
    CancerAfterNormalSampleFilesChunk5DollarFree();
    CancerAfterNormalSampleFilesChunk6DollarFree();
    CancerAfterNormalSampleFilesChunk7DollarFree();
    CancerAfterNormalSampleFilesChunk8DollarFree();
    CancerAfterNormalSampleFilesChunk9DollarFree();
    CancerAfterNormalSampleFilesChunk10DollarFree();
    CancerAfterNormalSampleFilesChunk11DollarFree();
    CancerAfterNormalSampleFilesChunk12DollarFree();
    CancerAfterNormalSampleFilesChunk13DollarFree();
    CancerAfterNormalSampleFilesChunk14DollarFree();
    CancerAfterNormalSampleFilesChunk15DollarFree();
    CancerAfterNormalSampleFilesChunk16DollarFree();
    CancerAfterNormalSampleFilesChunk17DollarFree();
    CancerAfterNormalSampleFilesChunk18DollarFree();
    CancerAfterNormalSampleFilesChunk19DollarFree();
    CancerAfterNormalSampleFilesChunk20DollarFree();
    CancerAfterNormalSampleFilesChunk21DollarFree();
    CancerAfterNormalSampleFilesChunk22DollarFree();
    CancerAfterNormalSampleFilesChunk23DollarFree();
    CancerAfterNormalSampleFilesChunk24DollarFree();
    CancerAfterNormalSampleFilesChunk25DollarFree();
    CancerAfterNormalSampleFilesChunk26DollarFree();
    DollarFreeAppend(CancerAfterNormalSampleFilesChunk1, CancerAfterNormalSampleFilesChunk2);
    DollarFreeAppend(CancerAfterNormalSampleFilesChunk1 + CancerAfterNormalSampleFilesChunk2, CancerAfterNormalSampleFilesChunk3);
    DollarFreeAppend(CancerAfterNormalSampleFilesChunk1 + CancerAfterNormalSampleFilesChunk2 + CancerAfterNormalSampleFilesChunk3, CancerAfterNormalSampleFilesChunk4);
    DollarFreeAppend(CancerAfterNormalSampleFilesChunk1 + CancerAfterNormalSampleFilesChunk2 + CancerAfterNormalSampleFilesChunk3 + CancerAfterNormalSampleFilesChunk4, CancerAfterNormalSampleFilesChunk5);
    DollarFreeAppend(CancerAfterNormalSampleFilesChunk1 + CancerAfterNormalSampleFilesChunk2 + CancerAfterNormalSampleFilesChunk3 + CancerAfterNormalSampleFilesChunk4 + CancerAfterNormalSampleFilesChunk5, CancerAfterNormalSampleFilesChunk6);
    DollarFreeAppend(CancerAfterNormalSampleFilesChunk1 + CancerAfterNormalSampleFilesChunk2 + CancerAfterNormalSampleFilesChunk3 + CancerAfterNormalSampleFilesChunk4 + CancerAfterNormalSampleFilesChunk5 + CancerAfterNormalSampleFilesChunk6, CancerAfterNormalSampleFilesChunk7);
    DollarFreeAppend(CancerAfterNormalSampleFilesChunk1 + CancerAfterNormalSampleFilesChunk2 + CancerAfterNormalSampleFilesChunk3 + CancerAfterNormalSampleFilesChunk4 + CancerAfterNormalSampleFilesChunk5 + CancerAfterNormalSampleFilesChunk6 + CancerAfterNormalSampleFilesChunk7, CancerAfterNormalSampleFilesChunk8);
    DollarFreeAppend(CancerAfterNormalSampleFilesChunk1 + CancerAfterNormalSampleFilesChunk2 + CancerAfterNormalSampleFilesChunk3 + CancerAfterNormalSampleFilesChunk4 + CancerAfterNormalSampleFilesChunk5 + CancerAfterNormalSampleFilesChunk6 + CancerAfterNormalSampleFilesChunk7 + CancerAfterNormalSampleFilesChunk8, CancerAfterNormalSampleFilesChunk9);
    DollarFreeAppend(CancerAfterNormalSampleFilesChunk1 + CancerAfterNormalSampleFilesChunk2 + CancerAfterNormalSampleFilesChunk3 + CancerAfterNormalSampleFilesChunk4 + CancerAfterNormalSampleFilesChunk5 + CancerAfterNormalSampleFilesChunk6 + CancerAfterNormalSampleFilesChunk7 + CancerAfterNormalSampleFilesChunk8 + CancerAfterNormalSampleFilesChunk9, CancerAfterNormalSampleFilesChunk10);
    DollarFreeAppend(CancerAfterNormalSampleFilesChunk1 + CancerAfterNormalSampleFilesChunk2 + CancerAfterNormalSampleFilesChunk3 + CancerAfterNormalSampleFilesChunk4 + CancerAfterNormalSampleFilesChunk5 + CancerAfterNormalSampleFilesChunk6 + CancerAfterNormalSampleFilesChunk7 + CancerAfterNormalSampleFilesChunk8 + CancerAfterNormalSampleFilesChunk9 + CancerAfterNormalSampleFilesChunk10, CancerAfterNormalSampleFilesChunk11);
    DollarFreeAppend(CancerAfterNormalSampleFilesChunk1 + CancerAfterNormalSampleFilesChunk2 + CancerAfterNormalSampleFilesChunk3 + CancerAfterNormalSampleFilesChunk4 + CancerAfterNormalSampleFilesChunk5 + CancerAfterNormalSampleFilesChunk6 + CancerAfterNormalSampleFilesChunk7 + CancerAfterNormalSampleFilesChunk8 + CancerAfterNormalSampleFilesChunk9 + CancerAfterNormalSampleFilesChunk10 + CancerAfterNormalSampleFilesChunk11, CancerAfterNormalSampleFilesChunk12);
    DollarFreeAppend(CancerAfterNormalSampleFilesChunk1 + CancerAfterNormalSampleFilesChunk2 + CancerAfterNormalSampleFilesChunk3 + CancerAfterNormalSampleFilesChunk4 + CancerAfterNormalSampleFilesChunk5 + CancerAfterNormalSampleFilesChunk6 + CancerAfterNormalSampleFilesChunk7 + CancerAfterNormalSampleFilesChunk8 + CancerAfterNormalSampleFilesChunk9 + CancerAfterNormalSampleFilesChunk10 + CancerAfterNormalSampleFilesChunk11 + CancerAfterNormalSampleFilesChunk12, CancerAfterNormalSampleFilesChunk13);
    DollarFreeAppend(CancerAfterNormalSampleFilesChunk1 + CancerAfterNormalSampleFilesChunk2 + CancerAfterNormalSampleFilesChunk3 + CancerAfterNormalSampleFilesChunk4 + CancerAfterNormalSampleFilesChunk5 + CancerAfterNormalSampleFilesChunk6 + CancerAfterNormalSampleFilesChunk7 + CancerAfterNormalSampleFilesChunk8 + CancerAfterNormalSampleFilesChunk9 + CancerAfterNormalSampleFilesChunk10 + CancerAfterNormalSampleFilesChunk11 + CancerAfterNormalSampleFilesChunk12 + CancerAfterNormalSampleFilesChunk13, CancerAfterNormalSampleFilesChunk14);
    DollarFreeAppend(CancerAfterNormalSampleFilesChunk1 + CancerAfterNormalSampleFilesChunk2 + CancerAfterNormalSampleFilesChunk3 + CancerAfterNormalSampleFilesChunk4 + CancerAfterNormalSampleFilesChunk5 + CancerAfterNormalSampleFilesChunk6 + CancerAfterNormalSampleFilesChunk7 + CancerAfterNormalSampleFilesChunk8 + CancerAfterNormalSampleFilesChunk9 + CancerAfterNormalSampleFilesChunk10 + CancerAfterNormalSampleFilesChunk11 + CancerAfterNormalSampleFilesChunk12 + CancerAfterNormalSampleFilesChunk13 + CancerAfterNormalSampleFilesChunk14, CancerAfterNormalSampleFilesChunk15);
    DollarFreeAppend(CancerAfterNormalSampleFilesChunk1 + CancerAfterNormalSampleFilesChunk2 + CancerAfterNormalSampleFilesChunk3 + CancerAfterNormalSampleFilesChunk4 + CancerAfterNormalSampleFilesChunk5 + CancerAfterNormalSampleFilesChunk6 + CancerAfterNormalSampleFilesChunk7 + CancerAfterNormalSampleFilesChunk8 + CancerAfterNormalSampleFilesChunk9 + CancerAfterNormalSampleFilesChunk10 + CancerAfterNormalSampleFilesChunk11 + CancerAfterNormalSampleFilesChunk12 + CancerAfterNormalSampleFilesChunk13 + CancerAfterNormalSampleFilesChunk14 + CancerAfterNormalSampleFilesChunk15, CancerAfterNormalSampleFilesChunk16);
    DollarFreeAppend(CancerAfterNormalSampleFilesChunk1 + CancerAfterNormalSampleFilesChunk2 + CancerAfterNormalSampleFilesChunk3 + CancerAfterNormalSampleFilesChunk4 + CancerAfterNormalSampleFilesChunk5 + CancerAfterNormalSampleFilesChunk6 + CancerAfterNormalSampleFilesChunk7 + CancerAfterNormalSampleFilesChunk8 + CancerAfterNormalSampleFilesChunk9 + CancerAfterNormalSampleFilesChunk10 + CancerAfterNormalSampleFilesChunk11 + CancerAfterNormalSampleFilesChunk12 + CancerAfterNormalSampleFilesChunk13 + CancerAfterNormalSampleFilesChunk14 + CancerAfterNormalSampleFilesChunk15 + CancerAfterNormalSampleFilesChunk16, CancerAfterNormalSampleFilesChunk17);
    DollarFreeAppend(CancerAfterNormalSampleFilesChunk1 + CancerAfterNormalSampleFilesChunk2 + CancerAfterNormalSampleFilesChunk3 + CancerAfterNormalSampleFilesChunk4 + CancerAfterNormalSampleFilesChunk5 + CancerAfterNormalSampleFilesChunk6 + CancerAfterNormalSampleFilesChunk7 + CancerAfterNormalSampleFilesChunk8 + CancerAfterNormalSampleFilesChunk9 + CancerAfterNormalSampleFilesChunk10 + CancerAfterNormalSampleFilesChunk11 + CancerAfterNormalSampleFilesChunk12 + CancerAfterNormalSampleFilesChunk13 + CancerAfterNormalSampleFilesChunk14 + CancerAfterNormalSampleFilesChunk15 + CancerAfterNormalSampleFilesChunk16 + CancerAfterNormalSampleFilesChunk17, CancerAfterNormalSampleFilesChunk18);
    DollarFreeAppend(CancerAfterNormalSampleFilesChunk1 + CancerAfterNormalSampleFilesChunk2 + CancerAfterNormalSampleFilesChunk3 + CancerAfterNormalSampleFilesChunk4 + CancerAfterNormalSampleFilesChunk5 + CancerAfterNormalSampleFilesChunk6 + CancerAfterNormalSampleFilesChunk7 + CancerAfterNormalSampleFilesChunk8 + CancerAfterNormalSampleFilesChunk9 + CancerAfterNormalSampleFilesChunk10 + CancerAfterNormalSampleFilesChunk11 + CancerAfterNormalSampleFilesChunk12 + CancerAfterNormalSampleFilesChunk13 + CancerAfterNormalSampleFilesChunk14 + CancerAfterNormalSampleFilesChunk15 + CancerAfterNormalSampleFilesChunk16 + CancerAfterNormalSampleFilesChunk17 + CancerAfterNormalSampleFilesChunk18, CancerAfterNormalSampleFilesChunk19);
    DollarFreeAppend(CancerAfterNormalSampleFilesChunk1 + CancerAfterNormalSampleFilesChunk2 + CancerAfterNormalSampleFilesChunk3 + CancerAfterNormalSampleFilesChunk4 + CancerAfterNormalSampleFilesChunk5 + CancerAfterNormalSampleFilesChunk6 + CancerAfterNormalSampleFilesChunk7 + CancerAfterNormalSampleFilesChunk8 + CancerAfterNormalSampleFilesChunk9 + CancerAfterNormalSampleFilesChunk10 + CancerAfterNormalSampleFilesChunk11 + CancerAfterNormalSampleFilesChunk12 + CancerAfterNormalSampleFilesChunk13 + CancerAfterNormalSampleFilesChunk14 + CancerAfterNormalSampleFilesChunk15 + CancerAfterNormalSampleFilesChunk16 + CancerAfterNormalSampleFilesChunk17 + CancerAfterNormalSampleFilesChunk18 + CancerAfterNormalSampleFilesChunk19, CancerAfterNormalSampleFilesChunk20);
    DollarFreeAppend(CancerAfterNormalSampleFilesChunk1 + CancerAfterNormalSampleFilesChunk2 + CancerAfterNormalSampleFilesChunk3 + CancerAfterNormalSampleFilesChunk4 + CancerAfterNormalSampleFilesChunk5 + CancerAfterNormalSampleFilesChunk6 + CancerAfterNormalSampleFilesChunk7 + CancerAfterNormalSampleFilesChunk8 + CancerAfterNormalSampleFilesChunk9 + CancerAfterNormalSampleFilesChunk10 + CancerAfterNormalSampleFilesChunk11 + CancerAfterNormalSampleFilesChunk12 + CancerAfterNormalSampleFilesChunk13 + CancerAfterNormalSampleFilesChunk14 + CancerAfterNormalSampleFilesChunk15 + CancerAfterNormalSampleFilesChunk16 + CancerAfterNormalSampleFilesChunk17 + CancerAfterNormalSampleFilesChunk18 + CancerAfterNormalSampleFilesChunk19 + CancerAfterNormalSampleFilesChunk20, CancerAfterNormalSampleFilesChunk21);
    DollarFreeAppend(CancerAfterNormalSampleFilesChunk1 + CancerAfterNormalSampleFilesChunk2 + CancerAfterNormalSampleFilesChunk3 + CancerAfterNormalSampleFilesChunk4 + CancerAfterNormalSampleFilesChunk5 + CancerAfterNormalSampleFilesChunk6 + CancerAfterNormalSampleFilesChunk7 + CancerAfterNormalSampleFilesChunk8 + CancerAfterNormalSampleFilesChunk9 + CancerAfterNormalSampleFilesChunk10 + CancerAfterNormalSampleFilesChunk11 + CancerAfterNormalSampleFilesChunk12 + CancerAfterNormalSampleFilesChunk13 + CancerAfterNormalSampleFilesChunk14 + CancerAfterNormalSampleFilesChunk15 + CancerAfterNormalSampleFilesChunk16 + CancerAfterNormalSampleFilesChunk17 + CancerAfterNormalSampleFilesChunk18 + CancerAfterNormalSampleFilesChunk19 + CancerAfterNormalSampleFilesChunk20 + CancerAfterNormalSampleFilesChunk21, CancerAfterNormalSampleFilesChunk22);
    DollarFreeAppend(CancerAfterNormalSampleFilesChunk1 + CancerAfterNormalSampleFilesChunk2 + CancerAfterNormalSampleFilesChunk3 + CancerAfterNormalSampleFilesChunk4 + CancerAfterNormalSampleFilesChunk5 + CancerAfterNormalSampleFilesChunk6 + CancerAfterNormalSampleFilesChunk7 + CancerAfterNormalSampleFilesChunk8 + CancerAfterNormalSampleFilesChunk9 + CancerAfterNormalSampleFilesChunk10 + CancerAfterNormalSampleFilesChunk11 + CancerAfterNormalSampleFilesChunk12 + CancerAfterNormalSampleFilesChunk13 + CancerAfterNormalSampleFilesChunk14 + CancerAfterNormalSampleFilesChunk15 + CancerAfterNormalSampleFilesChunk16 + CancerAfterNormalSampleFilesChunk17 + CancerAfterNormalSampleFilesChunk18 + CancerAfterNormalSampleFilesChunk19 + CancerAfterNormalSampleFilesChunk20 + CancerAfterNormalSampleFilesChunk21 + CancerAfterNormalSampleFilesChunk22, CancerAfterNormalSampleFilesChunk23);
    DollarFreeAppend(CancerAfterNormalSampleFilesChunk1 + CancerAfterNormalSampleFilesChunk2 + CancerAfterNormalSampleFilesChunk3 + CancerAfterNormalSampleFilesChunk4 + CancerAfterNormalSampleFilesChunk5 + CancerAfterNormalSampleFilesChunk6 + CancerAfterNormalSampleFilesChunk7 + CancerAfterNormalSampleFilesChunk8 + CancerAfterNormalSampleFilesChunk9 + CancerAfterNormalSampleFilesChunk10 + CancerAfterNormalSampleFilesChunk11 + CancerAfterNormalSampleFilesChunk12 + CancerAfterNormalSampleFilesChunk13 + CancerAfterNormalSampleFilesChunk14 + CancerAfterNormalSampleFilesChunk15 + CancerAfterNormalSampleFilesChunk16 + CancerAfterNormalSampleFilesChunk17 + CancerAfterNormalSampleFilesChunk18 + CancerAfterNormalSampleFilesChunk19 + CancerAfterNormalSampleFilesChunk20 + CancerAfterNormalSampleFilesChunk21 + CancerAfterNormalSampleFilesChunk22 + CancerAfterNormalSampleFilesChunk23, CancerAfterNormalSampleFilesChunk24);
    DollarFreeAppend(CancerAfterNormalSampleFilesChunk1 + CancerAfterNormalSampleFilesChunk2 + CancerAfterNormalSampleFilesChunk3 + CancerAfterNormalSampleFilesChunk4 + CancerAfterNormalSampleFilesChunk5 + CancerAfterNormalSampleFilesChunk6 + CancerAfterNormalSampleFilesChunk7 + CancerAfterNormalSampleFilesChunk8 + CancerAfterNormalSampleFilesChunk9 + CancerAfterNormalSampleFilesChunk10 + CancerAfterNormalSampleFilesChunk11 + CancerAfterNormalSampleFilesChunk12 + CancerAfterNormalSampleFilesChunk13 + CancerAfterNormalSampleFilesChunk14 + CancerAfterNormalSampleFilesChunk15 + CancerAfterNormalSampleFilesChunk16 + CancerAfterNormalSampleFilesChunk17 + CancerAfterNormalSampleFilesChunk18 + CancerAfterNormalSampleFilesChunk19 + CancerAfterNormalSampleFilesChunk20 + CancerAfterNormalSampleFilesChunk21 + CancerAfterNormalSampleFilesChunk22 + CancerAfterNormalSampleFilesChunk23 + CancerAfterNormalSampleFilesChunk24, CancerAfterNormalSampleFilesChunk25);
    DollarFreeAppend(CancerAfterNormalSampleFilesChunk1 + CancerAfterNormalSampleFilesChunk2 + CancerAfterNormalSampleFilesChunk3 + CancerAfterNormalSampleFilesChunk4 + CancerAfterNormalSampleFilesChunk5 + CancerAfterNormalSampleFilesChunk6 + CancerAfterNormalSampleFilesChunk7 + CancerAfterNormalSampleFilesChunk8 + CancerAfterNormalSampleFilesChunk9 + CancerAfterNormalSampleFilesChunk10 + CancerAfterNormalSampleFilesChunk11 + CancerAfterNormalSampleFilesChunk12 + CancerAfterNormalSampleFilesChunk13 + CancerAfterNormalSampleFilesChunk14 + CancerAfterNormalSampleFilesChunk15 + CancerAfterNormalSampleFilesChunk16 + CancerAfterNormalSampleFilesChunk17 + CancerAfterNormalSampleFilesChunk18 + CancerAfterNormalSampleFilesChunk19 + CancerAfterNormalSampleFilesChunk20 + CancerAfterNormalSampleFilesChunk21 + CancerAfterNormalSampleFilesChunk22 + CancerAfterNormalSampleFilesChunk23 + CancerAfterNormalSampleFilesChunk24 + CancerAfterNormalSampleFilesChunk25, CancerAfterNormalSampleFilesChunk26);
  }

  lemma NormalSampleFilesIsIdentifier() ensures IsIdentifier("normal_sample_files") { }

  lemma CancerAfterNormalSampleFilesDelimited()
    ensures !IsIdentifierChar(CancerAfterNormalSampleFiles[0])
  {
    assert !IsIdentifierChar(CancerAfterNormalSampleFilesChunk1[0]);
    FirstOfAppend(CancerAfterNormalSampleFilesChunk1, CancerAfterNormalSampleFilesChunk2);
    FirstOfAppend(CancerAfterNormalSampleFilesChunk1 + CancerAfterNormalSampleFilesChunk2, CancerAfterNormalSampleFilesChunk3);
    FirstOfAppend(CancerAfterNormalSampleFilesChunk1 + CancerAfterNormalSampleFilesChunk2 + CancerAfterNormalSampleFilesChunk3, CancerAfterNormalSampleFilesChunk4);
    FirstOfAppend(CancerAfterNormalSampleFilesChunk1 + CancerAfterNormalSampleFilesChunk2 + CancerAfterNormalSampleFilesChunk3 + CancerAfterNormalSampleFilesChunk4, CancerAfterNormalSampleFilesChunk5);
    FirstOfAppend(CancerAfterNormalSampleFilesChunk1 + CancerAfterNormalSampleFilesChunk2 + CancerAfterNormalSampleFilesChunk3 + CancerAfterNormalSampleFilesChunk4 + CancerAfterNormalSampleFilesChunk5, CancerAfterNormalSampleFilesChunk6);
    FirstOfAppend(CancerAfterNormalSampleFilesChunk1 + CancerAfterNormalSampleFilesChunk2 + CancerAfterNormalSampleFilesChunk3 + CancerAfterNormalSampleFilesChunk4 + CancerAfterNormalSampleFilesChunk5 + CancerAfterNormalSampleFilesChunk6, CancerAfterNormalSampleFilesChunk7);
    FirstOfAppend(CancerAfterNormalSampleFilesChunk1 + CancerAfterNormalSampleFilesChunk2 + CancerAfterNormalSampleFilesChunk3 + CancerAfterNormalSampleFilesChunk4 + CancerAfterNormalSampleFilesChunk5 + CancerAfterNormalSampleFilesChunk6 + CancerAfterNormalSampleFilesChunk7, CancerAfterNormalSampleFilesChunk8);
    FirstOfAppend(CancerAfterNormalSampleFilesChunk1 + CancerAfterNormalSampleFilesChunk2 + CancerAfterNormalSampleFilesChunk3 + CancerAfterNormalSampleFilesChunk4 + CancerAfterNormalSampleFilesChunk5 + CancerAfterNormalSampleFilesChunk6 + CancerAfterNormalSampleFilesChunk7 + CancerAfterNormalSampleFilesChunk8, CancerAfterNormalSampleFilesChunk9);
    FirstOfAppend(CancerAfterNormalSampleFilesChunk1 + CancerAfterNormalSampleFilesChunk2 + CancerAfterNormalSampleFilesChunk3 + CancerAfterNormalSampleFilesChunk4 + CancerAfterNormalSampleFilesChunk5 + CancerAfterNormalSampleFilesChunk6 + CancerAfterNormalSampleFilesChunk7 + CancerAfterNormalSampleFilesChunk8 + CancerAfterNormalSampleFilesChunk9, CancerAfterNormalSampleFilesChunk10);
    FirstOfAppend(CancerAfterNormalSampleFilesChunk1 + CancerAfterNormalSampleFilesChunk2 + CancerAfterNormalSampleFilesChunk3 + CancerAfterNormalSampleFilesChunk4 + CancerAfterNormalSampleFilesChunk5 + CancerAfterNormalSampleFilesChunk6 + CancerAfterNormalSampleFilesChunk7 + CancerAfterNormalSampleFilesChunk8 + CancerAfterNormalSampleFilesChunk9 + CancerAfterNormalSampleFilesChunk10, CancerAfterNormalSampleFilesChunk11);
    FirstOfAppend(CancerAfterNormalSampleFilesChunk1 + CancerAfterNormalSampleFilesChunk2 + CancerAfterNormalSampleFilesChunk3 + CancerAfterNormalSampleFilesChunk4 + CancerAfterNormalSampleFilesChunk5 + CancerAfterNormalSampleFilesChunk6 + CancerAfterNormalSampleFilesChunk7 + CancerAfterNormalSampleFilesChunk8 + CancerAfterNormalSampleFilesChunk9 + CancerAfterNormalSampleFilesChunk10 + CancerAfterNormalSampleFilesChunk11, CancerAfterNormalSampleFilesChunk12);
    FirstOfAppend(CancerAfterNormalSampleFilesChunk1 + CancerAfterNormalSampleFilesChunk2 + CancerAfterNormalSampleFilesChunk3 + CancerAfterNormalSampleFilesChunk4 + CancerAfterNormalSampleFilesChunk5 + CancerAfterNormalSampleFilesChunk6 + CancerAfterNormalSampleFilesChunk7 + CancerAfterNormalSampleFilesChunk8 + CancerAfterNormalSampleFilesChunk9 + CancerAfterNormalSampleFilesChunk10 + CancerAfterNormalSampleFilesChunk11 + CancerAfterNormalSampleFilesChunk12, CancerAfterNormalSampleFilesChunk13);
    FirstOfAppend(CancerAfterNormalSampleFilesChunk1 + CancerAfterNormalSampleFilesChunk2 + CancerAfterNormalSampleFilesChunk3 + CancerAfterNormalSampleFilesChunk4 + CancerAfterNormalSampleFilesChunk5 + CancerAfterNormalSampleFilesChunk6 + CancerAfterNormalSampleFilesChunk7 + CancerAfterNormalSampleFilesChunk8 + CancerAfterNormalSampleFilesChunk9 + CancerAfterNormalSampleFilesChunk10 + CancerAfterNormalSampleFilesChunk11 + CancerAfterNormalSampleFilesChunk12 + CancerAfterNormalSampleFilesChunk13, CancerAfterNormalSampleFilesChunk14);
    FirstOfAppend(CancerAfterNormalSampleFilesChunk1 + CancerAfterNormalSampleFilesChunk2 + CancerAfterNormalSampleFilesChunk3 + CancerAfterNormalSampleFilesChunk4 + CancerAfterNormalSampleFilesChunk5 + CancerAfterNormalSampleFilesChunk6 + CancerAfterNormalSampleFilesChunk7 + CancerAfterNormalSampleFilesChunk8 + CancerAfterNormalSampleFilesChunk9 + CancerAfterNormalSampleFilesChunk10 + CancerAfterNormalSampleFilesChunk11 + CancerAfterNormalSampleFilesChunk12 + CancerAfterNormalSampleFilesChunk13 + CancerAfterNormalSampleFilesChunk14, CancerAfterNormalSampleFilesChunk15);
    FirstOfAppend(CancerAfterNormalSampleFilesChunk1 + CancerAfterNormalSampleFilesChunk2 + CancerAfterNormalSampleFilesChunk3 + CancerAfterNormalSampleFilesChunk4 + CancerAfterNormalSampleFilesChunk5 + CancerAfterNormalSampleFilesChunk6 + CancerAfterNormalSampleFilesChunk7 + CancerAfterNormalSampleFilesChunk8 + CancerAfterNormalSampleFilesChunk9 + CancerAfterNormalSampleFilesChunk10 + CancerAfterNormalSampleFilesChunk11 + CancerAfterNormalSampleFilesChunk12 + CancerAfterNormalSampleFilesChunk13 + CancerAfterNormalSampleFilesChunk14 + CancerAfterNormalSampleFilesChunk15, CancerAfterNormalSampleFilesChunk16);
    FirstOfAppend(CancerAfterNormalSampleFilesChunk1 + CancerAfterNormalSampleFilesChunk2 + CancerAfterNormalSampleFilesChunk3 + CancerAfterNormalSampleFilesChunk4 + CancerAfterNormalSampleFilesChunk5 + CancerAfterNormalSampleFilesChunk6 + CancerAfterNormalSampleFilesChunk7 + CancerAfterNormalSampleFilesChunk8 + CancerAfterNormalSampleFilesChunk9 + CancerAfterNormalSampleFilesChunk10 + CancerAfterNormalSampleFilesChunk11 + CancerAfterNormalSampleFilesChunk12 + CancerAfterNormalSampleFilesChunk13 + CancerAfterNormalSampleFilesChunk14 + CancerAfterNormalSampleFilesChunk15 + CancerAfterNormalSampleFilesChunk16, CancerAfterNormalSampleFilesChunk17);
    FirstOfAppend(CancerAfterNormalSampleFilesChunk1 + CancerAfterNormalSampleFilesChunk2 + CancerAfterNormalSampleFilesChunk3 + CancerAfterNormalSampleFilesChunk4 + CancerAfterNormalSampleFilesChunk5 + CancerAfterNormalSampleFilesChunk6 + CancerAfterNormalSampleFilesChunk7 + CancerAfterNormalSampleFilesChunk8 + CancerAfterNormalSampleFilesChunk9 + CancerAfterNormalSampleFilesChunk10 + CancerAfterNormalSampleFilesChunk11 + CancerAfterNormalSampleFilesChunk12 + CancerAfterNormalSampleFilesChunk13 + CancerAfterNormalSampleFilesChunk14 + CancerAfterNormalSampleFilesChunk15 + CancerAfterNormalSampleFilesChunk16 + CancerAfterNormalSampleFilesChunk17, CancerAfterNormalSampleFilesChunk18);
    FirstOfAppend(CancerAfterNormalSampleFilesChunk1 + CancerAfterNormalSampleFilesChunk2 + CancerAfterNormalSampleFilesChunk3 + CancerAfterNormalSampleFilesChunk4 + CancerAfterNormalSampleFilesChunk5 + CancerAfterNormalSampleFilesChunk6 + CancerAfterNormalSampleFilesChunk7 + CancerAfterNormalSampleFilesChunk8 + CancerAfterNormalSampleFilesChunk9 + CancerAfterNormalSampleFilesChunk10 + CancerAfterNormalSampleFilesChunk11 + CancerAfterNormalSampleFilesChunk12 + CancerAfterNormalSampleFilesChunk13 + CancerAfterNormalSampleFilesChunk14 + CancerAfterNormalSampleFilesChunk15 + CancerAfterNormalSampleFilesChunk16 + CancerAfterNormalSampleFilesChunk17 + CancerAfterNormalSampleFilesChunk18, CancerAfterNormalSampleFilesChunk19);
    FirstOfAppend(CancerAfterNormalSampleFilesChunk1 + CancerAfterNormalSampleFilesChunk2 + CancerAfterNormalSampleFilesChunk3 + CancerAfterNormalSampleFilesChunk4 + CancerAfterNormalSampleFilesChunk5 + CancerAfterNormalSampleFilesChunk6 + CancerAfterNormalSampleFilesChunk7 + CancerAfterNormalSampleFilesChunk8 + CancerAfterNormalSampleFilesChunk9 + CancerAfterNormalSampleFilesChunk10 + CancerAfterNormalSampleFilesChunk11 + CancerAfterNormalSampleFilesChunk12 + CancerAfterNormalSampleFilesChunk13 + CancerAfterNormalSampleFilesChunk14 + CancerAfterNormalSampleFilesChunk15 + CancerAfterNormalSampleFilesChunk16 + CancerAfterNormalSampleFilesChunk17 + CancerAfterNormalSampleFilesChunk18 + CancerAfterNormalSampleFilesChunk19, CancerAfterNormalSampleFilesChunk20);
    FirstOfAppend(CancerAfterNormalSampleFilesChunk1 + CancerAfterNormalSampleFilesChunk2 + CancerAfterNormalSampleFilesChunk3 + CancerAfterNormalSampleFilesChunk4 + CancerAfterNormalSampleFilesChunk5 + CancerAfterNormalSampleFilesChunk6 + CancerAfterNormalSampleFilesChunk7 + CancerAfterNormalSampleFilesChunk8 + CancerAfterNormalSampleFilesChunk9 + CancerAfterNormalSampleFilesChunk10 + CancerAfterNormalSampleFilesChunk11 + CancerAfterNormalSampleFilesChunk12 + CancerAfterNormalSampleFilesChunk13 + CancerAfterNormalSampleFilesChunk14 + CancerAfterNormalSampleFilesChunk15 + CancerAfterNormalSampleFilesChunk16 + CancerAfterNormalSampleFilesChunk17 + CancerAfterNormalSampleFilesChunk18 + CancerAfterNormalSampleFilesChunk19 + CancerAfterNormalSampleFilesChunk20, CancerAfterNormalSampleFilesChunk21);
    FirstOfAppend(CancerAfterNormalSampleFilesChunk1 + CancerAfterNormalSampleFilesChunk2 + CancerAfterNormalSampleFilesChunk3 + CancerAfterNormalSampleFilesChunk4 + CancerAfterNormalSampleFilesChunk5 + CancerAfterNormalSampleFilesChunk6 + CancerAfterNormalSampleFilesChunk7 + CancerAfterNormalSampleFilesChunk8 + CancerAfterNormalSampleFilesChunk9 + CancerAfterNormalSampleFilesChunk10 + CancerAfterNormalSampleFilesChunk11 + CancerAfterNormalSampleFilesChunk12 + CancerAfterNormalSampleFilesChunk13 + CancerAfterNormalSampleFilesChunk14 + CancerAfterNormalSampleFilesChunk15 + CancerAfterNormalSampleFilesChunk16 + CancerAfterNormalSampleFilesChunk17 + CancerAfterNormalSampleFilesChunk18 + CancerAfterNormalSampleFilesChunk19 + CancerAfterNormalSampleFilesChunk20 + CancerAfterNormalSampleFilesChunk21, CancerAfterNormalSampleFilesChunk22);
    FirstOfAppend(CancerAfterNormalSampleFilesChunk1 + CancerAfterNormalSampleFilesChunk2 + CancerAfterNormalSampleFilesChunk3 + CancerAfterNormalSampleFilesChunk4 + CancerAfterNormalSampleFilesChunk5 + CancerAfterNormalSampleFilesChunk6 + CancerAfterNormalSampleFilesChunk7 + CancerAfterNormalSampleFilesChunk8 + CancerAfterNormalSampleFilesChunk9 + CancerAfterNormalSampleFilesChunk10 + CancerAfterNormalSampleFilesChunk11 + CancerAfterNormalSampleFilesChunk12 + CancerAfterNormalSampleFilesChunk13 + CancerAfterNormalSampleFilesChunk14 + CancerAfterNormalSampleFilesChunk15 + CancerAfterNormalSampleFilesChunk16 + CancerAfterNormalSampleFilesChunk17 + CancerAfterNormalSampleFilesChunk18 + CancerAfterNormalSampleFilesChunk19 + CancerAfterNormalSampleFilesChunk20 + CancerAfterNormalSampleFilesChunk21 + CancerAfterNormalSampleFilesChunk22, CancerAfterNormalSampleFilesChunk23);
    FirstOfAppend(CancerAfterNormalSampleFilesChunk1 + CancerAfterNormalSampleFilesChunk2 + CancerAfterNormalSampleFilesChunk3 + CancerAfterNormalSampleFilesChunk4 + CancerAfterNormalSampleFilesChunk5 + CancerAfterNormalSampleFilesChunk6 + CancerAfterNormalSampleFilesChunk7 + CancerAfterNormalSampleFilesChunk8 + CancerAfterNormalSampleFilesChunk9 + CancerAfterNormalSampleFilesChunk10 + CancerAfterNormalSampleFilesChunk11 + CancerAfterNormalSampleFilesChunk12 + CancerAfterNormalSampleFilesChunk13 + CancerAfterNormalSampleFilesChunk14 + CancerAfterNormalSampleFilesChunk15 + CancerAfterNormalSampleFilesChunk16 + CancerAfterNormalSampleFilesChunk17 + CancerAfterNormalSampleFilesChunk18 + CancerAfterNormalSampleFilesChunk19 + CancerAfterNormalSampleFilesChunk20 + CancerAfterNormalSampleFilesChunk21 + CancerAfterNormalSampleFilesChunk22 + CancerAfterNormalSampleFilesChunk23, CancerAfterNormalSampleFilesChunk24);
    FirstOfAppend(CancerAfterNormalSampleFilesChunk1 + CancerAfterNormalSampleFilesChunk2 + CancerAfterNormalSampleFilesChunk3 + CancerAfterNormalSampleFilesChunk4 + CancerAfterNormalSampleFilesChunk5 + CancerAfterNormalSampleFilesChunk6 + CancerAfterNormalSampleFilesChunk7 + CancerAfterNormalSampleFilesChunk8 + CancerAfterNormalSampleFilesChunk9 + CancerAfterNormalSampleFilesChunk10 + CancerAfterNormalSampleFilesChunk11 + CancerAfterNormalSampleFilesChunk12 + CancerAfterNormalSampleFilesChunk13 + CancerAfterNormalSampleFilesChunk14 + CancerAfterNormalSampleFilesChunk15 + CancerAfterNormalSampleFilesChunk16 + CancerAfterNormalSampleFilesChunk17 + CancerAfterNormalSampleFilesChunk18 + CancerAfterNormalSampleFilesChunk19 + CancerAfterNormalSampleFilesChunk20 + CancerAfterNormalSampleFilesChunk21 + CancerAfterNormalSampleFilesChunk22 + CancerAfterNormalSampleFilesChunk23 + CancerAfterNormalSampleFilesChunk24, CancerAfterNormalSampleFilesChunk25);
    FirstOfAppend(CancerAfterNormalSampleFilesChunk1 + CancerAfterNormalSampleFilesChunk2 + CancerAfterNormalSampleFilesChunk3 + CancerAfterNormalSampleFilesChunk4 + CancerAfterNormalSampleFilesChunk5 + CancerAfterNormalSampleFilesChunk6 + CancerAfterNormalSampleFilesChunk7 + CancerAfterNormalSampleFilesChunk8 + CancerAfterNormalSampleFilesChunk9 + CancerAfterNormalSampleFilesChunk10 + CancerAfterNormalSampleFilesChunk11 + CancerAfterNormalSampleFilesChunk12 + CancerAfterNormalSampleFilesChunk13 + CancerAfterNormalSampleFilesChunk14 + CancerAfterNormalSampleFilesChunk15 + CancerAfterNormalSampleFilesChunk16 + CancerAfterNormalSampleFilesChunk17 + CancerAfterNormalSampleFilesChunk18 + CancerAfterNormalSampleFilesChunk19 + CancerAfterNormalSampleFilesChunk20 + CancerAfterNormalSampleFilesChunk21 + CancerAfterNormalSampleFilesChunk22 + CancerAfterNormalSampleFilesChunk23 + CancerAfterNormalSampleFilesChunk24 + CancerAfterNormalSampleFilesChunk25, CancerAfterNormalSampleFilesChunk26);
  }

  lemma CancerSlot2WellFormed()
    ensures SlotWellFormed(Slot("normal_sample_files", CancerAfterNormalSampleFiles))
  {
    NormalSampleFilesIsIdentifier();
    CancerAfterNormalSampleFilesDollarFree();
    CancerAfterNormalSampleFilesDelimited();
  }

  const CancerAfterBedFile2: string :=
    CancerAfterBedFile2Chunk1 + CancerAfterBedFile2Chunk2 + CancerAfterBedFile2Chunk3 + CancerAfterBedFile2Chunk4 +
    CancerAfterBedFile2Chunk5 + CancerAfterBedFile2Chunk6 + CancerAfterBedFile2Chunk7 + CancerAfterBedFile2Chunk8 +
    CancerAfterBedFile2Chunk9 + CancerAfterBedFile2Chunk10 + CancerAfterBedFile2Chunk11 + CancerAfterBedFile2Chunk12

  const CancerAfterBedFile2Chunk1: string := "\n" + "#    variant_regions: /mnt/"
  lemma CancerAfterBedFile2Chunk1DollarFree() ensures DollarFree(CancerAfterBedFile2Chunk1) { assert '$' !in CancerAfterBedFile2Chunk1; DollarFreeIff(CancerAfterBedFile2Chunk1); }

  const CancerAfterBedFile2Chunk2: string := "cancer-dream-syn3/input/NGv3.bed\n"
  lemma CancerAfterBedFile2Chunk2DollarFree() ensures DollarFree(CancerAfterBedFile2Chunk2) { assert '$' !in CancerAfterBedFile2Chunk2; DollarFreeIff(CancerAfterBedFile2Chunk2); }

  const CancerAfterBedFile2Chunk3: string := "#    validate: /mnt/"
  lemma CancerAfterBedFile2Chunk3DollarFree() ensures DollarFree(CancerAfterBedFile2Chunk3) { assert '$' !in CancerAfterBedFile2Chunk3; DollarFreeIff(CancerAfterBedFile2Chunk3); }

  const CancerAfterBedFile2Chunk4: string := "cancer-dream-syn3/input/synthetic_"
  lemma CancerAfterBedFile2Chunk4DollarFree() ensures DollarFree(CancerAfterBedFile2Chunk4) { assert '$' !in CancerAfterBedFile2Chunk4; DollarFreeIff(CancerAfterBedFile2Chunk4); }

  const CancerAfterBedFile2Chunk5: string := "challenge_set3_tumor_20pctmasked_"
  lemma CancerAfterBedFile2Chunk5DollarFree() ensures DollarFree(CancerAfterBedFile2Chunk5) { assert '$' !in CancerAfterBedFile2Chunk5; DollarFreeIff(CancerAfterBedFile2Chunk5); }

  const CancerAfterBedFile2Chunk6: string := "truth.vcf.gz\n"
  lemma CancerAfterBedFile2Chunk6DollarFree() ensures DollarFree(CancerAfterBedFile2Chunk6) { assert '$' !in CancerAfterBedFile2Chunk6; DollarFreeIff(CancerAfterBedFile2Chunk6); }

  const CancerAfterBedFile2Chunk7: string := "#    validate_regions: /mnt/"
  lemma CancerAfterBedFile2Chunk7DollarFree() ensures DollarFree(CancerAfterBedFile2Chunk7) { assert '$' !in CancerAfterBedFile2Chunk7; DollarFreeIff(CancerAfterBedFile2Chunk7); }

  const CancerAfterBedFile2Chunk8: string := "cancer-dream-syn3/input/synthetic_"
  lemma CancerAfterBedFile2Chunk8DollarFree() ensures DollarFree(CancerAfterBedFile2Chunk8) { assert '$' !in CancerAfterBedFile2Chunk8; DollarFreeIff(CancerAfterBedFile2Chunk8); }

  const CancerAfterBedFile2Chunk9: string := "challenge_set3_tumor_20pctmasked_"
  lemma CancerAfterBedFile2Chunk9DollarFree() ensures DollarFree(CancerAfterBedFile2Chunk9) { assert '$' !in CancerAfterBedFile2Chunk9; DollarFreeIff(CancerAfterBedFile2Chunk9); }

  const CancerAfterBedFile2Chunk10: string := "truth_regions.bed\n"
  lemma CancerAfterBedFile2Chunk10DollarFree() ensures DollarFree(CancerAfterBedFile2Chunk10) { assert '$' !in CancerAfterBedFile2Chunk10; DollarFreeIff(CancerAfterBedFile2Chunk10); }

  const CancerAfterBedFile2Chunk11: string := "    # svcaller: [cnvkit, lumpy, "
  lemma CancerAfterBedFile2Chunk11DollarFree() ensures DollarFree(CancerAfterBedFile2Chunk11) { assert '$' !in CancerAfterBedFile2Chunk11; DollarFreeIff(CancerAfterBedFile2Chunk11); }

  const CancerAfterBedFile2Chunk12: string := "delly]\n" + "    "
  lemma CancerAfterBedFile2Chunk12DollarFree() ensures DollarFree(CancerAfterBedFile2Chunk12) { assert '$' !in CancerAfterBedFile2Chunk12; DollarFreeIff(CancerAfterBedFile2Chunk12); }

  lemma CancerAfterBedFile2DollarFree()
    ensures DollarFree(CancerAfterBedFile2)
  {
    CancerAfterBedFile2Chunk1DollarFree();
    CancerAfterBedFile2Chunk2DollarFree();
    CancerAfterBedFile2Chunk3DollarFree();
    CancerAfterBedFile2Chunk4DollarFree();
    CancerAfterBedFile2Chunk5DollarFree();
    CancerAfterBedFile2Chunk6DollarFree();
    CancerAfterBedFile2Chunk7DollarFree();
    CancerAfterBedFile2Chunk8DollarFree();
    CancerAfterBedFile2Chunk9DollarFree();
    CancerAfterBedFile2Chunk10DollarFree();
    CancerAfterBedFile2Chunk11DollarFree();
    CancerAfterBedFile2Chunk12DollarFree();
    DollarFreeAppend(CancerAfterBedFile2Chunk1, CancerAfterBedFile2Chunk2);
    DollarFreeAppend(CancerAfterBedFile2Chunk1 + CancerAfterBedFile2Chunk2, CancerAfterBedFile2Chunk3);
    DollarFreeAppend(CancerAfterBedFile2Chunk1 + CancerAfterBedFile2Chunk2 + CancerAfterBedFile2Chunk3, CancerAfterBedFile2Chunk4);
    DollarFreeAppend(CancerAfterBedFile2Chunk1 + CancerAfterBedFile2Chunk2 + CancerAfterBedFile2Chunk3 + CancerAfterBedFile2Chunk4, CancerAfterBedFile2Chunk5);
    DollarFreeAppend(CancerAfterBedFile2Chunk1 + CancerAfterBedFile2Chunk2 + CancerAfterBedFile2Chunk3 + CancerAfterBedFile2Chunk4 + CancerAfterBedFile2Chunk5, CancerAfterBedFile2Chunk6);
    DollarFreeAppend(CancerAfterBedFile2Chunk1 + CancerAfterBedFile2Chunk2 + CancerAfterBedFile2Chunk3 + CancerAfterBedFile2Chunk4 + CancerAfterBedFile2Chunk5 + CancerAfterBedFile2Chunk6, CancerAfterBedFile2Chunk7);
    DollarFreeAppend(CancerAfterBedFile2Chunk1 + CancerAfterBedFile2Chunk2 + CancerAfterBedFile2Chunk3 + CancerAfterBedFile2Chunk4 + CancerAfterBedFile2Chunk5 + CancerAfterBedFile2Chunk6 + CancerAfterBedFile2Chunk7, CancerAfterBedFile2Chunk8);
    DollarFreeAppend(CancerAfterBedFile2Chunk1 + CancerAfterBedFile2Chunk2 + CancerAfterBedFile2Chunk3 + CancerAfterBedFile2Chunk4 + CancerAfterBedFile2Chunk5 + CancerAfterBedFile2Chunk6 + CancerAfterBedFile2Chunk7 + CancerAfterBedFile2Chunk8, CancerAfterBedFile2Chunk9);
    DollarFreeAppend(CancerAfterBedFile2Chunk1 + CancerAfterBedFile2Chunk2 + CancerAfterBedFile2Chunk3 + CancerAfterBedFile2Chunk4 + CancerAfterBedFile2Chunk5 + CancerAfterBedFile2Chunk6 + CancerAfterBedFile2Chunk7 + CancerAfterBedFile2Chunk8 + CancerAfterBedFile2Chunk9, CancerAfterBedFile2Chunk10);
    DollarFreeAppend(CancerAfterBedFile2Chunk1 + CancerAfterBedFile2Chunk2 + CancerAfterBedFile2Chunk3 + CancerAfterBedFile2Chunk4 + CancerAfterBedFile2Chunk5 + CancerAfterBedFile2Chunk6 + CancerAfterBedFile2Chunk7 + CancerAfterBedFile2Chunk8 + CancerAfterBedFile2Chunk9 + CancerAfterBedFile2Chunk10, CancerAfterBedFile2Chunk11);
    DollarFreeAppend(CancerAfterBedFile2Chunk1 + CancerAfterBedFile2Chunk2 + CancerAfterBedFile2Chunk3 + CancerAfterBedFile2Chunk4 + CancerAfterBedFile2Chunk5 + CancerAfterBedFile2Chunk6 + CancerAfterBedFile2Chunk7 + CancerAfterBedFile2Chunk8 + CancerAfterBedFile2Chunk9 + CancerAfterBedFile2Chunk10 + CancerAfterBedFile2Chunk11, CancerAfterBedFile2Chunk12);
  }

  lemma CancerAfterBedFile2Delimited()
    ensures !IsIdentifierChar(CancerAfterBedFile2[0])
  {
    assert !IsIdentifierChar(CancerAfterBedFile2Chunk1[0]);
    FirstOfAppend(CancerAfterBedFile2Chunk1, CancerAfterBedFile2Chunk2);
    FirstOfAppend(CancerAfterBedFile2Chunk1 + CancerAfterBedFile2Chunk2, CancerAfterBedFile2Chunk3);
    FirstOfAppend(CancerAfterBedFile2Chunk1 + CancerAfterBedFile2Chunk2 + CancerAfterBedFile2Chunk3, CancerAfterBedFile2Chunk4);
    FirstOfAppend(CancerAfterBedFile2Chunk1 + CancerAfterBedFile2Chunk2 + CancerAfterBedFile2Chunk3 + CancerAfterBedFile2Chunk4, CancerAfterBedFile2Chunk5);
    FirstOfAppend(CancerAfterBedFile2Chunk1 + CancerAfterBedFile2Chunk2 + CancerAfterBedFile2Chunk3 + CancerAfterBedFile2Chunk4 + CancerAfterBedFile2Chunk5, CancerAfterBedFile2Chunk6);
    FirstOfAppend(CancerAfterBedFile2Chunk1 + CancerAfterBedFile2Chunk2 + CancerAfterBedFile2Chunk3 + CancerAfterBedFile2Chunk4 + CancerAfterBedFile2Chunk5 + CancerAfterBedFile2Chunk6, CancerAfterBedFile2Chunk7);
    FirstOfAppend(CancerAfterBedFile2Chunk1 + CancerAfterBedFile2Chunk2 + CancerAfterBedFile2Chunk3 + CancerAfterBedFile2Chunk4 + CancerAfterBedFile2Chunk5 + CancerAfterBedFile2Chunk6 + CancerAfterBedFile2Chunk7, CancerAfterBedFile2Chunk8);
    FirstOfAppend(CancerAfterBedFile2Chunk1 + CancerAfterBedFile2Chunk2 + CancerAfterBedFile2Chunk3 + CancerAfterBedFile2Chunk4 + CancerAfterBedFile2Chunk5 + CancerAfterBedFile2Chunk6 + CancerAfterBedFile2Chunk7 + CancerAfterBedFile2Chunk8, CancerAfterBedFile2Chunk9);
    FirstOfAppend(CancerAfterBedFile2Chunk1 + CancerAfterBedFile2Chunk2 + CancerAfterBedFile2Chunk3 + CancerAfterBedFile2Chunk4 + CancerAfterBedFile2Chunk5 + CancerAfterBedFile2Chunk6 + CancerAfterBedFile2Chunk7 + CancerAfterBedFile2Chunk8 + CancerAfterBedFile2Chunk9, CancerAfterBedFile2Chunk10);
    FirstOfAppend(CancerAfterBedFile2Chunk1 + CancerAfterBedFile2Chunk2 + CancerAfterBedFile2Chunk3 + CancerAfterBedFile2Chunk4 + CancerAfterBedFile2Chunk5 + CancerAfterBedFile2Chunk6 + CancerAfterBedFile2Chunk7 + CancerAfterBedFile2Chunk8 + CancerAfterBedFile2Chunk9 + CancerAfterBedFile2Chunk10, CancerAfterBedFile2Chunk11);
    FirstOfAppend(CancerAfterBedFile2Chunk1 + CancerAfterBedFile2Chunk2 + CancerAfterBedFile2Chunk3 + CancerAfterBedFile2Chunk4 + CancerAfterBedFile2Chunk5 + CancerAfterBedFile2Chunk6 + CancerAfterBedFile2Chunk7 + CancerAfterBedFile2Chunk8 + CancerAfterBedFile2Chunk9 + CancerAfterBedFile2Chunk10 + CancerAfterBedFile2Chunk11, CancerAfterBedFile2Chunk12);
  }

  lemma CancerSlot3WellFormed()
    ensures SlotWellFormed(Slot("bed_file", CancerAfterBedFile2))
  {
    BedFileIsIdentifier();
    CancerAfterBedFile2DollarFree();
    CancerAfterBedFile2Delimited();
  }

  const CancerAfterSvCallerInfo2: string :=
    CancerAfterSvCallerInfo2Chunk1 + CancerAfterSvCallerInfo2Chunk2 + CancerAfterSvCallerInfo2Chunk3 + CancerAfterSvCallerInfo2Chunk4 +
    CancerAfterSvCallerInfo2Chunk5 + CancerAfterSvCallerInfo2Chunk6 + CancerAfterSvCallerInfo2Chunk7 + CancerAfterSvCallerInfo2Chunk8 +
    CancerAfterSvCallerInfo2Chunk9 + CancerAfterSvCallerInfo2Chunk10 + CancerAfterSvCallerInfo2Chunk11 + CancerAfterSvCallerInfo2Chunk12 +
    CancerAfterSvCallerInfo2Chunk13 + CancerAfterSvCallerInfo2Chunk14 + CancerAfterSvCallerInfo2Chunk15 + CancerAfterSvCallerInfo2Chunk16 +
    CancerAfterSvCallerInfo2Chunk17 + CancerAfterSvCallerInfo2Chunk18 + CancerAfterSvCallerInfo2Chunk19 + CancerAfterSvCallerInfo2Chunk20 +
    CancerAfterSvCallerInfo2Chunk21 + CancerAfterSvCallerInfo2Chunk22

  const CancerAfterSvCallerInfo2Chunk1: string := "\n" + "    # coverage_interval: amplicon\n"
  lemma CancerAfterSvCallerInfo2Chunk1DollarFree() ensures DollarFree(CancerAfterSvCallerInfo2Chunk1) { assert '$' !in CancerAfterSvCallerInfo2Chunk1; DollarFreeIff(CancerAfterSvCallerInfo2Chunk1); }

  const CancerAfterSvCallerInfo2Chunk2: string := "  #   svvalidate:\n"
  lemma CancerAfterSvCallerInfo2Chunk2DollarFree() ensures DollarFree(CancerAfterSvCallerInfo2Chunk2) { assert '$' !in CancerAfterSvCallerInfo2Chunk2; DollarFreeIff(CancerAfterSvCallerInfo2Chunk2); }

  const CancerAfterSvCallerInfo2Chunk3: string := "  #     DEL: /mnt/cancer-dream-syn3/"
  lemma CancerAfterSvCallerInfo2Chunk3DollarFree() ensures DollarFree(CancerAfterSvCallerInfo2Chunk3) { assert '$' !in CancerAfterSvCallerInfo2Chunk3; DollarFreeIff(CancerAfterSvCallerInfo2Chunk3); }

  const CancerAfterSvCallerInfo2Chunk4: string := "input/synthetic_challenge_set3_"
  lemma CancerAfterSvCallerInfo2Chunk4DollarFree() ensures DollarFree(CancerAfterSvCallerInfo2Chunk4) { assert '$' !in CancerAfterSvCallerInfo2Chunk4; DollarFreeIff(CancerAfterSvCallerInfo2Chunk4); }

  const CancerAfterSvCallerInfo2Chunk5: string := "tumor_20pctmasked_truth_sv_DEL.bed\n"
  lemma CancerAfterSvCallerInfo2Chunk5DollarFree() ensures DollarFree(CancerAfterSvCallerInfo2Chunk5) { assert '$' !in CancerAfterSvCallerInfo2Chunk5; DollarFreeIff(CancerAfterSvCallerInfo2Chunk5); }

  const CancerAfterSvCallerInfo2Chunk6: string := "  #     DUP: /mnt/cancer-dream-syn3/"
  lemma CancerAfterSvCallerInfo2Chunk6DollarFree() ensures DollarFree(CancerAfterSvCallerInfo2Chunk6) { assert '$' !in CancerAfterSvCallerInfo2Chunk6; DollarFreeIff(CancerAfterSvCallerInfo2Chunk6); }

  const CancerAfterSvCallerInfo2Chunk7: string := "input/synthetic_challenge_set3_"
  lemma CancerAfterSvCallerInfo2Chunk7DollarFree() ensures DollarFree(CancerAfterSvCallerInfo2Chunk7) { assert '$' !in CancerAfterSvCallerInfo2Chunk7; DollarFreeIff(CancerAfterSvCallerInfo2Chunk7); }

  const CancerAfterSvCallerInfo2Chunk8: string := "tumor_20pctmasked_truth_sv_DUP.bed\n"
  lemma CancerAfterSvCallerInfo2Chunk8DollarFree() ensures DollarFree(CancerAfterSvCallerInfo2Chunk8) { assert '$' !in CancerAfterSvCallerInfo2Chunk8; DollarFreeIff(CancerAfterSvCallerInfo2Chunk8); }

  const CancerAfterSvCallerInfo2Chunk9: string := "  #     INS: /mnt/cancer-dream-syn3/"
  lemma CancerAfterSvCallerInfo2Chunk9DollarFree() ensures DollarFree(CancerAfterSvCallerInfo2Chunk9) { assert '$' !in CancerAfterSvCallerInfo2Chunk9; DollarFreeIff(CancerAfterSvCallerInfo2Chunk9); }

  const CancerAfterSvCallerInfo2Chunk10: string := "input/synthetic_challenge_set3_"
  lemma CancerAfterSvCallerInfo2Chunk10DollarFree() ensures DollarFree(CancerAfterSvCallerInfo2Chunk10) { assert '$' !in CancerAfterSvCallerInfo2Chunk10; DollarFreeIff(CancerAfterSvCallerInfo2Chunk10); }

  const CancerAfterSvCallerInfo2Chunk11: string := "tumor_20pctmasked_truth_sv_INS.bed\n"
  lemma CancerAfterSvCallerInfo2Chunk11DollarFree() ensures DollarFree(CancerAfterSvCallerInfo2Chunk11) { assert '$' !in CancerAfterSvCallerInfo2Chunk11; DollarFreeIff(CancerAfterSvCallerInfo2Chunk11); }

  const CancerAfterSvCallerInfo2Chunk12: string := "  #     INV: /mnt/cancer-dream-syn3/"
  lemma CancerAfterSvCallerInfo2Chunk12DollarFree() ensures DollarFree(CancerAfterSvCallerInfo2Chunk12) { assert '$' !in CancerAfterSvCallerInfo2Chunk12; DollarFreeIff(CancerAfterSvCallerInfo2Chunk12); }

  const CancerAfterSvCallerInfo2Chunk13: string := "input/synthetic_challenge_set3_"
  lemma CancerAfterSvCallerInfo2Chunk13DollarFree() ensures DollarFree(CancerAfterSvCallerInfo2Chunk13) { assert '$' !in CancerAfterSvCallerInfo2Chunk13; DollarFreeIff(CancerAfterSvCallerInfo2Chunk13); }

  const CancerAfterSvCallerInfo2Chunk14: string := "tumor_20pctmasked_truth_sv_INV.bed\n"
  lemma CancerAfterSvCallerInfo2Chunk14DollarFree() ensures DollarFree(CancerAfterSvCallerInfo2Chunk14) { assert '$' !in CancerAfterSvCallerInfo2Chunk14; DollarFreeIff(CancerAfterSvCallerInfo2Chunk14); }

  const CancerAfterSvCallerInfo2Chunk15: string := "  analysis: variant2\n"
  lemma CancerAfterSvCallerInfo2Chunk15DollarFree() ensures DollarFree(CancerAfterSvCallerInfo2Chunk15) { assert '$' !in CancerAfterSvCallerInfo2Chunk15; DollarFreeIff(CancerAfterSvCallerInfo2Chunk15); }

  const CancerAfterSvCallerInfo2Chunk16: string := "  description: syn3-tumor\n" + "\n" + "\n"
  lemma CancerAfterSvCallerInfo2Chunk16DollarFree() ensures DollarFree(CancerAfterSvCallerInfo2Chunk16) { assert '$' !in CancerAfterSvCallerInfo2Chunk16; DollarFreeIff(CancerAfterSvCallerInfo2Chunk16); }

  const CancerAfterSvCallerInfo2Chunk17: string := "  # The YAML below should look like "
  lemma CancerAfterSvCallerInfo2Chunk17DollarFree() ensures DollarFree(CancerAfterSvCallerInfo2Chunk17) { assert '$' !in CancerAfterSvCallerInfo2Chunk17; DollarFreeIff(CancerAfterSvCallerInfo2Chunk17); }

  const CancerAfterSvCallerInfo2Chunk18: string := "the following after substitution:\n"
  lemma CancerAfterSvCallerInfo2Chunk18DollarFree() ensures DollarFree(CancerAfterSvCallerInfo2Chunk18) { assert '$' !in CancerAfterSvCallerInfo2Chunk18; DollarFreeIff(CancerAfterSvCallerInfo2Chunk18); }

  const CancerAfterSvCallerInfo2Chunk19: string := "  # files: [ <path and file name of "
  lemma CancerAfterSvCallerInfo2Chunk19DollarFree() ensures DollarFree(CancerAfterSvCallerInfo2Chunk19) { assert '$' !in CancerAfterSvCallerInfo2Chunk19; DollarFreeIff(CancerAfterSvCallerInfo2Chunk19); }

  const CancerAfterSvCallerInfo2Chunk20: string := "tumor paired end reads>, <path and "
  lemma CancerAfterSvCallerInfo2Chunk20DollarFree() ensures DollarFree(CancerAfterSvCallerInfo2Chunk20) { assert '$' !in CancerAfterSvCallerInfo2Chunk20; DollarFreeIff(CancerAfterSvCallerInfo2Chunk20); }

  const CancerAfterSvCallerInfo2Chunk21: string := "file name of other end of tumor "
  lemma CancerAfterSvCallerInfo2Chunk21DollarFree() ensures DollarFree(CancerAfterSvCallerInfo2Chunk21) { assert '$' !in CancerAfterSvCallerInfo2Chunk21; DollarFreeIff(CancerAfterSvCallerInfo2Chunk21); }

  const CancerAfterSvCallerInfo2Chunk22: string := "paired end reads> ]\n" + "  files: ["
  lemma CancerAfterSvCallerInfo2Chunk22DollarFree() ensures DollarFree(CancerAfterSvCallerInfo2Chunk22) { assert '$' !in CancerAfterSvCallerInfo2Chunk22; DollarFreeIff(CancerAfterSvCallerInfo2Chunk22); }

  lemma CancerAfterSvCallerInfo2DollarFree()
    ensures DollarFree(CancerAfterSvCallerInfo2)
  {
    CancerAfterSvCallerInfo2Chunk1DollarFree();
    CancerAfterSvCallerInfo2Chunk2DollarFree();
    CancerAfterSvCallerInfo2Chunk3DollarFree();
    CancerAfterSvCallerInfo2Chunk4DollarFree();
    CancerAfterSvCallerInfo2Chunk5DollarFree();
    CancerAfterSvCallerInfo2Chunk6DollarFree();
    CancerAfterSvCallerInfo2Chunk7DollarFree();
    CancerAfterSvCallerInfo2Chunk8DollarFree();
    CancerAfterSvCallerInfo2Chunk9DollarFree();
    CancerAfterSvCallerInfo2Chunk10DollarFree();
    CancerAfterSvCallerInfo2Chunk11DollarFree();
    CancerAfterSvCallerInfo2Chunk12DollarFree();
    CancerAfterSvCallerInfo2Chunk13DollarFree();
    CancerAfterSvCallerInfo2Chunk14DollarFree();
    CancerAfterSvCallerInfo2Chunk15DollarFree();
    CancerAfterSvCallerInfo2Chunk16DollarFree();
    CancerAfterSvCallerInfo2Chunk17DollarFree();
    CancerAfterSvCallerInfo2Chunk18DollarFree();
    CancerAfterSvCallerInfo2Chunk19DollarFree();
    CancerAfterSvCallerInfo2Chunk20DollarFree();
    CancerAfterSvCallerInfo2Chunk21DollarFree();
    CancerAfterSvCallerInfo2Chunk22DollarFree();
    DollarFreeAppend(CancerAfterSvCallerInfo2Chunk1, CancerAfterSvCallerInfo2Chunk2);
    DollarFreeAppend(CancerAfterSvCallerInfo2Chunk1 + CancerAfterSvCallerInfo2Chunk2, CancerAfterSvCallerInfo2Chunk3);
    DollarFreeAppend(CancerAfterSvCallerInfo2Chunk1 + CancerAfterSvCallerInfo2Chunk2 + CancerAfterSvCallerInfo2Chunk3, CancerAfterSvCallerInfo2Chunk4);
    DollarFreeAppend(CancerAfterSvCallerInfo2Chunk1 + CancerAfterSvCallerInfo2Chunk2 + CancerAfterSvCallerInfo2Chunk3 + CancerAfterSvCallerInfo2Chunk4, CancerAfterSvCallerInfo2Chunk5);
    DollarFreeAppend(CancerAfterSvCallerInfo2Chunk1 + CancerAfterSvCallerInfo2Chunk2 + CancerAfterSvCallerInfo2Chunk3 + CancerAfterSvCallerInfo2Chunk4 + CancerAfterSvCallerInfo2Chunk5, CancerAfterSvCallerInfo2Chunk6);
    DollarFreeAppend(CancerAfterSvCallerInfo2Chunk1 + CancerAfterSvCallerInfo2Chunk2 + CancerAfterSvCallerInfo2Chunk3 + CancerAfterSvCallerInfo2Chunk4 + CancerAfterSvCallerInfo2Chunk5 + CancerAfterSvCallerInfo2Chunk6, CancerAfterSvCallerInfo2Chunk7);
    DollarFreeAppend(CancerAfterSvCallerInfo2Chunk1 + CancerAfterSvCallerInfo2Chunk2 + CancerAfterSvCallerInfo2Chunk3 + CancerAfterSvCallerInfo2Chunk4 + CancerAfterSvCallerInfo2Chunk5 + CancerAfterSvCallerInfo2Chunk6 + CancerAfterSvCallerInfo2Chunk7, CancerAfterSvCallerInfo2Chunk8);
    DollarFreeAppend(CancerAfterSvCallerInfo2Chunk1 + CancerAfterSvCallerInfo2Chunk2 + CancerAfterSvCallerInfo2Chunk3 + CancerAfterSvCallerInfo2Chunk4 + CancerAfterSvCallerInfo2Chunk5 + CancerAfterSvCallerInfo2Chunk6 + CancerAfterSvCallerInfo2Chunk7 + CancerAfterSvCallerInfo2Chunk8, CancerAfterSvCallerInfo2Chunk9);
    DollarFreeAppend(CancerAfterSvCallerInfo2Chunk1 + CancerAfterSvCallerInfo2Chunk2 + CancerAfterSvCallerInfo2Chunk3 + CancerAfterSvCallerInfo2Chunk4 + CancerAfterSvCallerInfo2Chunk5 + CancerAfterSvCallerInfo2Chunk6 + CancerAfterSvCallerInfo2Chunk7 + CancerAfterSvCallerInfo2Chunk8 + CancerAfterSvCallerInfo2Chunk9, CancerAfterSvCallerInfo2Chunk10);
    DollarFreeAppend(CancerAfterSvCallerInfo2Chunk1 + CancerAfterSvCallerInfo2Chunk2 + CancerAfterSvCallerInfo2Chunk3 + CancerAfterSvCallerInfo2Chunk4 + CancerAfterSvCallerInfo2Chunk5 + CancerAfterSvCallerInfo2Chunk6 + CancerAfterSvCallerInfo2Chunk7 + CancerAfterSvCallerInfo2Chunk8 + CancerAfterSvCallerInfo2Chunk9 + CancerAfterSvCallerInfo2Chunk10, CancerAfterSvCallerInfo2Chunk11);
    DollarFreeAppend(CancerAfterSvCallerInfo2Chunk1 + CancerAfterSvCallerInfo2Chunk2 + CancerAfterSvCallerInfo2Chunk3 + CancerAfterSvCallerInfo2Chunk4 + CancerAfterSvCallerInfo2Chunk5 + CancerAfterSvCallerInfo2Chunk6 + CancerAfterSvCallerInfo2Chunk7 + CancerAfterSvCallerInfo2Chunk8 + CancerAfterSvCallerInfo2Chunk9 + CancerAfterSvCallerInfo2Chunk10 + CancerAfterSvCallerInfo2Chunk11, CancerAfterSvCallerInfo2Chunk12);
    DollarFreeAppend(CancerAfterSvCallerInfo2Chunk1 + CancerAfterSvCallerInfo2Chunk2 + CancerAfterSvCallerInfo2Chunk3 + CancerAfterSvCallerInfo2Chunk4 + CancerAfterSvCallerInfo2Chunk5 + CancerAfterSvCallerInfo2Chunk6 + CancerAfterSvCallerInfo2Chunk7 + CancerAfterSvCallerInfo2Chunk8 + CancerAfterSvCallerInfo2Chunk9 + CancerAfterSvCallerInfo2Chunk10 + CancerAfterSvCallerInfo2Chunk11 + CancerAfterSvCallerInfo2Chunk12, CancerAfterSvCallerInfo2Chunk13);
    DollarFreeAppend(CancerAfterSvCallerInfo2Chunk1 + CancerAfterSvCallerInfo2Chunk2 + CancerAfterSvCallerInfo2Chunk3 + CancerAfterSvCallerInfo2Chunk4 + CancerAfterSvCallerInfo2Chunk5 + CancerAfterSvCallerInfo2Chunk6 + CancerAfterSvCallerInfo2Chunk7 + CancerAfterSvCallerInfo2Chunk8 + CancerAfterSvCallerInfo2Chunk9 + CancerAfterSvCallerInfo2Chunk10 + CancerAfterSvCallerInfo2Chunk11 + CancerAfterSvCallerInfo2Chunk12 + CancerAfterSvCallerInfo2Chunk13, CancerAfterSvCallerInfo2Chunk14);
    DollarFreeAppend(CancerAfterSvCallerInfo2Chunk1 + CancerAfterSvCallerInfo2Chunk2 + CancerAfterSvCallerInfo2Chunk3 + CancerAfterSvCallerInfo2Chunk4 + CancerAfterSvCallerInfo2Chunk5 + CancerAfterSvCallerInfo2Chunk6 + CancerAfterSvCallerInfo2Chunk7 + CancerAfterSvCallerInfo2Chunk8 + CancerAfterSvCallerInfo2Chunk9 + CancerAfterSvCallerInfo2Chunk10 + CancerAfterSvCallerInfo2Chunk11 + CancerAfterSvCallerInfo2Chunk12 + CancerAfterSvCallerInfo2Chunk13 + CancerAfterSvCallerInfo2Chunk14, CancerAfterSvCallerInfo2Chunk15);
    DollarFreeAppend(CancerAfterSvCallerInfo2Chunk1 + CancerAfterSvCallerInfo2Chunk2 + CancerAfterSvCallerInfo2Chunk3 + CancerAfterSvCallerInfo2Chunk4 + CancerAfterSvCallerInfo2Chunk5 + CancerAfterSvCallerInfo2Chunk6 + CancerAfterSvCallerInfo2Chunk7 + CancerAfterSvCallerInfo2Chunk8 + CancerAfterSvCallerInfo2Chunk9 + CancerAfterSvCallerInfo2Chunk10 + CancerAfterSvCallerInfo2Chunk11 + CancerAfterSvCallerInfo2Chunk12 + CancerAfterSvCallerInfo2Chunk13 + CancerAfterSvCallerInfo2Chunk14 + CancerAfterSvCallerInfo2Chunk15, CancerAfterSvCallerInfo2Chunk16);
    DollarFreeAppend(CancerAfterSvCallerInfo2Chunk1 + CancerAfterSvCallerInfo2Chunk2 + CancerAfterSvCallerInfo2Chunk3 + CancerAfterSvCallerInfo2Chunk4 + CancerAfterSvCallerInfo2Chunk5 + CancerAfterSvCallerInfo2Chunk6 + CancerAfterSvCallerInfo2Chunk7 + CancerAfterSvCallerInfo2Chunk8 + CancerAfterSvCallerInfo2Chunk9 + CancerAfterSvCallerInfo2Chunk10 + CancerAfterSvCallerInfo2Chunk11 + CancerAfterSvCallerInfo2Chunk12 + CancerAfterSvCallerInfo2Chunk13 + CancerAfterSvCallerInfo2Chunk14 + CancerAfterSvCallerInfo2Chunk15 + CancerAfterSvCallerInfo2Chunk16, CancerAfterSvCallerInfo2Chunk17);
    DollarFreeAppend(CancerAfterSvCallerInfo2Chunk1 + CancerAfterSvCallerInfo2Chunk2 + CancerAfterSvCallerInfo2Chunk3 + CancerAfterSvCallerInfo2Chunk4 + CancerAfterSvCallerInfo2Chunk5 + CancerAfterSvCallerInfo2Chunk6 + CancerAfterSvCallerInfo2Chunk7 + CancerAfterSvCallerInfo2Chunk8 + CancerAfterSvCallerInfo2Chunk9 + CancerAfterSvCallerInfo2Chunk10 + CancerAfterSvCallerInfo2Chunk11 + CancerAfterSvCallerInfo2Chunk12 + CancerAfterSvCallerInfo2Chunk13 + CancerAfterSvCallerInfo2Chunk14 + CancerAfterSvCallerInfo2Chunk15 + CancerAfterSvCallerInfo2Chunk16 + CancerAfterSvCallerInfo2Chunk17, CancerAfterSvCallerInfo2Chunk18);
    DollarFreeAppend(CancerAfterSvCallerInfo2Chunk1 + CancerAfterSvCallerInfo2Chunk2 + CancerAfterSvCallerInfo2Chunk3 + CancerAfterSvCallerInfo2Chunk4 + CancerAfterSvCallerInfo2Chunk5 + CancerAfterSvCallerInfo2Chunk6 + CancerAfterSvCallerInfo2Chunk7 + CancerAfterSvCallerInfo2Chunk8 + CancerAfterSvCallerInfo2Chunk9 + CancerAfterSvCallerInfo2Chunk10 + CancerAfterSvCallerInfo2Chunk11 + CancerAfterSvCallerInfo2Chunk12 + CancerAfterSvCallerInfo2Chunk13 + CancerAfterSvCallerInfo2Chunk14 + CancerAfterSvCallerInfo2Chunk15 + CancerAfterSvCallerInfo2Chunk16 + CancerAfterSvCallerInfo2Chunk17 + CancerAfterSvCallerInfo2Chunk18, CancerAfterSvCallerInfo2Chunk19);
    DollarFreeAppend(CancerAfterSvCallerInfo2Chunk1 + CancerAfterSvCallerInfo2Chunk2 + CancerAfterSvCallerInfo2Chunk3 + CancerAfterSvCallerInfo2Chunk4 + CancerAfterSvCallerInfo2Chunk5 + CancerAfterSvCallerInfo2Chunk6 + CancerAfterSvCallerInfo2Chunk7 + CancerAfterSvCallerInfo2Chunk8 + CancerAfterSvCallerInfo2Chunk9 + CancerAfterSvCallerInfo2Chunk10 + CancerAfterSvCallerInfo2Chunk11 + CancerAfterSvCallerInfo2Chunk12 + CancerAfterSvCallerInfo2Chunk13 + CancerAfterSvCallerInfo2Chunk14 + CancerAfterSvCallerInfo2Chunk15 + CancerAfterSvCallerInfo2Chunk16 + CancerAfterSvCallerInfo2Chunk17 + CancerAfterSvCallerInfo2Chunk18 + CancerAfterSvCallerInfo2Chunk19, CancerAfterSvCallerInfo2Chunk20);
    DollarFreeAppend(CancerAfterSvCallerInfo2Chunk1 + CancerAfterSvCallerInfo2Chunk2 + CancerAfterSvCallerInfo2Chunk3 + CancerAfterSvCallerInfo2Chunk4 + CancerAfterSvCallerInfo2Chunk5 + CancerAfterSvCallerInfo2Chunk6 + CancerAfterSvCallerInfo2Chunk7 + CancerAfterSvCallerInfo2Chunk8 + CancerAfterSvCallerInfo2Chunk9 + CancerAfterSvCallerInfo2Chunk10 + CancerAfterSvCallerInfo2Chunk11 + CancerAfterSvCallerInfo2Chunk12 + CancerAfterSvCallerInfo2Chunk13 + CancerAfterSvCallerInfo2Chunk14 + CancerAfterSvCallerInfo2Chunk15 + CancerAfterSvCallerInfo2Chunk16 + CancerAfterSvCallerInfo2Chunk17 + CancerAfterSvCallerInfo2Chunk18 + CancerAfterSvCallerInfo2Chunk19 + CancerAfterSvCallerInfo2Chunk20, CancerAfterSvCallerInfo2Chunk21);
    DollarFreeAppend(CancerAfterSvCallerInfo2Chunk1 + CancerAfterSvCallerInfo2Chunk2 + CancerAfterSvCallerInfo2Chunk3 + CancerAfterSvCallerInfo2Chunk4 + CancerAfterSvCallerInfo2Chunk5 + CancerAfterSvCallerInfo2Chunk6 + CancerAfterSvCallerInfo2Chunk7 + CancerAfterSvCallerInfo2Chunk8 + CancerAfterSvCallerInfo2Chunk9 + CancerAfterSvCallerInfo2Chunk10 + CancerAfterSvCallerInfo2Chunk11 + CancerAfterSvCallerInfo2Chunk12 + CancerAfterSvCallerInfo2Chunk13 + CancerAfterSvCallerInfo2Chunk14 + CancerAfterSvCallerInfo2Chunk15 + CancerAfterSvCallerInfo2Chunk16 + CancerAfterSvCallerInfo2Chunk17 + CancerAfterSvCallerInfo2Chunk18 + CancerAfterSvCallerInfo2Chunk19 + CancerAfterSvCallerInfo2Chunk20 + CancerAfterSvCallerInfo2Chunk21, CancerAfterSvCallerInfo2Chunk22);
  }

  lemma CancerAfterSvCallerInfo2Delimited()
    ensures !IsIdentifierChar(CancerAfterSvCallerInfo2[0])
  {
    assert !IsIdentifierChar(CancerAfterSvCallerInfo2Chunk1[0]);
    FirstOfAppend(CancerAfterSvCallerInfo2Chunk1, CancerAfterSvCallerInfo2Chunk2);
    FirstOfAppend(CancerAfterSvCallerInfo2Chunk1 + CancerAfterSvCallerInfo2Chunk2, CancerAfterSvCallerInfo2Chunk3);
    FirstOfAppend(CancerAfterSvCallerInfo2Chunk1 + CancerAfterSvCallerInfo2Chunk2 + CancerAfterSvCallerInfo2Chunk3, CancerAfterSvCallerInfo2Chunk4);
    FirstOfAppend(CancerAfterSvCallerInfo2Chunk1 + CancerAfterSvCallerInfo2Chunk2 + CancerAfterSvCallerInfo2Chunk3 + CancerAfterSvCallerInfo2Chunk4, CancerAfterSvCallerInfo2Chunk5);
    FirstOfAppend(CancerAfterSvCallerInfo2Chunk1 + CancerAfterSvCallerInfo2Chunk2 + CancerAfterSvCallerInfo2Chunk3 + CancerAfterSvCallerInfo2Chunk4 + CancerAfterSvCallerInfo2Chunk5, CancerAfterSvCallerInfo2Chunk6);
    FirstOfAppend(CancerAfterSvCallerInfo2Chunk1 + CancerAfterSvCallerInfo2Chunk2 + CancerAfterSvCallerInfo2Chunk3 + CancerAfterSvCallerInfo2Chunk4 + CancerAfterSvCallerInfo2Chunk5 + CancerAfterSvCallerInfo2Chunk6, CancerAfterSvCallerInfo2Chunk7);
    FirstOfAppend(CancerAfterSvCallerInfo2Chunk1 + CancerAfterSvCallerInfo2Chunk2 + CancerAfterSvCallerInfo2Chunk3 + CancerAfterSvCallerInfo2Chunk4 + CancerAfterSvCallerInfo2Chunk5 + CancerAfterSvCallerInfo2Chunk6 + CancerAfterSvCallerInfo2Chunk7, CancerAfterSvCallerInfo2Chunk8);
    FirstOfAppend(CancerAfterSvCallerInfo2Chunk1 + CancerAfterSvCallerInfo2Chunk2 + CancerAfterSvCallerInfo2Chunk3 + CancerAfterSvCallerInfo2Chunk4 + CancerAfterSvCallerInfo2Chunk5 + CancerAfterSvCallerInfo2Chunk6 + CancerAfterSvCallerInfo2Chunk7 + CancerAfterSvCallerInfo2Chunk8, CancerAfterSvCallerInfo2Chunk9);
    FirstOfAppend(CancerAfterSvCallerInfo2Chunk1 + CancerAfterSvCallerInfo2Chunk2 + CancerAfterSvCallerInfo2Chunk3 + CancerAfterSvCallerInfo2Chunk4 + CancerAfterSvCallerInfo2Chunk5 + CancerAfterSvCallerInfo2Chunk6 + CancerAfterSvCallerInfo2Chunk7 + CancerAfterSvCallerInfo2Chunk8 + CancerAfterSvCallerInfo2Chunk9, CancerAfterSvCallerInfo2Chunk10);
    FirstOfAppend(CancerAfterSvCallerInfo2Chunk1 + CancerAfterSvCallerInfo2Chunk2 + CancerAfterSvCallerInfo2Chunk3 + CancerAfterSvCallerInfo2Chunk4 + CancerAfterSvCallerInfo2Chunk5 + CancerAfterSvCallerInfo2Chunk6 + CancerAfterSvCallerInfo2Chunk7 + CancerAfterSvCallerInfo2Chunk8 + CancerAfterSvCallerInfo2Chunk9 + CancerAfterSvCallerInfo2Chunk10, CancerAfterSvCallerInfo2Chunk11);
    FirstOfAppend(CancerAfterSvCallerInfo2Chunk1 + CancerAfterSvCallerInfo2Chunk2 + CancerAfterSvCallerInfo2Chunk3 + CancerAfterSvCallerInfo2Chunk4 + CancerAfterSvCallerInfo2Chunk5 + CancerAfterSvCallerInfo2Chunk6 + CancerAfterSvCallerInfo2Chunk7 + CancerAfterSvCallerInfo2Chunk8 + CancerAfterSvCallerInfo2Chunk9 + CancerAfterSvCallerInfo2Chunk10 + CancerAfterSvCallerInfo2Chunk11, CancerAfterSvCallerInfo2Chunk12);
    FirstOfAppend(CancerAfterSvCallerInfo2Chunk1 + CancerAfterSvCallerInfo2Chunk2 + CancerAfterSvCallerInfo2Chunk3 + CancerAfterSvCallerInfo2Chunk4 + CancerAfterSvCallerInfo2Chunk5 + CancerAfterSvCallerInfo2Chunk6 + CancerAfterSvCallerInfo2Chunk7 + CancerAfterSvCallerInfo2Chunk8 + CancerAfterSvCallerInfo2Chunk9 + CancerAfterSvCallerInfo2Chunk10 + CancerAfterSvCallerInfo2Chunk11 + CancerAfterSvCallerInfo2Chunk12, CancerAfterSvCallerInfo2Chunk13);
    FirstOfAppend(CancerAfterSvCallerInfo2Chunk1 + CancerAfterSvCallerInfo2Chunk2 + CancerAfterSvCallerInfo2Chunk3 + CancerAfterSvCallerInfo2Chunk4 + CancerAfterSvCallerInfo2Chunk5 + CancerAfterSvCallerInfo2Chunk6 + CancerAfterSvCallerInfo2Chunk7 + CancerAfterSvCallerInfo2Chunk8 + CancerAfterSvCallerInfo2Chunk9 + CancerAfterSvCallerInfo2Chunk10 + CancerAfterSvCallerInfo2Chunk11 + CancerAfterSvCallerInfo2Chunk12 + CancerAfterSvCallerInfo2Chunk13, CancerAfterSvCallerInfo2Chunk14);
    FirstOfAppend(CancerAfterSvCallerInfo2Chunk1 + CancerAfterSvCallerInfo2Chunk2 + CancerAfterSvCallerInfo2Chunk3 + CancerAfterSvCallerInfo2Chunk4 + CancerAfterSvCallerInfo2Chunk5 + CancerAfterSvCallerInfo2Chunk6 + CancerAfterSvCallerInfo2Chunk7 + CancerAfterSvCallerInfo2Chunk8 + CancerAfterSvCallerInfo2Chunk9 + CancerAfterSvCallerInfo2Chunk10 + CancerAfterSvCallerInfo2Chunk11 + CancerAfterSvCallerInfo2Chunk12 + CancerAfterSvCallerInfo2Chunk13 + CancerAfterSvCallerInfo2Chunk14, CancerAfterSvCallerInfo2Chunk15);
    FirstOfAppend(CancerAfterSvCallerInfo2Chunk1 + CancerAfterSvCallerInfo2Chunk2 + CancerAfterSvCallerInfo2Chunk3 + CancerAfterSvCallerInfo2Chunk4 + CancerAfterSvCallerInfo2Chunk5 + CancerAfterSvCallerInfo2Chunk6 + CancerAfterSvCallerInfo2Chunk7 + CancerAfterSvCallerInfo2Chunk8 + CancerAfterSvCallerInfo2Chunk9 + CancerAfterSvCallerInfo2Chunk10 + CancerAfterSvCallerInfo2Chunk11 + CancerAfterSvCallerInfo2Chunk12 + CancerAfterSvCallerInfo2Chunk13 + CancerAfterSvCallerInfo2Chunk14 + CancerAfterSvCallerInfo2Chunk15, CancerAfterSvCallerInfo2Chunk16);
    FirstOfAppend(CancerAfterSvCallerInfo2Chunk1 + CancerAfterSvCallerInfo2Chunk2 + CancerAfterSvCallerInfo2Chunk3 + CancerAfterSvCallerInfo2Chunk4 + CancerAfterSvCallerInfo2Chunk5 + CancerAfterSvCallerInfo2Chunk6 + CancerAfterSvCallerInfo2Chunk7 + CancerAfterSvCallerInfo2Chunk8 + CancerAfterSvCallerInfo2Chunk9 + CancerAfterSvCallerInfo2Chunk10 + CancerAfterSvCallerInfo2Chunk11 + CancerAfterSvCallerInfo2Chunk12 + CancerAfterSvCallerInfo2Chunk13 + CancerAfterSvCallerInfo2Chunk14 + CancerAfterSvCallerInfo2Chunk15 + CancerAfterSvCallerInfo2Chunk16, CancerAfterSvCallerInfo2Chunk17);
    FirstOfAppend(CancerAfterSvCallerInfo2Chunk1 + CancerAfterSvCallerInfo2Chunk2 + CancerAfterSvCallerInfo2Chunk3 + CancerAfterSvCallerInfo2Chunk4 + CancerAfterSvCallerInfo2Chunk5 + CancerAfterSvCallerInfo2Chunk6 + CancerAfterSvCallerInfo2Chunk7 + CancerAfterSvCallerInfo2Chunk8 + CancerAfterSvCallerInfo2Chunk9 + CancerAfterSvCallerInfo2Chunk10 + CancerAfterSvCallerInfo2Chunk11 + CancerAfterSvCallerInfo2Chunk12 + CancerAfterSvCallerInfo2Chunk13 + CancerAfterSvCallerInfo2Chunk14 + CancerAfterSvCallerInfo2Chunk15 + CancerAfterSvCallerInfo2Chunk16 + CancerAfterSvCallerInfo2Chunk17, CancerAfterSvCallerInfo2Chunk18);
    FirstOfAppend(CancerAfterSvCallerInfo2Chunk1 + CancerAfterSvCallerInfo2Chunk2 + CancerAfterSvCallerInfo2Chunk3 + CancerAfterSvCallerInfo2Chunk4 + CancerAfterSvCallerInfo2Chunk5 + CancerAfterSvCallerInfo2Chunk6 + CancerAfterSvCallerInfo2Chunk7 + CancerAfterSvCallerInfo2Chunk8 + CancerAfterSvCallerInfo2Chunk9 + CancerAfterSvCallerInfo2Chunk10 + CancerAfterSvCallerInfo2Chunk11 + CancerAfterSvCallerInfo2Chunk12 + CancerAfterSvCallerInfo2Chunk13 + CancerAfterSvCallerInfo2Chunk14 + CancerAfterSvCallerInfo2Chunk15 + CancerAfterSvCallerInfo2Chunk16 + CancerAfterSvCallerInfo2Chunk17 + CancerAfterSvCallerInfo2Chunk18, CancerAfterSvCallerInfo2Chunk19);
    FirstOfAppend(CancerAfterSvCallerInfo2Chunk1 + CancerAfterSvCallerInfo2Chunk2 + CancerAfterSvCallerInfo2Chunk3 + CancerAfterSvCallerInfo2Chunk4 + CancerAfterSvCallerInfo2Chunk5 + CancerAfterSvCallerInfo2Chunk6 + CancerAfterSvCallerInfo2Chunk7 + CancerAfterSvCallerInfo2Chunk8 + CancerAfterSvCallerInfo2Chunk9 + CancerAfterSvCallerInfo2Chunk10 + CancerAfterSvCallerInfo2Chunk11 + CancerAfterSvCallerInfo2Chunk12 + CancerAfterSvCallerInfo2Chunk13 + CancerAfterSvCallerInfo2Chunk14 + CancerAfterSvCallerInfo2Chunk15 + CancerAfterSvCallerInfo2Chunk16 + CancerAfterSvCallerInfo2Chunk17 + CancerAfterSvCallerInfo2Chunk18 + CancerAfterSvCallerInfo2Chunk19, CancerAfterSvCallerInfo2Chunk20);
    FirstOfAppend(CancerAfterSvCallerInfo2Chunk1 + CancerAfterSvCallerInfo2Chunk2 + CancerAfterSvCallerInfo2Chunk3 + CancerAfterSvCallerInfo2Chunk4 + CancerAfterSvCallerInfo2Chunk5 + CancerAfterSvCallerInfo2Chunk6 + CancerAfterSvCallerInfo2Chunk7 + CancerAfterSvCallerInfo2Chunk8 + CancerAfterSvCallerInfo2Chunk9 + CancerAfterSvCallerInfo2Chunk10 + CancerAfterSvCallerInfo2Chunk11 + CancerAfterSvCallerInfo2Chunk12 + CancerAfterSvCallerInfo2Chunk13 + CancerAfterSvCallerInfo2Chunk14 + CancerAfterSvCallerInfo2Chunk15 + CancerAfterSvCallerInfo2Chunk16 + CancerAfterSvCallerInfo2Chunk17 + CancerAfterSvCallerInfo2Chunk18 + CancerAfterSvCallerInfo2Chunk19 + CancerAfterSvCallerInfo2Chunk20, CancerAfterSvCallerInfo2Chunk21);
    FirstOfAppend(CancerAfterSvCallerInfo2Chunk1 + CancerAfterSvCallerInfo2Chunk2 + CancerAfterSvCallerInfo2Chunk3 + CancerAfterSvCallerInfo2Chunk4 + CancerAfterSvCallerInfo2Chunk5 + CancerAfterSvCallerInfo2Chunk6 + CancerAfterSvCallerInfo2Chunk7 + CancerAfterSvCallerInfo2Chunk8 + CancerAfterSvCallerInfo2Chunk9 + CancerAfterSvCallerInfo2Chunk10 + CancerAfterSvCallerInfo2Chunk11 + CancerAfterSvCallerInfo2Chunk12 + CancerAfterSvCallerInfo2Chunk13 + CancerAfterSvCallerInfo2Chunk14 + CancerAfterSvCallerInfo2Chunk15 + CancerAfterSvCallerInfo2Chunk16 + CancerAfterSvCallerInfo2Chunk17 + CancerAfterSvCallerInfo2Chunk18 + CancerAfterSvCallerInfo2Chunk19 + CancerAfterSvCallerInfo2Chunk20 + CancerAfterSvCallerInfo2Chunk21, CancerAfterSvCallerInfo2Chunk22);
  }

  lemma CancerSlot4WellFormed()
    ensures SlotWellFormed(Slot("svcaller_info", CancerAfterSvCallerInfo2))
  {
    SvcallerInfoIsIdentifier();
    CancerAfterSvCallerInfo2DollarFree();
    CancerAfterSvCallerInfo2Delimited();
  }

  const CancerAfterTumorSampleFiles: string :=
    CancerAfterTumorSampleFilesChunk1 + CancerAfterTumorSampleFilesChunk2 + CancerAfterTumorSampleFilesChunk3 + CancerAfterTumorSampleFilesChunk4 +
    CancerAfterTumorSampleFilesChunk5 + CancerAfterTumorSampleFilesChunk6 + CancerAfterTumorSampleFilesChunk7 + CancerAfterTumorSampleFilesChunk8 +
    CancerAfterTumorSampleFilesChunk9 + CancerAfterTumorSampleFilesChunk10 + CancerAfterTumorSampleFilesChunk11 + CancerAfterTumorSampleFilesChunk12 +
    CancerAfterTumorSampleFilesChunk13 + CancerAfterTumorSampleFilesChunk14 + CancerAfterTumorSampleFilesChunk15 + CancerAfterTumorSampleFilesChunk16

  const CancerAfterTumorSampleFilesChunk1: string := "]\n" + "\n" + "  #files: /mnt/cancer-dream-syn3/"
  lemma CancerAfterTumorSampleFilesChunk1DollarFree() ensures DollarFree(CancerAfterTumorSampleFilesChunk1) { assert '$' !in CancerAfterTumorSampleFilesChunk1; DollarFreeIff(CancerAfterTumorSampleFilesChunk1); }

  const CancerAfterTumorSampleFilesChunk2: string := "input/"
  lemma CancerAfterTumorSampleFilesChunk2DollarFree() ensures DollarFree(CancerAfterTumorSampleFilesChunk2) { assert '$' !in CancerAfterTumorSampleFilesChunk2; DollarFreeIff(CancerAfterTumorSampleFilesChunk2); }

  const CancerAfterTumorSampleFilesChunk3: string := "synthetic.challenge.set3.tumor.bam\n"
  lemma CancerAfterTumorSampleFilesChunk3DollarFree() ensures DollarFree(CancerAfterTumorSampleFilesChunk3) { assert '$' !in CancerAfterTumorSampleFilesChunk3; DollarFreeIff(CancerAfterTumorSampleFilesChunk3); }

  const CancerAfterTumorSampleFilesChunk4: string := "#  files:\n"
  lemma CancerAfterTumorSampleFilesChunk4DollarFree() ensures DollarFree(CancerAfterTumorSampleFilesChunk4) { assert '$' !in CancerAfterTumorSampleFilesChunk4; DollarFreeIff(CancerAfterTumorSampleFilesChunk4); }

  const CancerAfterTumorSampleFilesChunk5: string := "#    - /mnt/cancer-dream-syn3/input/"
  lemma CancerAfterTumorSampleFilesChunk5DollarFree() ensures DollarFree(CancerAfterTumorSampleFilesChunk5) { assert '$' !in CancerAfterTumorSampleFilesChunk5; DollarFreeIff(CancerAfterTumorSampleFilesChunk5); }

  const CancerAfterTumorSampleFilesChunk6: string := "synthetic_challenge_set3_tumor_NGv3_"
  lemma CancerAfterTumorSampleFilesChunk6DollarFree() ensures DollarFree(CancerAfterTumorSampleFilesChunk6) { assert '$' !in CancerAfterTumorSampleFilesChunk6; DollarFreeIff(CancerAfterTumorSampleFilesChunk6); }

  const CancerAfterTumorSampleFilesChunk7: string := "1.fq.gz\n"
  lemma CancerAfterTumorSampleFilesChunk7DollarFree() ensures DollarFree(CancerAfterTumorSampleFilesChunk7) { assert '$' !in CancerAfterTumorSampleFilesChunk7; DollarFreeIff(CancerAfterTumorSampleFilesChunk7); }

  const CancerAfterTumorSampleFilesChunk8: string := "#    - /mnt/cancer-dream-syn3/input/"
  lemma CancerAfterTumorSampleFilesChunk8DollarFree() ensures DollarFree(CancerAfterTumorSampleFilesChunk8) { assert '$' !in CancerAfterTumorSampleFilesChunk8; DollarFreeIff(CancerAfterTumorSampleFilesChunk8); }

  const CancerAfterTumorSampleFilesChunk9: string := "synthetic_challenge_set3_tumor_NGv3_"
  lemma CancerAfterTumorSampleFilesChunk9DollarFree() ensures DollarFree(CancerAfterTumorSampleFilesChunk9) { assert '$' !in CancerAfterTumorSampleFilesChunk9; DollarFreeIff(CancerAfterTumorSampleFilesChunk9); }

  const CancerAfterTumorSampleFilesChunk10: string := "2.fq.gz\n" + "  genome_build: GRCh37\n"
  lemma CancerAfterTumorSampleFilesChunk10DollarFree() ensures DollarFree(CancerAfterTumorSampleFilesChunk10) { assert '$' !in CancerAfterTumorSampleFilesChunk10; DollarFreeIff(CancerAfterTumorSampleFilesChunk10); }

  const CancerAfterTumorSampleFilesChunk11: string := "  metadata:\n" + "    batch: syn3\n"
  lemma CancerAfterTumorSampleFilesChunk11DollarFree() ensures DollarFree(CancerAfterTumorSampleFilesChunk11) { assert '$' !in CancerAfterTumorSampleFilesChunk11; DollarFreeIff(CancerAfterTumorSampleFilesChunk11); }

  const CancerAfterTumorSampleFilesChunk12: string := "    phenotype: tumor\n"
  lemma CancerAfterTumorSampleFilesChunk12DollarFree() ensures DollarFree(CancerAfterTumorSampleFilesChunk12) { assert '$' !in CancerAfterTumorSampleFilesChunk12; DollarFreeIff(CancerAfterTumorSampleFilesChunk12); }

  const CancerAfterTumorSampleFilesChunk13: string := "fc_date: '2014-08-13'\n"
  lemma CancerAfterTumorSampleFilesChunk13DollarFree() ensures DollarFree(CancerAfterTumorSampleFilesChunk13) { assert '$' !in CancerAfterTumorSampleFilesChunk13; DollarFreeIff(CancerAfterTumorSampleFilesChunk13); }

  const CancerAfterTumorSampleFilesChunk14: string := "fc_name: dream-syn3\n" + "upload:\n"
  lemma CancerAfterTumorSampleFilesChunk14DollarFree() ensures DollarFree(CancerAfterTumorSampleFilesChunk14) { assert '$' !in CancerAfterTumorSampleFilesChunk14; DollarFreeIff(CancerAfterTumorSampleFilesChunk14); }

  const CancerAfterTumorSampleFilesChunk15: string := "#  dir: /mnt/cancer-dream-syn3/"
  lemma CancerAfterTumorSampleFilesChunk15DollarFree() ensures DollarFree(CancerAfterTumorSampleFilesChunk15) { assert '$' !in CancerAfterTumorSampleFilesChunk15; DollarFreeIff(CancerAfterTumorSampleFilesChunk15); }

  const CancerAfterTumorSampleFilesChunk16: string := "final\n" + "  dir: "
  lemma CancerAfterTumorSampleFilesChunk16DollarFree() ensures DollarFree(CancerAfterTumorSampleFilesChunk16) { assert '$' !in CancerAfterTumorSampleFilesChunk16; DollarFreeIff(CancerAfterTumorSampleFilesChunk16); }

  lemma CancerAfterTumorSampleFilesDollarFree()
    ensures DollarFree(CancerAfterTumorSampleFiles)
  {
    CancerAfterTumorSampleFilesChunk1DollarFree();
    CancerAfterTumorSampleFilesChunk2DollarFree();
    CancerAfterTumorSampleFilesChunk3DollarFree();
    CancerAfterTumorSampleFilesChunk4DollarFree();
    CancerAfterTumorSampleFilesChunk5DollarFree();
    CancerAfterTumorSampleFilesChunk6DollarFree();
    CancerAfterTumorSampleFilesChunk7DollarFree();
    CancerAfterTumorSampleFilesChunk8DollarFree();
    CancerAfterTumorSampleFilesChunk9DollarFree();
    CancerAfterTumorSampleFilesChunk10DollarFree();
    CancerAfterTumorSampleFilesChunk11DollarFree();
    CancerAfterTumorSampleFilesChunk12DollarFree();
    CancerAfterTumorSampleFilesChunk13DollarFree();
    CancerAfterTumorSampleFilesChunk14DollarFree();
    CancerAfterTumorSampleFilesChunk15DollarFree();
    CancerAfterTumorSampleFilesChunk16DollarFree();
    DollarFreeAppend(CancerAfterTumorSampleFilesChunk1, CancerAfterTumorSampleFilesChunk2);
    DollarFreeAppend(CancerAfterTumorSampleFilesChunk1 + CancerAfterTumorSampleFilesChunk2, CancerAfterTumorSampleFilesChunk3);
    DollarFreeAppend(CancerAfterTumorSampleFilesChunk1 + CancerAfterTumorSampleFilesChunk2 + CancerAfterTumorSampleFilesChunk3, CancerAfterTumorSampleFilesChunk4);
    DollarFreeAppend(CancerAfterTumorSampleFilesChunk1 + CancerAfterTumorSampleFilesChunk2 + CancerAfterTumorSampleFilesChunk3 + CancerAfterTumorSampleFilesChunk4, CancerAfterTumorSampleFilesChunk5);
    DollarFreeAppend(CancerAfterTumorSampleFilesChunk1 + CancerAfterTumorSampleFilesChunk2 + CancerAfterTumorSampleFilesChunk3 + CancerAfterTumorSampleFilesChunk4 + CancerAfterTumorSampleFilesChunk5, CancerAfterTumorSampleFilesChunk6);
    DollarFreeAppend(CancerAfterTumorSampleFilesChunk1 + CancerAfterTumorSampleFilesChunk2 + CancerAfterTumorSampleFilesChunk3 + CancerAfterTumorSampleFilesChunk4 + CancerAfterTumorSampleFilesChunk5 + CancerAfterTumorSampleFilesChunk6, CancerAfterTumorSampleFilesChunk7);
    DollarFreeAppend(CancerAfterTumorSampleFilesChunk1 + CancerAfterTumorSampleFilesChunk2 + CancerAfterTumorSampleFilesChunk3 + CancerAfterTumorSampleFilesChunk4 + CancerAfterTumorSampleFilesChunk5 + CancerAfterTumorSampleFilesChunk6 + CancerAfterTumorSampleFilesChunk7, CancerAfterTumorSampleFilesChunk8);
    DollarFreeAppend(CancerAfterTumorSampleFilesChunk1 + CancerAfterTumorSampleFilesChunk2 + CancerAfterTumorSampleFilesChunk3 + CancerAfterTumorSampleFilesChunk4 + CancerAfterTumorSampleFilesChunk5 + CancerAfterTumorSampleFilesChunk6 + CancerAfterTumorSampleFilesChunk7 + CancerAfterTumorSampleFilesChunk8, CancerAfterTumorSampleFilesChunk9);
    DollarFreeAppend(CancerAfterTumorSampleFilesChunk1 + CancerAfterTumorSampleFilesChunk2 + CancerAfterTumorSampleFilesChunk3 + CancerAfterTumorSampleFilesChunk4 + CancerAfterTumorSampleFilesChunk5 + CancerAfterTumorSampleFilesChunk6 + CancerAfterTumorSampleFilesChunk7 + CancerAfterTumorSampleFilesChunk8 + CancerAfterTumorSampleFilesChunk9, CancerAfterTumorSampleFilesChunk10);
    DollarFreeAppend(CancerAfterTumorSampleFilesChunk1 + CancerAfterTumorSampleFilesChunk2 + CancerAfterTumorSampleFilesChunk3 + CancerAfterTumorSampleFilesChunk4 + CancerAfterTumorSampleFilesChunk5 + CancerAfterTumorSampleFilesChunk6 + CancerAfterTumorSampleFilesChunk7 + CancerAfterTumorSampleFilesChunk8 + CancerAfterTumorSampleFilesChunk9 + CancerAfterTumorSampleFilesChunk10, CancerAfterTumorSampleFilesChunk11);
    DollarFreeAppend(CancerAfterTumorSampleFilesChunk1 + CancerAfterTumorSampleFilesChunk2 + CancerAfterTumorSampleFilesChunk3 + CancerAfterTumorSampleFilesChunk4 + CancerAfterTumorSampleFilesChunk5 + CancerAfterTumorSampleFilesChunk6 + CancerAfterTumorSampleFilesChunk7 + CancerAfterTumorSampleFilesChunk8 + CancerAfterTumorSampleFilesChunk9 + CancerAfterTumorSampleFilesChunk10 + CancerAfterTumorSampleFilesChunk11, CancerAfterTumorSampleFilesChunk12);
    DollarFreeAppend(CancerAfterTumorSampleFilesChunk1 + CancerAfterTumorSampleFilesChunk2 + CancerAfterTumorSampleFilesChunk3 + CancerAfterTumorSampleFilesChunk4 + CancerAfterTumorSampleFilesChunk5 + CancerAfterTumorSampleFilesChunk6 + CancerAfterTumorSampleFilesChunk7 + CancerAfterTumorSampleFilesChunk8 + CancerAfterTumorSampleFilesChunk9 + CancerAfterTumorSampleFilesChunk10 + CancerAfterTumorSampleFilesChunk11 + CancerAfterTumorSampleFilesChunk12, CancerAfterTumorSampleFilesChunk13);
    DollarFreeAppend(CancerAfterTumorSampleFilesChunk1 + CancerAfterTumorSampleFilesChunk2 + CancerAfterTumorSampleFilesChunk3 + CancerAfterTumorSampleFilesChunk4 + CancerAfterTumorSampleFilesChunk5 + CancerAfterTumorSampleFilesChunk6 + CancerAfterTumorSampleFilesChunk7 + CancerAfterTumorSampleFilesChunk8 + CancerAfterTumorSampleFilesChunk9 + CancerAfterTumorSampleFilesChunk10 + CancerAfterTumorSampleFilesChunk11 + CancerAfterTumorSampleFilesChunk12 + CancerAfterTumorSampleFilesChunk13, CancerAfterTumorSampleFilesChunk14);
    DollarFreeAppend(CancerAfterTumorSampleFilesChunk1 + CancerAfterTumorSampleFilesChunk2 + CancerAfterTumorSampleFilesChunk3 + CancerAfterTumorSampleFilesChunk4 + CancerAfterTumorSampleFilesChunk5 + CancerAfterTumorSampleFilesChunk6 + CancerAfterTumorSampleFilesChunk7 + CancerAfterTumorSampleFilesChunk8 + CancerAfterTumorSampleFilesChunk9 + CancerAfterTumorSampleFilesChunk10 + CancerAfterTumorSampleFilesChunk11 + CancerAfterTumorSampleFilesChunk12 + CancerAfterTumorSampleFilesChunk13 + CancerAfterTumorSampleFilesChunk14, CancerAfterTumorSampleFilesChunk15);
    DollarFreeAppend(CancerAfterTumorSampleFilesChunk1 + CancerAfterTumorSampleFilesChunk2 + CancerAfterTumorSampleFilesChunk3 + CancerAfterTumorSampleFilesChunk4 + CancerAfterTumorSampleFilesChunk5 + CancerAfterTumorSampleFilesChunk6 + CancerAfterTumorSampleFilesChunk7 + CancerAfterTumorSampleFilesChunk8 + CancerAfterTumorSampleFilesChunk9 + CancerAfterTumorSampleFilesChunk10 + CancerAfterTumorSampleFilesChunk11 + CancerAfterTumorSampleFilesChunk12 + CancerAfterTumorSampleFilesChunk13 + CancerAfterTumorSampleFilesChunk14 + CancerAfterTumorSampleFilesChunk15, CancerAfterTumorSampleFilesChunk16);
  }

  lemma TumorSampleFilesIsIdentifier() ensures IsIdentifier("tumor_sample_files") { }

  lemma CancerAfterTumorSampleFilesDelimited()
    ensures !IsIdentifierChar(CancerAfterTumorSampleFiles[0])
  {
    assert !IsIdentifierChar(CancerAfterTumorSampleFilesChunk1[0]);
    FirstOfAppend(CancerAfterTumorSampleFilesChunk1, CancerAfterTumorSampleFilesChunk2);
    FirstOfAppend(CancerAfterTumorSampleFilesChunk1 + CancerAfterTumorSampleFilesChunk2, CancerAfterTumorSampleFilesChunk3);
    FirstOfAppend(CancerAfterTumorSampleFilesChunk1 + CancerAfterTumorSampleFilesChunk2 + CancerAfterTumorSampleFilesChunk3, CancerAfterTumorSampleFilesChunk4);
    FirstOfAppend(CancerAfterTumorSampleFilesChunk1 + CancerAfterTumorSampleFilesChunk2 + CancerAfterTumorSampleFilesChunk3 + CancerAfterTumorSampleFilesChunk4, CancerAfterTumorSampleFilesChunk5);
    FirstOfAppend(CancerAfterTumorSampleFilesChunk1 + CancerAfterTumorSampleFilesChunk2 + CancerAfterTumorSampleFilesChunk3 + CancerAfterTumorSampleFilesChunk4 + CancerAfterTumorSampleFilesChunk5, CancerAfterTumorSampleFilesChunk6);
    FirstOfAppend(CancerAfterTumorSampleFilesChunk1 + CancerAfterTumorSampleFilesChunk2 + CancerAfterTumorSampleFilesChunk3 + CancerAfterTumorSampleFilesChunk4 + CancerAfterTumorSampleFilesChunk5 + CancerAfterTumorSampleFilesChunk6, CancerAfterTumorSampleFilesChunk7);
    FirstOfAppend(CancerAfterTumorSampleFilesChunk1 + CancerAfterTumorSampleFilesChunk2 + CancerAfterTumorSampleFilesChunk3 + CancerAfterTumorSampleFilesChunk4 + CancerAfterTumorSampleFilesChunk5 + CancerAfterTumorSampleFilesChunk6 + CancerAfterTumorSampleFilesChunk7, CancerAfterTumorSampleFilesChunk8);
    FirstOfAppend(CancerAfterTumorSampleFilesChunk1 + CancerAfterTumorSampleFilesChunk2 + CancerAfterTumorSampleFilesChunk3 + CancerAfterTumorSampleFilesChunk4 + CancerAfterTumorSampleFilesChunk5 + CancerAfterTumorSampleFilesChunk6 + CancerAfterTumorSampleFilesChunk7 + CancerAfterTumorSampleFilesChunk8, CancerAfterTumorSampleFilesChunk9);
    FirstOfAppend(CancerAfterTumorSampleFilesChunk1 + CancerAfterTumorSampleFilesChunk2 + CancerAfterTumorSampleFilesChunk3 + CancerAfterTumorSampleFilesChunk4 + CancerAfterTumorSampleFilesChunk5 + CancerAfterTumorSampleFilesChunk6 + CancerAfterTumorSampleFilesChunk7 + CancerAfterTumorSampleFilesChunk8 + CancerAfterTumorSampleFilesChunk9, CancerAfterTumorSampleFilesChunk10);
    FirstOfAppend(CancerAfterTumorSampleFilesChunk1 + CancerAfterTumorSampleFilesChunk2 + CancerAfterTumorSampleFilesChunk3 + CancerAfterTumorSampleFilesChunk4 + CancerAfterTumorSampleFilesChunk5 + CancerAfterTumorSampleFilesChunk6 + CancerAfterTumorSampleFilesChunk7 + CancerAfterTumorSampleFilesChunk8 + CancerAfterTumorSampleFilesChunk9 + CancerAfterTumorSampleFilesChunk10, CancerAfterTumorSampleFilesChunk11);
    FirstOfAppend(CancerAfterTumorSampleFilesChunk1 + CancerAfterTumorSampleFilesChunk2 + CancerAfterTumorSampleFilesChunk3 + CancerAfterTumorSampleFilesChunk4 + CancerAfterTumorSampleFilesChunk5 + CancerAfterTumorSampleFilesChunk6 + CancerAfterTumorSampleFilesChunk7 + CancerAfterTumorSampleFilesChunk8 + CancerAfterTumorSampleFilesChunk9 + CancerAfterTumorSampleFilesChunk10 + CancerAfterTumorSampleFilesChunk11, CancerAfterTumorSampleFilesChunk12);
    FirstOfAppend(CancerAfterTumorSampleFilesChunk1 + CancerAfterTumorSampleFilesChunk2 + CancerAfterTumorSampleFilesChunk3 + CancerAfterTumorSampleFilesChunk4 + CancerAfterTumorSampleFilesChunk5 + CancerAfterTumorSampleFilesChunk6 + CancerAfterTumorSampleFilesChunk7 + CancerAfterTumorSampleFilesChunk8 + CancerAfterTumorSampleFilesChunk9 + CancerAfterTumorSampleFilesChunk10 + CancerAfterTumorSampleFilesChunk11 + CancerAfterTumorSampleFilesChunk12, CancerAfterTumorSampleFilesChunk13);
    FirstOfAppend(CancerAfterTumorSampleFilesChunk1 + CancerAfterTumorSampleFilesChunk2 + CancerAfterTumorSampleFilesChunk3 + CancerAfterTumorSampleFilesChunk4 + CancerAfterTumorSampleFilesChunk5 + CancerAfterTumorSampleFilesChunk6 + CancerAfterTumorSampleFilesChunk7 + CancerAfterTumorSampleFilesChunk8 + CancerAfterTumorSampleFilesChunk9 + CancerAfterTumorSampleFilesChunk10 + CancerAfterTumorSampleFilesChunk11 + CancerAfterTumorSampleFilesChunk12 + CancerAfterTumorSampleFilesChunk13, CancerAfterTumorSampleFilesChunk14);
    FirstOfAppend(CancerAfterTumorSampleFilesChunk1 + CancerAfterTumorSampleFilesChunk2 + CancerAfterTumorSampleFilesChunk3 + CancerAfterTumorSampleFilesChunk4 + CancerAfterTumorSampleFilesChunk5 + CancerAfterTumorSampleFilesChunk6 + CancerAfterTumorSampleFilesChunk7 + CancerAfterTumorSampleFilesChunk8 + CancerAfterTumorSampleFilesChunk9 + CancerAfterTumorSampleFilesChunk10 + CancerAfterTumorSampleFilesChunk11 + CancerAfterTumorSampleFilesChunk12 + CancerAfterTumorSampleFilesChunk13 + CancerAfterTumorSampleFilesChunk14, CancerAfterTumorSampleFilesChunk15);
    FirstOfAppend(CancerAfterTumorSampleFilesChunk1 + CancerAfterTumorSampleFilesChunk2 + CancerAfterTumorSampleFilesChunk3 + CancerAfterTumorSampleFilesChunk4 + CancerAfterTumorSampleFilesChunk5 + CancerAfterTumorSampleFilesChunk6 + CancerAfterTumorSampleFilesChunk7 + CancerAfterTumorSampleFilesChunk8 + CancerAfterTumorSampleFilesChunk9 + CancerAfterTumorSampleFilesChunk10 + CancerAfterTumorSampleFilesChunk11 + CancerAfterTumorSampleFilesChunk12 + CancerAfterTumorSampleFilesChunk13 + CancerAfterTumorSampleFilesChunk14 + CancerAfterTumorSampleFilesChunk15, CancerAfterTumorSampleFilesChunk16);
  }

  lemma CancerSlot5WellFormed()
    ensures SlotWellFormed(Slot("tumor_sample_files", CancerAfterTumorSampleFiles))
  {
    TumorSampleFilesIsIdentifier();
    CancerAfterTumorSampleFilesDollarFree();
    CancerAfterTumorSampleFilesDelimited();
  }

  const CancerAfterOutputDir: string :=
    CancerAfterOutputDirChunk1 + CancerAfterOutputDirChunk2

  const CancerAfterOutputDirChunk1: string := "\n" + "resources:\n" + "  tmp:\n"
  lemma CancerAfterOutputDirChunk1DollarFree() ensures DollarFree(CancerAfterOutputDirChunk1) { assert '$' !in CancerAfterOutputDirChunk1; DollarFreeIff(CancerAfterOutputDirChunk1); }

  const CancerAfterOutputDirChunk2: string := "    #dir: ./work \n" + "    dir: "
  lemma CancerAfterOutputDirChunk2DollarFree() ensures DollarFree(CancerAfterOutputDirChunk2) { assert '$' !in CancerAfterOutputDirChunk2; DollarFreeIff(CancerAfterOutputDirChunk2); }

  lemma CancerAfterOutputDirDollarFree()
    ensures DollarFree(CancerAfterOutputDir)
  {
    CancerAfterOutputDirChunk1DollarFree();
    CancerAfterOutputDirChunk2DollarFree();
    DollarFreeAppend(CancerAfterOutputDirChunk1, CancerAfterOutputDirChunk2);
  }

  lemma CancerAfterOutputDirDelimited()
    ensures !IsIdentifierChar(CancerAfterOutputDir[0])
  {
    assert !IsIdentifierChar(CancerAfterOutputDirChunk1[0]);
    FirstOfAppend(CancerAfterOutputDirChunk1, CancerAfterOutputDirChunk2);
  }

  lemma CancerSlot6WellFormed()
    ensures SlotWellFormed(Slot("output_dir", CancerAfterOutputDir))
  {
    OutputDirIsIdentifier();
    CancerAfterOutputDirDollarFree();
    CancerAfterOutputDirDelimited();
  }

  const CancerAfterWorkingDir: string := "\n" + "    "

  lemma CancerAfterWorkingDirDollarFree() ensures DollarFree(CancerAfterWorkingDir) { assert '$' !in CancerAfterWorkingDir; DollarFreeIff(CancerAfterWorkingDir); }

  lemma CancerSlot7WellFormed()
    ensures SlotWellFormed(Slot("working_dir", CancerAfterWorkingDir))
  {
    WorkingDirIsIdentifier();
    CancerAfterWorkingDirDollarFree();
  }

  const CancerTemplate: Template := Template(CancerHead, [
    Slot("bed_file", CancerAfterBedFile1),
    Slot("svcaller_info", CancerAfterSvCallerInfo1),
    Slot("normal_sample_files", CancerAfterNormalSampleFiles),
    Slot("bed_file", CancerAfterBedFile2),
    Slot("svcaller_info", CancerAfterSvCallerInfo2),
    Slot("tumor_sample_files", CancerAfterTumorSampleFiles),
    Slot("output_dir", CancerAfterOutputDir),
    Slot("working_dir", CancerAfterWorkingDir)
  ])

  /** The cancer (tumor/normal) variant calling project text with the given values in place of its placeholders. */
  function CancerText(bedFile: string, svcallerInfo: string, normalSampleFiles: string, tumorSampleFiles: string, outputDir: string, workingDir: string): string
  {
    CancerHead + Text.Join("", [
      bedFile, CancerAfterBedFile1,
      svcallerInfo, CancerAfterSvCallerInfo1,
      normalSampleFiles, CancerAfterNormalSampleFiles,
      bedFile, CancerAfterBedFile2,
      svcallerInfo, CancerAfterSvCallerInfo2,
      tumorSampleFiles, CancerAfterTumorSampleFiles,
      outputDir, CancerAfterOutputDir,
      workingDir, CancerAfterWorkingDir])
  }

  /** The cancer (tumor/normal) variant calling project template filled from `e`. */
  lemma CancerFill(e: map<string, string>)
    ensures Fill(CancerTemplate, e) == CancerText(Get(e, "bed_file"), Get(e, "svcaller_info"), Get(e, "normal_sample_files"), Get(e, "tumor_sample_files"), Get(e, "output_dir"), Get(e, "working_dir"))
  {
    FillSlotsPieces(CancerTemplate.slots, e);
    PiecesOfEight(
      Slot("bed_file", CancerAfterBedFile1),
      Slot("svcaller_info", CancerAfterSvCallerInfo1),
      Slot("normal_sample_files", CancerAfterNormalSampleFiles),
      Slot("bed_file", CancerAfterBedFile2),
      Slot("svcaller_info", CancerAfterSvCallerInfo2),
      Slot("tumor_sample_files", CancerAfterTumorSampleFiles),
      Slot("output_dir", CancerAfterOutputDir),
      Slot("working_dir", CancerAfterWorkingDir),
      e);
  }

  /** The cancer (tumor/normal) variant calling project template reads back as itself under Python's scanner. */
  lemma CancerTemplateWellFormed()
    ensures WellFormed(CancerTemplate)
  {
    CancerHeadDollarFree();
    CancerSlot0WellFormed();
    CancerSlot1WellFormed();
    CancerSlot2WellFormed();
    CancerSlot3WellFormed();
    CancerSlot4WellFormed();
    CancerSlot5WellFormed();
    CancerSlot6WellFormed();
    CancerSlot7WellFormed();
    WellFormedOfEight(
      CancerHead,
      Slot("bed_file", CancerAfterBedFile1),
      Slot("svcaller_info", CancerAfterSvCallerInfo1),
      Slot("normal_sample_files", CancerAfterNormalSampleFiles),
      Slot("bed_file", CancerAfterBedFile2),
      Slot("svcaller_info", CancerAfterSvCallerInfo2),
      Slot("tumor_sample_files", CancerAfterTumorSampleFiles),
      Slot("output_dir", CancerAfterOutputDir),
      Slot("working_dir", CancerAfterWorkingDir));
  }

}
