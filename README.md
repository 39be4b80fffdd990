# UCSC bcbio wrapper: option checks and YAML rendering

`UCSCbcbioTool.py` is the entry point of a Docker container that runs the
bcbio-nextgen variant-calling pipeline. Before it starts bcbio it does three
things, and this project models all three:

- it checks the command-line options against five rules: which workflows may
  be combined, and which input-file switches each workflow needs;
- it fills the project YAML. The template is chosen by workflow (germline or
  cancer tumor/normal). A `collections.defaultdict(str)` supplies the working
  directory, BED file, output directory, comma-joined input-file groups and
  the optional structural-variant caller line;
- it fills the system-resources YAML with the detected CPU count.

The project has six modules:

- `Wrappers` (`wrappers.dfy`): `Option` and `Result`.
- `Text` (`text.dfy`): Python's `sep.join`, `str.split` on one character and
  `str(n)`, with the split/join and decimal round trips.
- `Template` (`template.dfy`): Python 2's `string.Template.substitute`.
  - `Substitute` is a character-level scanner over raw text. It handles `$$`,
    `$name`, `${name}`, an invalid `$` (ValueError) and a missing key with a
    plain dict (KeyError).
  - `Template`/`Render` is the same text cut at its placeholders.
  - `SubstituteText` proves that the two agree on well-formed templates:
    every literal between two placeholders is `$`-free (`DollarFree`), every
    name is an identifier, and no literal starts with an identifier character.
- `BcbioTemplates` (`templates.dfy`): the three templates, reproduced
  character for character, cut at their placeholders. The lemmas there prove
  that each template is well-formed, so Python's scanner makes exactly this cut.
  `SystemText`, `GermlineText` and `CancerText` write each template out with its
  placeholder values as parameters, and the `...Fill` lemmas show that filling a
  template from a map is that text with the map's values in their places.
- `Options` (`options.dfy`): the parsed options record and the five
  `parser.error` rules.
- `Config` (`config.dfy`): the data directory, the two substitution maps (as a
  function and as the step-by-step method `__main__` runs), template selection
  and the rendered texts.

Where the wrapper's comments and help texts and its code differ, the model follows the code:

- The cancer template carries `# svcaller: [cnvkit, lumpy, delly]` as a YAML
  comment at lines 245 and 281. The caller list text therefore appears in every
  cancer project YAML, even without structural calling. Only the uncommented
  line at the `$svcaller_info` position (246, 282) depends on the request.
- This version of the wrapper has no run name or timestamp and no separate
  structural-calling flag, and `--bed_file` is required (line 89).
- The germline template holds no `$bed_file` and no `$svcaller_info`. A
  germline run's project YAML therefore does not depend on the BED file or on
  whether structural calling was requested
  (`Config.GermlineIgnoresBedAndStructural`).
- `--output_dir ""` and `--data_dir ""` count as "not given", because the code
  tests their truth value. `--sample_files` etc. are tested with `is None` in
  the checks but by truth value when the map is filled.

## Model

| member | source | states |
|---|---|---|
| Options.Validate | UCSCbcbioTool.py:105-123 | the first violated rule (in source order) is the error returned; options pass unchanged exactly when no rule is violated; for a non-empty workflow list, acceptance coincides with the independent table `AcceptedRun` (germline with sample files and no tumor/normal files, or cancer with both tumor and normal files and no sample files, each optionally with structural calling) |
| Options.Parsed | UCSCbcbioTool.py:81-96 | what argparse guarantees before the checks run: a non-empty workflow list, each appended file group absent or non-empty, and `--data_dir` and `--data_file` never both given; `Options.Validate` and `Config.ProjectYamlRendersTemplate` state their results for options meeting it |
| Options.AcceptedRun | UCSCbcbioTool.py:105-123 | the accepted option sets as a table of their own (germline with sample files only, or cancer with tumor and normal files only, each with or without structural calling); `Options.Validate` proves it equals passing all five checks |
| Options.StructuralAloneRejected | UCSCbcbioTool.py:105-108 | a workflow list made only of structural calling is refused with the structural-alone error, whatever files are given |
| Options.ConflictingOptionsRejected | UCSCbcbioTool.py:110-123 | germline with cancer is refused with its error; germline without sample files, cancer without both tumor and normal files, and sample files with tumor or normal files are refused whatever else holds |
| Options.StructuralIsOptional | UCSCbcbioTool.py:105-123 | adding structural calling to an accepted run keeps it accepted |
| Text.SplitJoinRoundTrip | UCSCbcbioTool.py:408-420 | splitting a `,`-joined non-empty list of comma-free names gives the list back |
| Text.Join | UCSCbcbioTool.py:408-420 | Python's `sep.join(parts)`: the parts in order with `sep` between neighbours; `Text.SplitJoinRoundTrip` and `Config.GroupTextRoundTrip` state that splitting recovers the parts |
| Text.NatToString | UCSCbcbioTool.py:516 | `str(n)` is a non-empty digit string without leading zero, one digit exactly when n < 10 |
| Text.NatToStringRoundTrip | UCSCbcbioTool.py:516 | the decimal reading of `str(n)` is n |
| Template.Lookup | UCSCbcbioTool.py:394 | a defaultdict lookup gives the entry or "" and never fails; a plain dict lookup gives the entry when the key is present and fails with KeyError exactly when it is missing |
| Template.Substitute | UCSCbcbioTool.py:441 | Python 2's `Template(t).substitute(m)` as a left-to-right scan; its properties are the lemmas `Template.SubstituteText` (agrees with slot rendering on well-formed templates), `Template.NoDollarUnchanged` (text without `$` is unchanged) and `Template.DefaultDictNoKeyError` (no KeyError with a defaultdict) |
| Template.IdentifierPrefix | UCSCbcbioTool.py:441 | the placeholder name read after `$` is the longest prefix of identifier characters |
| Template.SubstituteLiteralPrefix | UCSCbcbioTool.py:441 | text without `$` in front of the rest is copied unchanged in front of the rest's result |
| Template.NoDollarUnchanged | UCSCbcbioTool.py:441 | text without `$` is returned unchanged whatever the mapping |
| Template.IdentifierPrefixOf | UCSCbcbioTool.py:441 | a name followed by a non-identifier character is read whole |
| Template.SubstitutePlaceholder | UCSCbcbioTool.py:441 | `$name` followed by a delimiter is replaced by the mapping's value, or the lookup's error is returned |
| Template.DefaultDictNoKeyError | UCSCbcbioTool.py:439-443 | with a defaultdict the scanner never raises KeyError, whatever the text, so the `except KeyError` handler cannot fire |
| Template.SubstituteText | UCSCbcbioTool.py:441 | scanning a well-formed template's text gives the same result as rendering it slot by slot, for every mapping |
| Template.RenderSlotsDefaultDict | UCSCbcbioTool.py:394 | rendering with a defaultdict succeeds and fills every placeholder from the map, missing ones with "" |
| Template.Fill | UCSCbcbioTool.py:441 | the plain text is what rendering with a defaultdict returns |
| Template.RenderSlotsAgree | UCSCbcbioTool.py:441 | rendering reads only the entries that the template's placeholders name |
| Template.FillAgree | UCSCbcbioTool.py:441 | two maps that agree on a template's placeholders fill it alike |
| Template.RenderSlotsAt | UCSCbcbioTool.py:433-441 | rendering with `key` bound to any value is that value between the same segments |
| Template.FillAt | UCSCbcbioTool.py:433-441 | two renderings that differ only in one key's value differ only where that key's placeholder stood |
| Template.DollarFreeIff | UCSCbcbioTool.py:441 | a text is `$`-free in the scanner's sense exactly when it holds no `$` |
| BcbioTemplates.SystemTemplateWellFormed | UCSCbcbioTool.py:128-166 | the system-resources template reads back under Python's scanner as `$temp_dir`, `$core_count`, `$galaxy_config_path` between `$`-free literals |
| BcbioTemplates.GermlineTemplateWellFormed | UCSCbcbioTool.py:170-210 | the germline template reads back as `$working_dir`, `$output_dir`, `$sample_files` between `$`-free literals |
| BcbioTemplates.CancerTemplateWellFormed | UCSCbcbioTool.py:214-316 | the cancer template reads back as `$bed_file`, `$svcaller_info`, `$normal_sample_files`, `$bed_file`, `$svcaller_info`, `$tumor_sample_files`, `$output_dir`, `$working_dir` between `$`-free literals |
| BcbioTemplates.SystemFill | UCSCbcbioTool.py:128-166 | filling the system template from any map gives the system text with the map's `temp_dir`, `core_count` and `galaxy_config_path` values in their places |
| BcbioTemplates.GermlineFill | UCSCbcbioTool.py:170-210 | filling the germline template from any map gives the germline text with the map's `working_dir`, `output_dir` and `sample_files` values in their places |
| BcbioTemplates.CancerFill | UCSCbcbioTool.py:214-316 | filling the cancer template from any map gives the cancer text with the map's values for its eight placeholders in their places |
| Config.JoinDirectory | UCSCbcbioTool.py:363 | `os.path.join(d, '')` extends d by at most one character, keeps "" empty, otherwise ends in `/`, and adds a `/` only when d did not end in one |
| Config.ResolveDataDir | UCSCbcbioTool.py:352-363 | the data directory is the given `--data_dir` with a trailing `/` when one is given, otherwise `<cwd>/data/`, and always ends in `/` |
| Config.FileValues | UCSCbcbioTool.py:394-420 | before `svcaller_info` is set, the map holds only working directory, BED file, output directory and file-group keys, with `<cwd>/work/`, the BED file, the output directory or `./final`, and each file group comma-joined (or "" when absent) |
| Config.FileValuesKeys | UCSCbcbioTool.py:408-420 | a file group's key is in the map exactly when the group was given and is non-empty |
| Config.FileValuesIgnoreWorkflow | UCSCbcbioTool.py:394-420 | the entries set before `svcaller_info` are the same whatever workflows are requested |
| Config.ProjectValues | UCSCbcbioTool.py:394-437 | the map gives `<cwd>/work/` for `working_dir`, the BED file unchanged, the output directory or `./final`, each file group comma-joined or "" when absent (its key set only when the group is non-empty), and the caller line for `svcaller_info` exactly when structural calling is requested, else "" |
| Config.BuildProjectValues | UCSCbcbioTool.py:394-437 | filling the map entry by entry, in the source's order, ends with exactly that map |
| Config.GroupTextRoundTrip | UCSCbcbioTool.py:408-420 | a file group's text splits back on `,` into the files given, in command-line order, when no name holds a comma |
| Config.SelectWorkflowTemplate | UCSCbcbioTool.py:427-431 | cancer selects the cancer template even when germline is also requested; germline alone selects the germline template; neither selects none |
| Config.CatchKeyError | UCSCbcbioTool.py:439-443 | the `except KeyError` handler: a successful substitution passes through, a KeyError leaves the text `""`, and only an invalid placeholder (ValueError) escapes as an error |
| Config.ProjectYaml | UCSCbcbioTool.py:427-443 | the text `__main__` renders for the project YAML; `Config.ProjectYamlRendersTemplate` states that it is produced exactly for accepted runs and is then the selected template filled from the project map |
| Config.ProjectYamlRendersTemplate | UCSCbcbioTool.py:427-443 | for parsed options the project YAML is produced exactly for accepted runs; it is then the selected template filled from the map; no run ends in a scanner error; valid options with no workflow end with no template |
| Config.AcceptedProjectYaml | UCSCbcbioTool.py:427-443 | an accepted run's project YAML is the selected template filled from the project map |
| Config.GermlineProjectText | UCSCbcbioTool.py:170-210 | an accepted germline run's YAML is the germline text with `<cwd>/work/`, the output directory and the comma-joined sample files in their places |
| Config.CancerProjectText | UCSCbcbioTool.py:214-316 | an accepted cancer run's YAML is the cancer text with the BED file and caller value twice, the normal and tumor files, the output directory and `<cwd>/work/` in their places |
| Config.ProjectYamlFromFrame | UCSCbcbioTool.py:433-441 | an accepted run's YAML is a fixed frame joined by the `svcaller_info` value |
| Config.StructuralOnlyChangesSvCaller | UCSCbcbioTool.py:433-437 | two accepted runs that differ only in whether structural calling is requested share the frame, so their YAML differs only at the `$svcaller_info` places |
| Config.GermlineIgnoresBedAndStructural | UCSCbcbioTool.py:170-210 | accepted germline runs with the same sample files and output directory write the same YAML, whatever the BED file and the structural request |
| Config.SystemValues | UCSCbcbioTool.py:503-516 | the system map holds only `core_count`, which is `str` of the detected count, or of 16 when detection fails: a digit string whose decimal value is that count |
| Config.BuildSystemValues | UCSCbcbioTool.py:503-516 | writing 16 and then the detected-or-default count ends with exactly that map |
| Config.SystemYaml | UCSCbcbioTool.py:517-524 | the text rendered for `bcbio_system.yaml`; `Config.SystemYamlText` states it in full |
| Config.SystemYamlText | UCSCbcbioTool.py:517-524 | the system YAML is the template text with "" for the commented-out `$temp_dir` and `$galaxy_config_path` and `str` of the detected-or-16 count for `$core_count` |

## Left out

- Subprocess calls are not modelled: `tar` extraction, `gatk-register`, `bcbio_nextgen.py upgrade` and the main bcbio run. They run foreign executables.
- Filesystem effects are not modelled: `os.makedirs`, the `os.path.exists`/`os.listdir` tests that decide whether the system YAML is written at all, the `/mnt/biodata` symlinks, and writing the two YAML files. `SystemYaml` is the text written when it is written.
- `get_user_group_for_a_path` is not modelled. It reads the OS user and group databases, and its only call is commented out.
- `multiprocessing.cpu_count()` becomes the `detected: Option<nat>` input, with `None` for a raised exception. The current directory becomes the `cwd` input.
- Timing (`time.time()`) and all `print` output, including the messages of the `except KeyError` handlers, are not modelled.
- argparse mechanics are stated as the `Options.Parsed` predicate rather than modelled: type coercion, `choices`, `required`, `action='append'` and the mutually exclusive `--data_dir`/`--data_file` group. `parser.error` is modelled as the `Usage` error; its exit status and message text are not.
- `--num_cores` and `--GATK_file` are carried in the record but not modelled further. They are used only by the bcbio and `gatk-register` calls.
- Template.Substitute: the position that Python's ValueError message reports for an invalid `$` is not modelled; only the fact that it is raised. That error is not caught in the wrapper, so it would end the program (`RunError.Malformed`). The lemmas show it cannot happen with these templates.
- Template.Lookup: a defaultdict lookup of a missing key also inserts that key into the dict. This side effect is not modelled, because nothing reads the dict afterwards.
- An empty workflow list cannot come out of argparse. If it did, every check would pass and `workflow_template` would be unbound (a NameError). This is modelled as `RunError.NoWorkflowTemplate`.
