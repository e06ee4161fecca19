# Universal ADK Agent Starter Kit: extraction and agent generation in Dafny

This project models the two scripts of the Universal ADK Agent Starter Kit
and proves properties of the model.

- `extract.py` pulls files out of upstream ADK repositories. It rewrites
  them into templates, heads each single-file entry whose source suffix takes comments
  (`.py`, `.yaml`, `.yml`, `.md`, `.toml`), and every `.py` file of a copied
  directory, with an attribution banner (Terraform copies get none), and
  puts a configuration header (full of `{{...}}` tokens) on top of
  `.env.example`.
- `create_agent.py` turns such a template tree into a new agent. It fills
  every file's `{{name}}` and `{{name|default:value}}` tokens from the
  configuration and the agent's name. It strips `.template` from file names
  and writes a package `__init__.py`. It refuses unknown types, bad names,
  missing templates and existing destinations.

The files:

| file | module | what it holds |
|---|---|---|
| `wrappers.dfy` | `Wrappers` | `Option` |
| `text.dfy` | `Text` | the pieces of Python `str` the scripts use: `isspace`, `strip`, `startswith`, `endswith`, `find`, `rfind`, `replace` of one character, `title` |
| `template.dfy` | `Template` | the `re.sub` scan of `process_template` and its callback `replace_var`, defined as the function `Substitute`, with the properties a template author relies on |
| `agent.dfy` | `AgentCreation` | agent types, the name rule, the variable tables, template trees and the effects of copying them, and the class `AgentCreator` with `ProcessTemplate` (a loop proved equal to `Substitute`), `CopyTemplate` and `CreateAgent` |
| `extract.dfy` | `Extraction` | transform names, `add_attribution`, `make_env_configurable`, `Path.suffix` and the dispatch of `process_extraction` |
| `table.dfy` | `ExtractionTable`, `ExtractionEntries` | the table `EXTRACTIONS`, and what the dispatch does with four of its entries |
| `env_header.dfy` | `EnvHeaderResolution` | how the two scripts meet: the `.env.example` header that extraction writes resolves fully under the table of a new agent |

How the model treats the source:

- Python's `re.sub` is modelled as it runs. A match of `\{\{([^}]+)\}\}`
  starts where the text holds `{{`. The group runs to the first `}` after
  it, and that `}` must be followed by a second one. The callback's result
  takes the match's place, and scanning resumes after the match, so a
  replacement is never scanned again.
- The file system, the YAML file and the four rewrites by regular
  expression are parameters. A template tree is a value (`Item`). What
  copying it does is a list of `Effect`s in the order the script performs
  them. The positive result of each existence check on the disk is a
  boolean argument. The text read from a source file is an
  `Option<string>`, where `None` stands for a failed read.
- Three corners of the code are modelled as written:
  - The name pattern is `^[a-z][a-z0-9_]*$`, but `re.match`'s `$` also
    matches just before a final newline, so `"my_agent\n"` is accepted.
    `MatchesAgentName` states this, and `AgentNameExamples` shows it.
  - Besides the five named rewrites, the dispatch of `process_extraction`
    lets any other transform name through. Such an entry gets no rewrite but
    still gets the banner its source suffix selects, and `add_attribution_only` in the table relies on
    that. A transform name the dispatch knows always stands for its own
    branch (`EntryTransform`).
  - `create_agent` returns `False` on a refusal, and that is what
    `CreateAgent` models. Only `main` turns it into exit status 1.

## Model

| member | source | states |
|---|---|---|
| Template.Substitute | create_agent.py:86 | the reference definition of the `re.sub` scan, one match or one character per step; its contract is carried by `TokenEndIsRegexMatch`, `SubstituteWithoutOpen`, `SubstituteWithoutClose`, `SubstituteInertPrefix`, `SubstituteToken`, `EmptyBracesPassThrough` and `SingleClosePassThrough`, and `AgentCreator.ProcessTemplate` is proved equal to it |
| Template.ReplaceVar | create_agent.py:76-84 | the reference definition of the callback `replace_var`; its contract is carried by `ReplaceVarPlain`, `ReplaceVarDefault` and `ReplaceVarPipeWithoutDefault` |
| Template.TokenEndIsRegexMatch | create_agent.py:86 | a token ends at `j` exactly when the text is `{{`, a run of one or more non-`}` characters, then `}}`, ending at `j + 2`; the match is unique |
| Template.SubstituteWithoutOpen | create_agent.py:86 | text with no `{{` comes out unchanged |
| Template.SubstituteWithoutClose | create_agent.py:86 | text with no `}` comes out unchanged, even when it holds `{{` |
| Template.SubstituteInertPrefix | create_agent.py:86 | text in which no match can start is copied through, and what follows it is substituted on its own |
| Template.SubstituteToken | create_agent.py:76-86 | a token at the front is replaced by the callback's result for its group, and the scan resumes after the closing braces |
| Template.KnownVariableReplaced | create_agent.py:76-86 | a token without a pipe whose stripped name is in the table becomes exactly that value; text before it is untouched and the value is not rescanned |
| Template.UnknownVariablePreserved | create_agent.py:84-86 | a token without a `default:` clause whose stripped name is unknown stays as it was |
| Template.DefaultClauseApplied | create_agent.py:78-86 | a token of the form name, pipe, `default:`, value becomes the stripped name's value if it is known, otherwise the value verbatim |
| Template.ReplaceVarPlain | create_agent.py:76-84 | a group without a pipe is looked up whole once stripped; an unknown one gives back the whole match |
| Template.ReplaceVarDefault | create_agent.py:78-83 | the split happens at the first pipe only; the text after `default:` is the fallback exactly as written |
| Template.ReplaceVarPipeWithoutDefault | create_agent.py:78-84 | a group whose first pipe is not followed by `default:` is looked up as a whole, pipe included |
| Template.EmptyBracesPassThrough | create_agent.py:86 | `{{}}` is no token (the group cannot be empty) and passes through |
| Template.SingleClosePassThrough | create_agent.py:86 | up to a first `}` that is not doubled, everything passes through |
| Template.HelloExamples | create_agent.py:65-87 | the template `Hello ` followed by a token for `name` with default `world` gives `Hello world` with an empty table and `Hello Ada` when `name` is `Ada` |
| Text.StripIsTrimmedMiddle | create_agent.py:83-84 | `strip` returns the middle of the text with only whitespace cut away at either end, and no whitespace left at either end |
| Text.StripIdempotent | create_agent.py:83-84 | stripping twice is stripping once |
| AgentCreation.TemplatePath | create_agent.py:18-35 | exactly the four types `simple`, `multi`, `rag` and `tool` have a template directory |
| AgentCreation.MatchesAgentName | create_agent.py:97 | the name rule holds iff the name is `[a-z][a-z0-9_]*`, or is that followed by one final newline |
| AgentCreation.AgentNameExamples | create_agent.py:97 | `my_agent`, `agent2` and `my_agent\n` pass; the empty name, `My_agent`, `my-agent`, `2agent`, `_agent` and `my_agent\n\n` do not |
| AgentCreation.AcceptedNameHasNoTokenSyntax | create_agent.py:97 | an accepted name holds no `{`, `}` or pipe character |
| AgentCreation.BuildTemplateVars | create_agent.py:53-63 | the table has exactly the seven configuration keys, each bound to its own configuration field, with `use_vertex` bound to `true` or `false` |
| AgentCreation.AgentVars | create_agent.py:68-73 | the three agent entries overwrite the configuration table; every other configuration entry is kept |
| AgentCreation.DescriptionOrDefault | create_agent.py:72 | the reference definition of `agent_description or f"ADK agent for {agent_name}"`; its contract is carried by `DescriptionDefaulting` |
| AgentCreation.DisplayName | create_agent.py:71 | the reference definition of `agent_name.replace("_", " ").title()`; its contract is carried by `DisplayNameOfAcceptedName` and the three examples below |
| AgentCreation.DescriptionDefaulting | create_agent.py:72 | an empty description becomes `ADK agent for <name>`; any other is kept |
| AgentCreation.AcceptedNameChars | create_agent.py:97 | every character of an accepted name is `[a-z0-9_]`, except a newline in last place |
| AgentCreation.DisplayNameOfAcceptedName | create_agent.py:71 | for every name the rule accepts, the display name has the same length, a space exactly where the name has `_`, digits and a final newline kept, and each letter capitalised iff the character just before it is not a letter |
| AgentCreation.DisplayNameSplitsWords | create_agent.py:71 | `my_agent` is displayed as `My Agent` |
| AgentCreation.DisplayNameCapitalisesAfterDigit | create_agent.py:71 | `agent2x` is displayed as `Agent2X`, since a digit is not cased |
| AgentCreation.DisplayNameKeepsNewline | create_agent.py:71 | `my_agent` with a final newline is displayed as `My Agent` with the newline kept |
| AgentCreation.DestName | create_agent.py:153-155 | the reference definition of the destination file name; its contract is carried by `DestNameStripsSuffix` |
| AgentCreation.DestNameStripsSuffix | create_agent.py:153-155 | removing `.template` undoes appending it, and other names are kept |
| AgentCreation.EveryTemplateFileWritten | create_agent.py:140-165 | every file of the template tree is written, substituted, at its mapped destination path |
| AgentCreation.OnlyTemplateFilesWritten | create_agent.py:140-165 | every write of the copy comes from a file of the template tree, at its mapped path and with its substituted text |
| AgentCreation.AgentCreator.constructor | create_agent.py:38-41 | the generator keeps the configuration and the table built from it |
| AgentCreation.AgentCreator.ProcessTemplate | create_agent.py:65-87 | the scan loop returns `Substitute` of the content under the agent table |
| AgentCreation.AgentCreator.CopyTemplate | create_agent.py:140-165 | the effects are the destination directory, then each entry in `iterdir` order: a substituted file under its destination name, or a recursive copy |
| AgentCreation.AgentCreator.CreateAgent | create_agent.py:89-138 | each refusal (unknown type, invalid name, missing template, existing destination) is reported in that order before any effect; a creation happens iff none applies, and it writes the copied template into `src/<namespace>/agents/<name>` followed by `__init__.py` with the fixed text |
| Extraction.ParseTransform | extract.py:256-285 | the name selects its branch in the order of the dispatch, the name is kept, and only names outside the seven known ones fall through |
| Extraction.TransformNameRoundTrip | extract.py:256-285 | every transform an entry can carry is recovered from its name |
| Extraction.AddAttribution | extract.py:130-157 | the result is the banner of the type's comment style followed by the content |
| Extraction.AttributionKeepsContent | extract.py:130-157 | the content is always a tail of the result, and the result is the content alone iff the type is not one of `.py`, `.yaml`, `.yml`, `.md`, `.toml` |
| Extraction.AttributionRoundTrip | extract.py:130-157 | removing the banner gives back the content, for every content, type and attribution |
| Extraction.RemoveAttribution | extract.py:130-157 | whatever it returns, adding the banner to it gives back the text |
| Extraction.MakeEnvConfigurable | extract.py:206-222 | the result is the header followed by the untouched content |
| Extraction.HeaderEndsLine | extract.py:209-221 | the header ends with a newline, so the upstream text starts on a line of its own |
| Extraction.PathSuffix | extract.py:273 | the reference definition of `Path(source).suffix`, the suffix of the last path component; its contract is carried by `PathNameIsLastComponent`, `NameSuffixFacts`, `PathSuffixOfJoin` and `DotEdgeSuffixes` |
| Extraction.PathNameIsLastComponent | extract.py:273 | a path's name is a tail with no `/`, and it is the whole path or follows a `/` |
| Extraction.NameSuffixFacts | extract.py:273 | a name has no suffix iff it ends in `.` or has no `.` after its first character; a suffix is `.` and at least one more character, a proper tail, with no further `.` |
| Extraction.PathSuffixOfJoin | extract.py:273 | a file `stem + ext` under a directory has suffix `ext` |
| Extraction.DotEdgeSuffixes | extract.py:273 | `.env`, `archive.` and the empty name have no suffix |
| Extraction.ApplyTransform | extract.py:275-285 | an unknown name leaves the content unchanged, and `make_env_configurable` puts the header on top |
| Extraction.ProcessExtraction | extract.py:242-296 | the two directory transforms go to their copies; otherwise a failed read writes nothing, and a read file is written as the banner for its source suffix added to its transformed text |
| Extraction.TransformThenAttribute | extract.py:268-291 | the written text is the banner chosen by the source's suffix, then the transformed text |
| Extraction.SingleFileWithoutBanner | extract.py:268-291 | a source whose suffix takes no comments is written as its transform leaves it |
| Extraction.UnknownTransformStillAttributes | extract.py:276-288 | a transform name outside the seven known ones rewrites nothing but still gets the banner |
| ExtractionTable.TableTransforms | extract.py:20-128 | the table has sixteen entries and only the two test helpers name a transform the dispatch does not know (`add_attribution_only`) |
| ExtractionTable.TablePositions | extract.py:20-128 | the README, `.env.example`, matchers and Makefile entries sit where the script lists them |
| ExtractionEntries.EnvExampleSuffix | extract.py:47 | the suffix of `.env.example` is `.example` |
| ExtractionEntries.MakefileSuffix | extract.py:123 | `Makefile` has no suffix |
| ExtractionEntries.ReadmeSuffix | extract.py:41 | the suffix of `README.md` is `.md` |
| ExtractionEntries.MatchersSuffix | extract.py:97 | the suffix of `matchers.py` is `.py` |
| ExtractionEntries.EnvExampleEntry | extract.py:268-291 | `.env.example` is written as header plus upstream text, with no banner, since `.example` takes no comments |
| ExtractionEntries.MakefileEntry | extract.py:268-291 | the Makefile is written as its rewrite leaves it, with no banner |
| ExtractionEntries.ReadmeEntry | extract.py:268-291 | the README gets the HTML banner over its rewrite |
| ExtractionEntries.TestHelperEntry | extract.py:268-291 | `matchers.py` gets the `#` banner over its unchanged text |
| EnvHeaderResolution.HeaderSubstituted | extract.py:209-221 | under any table, the header's six tokens become their lookups, with the header's defaults, and text after the header is substituted on its own |
| EnvHeaderResolution.AgentTableLookups | create_agent.py:53-73 | the agent table binds every name the header uses, so no default is taken |
| EnvHeaderResolution.HeaderUnderAgentTable | create_agent.py:65-87 | under a new agent's table the header holds the configured project, location, namespace and model, the agent name, and `true`/`false` |
| EnvHeaderResolution.HeaderLeavesNoBraces | create_agent.py:65-87 | with configured values free of `{`, an accepted name leaves no `{` of the header after creation |

## Left out

- The copy_directory and copy_terraform branches of `process_extraction` are results (`CopyTree`, `CopyTerraformTree`) and are not carried out. Their `rglob` walks are not modelled: the banner put on each `.py` file of a copied directory, and the Terraform rewrite.
- `make_configurable`, `templatize_pyproject`, `templatize_readme` and `templatize_makefile`: rewrites by regular expression whose effect is given as functions in `Rewrites`, because their patterns are outside the model.
- `ApplyTransform`: says nothing about what the four regex rewrites produce, because they are parameters.
- Reading and writing files, `mkdir`, `exists`, `is_file`, `is_dir`, loading YAML, argparse, printing and exit codes are left out. Existence checks are booleans, file contents are parameters, and effects are returned as a log.
- `load_config` exiting when the configuration file is missing, and any YAML value other than the expected strings and boolean: the model starts from a loaded `Config`.
- `BuildTemplateVars`: `use_vertex` is modelled as a boolean, so `str(value).lower()` of other YAML values is not covered.
- `_create_deployment_files`, `_create_test_files`, `_update_a2a_manifest` and the closing messages of `create_agent`: outside the modelled core.
- `main` of both scripts (the repository checks, the counters and the configuration template) and `setup.py`: outside the modelled core.
- `DisplayName`: `str.title` is modelled for ASCII letters only; non-ASCII letters are treated as uncased.
- `PathSuffix`: pathlib's normalisation (`source_base /` and collapsing of repeated or trailing slashes) is not modelled; the suffix is taken of the table's own source text.
- `CopyTemplate`: a template file named exactly `.template` has the empty destination name. The script then writes to the destination directory itself, and `write_text` raises. Nothing catches that, so creation stops after the earlier writes and no `__init__.py` is written. The model instead logs a write to `dest + [""]` and returns `Created`. Other file-system failures (a file and a directory that map to the same name, a failed write) are not modelled either.
- `CopyTemplate`: the `iterdir` order is the order of the `Item` sequence, since the operating system's order is not known.
- `CreateAgent`: the caller supplies the template tree found at `TemplatePath(agentType)`; nothing in the contract ties the `template` argument to that path. The `mkdir` of the destination's parents and the success message are not modelled; the destination is kept as four path components, so a namespace holding `/` is not split further.
