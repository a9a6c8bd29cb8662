# DOT rendering of CWL workflows

This project models the part of CWL Viewer that turns the answers of its RDF
queries about a workflow into a Graphviz DOT graph. It has two halves.

- **The `RDFService` string helpers.** `lastURIPart` gives the display name of
  a URI. `formatDefault` drops the `^^datatype` suffix of a default value.
  `strToRuntype` maps an RDF type URI to a CWL process kind. `labelFromName`
  gives the text after `#`.
- **The `DotWriter` class.** It writes the DOT text line by line:
  - the fixed header and style blocks;
  - the dashed inputs and outputs clusters;
  - the steps, each display name once, with a Workflow-typed step recorded in
    the `subworkflows` map and drawn as a dotted cluster that holds its own
    inputs, steps and outputs;
  - the links, as edges between node IDs or as numbered `default<N>` nodes;
  - the closing brace.

The files are:

- `java_strings.dfy` (module `JavaStrings`): the Java and commons-io library
  calls the helpers rely on. These are `String.indexOf` and `lastIndexOf` in
  their character, string and from-index forms, `FilenameUtils.getName` and
  `Integer.toString`.
- `rdf_service.dfy` (module `RdfService`): the four helpers and their
  properties.
- `dot_spec.dfy` (module `DotSpec`): the query rows, what each part of the graph
  writes as a function of those rows, and the lemmas about it. The step pass is
  a tree of `StepBlock`s built by `BuildSteps` and rendered by `RenderSteps`.
  The link pass is `LinkLines`.
- `dot_writer.dfy` (module `DotWriting`): class `DotWriter`. Its fields are
  `lines`, the lines written so far, and `subworkflows`. Each method is proved
  to append exactly the lines `DotSpec` gives and to leave the map as
  `DotSpec` says.
- `wrappers.dfy`: the `Option` type, used for unbound query columns and for
  Java's `null`.

`lastURIPart` keeps the file part of a step URI: `.../wf.cwl#step1` is named
`wf.cwl#step1` (`RdfService.LastURIPartFragment`). The DOT node IDs keep that
`#` as well. `labelFromName` is not used on the path that writes DOT text.

## Model

| member | source | states |
|---|---|---|
| RdfService.LastURIPartNoSlash | src/main/java/org/commonwl/view/cwl/RDFService.java:231-242 | A display name never contains `/`; a string without `/` is returned unchanged |
| RdfService.LastURIPartIsInfix | src/main/java/org/commonwl/view/cwl/RDFService.java:231-242 | The display name is a contiguous piece of the URI |
| RdfService.LastURIPartFragment | src/main/java/org/commonwl/view/cwl/RDFService.java:232-239 | When the text after the last `/` holds a `#`, the name is exactly that text |
| RdfService.LastURIPartFile | src/main/java/org/commonwl/view/cwl/RDFService.java:234-237 | When the text after the last `/` has no `#`, the name is the segment between the second-to-last and the last `/` |
| RdfService.LastURIPartTopFile | src/main/java/org/commonwl/view/cwl/RDFService.java:234-237 | With no `/` before the last one, that segment starts at the beginning of the string |
| RdfService.FormatDefault | src/main/java/org/commonwl/view/cwl/RDFService.java:249-255 | The formatted value is a prefix of the value |
| RdfService.FormatDefaultCut | src/main/java/org/commonwl/view/cwl/RDFService.java:249-255 | A value without `^^` is kept whole. Otherwise it is cut right before its first `^^`. The result never contains `^^` |
| RdfService.FormatDefaultIdempotent | src/main/java/org/commonwl/view/cwl/RDFService.java:249-255 | Formatting twice equals formatting once |
| RdfService.FormatDefaultStripsDatatype | src/main/java/org/commonwl/view/cwl/RDFService.java:249-255 | A typed literal `value^^type` whose value has no `^^` (and does not end in `^`) formats to `value` |
| RdfService.StrToRuntype | src/main/java/org/commonwl/view/cwl/RDFService.java:262-273 | A kind is returned exactly for the three CWL process URIs, and that kind is the one the URI names; every other string gives None |
| RdfService.StrToRuntypeInverse | src/main/java/org/commonwl/view/cwl/RDFService.java:262-273 | `strToRuntype(u) == p` exactly when `u` is the type URI of `p` |
| RdfService.LabelFromName | src/main/java/org/commonwl/view/cwl/RDFService.java:280-282 | The label is a suffix of the name. It is the whole name when there is no `#`; otherwise it is the text after the first `#` |
| RdfService.LabelFromNameAfterHash | src/main/java/org/commonwl/view/cwl/RDFService.java:280-282 | `file#step` with no `#` in `file` is labelled `step` |
| JavaStrings.LastIndexOfLast | src/main/java/org/commonwl/view/cwl/RDFService.java:232 | `lastIndexOf(c)` is the index of the last `c`, or -1 when there is none |
| JavaStrings.LastIndexOfFromLast | src/main/java/org/commonwl/view/cwl/RDFService.java:236 | `lastIndexOf(c, from)` is the last `c` at or before `from`, or -1 |
| JavaStrings.IndexOfFirst | src/main/java/org/commonwl/view/cwl/RDFService.java:281 | `indexOf(c)` is the index of the first `c`, or -1 when there is none |
| JavaStrings.IndexOfFromFirst | src/main/java/org/commonwl/view/graphviz/DotWriter.java:242 | `indexOf(c, from)` is the first `c` from where the search starts, or -1 |
| JavaStrings.IndexOfStringFirst | src/main/java/org/commonwl/view/cwl/RDFService.java:250 | `indexOf(p)` is the first place where `p` occurs, or -1 when it occurs nowhere |
| JavaStrings.FileNameAfterSeparator | src/main/java/org/commonwl/view/graphviz/DotWriter.java:183 | The file name has no `/` or `\`. It follows a separator, or it is the whole path when the path has none |
| JavaStrings.NatToStringInjective | src/main/java/org/commonwl/view/graphviz/DotWriter.java:227-228 | Different counter values print differently |
| DotSpec.TextAppend | src/main/java/org/commonwl/view/graphviz/DotWriter.java:300-303 | Writing a line adds exactly the line and then EOL to the text |
| DotSpec.TextConcat | src/main/java/org/commonwl/view/graphviz/DotWriter.java:300-303 | The text of two runs of lines is the first run's text followed by the second's |
| DotSpec.NodeOptionsText | src/main/java/org/commonwl/view/graphviz/DotWriter.java:281-292 | The attribute list starts with `fillcolor="#94DDF4"`. It adds `,label="<label>";` only when the row has a label |
| DotSpec.PortLines | src/main/java/org/commonwl/view/graphviz/DotWriter.java:130-133 | One node line per input or output row |
| DotSpec.StepAt | src/main/java/org/commonwl/view/graphviz/DotWriter.java:178-187 | Writing the first row of a name gives one block named after it. That block is a cluster running the row's `run` exactly when the runtype is Workflow, and then the name is a key of the map. The map only gains keys |
| DotSpec.BuildSteps | src/main/java/org/commonwl/view/graphviz/DotWriter.java:169-192 | The step pass only adds keys to the sub-workflow map |
| DotSpec.BuildStepsDeduplicates | src/main/java/org/commonwl/view/graphviz/DotWriter.java:172-189 | One pass writes each display name at most once, never a name already written, and every name of its rows |
| DotSpec.BuildStepsBlockKind | src/main/java/org/commonwl/view/graphviz/DotWriter.java:178-187 | The first row of a name decides its block: a dotted cluster running that row's `run` when the runtype is Workflow, else a plain node |
| DotSpec.BuildStepsRecordsClusters | src/main/java/org/commonwl/view/graphviz/DotWriter.java:181-184 | Every cluster of a pass is named after a step that the map left by the pass records |
| DotSpec.StepAtRecordsFile | src/main/java/org/commonwl/view/graphviz/DotWriter.java:181-184 | A Workflow step is recorded as running `FileName(run)`, unless the sub-workflow's own pass writes a cluster of the same name, whose later `put` overwrites it |
| DotSpec.StepAtFrame | src/main/java/org/commonwl/view/graphviz/DotWriter.java:178-187 | Writing one step changes no key of the map other than the names of the clusters it writes, and adds no other key |
| DotSpec.BuildStepsFrame | src/main/java/org/commonwl/view/graphviz/DotWriter.java:169-192 | A step pass changes no key of the map other than the names of the clusters it writes, nested ones included, and adds no other key |
| DotSpec.BuildStepsRecordsFile | src/main/java/org/commonwl/view/graphviz/DotWriter.java:172-189 | After a pass, a cluster's name maps to the file name of its `run`, unless a cluster inside it or later in the pass reuses the name |
| DotSpec.NodeIDFromUriShape | src/main/java/org/commonwl/view/graphviz/DotWriter.java:239-249 | The node ID is the display name, except when that name is a key of the map and a `/` follows the last `#`. In that case it is the recorded file name, `#`, and the inner step ID |
| DotSpec.InnerStepIDAt | src/main/java/org/commonwl/view/graphviz/DotWriter.java:242-246 | With the last `#` and the first `/` after it known, the inner step ID is the text after that `/` |
| DotSpec.InnerStepIDNone | src/main/java/org/commonwl/view/graphviz/DotWriter.java:242-243 | There is no inner step ID exactly when no `/` follows the last `#` |
| DotSpec.InnerStepIDSome | src/main/java/org/commonwl/view/graphviz/DotWriter.java:242-245 | An inner step ID, when there is one, is the text after the first `/` at or after the last `#` (anywhere, when there is no `#`) |
| DotSpec.NodeIDIntoSubworkflow | src/main/java/org/commonwl/view/graphviz/DotWriter.java:239-249 | `.../wf.cwl#step/inner`, with step `wf.cwl#step` recorded as running `sub.cwl`, resolves to `sub.cwl#inner` |
| DotSpec.DefaultLabel | src/main/java/org/commonwl/view/graphviz/DotWriter.java:215-225 | A literal default is quoted as `\"` + formatted value + `\"`; a value that is neither literal nor URI is `[Complex Object]` |
| DotSpec.DefaultLabelTypedLiteral | src/main/java/org/commonwl/view/graphviz/DotWriter.java:215-219 | A typed literal `value^^type` is labelled `\"value\"` |
| DotSpec.LinkRowLines | src/main/java/org/commonwl/view/graphviz/DotWriter.java:207-229 | A row with `src` writes one line, even when it also has a default. A default-only row writes two lines. Any other row writes none |
| DotSpec.DefaultLinesText | src/main/java/org/commonwl/view/graphviz/DotWriter.java:212-228 | A default-only row writes an edge from `default<N>` to the destination's display name, then the node `default<N>` with its label and `fillcolor="#D5AEFC"` |
| DotSpec.DefaultCount | src/main/java/org/commonwl/view/graphviz/DotWriter.java:204-214 | The counter never exceeds the number of rows |
| DotSpec.LinkPassPrefix | src/main/java/org/commonwl/view/graphviz/DotWriter.java:205-230 | Later link rows never change the lines earlier rows wrote |
| DotSpec.DefaultNumbering | src/main/java/org/commonwl/view/graphviz/DotWriter.java:204-228 | Right after the lines of the rows before it, the `k`th row (if default-only) writes its two lines with number 1 + the count of earlier default-only rows |
| DotSpec.DefaultIdsDistinct | src/main/java/org/commonwl/view/graphviz/DotWriter.java:214-228 | Two default-only rows get different `default<N>` IDs, the later row the larger number |
| DotSpec.DefaultIdInjective | src/main/java/org/commonwl/view/graphviz/DotWriter.java:227-228 | Different counter values give different default node IDs |
| DotSpec.GraphLines | src/main/java/org/commonwl/view/graphviz/DotWriter.java:56-112 | The graph starts with `digraph workflow {` and the style blocks. The inputs cluster comes next, then the outputs cluster. The graph ends with `}` |
| DotWriting.DotWriter.constructor | src/main/java/org/commonwl/view/graphviz/DotWriter.java:43-48 | A new writer has written nothing and has an empty sub-workflow map |
| DotWriting.DotWriter.WriteLine | src/main/java/org/commonwl/view/graphviz/DotWriter.java:300-303 | Appends the line; the text grows by the line and EOL; the map is unchanged |
| DotWriting.DotWriter.WriteGraph | src/main/java/org/commonwl/view/graphviz/DotWriter.java:56-112 | Appends exactly `GraphLines`: header, inputs, outputs, steps, links, `}`. The map becomes the one the step pass leaves and keeps every earlier key |
| DotWriting.DotWriter.WriteHeader | src/main/java/org/commonwl/view/graphviz/DotWriter.java:63-96 | Appends the opening line and the three style blocks |
| DotWriting.DotWriter.WriteInputs | src/main/java/org/commonwl/view/graphviz/DotWriter.java:120-137 | Appends the dashed inputs cluster with one node line per input row |
| DotWriting.DotWriter.WriteOutputs | src/main/java/org/commonwl/view/graphviz/DotWriter.java:145-161 | Appends the dashed outputs cluster with one node line per output row |
| DotWriting.DotWriter.WritePortRows | src/main/java/org/commonwl/view/graphviz/DotWriter.java:130-133 | The row loop appends the node lines of the rows in order |
| DotWriting.DotWriter.WriteInputOutput | src/main/java/org/commonwl/view/graphviz/DotWriter.java:279-293 | Appends the node line of one input or output |
| DotWriting.DotWriter.WriteSteps | src/main/java/org/commonwl/view/graphviz/DotWriter.java:169-192 | Appends the rendering of the step pass and leaves the map that pass computes |
| DotWriting.DotWriter.WriteStep | src/main/java/org/commonwl/view/graphviz/DotWriter.java:180-187 | For a new name, appends its block (a plain node line, or the cluster after recording the name) |
| DotWriting.DotWriter.WriteSubworkflow | src/main/java/org/commonwl/view/graphviz/DotWriter.java:257-272 | Appends the dotted cluster: the four head lines, the run's inputs, steps and outputs, then `  }`, and no links |
| DotWriting.DotWriter.NodeIDFromUri | src/main/java/org/commonwl/view/graphviz/DotWriter.java:239-249 | Returns the node ID for the current map |
| DotWriting.DotWriter.WriteStepLinks | src/main/java/org/commonwl/view/graphviz/DotWriter.java:200-231 | Appends the link pass over all link rows; the map is unchanged |
| DotWriting.DotWriter.WriteStepLink | src/main/java/org/commonwl/view/graphviz/DotWriter.java:206-229 | One turn of the link loop: the counter goes up by one exactly for a default-only row, and the row's lines are appended with the new count |

## Left out

- The SPARQL queries of `RDFService` (`storeModel`, `graphExists`, `getLabelAndDoc`, `getInputs`, `getOutputs`, `getSteps`, `getStepLinks`, `getDockerLink`, `runQuery`) are not modelled. They do network I/O through Jena. Their answers are the rows in `DotSpec.RdfModel`, and only the columns the writer reads are kept.
- The step links are one sequence for the whole model, because `getStepLinks` is called without a workflow URI.
- `Paths.get(FilenameUtils.getPath(workflowUri)).relativize(Paths.get(value))` is the function parameter `relativize`. The JDK path library is not modelled.
- `FilenameUtils.getName` is modelled as the text after the last `/` or `\` (`JavaStrings.FileName`). Null-byte checks of commons-io are not modelled.
- `line.separator` is the constant `"\n"` (`DotSpec.EOL`).
- `IOException` from the `Writer` is not modelled: every write succeeds.
- WriteSteps: its termination rests on a ghost rank, given as a precondition (`DotSpec.WellNested`). Under it, the first row of each step name, when Workflow-typed, runs a workflow ranked below its own. Later rows of the same name are skipped without reading their `run`, so they are not constrained. The Java code does not check this, and when such first rows refer to each other in a cycle it recurses without end.
- WriteStepLinks: the counter is a `nat`; the 32-bit overflow of `defaultCount` after 2^31 - 1 default rows is not modelled.
- WriteHeader: the 28 header `writeLine` calls are written as a loop over the constant `DotSpec.GraphHeader`, which lists the same lines in the same order.
- `CWLProcess` is limited to the three kinds that `strToRuntype` can return.
- Spring wiring, the `rdfService` and `writer` fields, and the `Writer` object itself are not modelled. The writer holds the lines written, and `Output()` is their text.
