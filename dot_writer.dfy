/** The DotWriter class (src/main/java/org/commonwl/view/graphviz/DotWriter.java):
    a writer that emits a DOT graph line by line while recording, in its
    `subworkflows` field, which step names run sub-workflows. Each method is
    proved to write exactly the lines DotSpec gives for the same rows. */
module DotWriting {
  import opened Wrappers
  import opened JavaStrings
  import opened RdfService
  import opened DotSpec

  class DotWriter {
    /** The lines written so far; the Writer holds `Text(lines)`. */
    var lines: seq<string>
    /** Step name -> file name of the sub-workflow that step runs. */
    var subworkflows: map<string, string>

    /** A writer that has written nothing and knows no sub-workflows. */
    constructor ()
      ensures lines == [] && subworkflows == map[]
    {
      lines := [];
      subworkflows := map[];
    }

    /** The characters the Writer has received. */
    function Output(): string
      reads this
    {
      Text(lines)
    }

    /** `writeLine`: the line, then EOL; nothing else changes. */
    method WriteLine(line: string)
      modifies this
      ensures lines == old(lines) + [line]
      ensures subworkflows == old(subworkflows)
      ensures Output() == old(Output()) + line + EOL
    {
      TextAppend(lines, line);
      lines := lines + [line];
    }

    /** `writeGraph`: the header and style blocks, the inputs and outputs
        clusters, the steps, the links, then `}`. The sub-workflow map is kept
        from earlier calls and grows with the steps of this one. */
    method WriteGraph(m: RdfModel, workflowUri: string, ghost rank: map<string, nat>,
                      relativize: (string, string) -> string)
      requires WellNested(m, rank) && workflowUri in rank
      modifies this
      ensures lines == old(lines) + GraphLines(m, rank, workflowUri, old(subworkflows), relativize)
      ensures Output() == old(Output()) + Text(GraphLines(m, rank, workflowUri, old(subworkflows), relativize))
      ensures subworkflows == BuildSteps(m, rank, workflowUri, 0, {}, old(subworkflows)).subworkflows
      ensures old(subworkflows).Keys <= subworkflows.Keys
    {
      ghost var built := BuildSteps(m, rank, workflowUri, 0, {}, subworkflows);
      WriteHeader();
      WriteInputs(m, workflowUri);
      WriteOutputs(m, workflowUri);
      WriteSteps(m, workflowUri, rank);
      WriteStepLinks(m, workflowUri, relativize);
      WriteLine(GraphEnd);
      AppendSix(old(lines), GraphHeader, InputsLines(m, workflowUri), OutputsLines(m, workflowUri),
                RenderSteps(m, built.blocks), LinkLines(m.stepLinks, built.subworkflows, workflowUri, relativize), [GraphEnd]);
      TextConcat(old(lines), GraphLines(m, rank, workflowUri, old(subworkflows), relativize));
    }

    /** The fixed opening of `writeGraph`: the `digraph` line and the graph,
        node and edge style blocks, in order. */
    method WriteHeader()
      modifies this
      ensures lines == old(lines) + GraphHeader
      ensures subworkflows == old(subworkflows)
    {
      var k := 0;
      while k < |GraphHeader|
        invariant 0 <= k <= |GraphHeader|
        invariant lines == old(lines) + GraphHeader[..k]
        invariant subworkflows == old(subworkflows)
      {
        WriteLine(GraphHeader[k]);
        assert GraphHeader[..k + 1] == GraphHeader[..k] + [GraphHeader[k]];
        k := k + 1;
      }
    }

    /** `writeInputs`: the dashed inputs cluster, one node per input row. */
    method WriteInputs(m: RdfModel, workflowUri: string)
      modifies this
      ensures lines == old(lines) + InputsLines(m, workflowUri)
      ensures subworkflows == old(subworkflows)
    {
      WriteLine("  subgraph cluster_inputs {");
      WriteLine(SameRank);
      WriteLine("    style = \"dashed\";");
      WriteLine("    label = \"Workflow Inputs\";");
      var inputs := Rows(m.inputs, workflowUri);
      WritePortRows(inputs);
      WriteLine(ClusterEnd);
      DashedClusterAppend(old(lines), "  subgraph cluster_inputs {", "    label = \"Workflow Inputs\";", PortLines(inputs));
    }

    /** `writeOutputs`: the dashed outputs cluster, one node per output row. */
    method WriteOutputs(m: RdfModel, workflowUri: string)
      modifies this
      ensures lines == old(lines) + OutputsLines(m, workflowUri)
      ensures subworkflows == old(subworkflows)
    {
      WriteLine("  subgraph cluster_outputs {");
      WriteLine(SameRank);
      WriteLine("    style = \"dashed\";");
      WriteLine("    label = \"Workflow Outputs\";");
      var outputs := Rows(m.outputs, workflowUri);
      WritePortRows(outputs);
      WriteLine(ClusterEnd);
      DashedClusterAppend(old(lines), "  subgraph cluster_outputs {", "    label = \"Workflow Outputs\";", PortLines(outputs));
    }

    /** The row loop of `writeInputs` and `writeOutputs`: one node line per
        row, in row order. */
    method WritePortRows(rows: seq<PortRow>)
      modifies this
      ensures lines == old(lines) + PortLines(rows)
      ensures subworkflows == old(subworkflows)
    {
      var i := 0;
      while i < |rows|
        invariant 0 <= i <= |rows|
        invariant lines == old(lines) + PortLines(rows[..i])
        invariant subworkflows == old(subworkflows)
      {
        WriteInputOutput(rows[i]);
        assert rows[..i + 1][..i] == rows[..i];
        i := i + 1;
      }
      assert rows[..i] == rows;
    }

    /** `writeInputOutput`: the node line of one input or output. */
    method WriteInputOutput(inputOutput: PortRow)
      modifies this
      ensures lines == old(lines) + [InputOutputLine(inputOutput)]
      ensures subworkflows == old(subworkflows)
    {
      var nodeOptions := ["fillcolor=\"#94DDF4\""];
      if inputOutput.labelText.Some? {
        var labelText := inputOutput.labelText.value;
        nodeOptions := nodeOptions + ["label=\"" + labelText + "\";"];
      }
      assert nodeOptions == NodeOptions(inputOutput);
      var inputOutputName := LastURIPart(inputOutput.name);
      WriteLine("    \"" + inputOutputName + "\" [" + Join(",", nodeOptions) + "];");
    }

    /** `writeSteps`: each step name of the workflow once, in row order, as a
        plain node or, for a Workflow run, as the cluster of that run. */
    method WriteSteps(m: RdfModel, workflowUri: string, ghost rank: map<string, nat>)
      requires WellNested(m, rank) && workflowUri in rank
      modifies this
      decreases rank[workflowUri], 2
      ensures lines == old(lines) + RenderSteps(m, BuildSteps(m, rank, workflowUri, 0, {}, old(subworkflows)).blocks)
      ensures subworkflows == BuildSteps(m, rank, workflowUri, 0, {}, old(subworkflows)).subworkflows
    {
      var steps := Rows(m.steps, workflowUri);
      ghost var total := BuildSteps(m, rank, workflowUri, 0, {}, subworkflows);
      var addedSteps: set<string> := {};
      var i := 0;
      while i < |steps|
        invariant 0 <= i <= |steps|
        invariant Seen(steps, i, addedSteps)
        invariant old(lines) + RenderSteps(m, total.blocks)
                  == lines + RenderSteps(m, BuildSteps(m, rank, workflowUri, i, addedSteps, subworkflows).blocks)
        invariant total.subworkflows == BuildSteps(m, rank, workflowUri, i, addedSteps, subworkflows).subworkflows
      {
        var step := steps[i];
        var stepName := LastURIPart(step.step);
        BuildStepsUnfold(m, rank, workflowUri, i, addedSteps, subworkflows);
        SeenStep(steps, i, addedSteps);
        if stepName !in addedSteps {
          ghost var before := lines;
          ghost var one := StepAt(m, rank, workflowUri, i, subworkflows);
          ghost var rest := BuildSteps(m, rank, workflowUri, i + 1, addedSteps + {stepName}, one.subworkflows);
          RenderStepsFront(m, one.blocks, rest.blocks);
          WriteStep(m, workflowUri, rank, i, step, stepName);
          AppendAssoc(before, RenderBlock(m, one.blocks[0]), RenderSteps(m, rest.blocks));
          addedSteps := addedSteps + {stepName};
          assert BuildSteps(m, rank, workflowUri, i + 1, addedSteps, subworkflows) == rest;
        }
        i := i + 1;
      }
    }

    /** The body of the `writeSteps` loop for a name not yet written: a
        Workflow run is recorded in the sub-workflow map under the step name and
        written as its cluster; any other runtype is a plain node. */
    method WriteStep(m: RdfModel, workflowUri: string, ghost rank: map<string, nat>, ghost i: nat,
                     step: StepRow, stepName: string)
      requires WellNested(m, rank) && workflowUri in rank && i < |Rows(m.steps, workflowUri)|
      requires step == Rows(m.steps, workflowUri)[i] && stepName == StepName(step)
      requires FirstOfName(Rows(m.steps, workflowUri), i)
      modifies this
      decreases rank[workflowUri], 1
      ensures lines == old(lines) + RenderBlock(m, StepAt(m, rank, workflowUri, i, old(subworkflows)).blocks[0])
      ensures subworkflows == StepAt(m, rank, workflowUri, i, old(subworkflows)).subworkflows
    {
      var runType := StrToRuntype(step.runtype);
      if runType == Some(Workflow) {
        var runFile := step.run;
        subworkflows := subworkflows[stepName := FileName(runFile)];
        WriteSubworkflow(stepName, m, runFile, rank);
      } else {
        WriteLine("  \"" + stepName + "\";");
      }
    }

    /** `writeSubworkflow`: the dotted cluster named after the step, holding
        the inputs, the steps and the outputs of the workflow it runs. */
    method WriteSubworkflow(name: string, m: RdfModel, subWorkflowUri: string, ghost rank: map<string, nat>)
      requires WellNested(m, rank) && subWorkflowUri in rank
      modifies this
      decreases rank[subWorkflowUri], 3
      ensures lines == old(lines) + RenderBlock(m, SubworkflowCluster(name, subWorkflowUri,
                        BuildSteps(m, rank, subWorkflowUri, 0, {}, old(subworkflows)).blocks))
      ensures subworkflows == BuildSteps(m, rank, subWorkflowUri, 0, {}, old(subworkflows)).subworkflows
    {
      ghost var inner := BuildSteps(m, rank, subWorkflowUri, 0, {}, subworkflows);
      WriteLine("  subgraph \"cluster_" + name + "\" {");
      WriteLine(SameRank);
      WriteLine("    style = \"dotted\";");
      WriteLine("    label = \"" + name + "\";");
      WriteInputs(m, subWorkflowUri);
      WriteSteps(m, subWorkflowUri, rank);
      WriteOutputs(m, subWorkflowUri);
      WriteLine(ClusterEnd);
      DottedClusterAppend(old(lines), name, InputsLines(m, subWorkflowUri), RenderSteps(m, inner.blocks),
                          OutputsLines(m, subWorkflowUri));
    }

    /** `nodeIDFromUri`, reading the sub-workflow map. */
    method NodeIDFromUri(uri: string) returns (nodeID: string)
      ensures nodeID == DotSpec.NodeIDFromUri(subworkflows, uri)
    {
      nodeID := LastURIPart(uri);
      if nodeID in subworkflows {
        var slashAfterHashIndex := IndexOfFrom(uri, '/', LastIndexOf(uri, '#'));
        assert InnerStepID(uri) == if slashAfterHashIndex != -1 then Some(uri[slashAfterHashIndex + 1..]) else None;
        if slashAfterHashIndex != -1 {
          var subworkflowStepID := uri[slashAfterHashIndex + 1..];
          nodeID := subworkflows[nodeID] + "#" + subworkflowStepID;
        }
      }
    }

    /** `writeStepLinks`: for every link row of the model, an edge between
        resolved node IDs, or a numbered default node and its edge. */
    method WriteStepLinks(m: RdfModel, workflowUri: string, relativize: (string, string) -> string)
      modifies this
      ensures lines == old(lines) + LinkLines(m.stepLinks, old(subworkflows), workflowUri, relativize)
      ensures subworkflows == old(subworkflows)
    {
      var stepLinks := m.stepLinks;
      ghost var format := LinkFormat(subworkflows, workflowUri, relativize);
      var defaultCount := 0;
      var i := 0;
      while i < |stepLinks|
        invariant 0 <= i <= |stepLinks|
        invariant defaultCount == DefaultCount(stepLinks[..i])
        invariant lines == old(lines) + LinkPass(stepLinks[..i], format)
        invariant subworkflows == old(subworkflows)
      {
        defaultCount := WriteStepLink(stepLinks[i], defaultCount, workflowUri, relativize);
        LinkPassStep(stepLinks, i, format);
        assert format(stepLinks[i], defaultCount)
            == LinkRowLines(stepLinks[i], defaultCount, subworkflows, workflowUri, relativize);
        AppendAssoc(old(lines), LinkPass(stepLinks[..i], format), format(stepLinks[i], defaultCount));
        i := i + 1;
      }
      assert stepLinks[..i] == stepLinks;
    }

    /** One turn of the `writeStepLinks` loop: the lines of one link row, the
        default counter being bumped first when the row only has a default. */
    method WriteStepLink(stepLink: LinkRow, defaultCount: nat, workflowUri: string,
                         relativize: (string, string) -> string) returns (newCount: nat)
      modifies this
      ensures newCount == defaultCount + if IsDefaultOnly(stepLink) then 1 else 0
      ensures lines == old(lines) + LinkRowLines(stepLink, newCount, subworkflows, workflowUri, relativize)
      ensures subworkflows == old(subworkflows)
    {
      newCount := defaultCount;
      if stepLink.src.Some? {
        var sourceID := NodeIDFromUri(stepLink.src.value);
        var destID := NodeIDFromUri(stepLink.dest);
        WriteLine("  \"" + sourceID + "\" -> \"" + destID + "\";");
      } else if stepLink.default.Some? {
        newCount := newCount + 1;
        var defaultVal := FormatDefault(stepLink.default.value.text);
        var destID := LastURIPart(stepLink.dest);
        var nodeLabel;
        if stepLink.default.value.kind == Literal {
          nodeLabel := "\\\"" + defaultVal + "\\\"";
        } else if stepLink.default.value.kind == UriResource {
          nodeLabel := relativize(workflowUri, defaultVal);
        } else {
          nodeLabel := "[Complex Object]";
        }
        assert nodeLabel == DefaultLabel(stepLink.default.value, workflowUri, relativize);
        DefaultLinesText(stepLink, newCount, subworkflows, workflowUri, relativize);
        WriteLine("  \"default" + NatToString(newCount) + "\" -> \"" + destID + "\";");
        WriteLine("  \"default" + NatToString(newCount) + "\" [label=\"" + nodeLabel + "\", fillcolor=\"#D5AEFC\"]");
      }
    }
  }
}
