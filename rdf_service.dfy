/** The pure helpers of RDFService (src/main/java/org/commonwl/view/cwl/RDFService.java)
    that turn URIs and RDF node texts into display names, labels and process
    kinds. The SPARQL queries of the same class are not part of this module:
    their answers reach the DOT writer as rows (see DotSpec.RdfModel). */
module RdfService {
  import opened Wrappers
  import opened JavaStrings

  /** The CWL process kinds the runtype mapping can produce (CWLProcess). */
  datatype CwlProcess = Workflow | CommandLineTool | ExpressionTool

  const WorkflowTypeUri: string := "https://w3id.org/cwl/cwl#Workflow"
  const CommandLineToolTypeUri: string := "https://w3id.org/cwl/cwl#CommandLineTool"
  const ExpressionToolTypeUri: string := "https://w3id.org/cwl/cwl#ExpressionTool"

  /** The RDF type URI that names each process kind. */
  function ProcessTypeUri(p: CwlProcess): string
  {
    match p
    case Workflow => WorkflowTypeUri
    case CommandLineTool => CommandLineToolTypeUri
    case ExpressionTool => ExpressionToolTypeUri
  }

  /** The display name of a URI: the text after the last `/` when it carries a
      `#` fragment, otherwise the path segment before the last `/`; a string
      without `/` is its own name. */
  function LastURIPart(uri: string): string
  {
    var lastSlash := LastIndexOf(uri, '/');
    if lastSlash != -1 then
      var strippedUri := uri[lastSlash + 1..];
      if '#' !in strippedUri then
        var secondToLastSlash := LastIndexOfFrom(uri, '/', lastSlash - 1);
        uri[secondToLastSlash + 1..lastSlash]
      else
        strippedUri
    else
      uri
  }

  /** A display name holds no `/`, and a string without `/` is its own name. */
  lemma LastURIPartNoSlash(uri: string)
    ensures '/' !in LastURIPart(uri)
    ensures '/' !in uri ==> LastURIPart(uri) == uri
  {
    var lastSlash := LastIndexOf(uri, '/');
    LastIndexOfLast(uri, '/');
    if lastSlash != -1 {
      var strippedUri := uri[lastSlash + 1..];
      if '#' !in strippedUri {
        var second := LastIndexOfFrom(uri, '/', lastSlash - 1);
        LastIndexOfFromLast(uri, '/', lastSlash - 1);
        assert forall k :: second < k < lastSlash ==> uri[k] != '/';
      } else {
        assert forall k :: lastSlash < k < |uri| ==> uri[k] != '/';
      }
    } else {
      assert forall k :: 0 <= k < |uri| ==> uri[k] != '/';
    }
  }

  /** The display name is a contiguous piece of the URI. */
  lemma LastURIPartIsInfix(uri: string)
    ensures IsInfix(LastURIPart(uri), uri)
  {
    var lastSlash := LastIndexOf(uri, '/');
    if lastSlash != -1 {
      var strippedUri := uri[lastSlash + 1..];
      if '#' !in strippedUri {
        var second := LastIndexOfFrom(uri, '/', lastSlash - 1);
        assert uri[second + 1..lastSlash] == LastURIPart(uri);
      } else {
        assert uri[lastSlash + 1..|uri|] == LastURIPart(uri);
      }
    } else {
      assert uri[0..|uri|] == LastURIPart(uri);
    }
  }

  /** A last segment with a fragment is the display name, unchanged:
      `.../wf.cwl#step1` names `wf.cwl#step1`. */
  lemma LastURIPartFragment(base: string, segment: string)
    requires '/' !in segment && '#' in segment
    ensures LastURIPart(base + "/" + segment) == segment
  {
    var uri := base + "/" + segment;
    assert uri[|base| + 1..] == segment;
    LastIndexOfAt(uri, '/', |base|);
  }

  /** A last segment without a fragment gives way to the segment between the
      two last slashes: `file:///a/b/c.cwl` names `b`. */
  lemma LastURIPartFile(dir: string, name: string, file: string)
    requires '/' !in name && '/' !in file && '#' !in file
    ensures LastURIPart(dir + "/" + name + "/" + file) == name
  {
    var uri := dir + "/" + name + "/" + file;
    var lastSlash := |dir| + 1 + |name|;
    assert uri[lastSlash + 1..] == file;
    LastIndexOfAt(uri, '/', lastSlash);
    var front := uri[..lastSlash];
    assert front == dir + "/" + name;
    assert front[|dir| + 1..] == name;
    LastIndexOfAt(front, '/', |dir|);
    assert uri[|dir| + 1..lastSlash] == name;
  }

  /** With only one slash and no fragment after it, the name is everything
      before the slash. */
  lemma LastURIPartTopFile(name: string, file: string)
    requires '/' !in name && '/' !in file && '#' !in file
    ensures LastURIPart(name + "/" + file) == name
  {
    var uri := name + "/" + file;
    assert uri[|name| + 1..] == file;
    LastIndexOfAt(uri, '/', |name|);
    LastIndexOfFromLast(uri, '/', |name| - 1);
    assert uri[..|name|] == name;
  }

  /** A default value as a node label: the text before the first `^^`, which
      drops the datatype of a typed literal. */
  function FormatDefault(defaultVal: string): (r: string)
    ensures r <= defaultVal
  {
    var lastCaret := IndexOfString(defaultVal, "^^");
    if lastCaret != -1 then defaultVal[..lastCaret] else defaultVal
  }

  /** A value without `^^` is kept whole; a value with one is cut right
      before its first `^^`; either way the label holds no `^^`. */
  lemma FormatDefaultCut(defaultVal: string)
    ensures !Contains(defaultVal, "^^") ==> FormatDefault(defaultVal) == defaultVal
    ensures Contains(defaultVal, "^^") ==>
      && OccursAt(defaultVal, "^^", |FormatDefault(defaultVal)|)
      && forall j: nat :: j < |FormatDefault(defaultVal)| ==> !OccursAt(defaultVal, "^^", j)
    ensures !Contains(FormatDefault(defaultVal), "^^")
  {
    IndexOfStringFirst(defaultVal, "^^");
    var lastCaret := IndexOfString(defaultVal, "^^");
    if lastCaret != -1 {
      NoOccurrenceBefore(defaultVal, "^^", lastCaret);
    }
    IndexOfStringFirst(FormatDefault(defaultVal), "^^");
  }

  /** Formatting twice is formatting once. */
  lemma FormatDefaultIdempotent(defaultVal: string)
    ensures FormatDefault(FormatDefault(defaultVal)) == FormatDefault(defaultVal)
  {
    FormatDefaultCut(defaultVal);
    FormatDefaultCut(FormatDefault(defaultVal));
  }

  /** A typed literal `value^^typeUri` is shown as `value`:
      `"5"^^xsd:integer` becomes `"5"`. */
  lemma FormatDefaultStripsDatatype(value: string, typeUri: string)
    requires !Contains(value, "^^")
    requires value == [] || value[|value| - 1] != '^'
    ensures FormatDefault(value + "^^" + typeUri) == value
  {
    var s := value + "^^" + typeUri;
    IndexOfStringFirst(value, "^^");
    assert s[|value|..|value| + 2] == "^^";
    forall j: nat | j < |value|
      ensures !OccursAt(s, "^^", j)
    {
      if j + 2 <= |value| {
        assert s[j..j + 2] == value[j..j + 2];
        assert !OccursAt(value, "^^", j);
      } else {
        assert s[j..j + 2][0] == value[|value| - 1];
      }
    }
    IndexOfStringAt(s, "^^", |value|);
    assert s[..|value|] == value;
  }

  /** The process kind named by an RDF type URI: exactly the three CWL process
      URIs are recognised; anything else is None (Java's null). */
  function StrToRuntype(runtype: string): (r: Option<CwlProcess>)
    ensures r.Some? <==> runtype in {WorkflowTypeUri, CommandLineToolTypeUri, ExpressionToolTypeUri}
    ensures r.Some? ==> ProcessTypeUri(r.value) == runtype
  {
    if runtype == WorkflowTypeUri then Some(Workflow)
    else if runtype == CommandLineToolTypeUri then Some(CommandLineTool)
    else if runtype == ExpressionToolTypeUri then Some(ExpressionTool)
    else None
  }

  /** The runtype mapping is the inverse of naming a process kind by its URI. */
  lemma StrToRuntypeInverse(runtype: string, p: CwlProcess)
    ensures StrToRuntype(runtype) == Some(p) <==> runtype == ProcessTypeUri(p)
  {
  }

  /** The label of a name `filename#step`: the text after the first `#`, or
      the whole name when it has none. */
  function LabelFromName(name: string): (r: string)
    ensures |r| <= |name| && r == name[|name| - |r|..]
    ensures '#' !in name ==> r == name
    ensures '#' in name ==> |r| < |name| && name[|name| - |r| - 1] == '#' && '#' !in name[..|name| - |r| - 1]
  {
    IndexOfFirst(name, '#');
    name[IndexOf(name, '#') + 1..]
  }

  /** `file#step` is labelled `step` when the file part has no `#`. */
  lemma LabelFromNameAfterHash(file: string, step: string)
    requires '#' !in file
    ensures LabelFromName(file + "#" + step) == step
  {
    var name := file + "#" + step;
    assert name[..|file|] == file;
    IndexOfAt(name, '#', |file|);
    assert name[|file| + 1..] == step;
  }
}
