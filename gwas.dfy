/** The GWAS workflow: a manifest whose metadata carries the encoded user
    label and the workflow name, whose pods carry the user, and whose
    parameters are the request body's, then fixed ones, then the API
    environment. */
module GwasWorkflow {
  import opened Wrappers
  import opened Values
  import opened Dicts
  import opened Settings
  import Spec
  import Base
  import HelpersTest
  import LabelCodec
  import WorkflowRecords
  import ParamHelper

  // ------------------------------------------------------------ gds files

  /** A digit character for a value below ten. */
  function DigitChar(d: nat): char
    requires d < 10
  {
    ('0' as int + d) as char
  }

  /** The decimal digits of `n`, as an f-string writes an int. */
  function NatToString(n: nat): (s: string)
    ensures |s| >= 1
    ensures forall i :: 0 <= i < |s| ==> '0' <= s[i] <= '9'
  {
    if n < 10 then [DigitChar(n)] else NatToString(n / 10) + [DigitChar(n % 10)]
  }

  /** The number a string of decimal digits denotes. */
  function DigitsValue(s: string): nat
    requires forall i :: 0 <= i < |s| ==> '0' <= s[i] <= '9'
  {
    if s == [] then 0 else 10 * DigitsValue(s[..|s| - 1]) + (s[|s| - 1] as int - '0' as int)
  }

  /** The digits written for `n` denote `n`. */
  lemma {:induction false} NatToStringValue(n: nat)
    ensures DigitsValue(NatToString(n)) == n
  {
    if n >= 10 {
      NatToStringValue(n / 10);
      var s := NatToString(n);
      assert s[..|s| - 1] == NatToString(n / 10);
    }
  }

  /** The chromosome names of the file list: `1` to `22`, then `X`. */
  function ChromosomeName(i: nat): string
    requires i < 23
  {
    if i < 22 then NatToString(i + 1) else "X"
  }

  /** The fixed parts of a quoted gds file path around the chromosome name. */
  const GDS_PATH_PREFIX: string := "\"/commons-data/gds/chr"
  const GDS_PATH_SUFFIX: string := ".merged.vcf.gz.gds\""

  function GdsPath(chromosome: string): string {
    GDS_PATH_PREFIX + chromosome + GDS_PATH_SUFFIX
  }

  lemma GdsPathAffixesNoComma()
    ensures ',' !in GDS_PATH_PREFIX && ',' !in GDS_PATH_SUFFIX
  {
  }

  /** The quoted file paths, chromosome by chromosome. */
  function GdsFileList(): (files: seq<string>)
    ensures |files| == 23
    ensures forall i :: 0 <= i < 23 ==> files[i] == GdsPath(ChromosomeName(i))
  {
    seq(23, i requires 0 <= i < 23 => GdsPath(ChromosomeName(i)))
  }

  /** `sep.join(parts)`. */
  function Join(parts: seq<string>, sep: string): string {
    if parts == [] then []
    else if |parts| == 1 then parts[0]
    else parts[0] + sep + Join(parts[1..], sep)
  }

  function CommaCount(s: string): nat {
    if s == [] then 0 else (if s[0] == ',' then 1 else 0) + CommaCount(s[1..])
  }

  lemma {:induction false} CommaCountConcat(a: string, b: string)
    ensures CommaCount(a + b) == CommaCount(a) + CommaCount(b)
  {
    if a == [] {
      assert a + b == b;
    } else {
      assert (a + b)[1..] == a[1..] + b;
      CommaCountConcat(a[1..], b);
    }
  }

  /** Joining parts that hold no comma with `", "` puts exactly one comma
      between each two of them, so the parts can be told apart again. */
  lemma {:induction false} JoinCommaCount(parts: seq<string>)
    requires forall i :: 0 <= i < |parts| ==> CommaCount(parts[i]) == 0
    ensures CommaCount(Join(parts, ", ")) == if parts == [] then 0 else |parts| - 1
  {
    if |parts| > 1 {
      JoinCommaCount(parts[1..]);
      CommaCountConcat(parts[0] + ", ", Join(parts[1..], ", "));
      CommaCountConcat(parts[0], ", ");
    }
  }

  /** `__create_gds_files`: the paths in square brackets, separated by
      `", "`. */
  function CreateGdsFiles(): (files: string)
    ensures |files| >= 2 && files[0] == '[' && files[|files| - 1] == ']'
  {
    "[" + Join(GdsFileList(), ", ") + "]"
  }

  /** The gds file list names 23 paths: it has exactly 22 separating commas,
      path `i` is that of chromosome `i + 1` for the first 22, and the last
      is chromosome X. */
  lemma GdsFilesShape()
    ensures CommaCount(CreateGdsFiles()) == 22
    ensures forall i :: 0 <= i < 22 ==> GdsFileList()[i] == GdsPath(NatToString(i + 1))
    ensures GdsFileList()[22] == GdsPath("X")
  {
    var files := GdsFileList();
    forall i | 0 <= i < 23 ensures CommaCount(files[i]) == 0 {
      var name := ChromosomeName(i);
      assert forall j :: 0 <= j < |name| ==> name[j] != ',';
      NoCommaCount(name);
      GdsPathNoComma(name);
    }
    JoinCommaCount(files);
    var open, joined, close := "[", Join(files, ", "), "]";
    assert CreateGdsFiles() == open + joined + close;
    CommaCountConcat(open + joined, close);
    CommaCountConcat(open, joined);
  }

  /** A path holds a comma only where its chromosome name does. */
  lemma GdsPathNoComma(chromosome: string)
    requires CommaCount(chromosome) == 0
    ensures CommaCount(GdsPath(chromosome)) == 0
  {
    GdsPathAffixesNoComma();
    NoCommaCount(GDS_PATH_PREFIX);
    NoCommaCount(GDS_PATH_SUFFIX);
    CommaCountConcat(GDS_PATH_PREFIX + chromosome, GDS_PATH_SUFFIX);
    CommaCountConcat(GDS_PATH_PREFIX, chromosome);
  }

  lemma {:induction false} NoCommaCount(s: string)
    requires ',' !in s
    ensures CommaCount(s) == 0
  {
    if s != [] {
      assert s == [s[0]] + s[1..];
      NoCommaCount(s[1..]);
    }
  }

  // ------------------------------------------------------- class constants

  const HARD_CODED_PARAMETERS: Dict<Value> := [
    ("genome_build", Str("hg19")),
    ("pca_file", Str("/commons-data/pcs.RData")),
    ("relatedness_matrix_file", Str("/commons-data/KINGmatDeg3.RData")),
    ("n_segments", Int(0)),
    ("segment_length", Int(2000)),
    ("variant_block_size", Int(100)),
    ("mac_threshold", Int(0)),
    ("gds_files", Str(CreateGdsFiles()))]

  const PARAMETER_TO_DEFAULT_VALS: Dict<Value> := [
    ("genome_build", Str("hg19")),
    ("n_pcs", Int(0)),
    ("internal_api_env", Str("default")),
    ("control_cohort_definition_id", Int(-1)),
    ("out_prefix", Str("genesis_vadc")),
    ("segment_length", Int(2000)),
    ("variant_block_size", Int(1024)),
    ("hare_concept_id", Int(2000007027))]

  const ENUM_PARAMETERS_TO_ENUM_VALS: Dict<Value> := [("genome_build", List([Str("hg38"), Str("hg19")]))]

  const METADATA_ANNOTATIONS: Dict<Value> := [("workflows.argoproj.io/version", Str(">= 3.1.0"))]

  const METADATA_LABELS: Dict<Value> := [("workflows.argoproj.io/archive-strategy", Str("true"))]

  /** `genome_build` is the one enum parameter: its entry carries the enum
      `["hg38", "hg19"]`; every other name becomes a plain string
      parameter. */
  lemma GenomeBuildIsTheEnumParameter(name: string, value: Value)
    ensures name == "genome_build" ==>
      Get(ParamHelper.HelperEntry(name, value, PARAMETER_TO_DEFAULT_VALS, ENUM_PARAMETERS_TO_ENUM_VALS).fields, "enum")
        == Some(List([Str("hg38"), Str("hg19")]))
    ensures name != "genome_build" ==>
      Get(ParamHelper.HelperEntry(name, value, PARAMETER_TO_DEFAULT_VALS, ENUM_PARAMETERS_TO_ENUM_VALS).fields, "enum") == None
  {
    assert Keys(ENUM_PARAMETERS_TO_ENUM_VALS) == ["genome_build"];
    if name == "genome_build" {
      var enums := Get(ENUM_PARAMETERS_TO_ENUM_VALS, name);
      assert enums == Some(List([Str("hg38"), Str("hg19")]));
      assert Spec.IsSet(enums);
    }
  }

  /** A parameter whose name has no default gets no `default` key, since
      the fallback `""` is falsy. */
  lemma NoDefaultWithoutDefaultValue(name: string, value: Value)
    requires name !in Keys(PARAMETER_TO_DEFAULT_VALS)
    ensures Get(ParamHelper.HelperEntry(name, value, PARAMETER_TO_DEFAULT_VALS, ENUM_PARAMETERS_TO_ENUM_VALS).fields, "default") == None
  {
    GetFinds(PARAMETER_TO_DEFAULT_VALS, name);
  }

  // ---------------------------------------------------------------- class

  class Gwas {
    const base: Base.WorkflowBase
    /** The user the token names; decoding the token is not modelled. */
    const username: string
    const gen3usernameLabel: string
    const requestBody: Dict<Value>
    /** The Argo config file's contents, read by the source at setup time. */
    const config: Dict<Value>
    /** `json.dumps`, used to stringify nested request body values. */
    const dumps: Value -> string
    const settings: Settings

    /** The links between the fields that the constructor sets up. */
    predicate Valid() {
      base.metadataAnnotations == METADATA_ANNOTATIONS
      && base.metadataLabels == METADATA_LABELS
      && base.entrypoint == settings.gwasEntrypoint
      && gen3usernameLabel == HelpersTest.ConvertGen3usernameToLabel(username)
      && KeysUnique(requestBody)
    }

    /** `_get_internal_api_env`: the config's `environment`, or `default`. */
    function InternalApiEnv(): Value {
      GetOr(config, "environment", Str("default"))
    }

    /** The gateway claim: the config's `pvc`, or the backup claim. */
    function PvcName(): Value {
      GetOr(config, "pvc", Str(settings.backupPvcName))
    }

    /** The entries of the request body's parameters, stringified. */
    function UserDefinedEntries(): seq<Value> {
      ParamHelper.HelperEntries(WorkflowRecords.StringifyEntries(requestBody, dumps), PARAMETER_TO_DEFAULT_VALS, ENUM_PARAMETERS_TO_ENUM_VALS)
    }

    /** The entries of the hard-coded parameters. */
    function HardCodedEntries(): seq<Value> {
      ParamHelper.HelperEntries(HARD_CODED_PARAMETERS, PARAMETER_TO_DEFAULT_VALS, ENUM_PARAMETERS_TO_ENUM_VALS)
    }

    /** The entry of `internal_api_env`. */
    function InternalApiEnvEntries(): seq<Value> {
      ParamHelper.HelperEntries([("internal_api_env", InternalApiEnv())], PARAMETER_TO_DEFAULT_VALS, ENUM_PARAMETERS_TO_ENUM_VALS)
    }

    /** The parameters `_add_spec_parameters` adds, in order: the request
        body's, the hard-coded ones, then `internal_api_env`. */
    function SpecParameterEntries(): seq<Value> {
      UserDefinedEntries() + HardCodedEntries() + InternalApiEnvEntries()
    }

    constructor(namespace: string, requestBody: Dict<Value>, username: string, wfName: string, dryRun: bool,
                config: Dict<Value>, dumps: Value -> string, s: Settings)
      requires KeysUnique(requestBody)
      ensures Valid()
      ensures this.username == username && this.requestBody == requestBody
      ensures this.config == config && this.dumps == dumps && settings == s
      ensures base.wfName == wfName && base.dryRun == dryRun
      ensures base.apiVersion == s.apiVersion && base.kind == s.workflowKind
      ensures fresh(base) && fresh(base.metadata) && fresh(base.spec)
      ensures base.spec.Valid()
      ensures base.metadata.namespace == namespace
      ensures dryRun ==>
        base.metadata.name == [] && base.metadata.annotations == [] && base.metadata.labels == []
        && Base.FreshSpec(base.spec)
      ensures !dryRun ==> SetUp()
    {
      this.username := username;
      gen3usernameLabel := HelpersTest.ConvertGen3usernameToLabel(username);
      this.requestBody := requestBody;
      this.config := config;
      this.dumps := dumps;
      settings := s;
      base := new Base.WorkflowBase.Empty(namespace, s.gwasEntrypoint, dryRun, wfName, METADATA_ANNOTATIONS, METADATA_LABELS, s);
      new;
      if !dryRun {
        SetupMetadata();
        SetupSpec();
      }
    }

    /** The pod metadata a set-up workflow carries: the user's name as
        annotation, then the user's label, each under `gen3username`. */
    function PodMetadata(): Dict<Value> {
      [("annotations", Obj([("gen3username", Str(username))])), ("labels", Obj([("gen3username", Str(gen3usernameLabel))]))]
    }

    /** The state a set-up GWAS workflow is in. */
    predicate SetUp()
      reads base.metadata, base.spec
    {
      base.metadata.name == base.wfName
      && base.metadata.annotations == Put(PutAll([], METADATA_ANNOTATIONS), "workflow_name", GetOr(requestBody, "workflow_name", Null))
      && base.metadata.labels == Put(PutAll([], METADATA_LABELS), "gen3username", Str(gen3usernameLabel))
      && base.spec.Valid()
      && base.spec.entrypoint == settings.gwasEntrypoint
      && base.spec.podGC == [("strategy", Str(settings.podCompletionStrategy))]
      && base.spec.nodeSelector == [] && base.spec.tolerations == Obj([])
      && base.spec.podMetadata == PodMetadata()
      && base.spec.PodMetadataMap("annotations") == [("gen3username", Str(username))]
      && base.spec.PodMetadataMap("labels") == [("gen3username", Str(gen3usernameLabel))]
      && base.spec.Parameters() == SpecParameterEntries()
      && base.spec.volumes == [Spec.PvcVolume("gateway", PvcName()), Spec.EmptyDirVolume("workdir", "10Gi")]
      && base.spec.workflowTemplateRef == [("name", GetOr(requestBody, "template_version", Null))]
    }

    /** `setup_metadata` with the GWAS annotations and labels. */
    method SetupMetadata()
      requires Valid()
      requires base.metadata.name == [] && base.metadata.annotations == [] && base.metadata.labels == []
      modifies base.metadata
      ensures base.metadata.name == base.wfName
      ensures base.metadata.annotations == Put(PutAll([], METADATA_ANNOTATIONS), "workflow_name", GetOr(requestBody, "workflow_name", Null))
      ensures base.metadata.labels == Put(PutAll([], METADATA_LABELS), "gen3username", Str(gen3usernameLabel))
      ensures base.metadata.namespace == old(base.metadata.namespace)
    {
      base.metadata.SetName(base.wfName);
      AddMetadataAnnotations();
      AddMetadataLabels();
    }

    /** `_add_metadata_annotations`: the class annotations, then the
        request's workflow name. */
    method AddMetadataAnnotations()
      requires Valid()
      modifies base.metadata
      ensures base.metadata.annotations ==
        Put(PutAll(old(base.metadata.annotations), METADATA_ANNOTATIONS), "workflow_name", GetOr(requestBody, "workflow_name", Null))
      ensures unchanged(base.metadata`namespace, base.metadata`name, base.metadata`labels)
    {
      base.AddMetadataAnnotations();
      base.metadata.AddMetadataAnnotation("workflow_name", GetOr(requestBody, "workflow_name", Null));
    }

    /** `_add_metadata_labels`: the class labels, then the encoded user. */
    method AddMetadataLabels()
      requires Valid()
      modifies base.metadata
      ensures base.metadata.labels == Put(PutAll(old(base.metadata.labels), METADATA_LABELS), "gen3username", Str(gen3usernameLabel))
      ensures unchanged(base.metadata`namespace, base.metadata`name, base.metadata`annotations)
    {
      base.AddMetadataLabels();
      base.metadata.AddMetadataLabel("gen3username", Str(gen3usernameLabel));
    }

    /** `_add_user_defined_spec_parameters`: the request body, stringified. */
    method AddUserDefinedSpecParameters()
      requires Valid() && base.spec.Valid()
      modifies base.spec
      ensures base.spec.Valid()
      ensures base.spec.Parameters() == old(base.spec.Parameters()) + UserDefinedEntries()
      ensures unchanged(base.spec`entrypoint, base.spec`podGC, base.spec`nodeSelector, base.spec`tolerations,
                        base.spec`podMetadata, base.spec`volumes, base.spec`workflowTemplateRef)
    {
      var specParameters := WorkflowRecords.ConvertRequestBodyToParameterDict(requestBody, dumps);
      ParamHelper.AddParamHelper(base.spec, specParameters, PARAMETER_TO_DEFAULT_VALS, ENUM_PARAMETERS_TO_ENUM_VALS);
    }

    /** `_add_hard_coded_spec_parameters`. */
    method AddHardCodedSpecParameters()
      requires base.spec.Valid()
      modifies base.spec
      ensures base.spec.Valid()
      ensures base.spec.Parameters() == old(base.spec.Parameters()) + HardCodedEntries()
      ensures unchanged(base.spec`entrypoint, base.spec`podGC, base.spec`nodeSelector, base.spec`tolerations,
                        base.spec`podMetadata, base.spec`volumes, base.spec`workflowTemplateRef)
    {
      ParamHelper.AddParamHelper(base.spec, HARD_CODED_PARAMETERS, PARAMETER_TO_DEFAULT_VALS, ENUM_PARAMETERS_TO_ENUM_VALS);
    }

    /** The last step of `_add_spec_parameters`: `internal_api_env`. */
    method AddInternalApiEnvParameter()
      requires base.spec.Valid()
      modifies base.spec
      ensures base.spec.Valid()
      ensures base.spec.Parameters() == old(base.spec.Parameters()) + InternalApiEnvEntries()
      ensures unchanged(base.spec`entrypoint, base.spec`podGC, base.spec`nodeSelector, base.spec`tolerations,
                        base.spec`podMetadata, base.spec`volumes, base.spec`workflowTemplateRef)
    {
      ParamHelper.AddParamHelper(base.spec, [("internal_api_env", InternalApiEnv())], PARAMETER_TO_DEFAULT_VALS, ENUM_PARAMETERS_TO_ENUM_VALS);
    }

    /** `_add_spec_parameters`: the request body's parameters, then the
        hard-coded ones, then `internal_api_env`. */
    method AddSpecParameters()
      requires Valid() && base.spec.Valid()
      modifies base.spec
      ensures base.spec.Valid()
      ensures base.spec.Parameters() == old(base.spec.Parameters()) + SpecParameterEntries()
      ensures unchanged(base.spec`entrypoint, base.spec`podGC, base.spec`nodeSelector, base.spec`tolerations,
                        base.spec`podMetadata, base.spec`volumes, base.spec`workflowTemplateRef)
    {
      ghost var before := base.spec.Parameters();
      ghost var u, h, e := UserDefinedEntries(), HardCodedEntries(), InternalApiEnvEntries();
      AddUserDefinedSpecParameters();
      AddHardCodedSpecParameters();
      AddInternalApiEnvParameter();
      ParamHelper.ConcatAssoc(before + u, h, e);
      ParamHelper.ConcatAssoc(before, u, h + e);
      ParamHelper.ConcatAssoc(u, h, e);
    }

    /** `_add_spec_volumes`: the gateway claim, then a 10Gi work dir. */
    method AddSpecVolumes()
      modifies base.spec
      ensures base.spec.volumes == old(base.spec.volumes) + [Spec.PvcVolume("gateway", PvcName()), Spec.EmptyDirVolume("workdir", "10Gi")]
      ensures unchanged(base.spec`entrypoint, base.spec`podGC, base.spec`nodeSelector, base.spec`tolerations,
                        base.spec`podMetadata, base.spec`arguments, base.spec`workflowTemplateRef)
    {
      base.spec.AddPersistentVolumeClaim("gateway", PvcName());
      base.spec.AddEmptyDir("workdir", "10Gi");
    }

    /** `_add_spec_podMetadata_annotations`: the user's name. */
    method AddSpecPodMetadataAnnotations()
      requires base.spec.Valid()
      modifies base.spec
      ensures base.spec.Valid()
      ensures base.spec.podMetadata ==
        Put(old(base.spec.podMetadata), "annotations", Obj(Put(old(base.spec.PodMetadataMap("annotations")), "gen3username", Str(username))))
      ensures base.spec.PodMetadataMap("annotations") == Put(old(base.spec.PodMetadataMap("annotations")), "gen3username", Str(username))
      ensures base.spec.PodMetadataMap("labels") == old(base.spec.PodMetadataMap("labels"))
      ensures unchanged(base.spec`entrypoint, base.spec`podGC, base.spec`nodeSelector, base.spec`tolerations,
                        base.spec`arguments, base.spec`volumes, base.spec`workflowTemplateRef)
    {
      base.spec.AddPodMetadataAnnotation("gen3username", Str(username));
    }

    /** `_add_spec_podMetadata_labels`: the user's encoded label. */
    method AddSpecPodMetadataLabels()
      requires base.spec.Valid()
      modifies base.spec
      ensures base.spec.Valid()
      ensures base.spec.podMetadata ==
        Put(old(base.spec.podMetadata), "labels", Obj(Put(old(base.spec.PodMetadataMap("labels")), "gen3username", Str(gen3usernameLabel))))
      ensures base.spec.PodMetadataMap("labels") == Put(old(base.spec.PodMetadataMap("labels")), "gen3username", Str(gen3usernameLabel))
      ensures base.spec.PodMetadataMap("annotations") == old(base.spec.PodMetadataMap("annotations"))
      ensures unchanged(base.spec`entrypoint, base.spec`podGC, base.spec`nodeSelector, base.spec`tolerations,
                        base.spec`arguments, base.spec`volumes, base.spec`workflowTemplateRef)
    {
      base.spec.AddPodMetadataLabel("gen3username", Str(gen3usernameLabel));
    }

    /** `setup_spec` of the GWAS workflow, on a spec the constructor left
        fresh. */
    method SetupSpec()
      requires Valid() && Base.FreshSpec(base.spec)
      modifies base.spec
      ensures base.spec.Valid()
      ensures base.spec.entrypoint == settings.gwasEntrypoint
      ensures base.spec.podGC == [("strategy", Str(settings.podCompletionStrategy))]
      ensures base.spec.nodeSelector == [] && base.spec.tolerations == Obj([])
      ensures base.spec.podMetadata == PodMetadata()
      ensures base.spec.PodMetadataMap("annotations") == [("gen3username", Str(username))]
      ensures base.spec.PodMetadataMap("labels") == [("gen3username", Str(gen3usernameLabel))]
      ensures base.spec.Parameters() == SpecParameterEntries()
      ensures base.spec.volumes == [Spec.PvcVolume("gateway", PvcName()), Spec.EmptyDirVolume("workdir", "10Gi")]
      ensures base.spec.workflowTemplateRef == [("name", GetOr(requestBody, "template_version", Null))]
    {
      base.SetupSpec();
      base.spec.SetPodGCStrategy(settings.podCompletionStrategy);
      assert base.spec.PodMetadataMap("annotations") == [] && base.spec.PodMetadataMap("labels") == [];
      AddSpecPodMetadataAnnotations();
      AddSpecPodMetadataLabels();
      assert base.spec.PodMetadataMap("annotations") == [("gen3username", Str(username))];
      assert base.spec.PodMetadataMap("labels") == [("gen3username", Str(gen3usernameLabel))];
      assert base.spec.podMetadata == PodMetadata();
      assert base.spec.Parameters() == [];
      AddSpecParameters();
      assert base.spec.Parameters() == SpecParameterEntries() by {
        assert [] + SpecParameterEntries() == SpecParameterEntries();
      }
      AddSpecVolumes();
      base.spec.SetWorkflowTemplateRef(GetOr(requestBody, "template_version", Null));
    }

    /** `generate_argo_workflow`: the manifest dict. */
    method GenerateArgoWorkflow() returns (d: Dict<Value>)
      ensures d == base.Manifest()
      ensures Keys(d) == ["apiVersion", "kind", "metadata", "spec"]
    {
      d := base.ToDict();
    }
  }

  /** A set-up GWAS workflow carries the user in its labels: the label
      `gen3username` reads back, through the engine's decoder, as the user
      who submitted it, and the archive strategy label is `true`. */
  lemma SetUpLabelsNameTheUser(username: string, requestBody: Dict<Value>, labels: Dict<Value>)
    requires labels == Put(PutAll([], METADATA_LABELS), "gen3username", Str(HelpersTest.ConvertGen3usernameToLabel(username)))
    ensures Get(labels, "workflows.argoproj.io/archive-strategy") == Some(Str("true"))
    ensures Get(labels, "gen3username").Some? && Get(labels, "gen3username").value.Str?
    ensures LabelCodec.ConvertUsernameLabelToGen3username(Some(Get(labels, "gen3username").value.s)) == username
  {
    var base := PutAll([], METADATA_LABELS);
    assert base == [("workflows.argoproj.io/archive-strategy", Str("true"))];
    GetPut(base, "gen3username", Str(HelpersTest.ConvertGen3usernameToLabel(username)), "gen3username");
    GetPut(base, "gen3username", Str(HelpersTest.ConvertGen3usernameToLabel(username)), "workflows.argoproj.io/archive-strategy");
    HelpersTest.LabelRoundTrip(username);
  }
}
