/** The Patient Level Prediction workflow: a manifest labelled with the
    encoded user and the hex-encoded team project, placed on a scaling group
    chosen from the config, whose parameters are the request body's then
    the API environment, and whose failed steps are explained by a fixed
    table of messages. */
module PlpWorkflow {
  import opened Wrappers
  import opened Values
  import opened Dicts
  import opened Settings
  import Spec
  import Base
  import LabelCodec
  import WorkflowRecords
  import ParamHelper

  // ------------------------------------------------------------ constants

  const HARD_CODED_PARAMETERS: Dict<Value> := []

  const PARAMETER_TO_DEFAULT_VALS: Dict<Value> := [
    ("internal_api_env", Str("default")),
    ("out_prefix", Str("genesis_vadc"))]

  const ENUM_PARAMETERS_TO_ENUM_VALS: Dict<Value> := []

  const METADATA_ANNOTATIONS: Dict<Value> := [("workflows.argoproj.io/version", Str(">= 3.1.0"))]

  const METADATA_LABELS: Dict<Value> := [("workflows.argoproj.io/archive-strategy", Str("true"))]

  /** With no enum parameters, every PLP parameter is a string parameter:
      no entry carries an `enum` key, and its default is the workflow's
      default for the name when that is set. */
  lemma {:induction false} PlpParametersAreStrings(name: string, value: Value)
    ensures Get(ParamHelper.HelperEntry(name, value, PARAMETER_TO_DEFAULT_VALS, ENUM_PARAMETERS_TO_ENUM_VALS).fields, "enum") == None
    ensures name == "out_prefix" ==>
      Get(ParamHelper.HelperEntry(name, value, PARAMETER_TO_DEFAULT_VALS, ENUM_PARAMETERS_TO_ENUM_VALS).fields, "default")
        == Some(Str("genesis_vadc"))
    ensures name != "out_prefix" && name != "internal_api_env" ==>
      Get(ParamHelper.HelperEntry(name, value, PARAMETER_TO_DEFAULT_VALS, ENUM_PARAMETERS_TO_ENUM_VALS).fields, "default") == None
  {
    assert Keys(ENUM_PARAMETERS_TO_ENUM_VALS) == [];
    if name == "out_prefix" {
      assert Get(PARAMETER_TO_DEFAULT_VALS, name) == Some(Str("genesis_vadc"));
    } else if name != "internal_api_env" {
      GetFinds(PARAMETER_TO_DEFAULT_VALS, name);
      assert Keys(PARAMETER_TO_DEFAULT_VALS) == ["internal_api_env", "out_prefix"];
    }
  }

  // --------------------------------------------------------- team project

  /** Why a PLP workflow cannot be built. */
  datatype PlpError =
    | TeamProjectRequired(message: string)
      /** A truthy team project that is not a string has no `encode`. */
    | TeamProjectNotAString
      /** `scaling_groups` (or its `custom` part) is not a dict. */
    | ScalingGroupsNotADict
      /** A user without a custom group and no `default` group. */
    | ScalingGroupDefaultMissing

  function RequiredFieldMessage(field: string): string {
    "the '" + field + "' field is required for this endpoint, but was not found in the request body"
  }

  /** The constructor's check of the team-project field: it must be present
      and truthy; the encoder then needs a string. */
  function TeamProjectOf(requestBody: Dict<Value>, s: Settings): (r: Result<string, PlpError>)
    ensures !Truthy(GetOr(requestBody, s.teamProjectField, Null)) <==>
      r == Failure(TeamProjectRequired(RequiredFieldMessage(s.teamProjectField)))
    ensures r.Success? <==> Truthy(GetOr(requestBody, s.teamProjectField, Null)) && GetOr(requestBody, s.teamProjectField, Null).Str?
    ensures r.Success? ==> r.value != [] && Get(requestBody, s.teamProjectField) == Some(Str(r.value))
  {
    var teamProject := GetOr(requestBody, s.teamProjectField, Null);
    if !Truthy(teamProject) then Failure(TeamProjectRequired(RequiredFieldMessage(s.teamProjectField)))
    else if !teamProject.Str? then Failure(TeamProjectNotAString)
    else Success(teamProject.s)
  }

  /** The labels a set-up PLP workflow carries. */
  function PlpLabels(s: Settings, username: string, teamProject: string): Dict<Value> {
    Put(Put(PutAll([], METADATA_LABELS), s.userLabel, Str(LabelCodec.ConvertGen3usernameToPodLabel(username))),
        s.teamProjectLabel, Str(LabelCodec.ConvertGen3teamprojectToPodLabel(teamProject)))
  }

  /** The labels name the user and the team project: read back through the
      engine's decoders they give the user who submitted the workflow and
      the team project of the request, and the archive strategy stays
      `true` when the label keys are distinct. */
  lemma PlpLabelsReadBack(s: Settings, username: string, teamProject: string)
    requires teamProject != []
    requires s.userLabel != s.teamProjectLabel
    requires s.userLabel != "workflows.argoproj.io/archive-strategy"
    requires s.teamProjectLabel != "workflows.argoproj.io/archive-strategy"
    ensures Get(PlpLabels(s, username, teamProject), "workflows.argoproj.io/archive-strategy") == Some(Str("true"))
    ensures Get(PlpLabels(s, username, teamProject), s.userLabel).Some?
    ensures Get(PlpLabels(s, username, teamProject), s.userLabel).value.Str?
    ensures LabelCodec.ConvertUsernameLabelToGen3username(Some(Get(PlpLabels(s, username, teamProject), s.userLabel).value.s)) == username
    ensures Get(PlpLabels(s, username, teamProject), s.teamProjectLabel).Some?
    ensures Get(PlpLabels(s, username, teamProject), s.teamProjectLabel).value.Str?
    ensures LabelCodec.ConvertPodLabelToGen3teamproject(Some(Get(PlpLabels(s, username, teamProject), s.teamProjectLabel).value.s))
            == Success(Some(teamProject))
  {
    var archive := "workflows.argoproj.io/archive-strategy";
    var d0 := PutAll([], METADATA_LABELS);
    assert d0 == [(archive, Str("true"))];
    var userVal := Str(LabelCodec.ConvertGen3usernameToPodLabel(username));
    var teamVal := Str(LabelCodec.ConvertGen3teamprojectToPodLabel(teamProject));
    var d1 := Put(d0, s.userLabel, userVal);
    GetPut(d0, s.userLabel, userVal, s.userLabel);
    GetPut(d0, s.userLabel, userVal, archive);
    GetPut(d1, s.teamProjectLabel, teamVal, s.teamProjectLabel);
    GetPut(d1, s.teamProjectLabel, teamVal, s.userLabel);
    GetPut(d1, s.teamProjectLabel, teamVal, archive);
    LabelCodec.PodLabelRoundTrip(username);
    LabelCodec.TeamProjectRoundTrip(teamProject);
  }

  // -------------------------------------------------------- scaling group

  /** `_add_spec_scaling_group`'s choice: no group when the config names
      neither a default nor a custom group; else the user's custom group
      when it is set, and otherwise the default, which must then exist. */
  function ChooseScalingGroup(config: Dict<Value>, username: string): (r: Result<Option<Value>, PlpError>)
    ensures !GetOr(config, "scaling_groups", Obj([])).Obj? ==> r == Failure(ScalingGroupsNotADict)
    ensures r == Success(None) <==>
      GetOr(config, "scaling_groups", Obj([])).Obj?
      && !Truthy(GetOr(GetOr(config, "scaling_groups", Obj([])).fields, "default", Null))
      && !Truthy(GetOr(GetOr(config, "scaling_groups", Obj([])).fields, "custom", Null))
    ensures r.Success? && r.value.Some? ==>
      GetOr(config, "scaling_groups", Obj([])).Obj?
      && var groups := GetOr(config, "scaling_groups", Obj([])).fields;
         var custom := GetOr(groups, "custom", Obj([]));
         if custom.Obj? && Truthy(GetOr(custom.fields, username, Null))
         then r.value.value == GetOr(custom.fields, username, Null)
         else Get(groups, "default") == Some(r.value.value)
    ensures r == Failure(ScalingGroupDefaultMissing) ==>
      GetOr(config, "scaling_groups", Obj([])).Obj? && Get(GetOr(config, "scaling_groups", Obj([])).fields, "default") == None
    // Once a default or a custom group is configured, the outcome is
    // decided by the custom map and the user's entry in it.
    ensures var groups := GetOr(config, "scaling_groups", Obj([]));
      groups.Obj? && (Truthy(GetOr(groups.fields, "default", Null)) || Truthy(GetOr(groups.fields, "custom", Null))) ==>
        var custom := GetOr(groups.fields, "custom", Obj([]));
        var default := Get(groups.fields, "default");
        && (!custom.Obj? ==> r == Failure(ScalingGroupsNotADict))
        && (custom.Obj? && Truthy(GetOr(custom.fields, username, Null)) ==>
              r == Success(Some(GetOr(custom.fields, username, Null))))
        && (custom.Obj? && !Truthy(GetOr(custom.fields, username, Null)) && default.Some? ==>
              r == Success(Some(default.value)))
        && (custom.Obj? && !Truthy(GetOr(custom.fields, username, Null)) && default.None? ==>
              r == Failure(ScalingGroupDefaultMissing))
  {
    var scalingGroupConfig := GetOr(config, "scaling_groups", Obj([]));
    if !scalingGroupConfig.Obj? then Failure(ScalingGroupsNotADict)
    else
      var groups := scalingGroupConfig.fields;
      if !Truthy(GetOr(groups, "default", Null)) && !Truthy(GetOr(groups, "custom", Null)) then Success(None)
      else
        var custom := GetOr(groups, "custom", Obj([]));
        if !custom.Obj? then Failure(ScalingGroupsNotADict)
        else if Truthy(GetOr(custom.fields, username, Null)) then Success(Some(GetOr(custom.fields, username, Null)))
        else match Get(groups, "default")
          case None => Failure(ScalingGroupDefaultMissing)
          case Some(g) => Success(Some(g))
  }

  /** A config whose custom groups name the user places the user's pods on
      that group, whatever the default; a user it does not name gets the
      default, and without a default the choice fails. */
  lemma {:induction false} CustomGroupWins(config: Dict<Value>, username: string, group: Value, default: Option<Value>)
    requires Truthy(group)
    requires config == [("scaling_groups", Obj(
      (if default.Some? then [("default", default.value)] else []) + [("custom", Obj([(username, group)]))]))]
    ensures ChooseScalingGroup(config, username) == Success(Some(group))
    ensures forall other :: other != username ==>
      ChooseScalingGroup(config, other) ==
        (if default.Some? then Success(Some(default.value)) else Failure(ScalingGroupDefaultMissing))
  {
    var groups := GetOr(config, "scaling_groups", Obj([])).fields;
    var custom := Obj([(username, group)]);
    assert GetOr(groups, "custom", Obj([])) == custom by {
      GetConcat(if default.Some? then [("default", default.value)] else [], [("custom", custom)], "custom");
    }
    assert Get(groups, "default") == default by {
      GetConcat(if default.Some? then [("default", default.value)] else [], [("custom", custom)], "default");
    }
    forall other | other != username
      ensures ChooseScalingGroup(config, other) ==
        (if default.Some? then Success(Some(default.value)) else Failure(ScalingGroupDefaultMissing))
    {
      assert Get(custom.fields, other) == None;
    }
  }

  /** An empty `scaling_groups` dict, or none at all, adds no group. */
  lemma NoScalingGroupWithoutConfig(config: Dict<Value>, username: string)
    requires Get(config, "scaling_groups") == None || Get(config, "scaling_groups") == Some(Obj([]))
    ensures ChooseScalingGroup(config, username) == Success(None)
  {
  }

  // ---------------------------------------------------- error explanation

  /** Python's `s in text`: `s` occurs in `text` at some position. */
  predicate Contains(text: string, s: string)
    decreases |text|
  {
    |s| <= |text| && (text[..|s|] == s || Contains(text[1..], s))
  }

  /** One row of the error table: the steps it applies to, the text the
      step's log must contain, and the message shown. */
  datatype ErrorRule = ErrorRule(steps: seq<string>, needle: string, message: string)

  const SINGULAR_STEPS: seq<string> := ["run-null-model", "run-single-assoc"]

  const SMALL_COHORT_MESSAGE: string := "The error occurred due to small cohort size or unbalanced cohort sizes. Please ensure that the cohorts selected for your analysis are sufficiently large and balanced."
  const UNBALANCED_MESSAGE: string := "The error occurred due to unbalanced cohort sizes. Please ensure that the sizes of the cohorts are as balanced as possible."
  const ATTRITION_TIMEOUT_MESSAGE: string := "A timeout occurred while fetching the attrition table information. Please retry running your workflow."
  const INDEXD_MESSAGE: string := "An HTTP error occurred while creating an index record. Please retry running your workflow."
  const OUTLIER_MESSAGE: string := "The error was caused by extreme outliers in the outcome or the covariates. Please try using different outcome/covariates variables."

  /** The rules, in the order they are tried. */
  const ERROR_RULES: seq<ErrorRule> := [
    ErrorRule(SINGULAR_STEPS, "system is exactly singular", SMALL_COHORT_MESSAGE),
    ErrorRule(SINGULAR_STEPS, "system is computationally singular", UNBALANCED_MESSAGE),
    ErrorRule(["generate-attrition-csv"], "ReadTimeout", ATTRITION_TIMEOUT_MESSAGE),
    ErrorRule(["create-indexd-record"], "HTTPError", INDEXD_MESSAGE),
    ErrorRule(["run-single-assoc"], "where TRUE/FALSE needed", OUTLIER_MESSAGE)]

  predicate RuleMatches(rule: ErrorRule, stepName: string, stepLog: string) {
    stepName in rule.steps && Contains(stepLog, rule.needle)
  }

  /** The message of the first rule that matches, `""` when none does. */
  function FirstMatch(rules: seq<ErrorRule>, stepName: string, stepLog: string): (message: string)
    ensures (forall i :: 0 <= i < |rules| ==> !RuleMatches(rules[i], stepName, stepLog)) ==> message == ""
    ensures forall i :: (0 <= i < |rules| && RuleMatches(rules[i], stepName, stepLog)
      && (forall j :: 0 <= j < i ==> !RuleMatches(rules[j], stepName, stepLog))) ==> message == rules[i].message
  {
    if rules == [] then ""
    else if RuleMatches(rules[0], stepName, stepLog) then rules[0].message
    else FirstMatch(rules[1..], stepName, stepLog)
  }

  /** `interpret_plp_workflow_error`: the if/elif chain over the step name
      and the log. */
  function InterpretPlpWorkflowError(stepName: string, stepLog: string): (show: string)
    ensures show == "" || show in [SMALL_COHORT_MESSAGE, UNBALANCED_MESSAGE, ATTRITION_TIMEOUT_MESSAGE, INDEXD_MESSAGE, OUTLIER_MESSAGE]
    ensures stepName !in SINGULAR_STEPS && stepName != "generate-attrition-csv" && stepName != "create-indexd-record" ==> show == ""
  {
    if stepName in SINGULAR_STEPS && Contains(stepLog, "system is exactly singular") then SMALL_COHORT_MESSAGE
    else if stepName in SINGULAR_STEPS && Contains(stepLog, "system is computationally singular") then UNBALANCED_MESSAGE
    else if stepName == "generate-attrition-csv" && Contains(stepLog, "ReadTimeout") then ATTRITION_TIMEOUT_MESSAGE
    else if stepName == "create-indexd-record" && Contains(stepLog, "HTTPError") then INDEXD_MESSAGE
    else if stepName == "run-single-assoc" && Contains(stepLog, "where TRUE/FALSE needed") then OUTLIER_MESSAGE
    else ""
  }

  /** The if/elif chain is the rule table read top to bottom: the message
      shown is the first matching rule's. */
  lemma InterpretIsFirstMatch(stepName: string, stepLog: string)
    ensures InterpretPlpWorkflowError(stepName, stepLog) == FirstMatch(ERROR_RULES, stepName, stepLog)
  {
    var rules := ERROR_RULES;
    assert rules[4..][1..] == [];
    assert FirstMatch(rules[4..], stepName, stepLog) ==
      if stepName == "run-single-assoc" && Contains(stepLog, "where TRUE/FALSE needed") then OUTLIER_MESSAGE else "";
    assert rules[3..][1..] == rules[4..];
    assert FirstMatch(rules[3..], stepName, stepLog) ==
      if stepName == "create-indexd-record" && Contains(stepLog, "HTTPError") then INDEXD_MESSAGE
      else FirstMatch(rules[4..], stepName, stepLog);
    assert rules[2..][1..] == rules[3..];
    assert FirstMatch(rules[2..], stepName, stepLog) ==
      if stepName == "generate-attrition-csv" && Contains(stepLog, "ReadTimeout") then ATTRITION_TIMEOUT_MESSAGE
      else FirstMatch(rules[3..], stepName, stepLog);
    assert rules[1..][1..] == rules[2..];
    assert FirstMatch(rules[1..], stepName, stepLog) ==
      if stepName in SINGULAR_STEPS && Contains(stepLog, "system is computationally singular") then UNBALANCED_MESSAGE
      else FirstMatch(rules[2..], stepName, stepLog);
    assert FirstMatch(rules, stepName, stepLog) ==
      if stepName in SINGULAR_STEPS && Contains(stepLog, "system is exactly singular") then SMALL_COHORT_MESSAGE
      else FirstMatch(rules[1..], stepName, stepLog);
  }

  /** Every rule has a message to show. */
  lemma RuleMessagesNonEmpty()
    ensures forall i :: 0 <= i < |ERROR_RULES| ==> ERROR_RULES[i].message != ""
  {
    assert |SMALL_COHORT_MESSAGE| > 0 && |UNBALANCED_MESSAGE| > 0 && |ATTRITION_TIMEOUT_MESSAGE| > 0;
    assert |INDEXD_MESSAGE| > 0 && |OUTLIER_MESSAGE| > 0;
  }

  /** No message is empty, so an explanation is `""` exactly when no rule
      applies. */
  lemma InterpretEmptyIffNoRule(stepName: string, stepLog: string)
    ensures InterpretPlpWorkflowError(stepName, stepLog) == "" <==>
      forall i :: 0 <= i < |ERROR_RULES| ==> !RuleMatches(ERROR_RULES[i], stepName, stepLog)
  {
    InterpretIsFirstMatch(stepName, stepLog);
    RuleMessagesNonEmpty();
    forall i | 0 <= i < |ERROR_RULES| && RuleMatches(ERROR_RULES[i], stepName, stepLog)
      ensures FirstMatch(ERROR_RULES, stepName, stepLog) != ""
    {
      FirstMatchNonEmpty(ERROR_RULES, stepName, stepLog, i);
    }
  }

  /** When some rule matches and every message is non-empty, the first
      match is non-empty. */
  lemma {:induction false} FirstMatchNonEmpty(rules: seq<ErrorRule>, stepName: string, stepLog: string, k: nat)
    requires forall i :: 0 <= i < |rules| ==> rules[i].message != ""
    requires k < |rules| && RuleMatches(rules[k], stepName, stepLog)
    ensures FirstMatch(rules, stepName, stepLog) != ""
  {
    if k > 0 && !RuleMatches(rules[0], stepName, stepLog) {
      FirstMatchNonEmpty(rules[1..], stepName, stepLog, k - 1);
    }
  }

  // ---------------------------------------------------------------- class

  class Plp {
    const base: Base.WorkflowBase
    /** The user the token names; decoding the token is not modelled. */
    const username: string
    const gen3usernameLabel: string
    const teamProject: string
    const gen3teamprojectLabel: string
    const requestBody: Dict<Value>
    /** The Argo config file's contents, read by the source at setup time. */
    const config: Dict<Value>
    /** `json.dumps`, used to stringify nested request body values. */
    const dumps: Value -> string
    const settings: Settings

    /** The links between the fields that the constructor sets up. */
    predicate Valid() {
      base.metadataAnnotations == METADATA_ANNOTATIONS
      && base.metadataLabels == METADATA_LABELS
      && base.entrypoint == settings.plpEntrypoint
      && gen3usernameLabel == LabelCodec.ConvertGen3usernameToPodLabel(username)
      && TeamProjectOf(requestBody, settings) == Success(teamProject)
      && gen3teamprojectLabel == LabelCodec.ConvertGen3teamprojectToPodLabel(teamProject)
      && KeysUnique(requestBody)
    }

    /** `_get_internal_api_env`: the config's `environment`, or `default`. */
    function InternalApiEnv(): Value {
      GetOr(config, "environment", Str("default"))
    }

    /** The gateway claim: the config's `pvc`, or the backup claim. */
    function PvcName(): Value {
      GetOr(config, "pvc", Str(settings.backupPvcName))
    }

    /** The entries of the request body's parameters, stringified. */
    function UserDefinedEntries(): seq<Value> {
      ParamHelper.HelperEntries(WorkflowRecords.StringifyEntries(requestBody, dumps), PARAMETER_TO_DEFAULT_VALS, ENUM_PARAMETERS_TO_ENUM_VALS)
    }

    /** The entry of `internal_api_env`. */
    function InternalApiEnvEntries(): seq<Value> {
      ParamHelper.HelperEntries([("internal_api_env", InternalApiEnv())], PARAMETER_TO_DEFAULT_VALS, ENUM_PARAMETERS_TO_ENUM_VALS)
    }

    /** The assignments of `__init__` once the team project has passed its
        check, before any setup. */
    constructor Assign(namespace: string, requestBody: Dict<Value>, username: string, teamProject: string, wfName: string,
                       dryRun: bool, config: Dict<Value>, dumps: Value -> string, s: Settings)
      requires KeysUnique(requestBody)
      requires TeamProjectOf(requestBody, s) == Success(teamProject)
      ensures Valid()
      ensures this.username == username && this.teamProject == teamProject && this.requestBody == requestBody
      ensures this.config == config && this.dumps == dumps && settings == s
      ensures base.wfName == wfName && base.dryRun == dryRun
      ensures base.apiVersion == s.apiVersion && base.kind == s.workflowKind
      ensures fresh(base) && fresh(base.metadata) && fresh(base.spec)
      ensures base.metadata.namespace == namespace
      ensures base.metadata.name == [] && base.metadata.annotations == [] && base.metadata.labels == []
      ensures Base.FreshSpec(base.spec)
    {
      this.username := username;
      gen3usernameLabel := LabelCodec.ConvertGen3usernameToPodLabel(username);
      this.teamProject := teamProject;
      gen3teamprojectLabel := LabelCodec.ConvertGen3teamprojectToPodLabel(teamProject);
      this.requestBody := requestBody;
      this.config := config;
      this.dumps := dumps;
      settings := s;
      base := new Base.WorkflowBase.Empty(namespace, s.plpEntrypoint, dryRun, wfName, METADATA_ANNOTATIONS, METADATA_LABELS, s);
    }

    /** `__init__`: refuse a request without a team project, else build the
        workflow and, unless it is a dry run, set up its metadata and spec;
        the scaling group choice can still fail during the spec setup. */
    static method Create(namespace: string, requestBody: Dict<Value>, username: string, wfName: string, dryRun: bool,
                         config: Dict<Value>, dumps: Value -> string, s: Settings) returns (r: Result<Plp, PlpError>)
      requires KeysUnique(requestBody)
      ensures TeamProjectOf(requestBody, s).Failure? ==> r == Failure(TeamProjectOf(requestBody, s).error)
      ensures TeamProjectOf(requestBody, s).Success? && !dryRun && ChooseScalingGroup(config, username).Failure? ==>
        r == Failure(ChooseScalingGroup(config, username).error)
      ensures r.Success? <==>
        TeamProjectOf(requestBody, s).Success? && (dryRun || ChooseScalingGroup(config, username).Success?)
      ensures r.Success? ==>
        fresh(r.value) && fresh(r.value.base) && fresh(r.value.base.metadata) && fresh(r.value.base.spec)
        && r.value.Valid() && r.value.username == username && r.value.requestBody == requestBody
        && r.value.config == config && r.value.dumps == dumps && r.value.settings == s
        && r.value.base.wfName == wfName && r.value.base.dryRun == dryRun
        && r.value.base.apiVersion == s.apiVersion && r.value.base.kind == s.workflowKind
        && r.value.teamProject == TeamProjectOf(requestBody, s).value
        && r.value.base.metadata.namespace == namespace
      ensures r.Success? && dryRun ==>
        r.value.base.metadata.name == [] && r.value.base.metadata.annotations == [] && r.value.base.metadata.labels == []
        && Base.FreshSpec(r.value.base.spec)
      ensures r.Success? && !dryRun ==> r.value.SetUp()
    {
      var teamProject := TeamProjectOf(requestBody, s);
      if teamProject.Failure? {
        return Failure(teamProject.error);
      }
      var plp := new Plp.Assign(namespace, requestBody, username, teamProject.value, wfName, dryRun, config, dumps, s);
      if !dryRun {
        plp.SetupMetadata();
        var err := plp.SetupSpec();
        if err.Some? {
          return Failure(err.value);
        }
      }
      r := Success(plp);
    }

    /** The pod metadata a set-up workflow carries: the user's name as
        annotation, then the user's label, each under `gen3username`. */
    function PodMetadata(): Dict<Value> {
      [("annotations", Obj([("gen3username", Str(username))])), ("labels", Obj([("gen3username", Str(gen3usernameLabel))]))]
    }

    /** The state a set-up PLP workflow is in. */
    predicate SetUp()
      reads base.metadata, base.spec
    {
      base.metadata.name == base.wfName
      && base.metadata.annotations == Put(PutAll([], METADATA_ANNOTATIONS), "workflow_name", GetOr(requestBody, "workflow_name", Null))
      && base.metadata.labels == PlpLabels(settings, username, teamProject)
      && SetUpSpec()
    }

    /** `setup_metadata` with the PLP annotations and labels. */
    method SetupMetadata()
      requires Valid()
      requires base.metadata.name == [] && base.metadata.annotations == [] && base.metadata.labels == []
      modifies base.metadata
      ensures base.metadata.name == base.wfName
      ensures base.metadata.annotations == Put(PutAll([], METADATA_ANNOTATIONS), "workflow_name", GetOr(requestBody, "workflow_name", Null))
      ensures base.metadata.labels == PlpLabels(settings, username, teamProject)
      ensures base.metadata.namespace == old(base.metadata.namespace)
    {
      base.metadata.SetName(base.wfName);
      AddMetadataAnnotations();
      AddMetadataLabels();
    }

    /** `_add_metadata_annotations`: the class annotations, then the
        request's workflow name. */
    method AddMetadataAnnotations()
      requires Valid()
      modifies base.metadata
      ensures base.metadata.annotations ==
        Put(PutAll(old(base.metadata.annotations), METADATA_ANNOTATIONS), "workflow_name", GetOr(requestBody, "workflow_name", Null))
      ensures unchanged(base.metadata`namespace, base.metadata`name, base.metadata`labels)
    {
      base.AddMetadataAnnotations();
      base.metadata.AddMetadataAnnotation("workflow_name", GetOr(requestBody, "workflow_name", Null));
    }

    /** `_add_metadata_labels`: the class labels, then the encoded user and
        the encoded team project. */
    method AddMetadataLabels()
      requires Valid()
      modifies base.metadata
      ensures base.metadata.labels ==
        Put(Put(PutAll(old(base.metadata.labels), METADATA_LABELS), settings.userLabel, Str(gen3usernameLabel)),
            settings.teamProjectLabel, Str(gen3teamprojectLabel))
      ensures unchanged(base.metadata`namespace, base.metadata`name, base.metadata`annotations)
    {
      base.AddMetadataLabels();
      base.metadata.AddMetadataLabel(settings.userLabel, Str(gen3usernameLabel));
      base.metadata.AddMetadataLabel(settings.teamProjectLabel, Str(gen3teamprojectLabel));
    }

    /** `_add_spec_scaling_group`: the chosen group, if any, replaces the
        node selector and tolerations; a bad config is an error. */
    method AddSpecScalingGroup() returns (err: Option<PlpError>)
      modifies base.spec
      ensures err.Some? <==> ChooseScalingGroup(config, username).Failure?
      ensures err.Some? ==> err.value == ChooseScalingGroup(config, username).error
      ensures ChooseScalingGroup(config, username).Failure? || ChooseScalingGroup(config, username) == Success(None) ==>
        unchanged(base.spec`nodeSelector, base.spec`tolerations)
      ensures ChooseScalingGroup(config, username).Success? && ChooseScalingGroup(config, username).value.Some? ==>
        base.spec.nodeSelector == [("role", ChooseScalingGroup(config, username).value.value)]
        && base.spec.tolerations == List([Spec.RoleToleration(ChooseScalingGroup(config, username).value.value)])
      ensures unchanged(base.spec`entrypoint, base.spec`podGC, base.spec`podMetadata, base.spec`arguments,
                        base.spec`volumes, base.spec`workflowTemplateRef)
    {
      var group := ChooseScalingGroup(config, username);
      match group
      case Failure(e) =>
        err := Some(e);
      case Success(None) =>
        err := None;
      case Success(Some(g)) =>
        base.spec.AddScalingGroup(g);
        err := None;
    }

    /** `_add_spec_podMetadata_annotations`: the user's name. */
    method AddSpecPodMetadataAnnotations()
      requires base.spec.Valid()
      modifies base.spec
      ensures base.spec.Valid()
      ensures base.spec.podMetadata ==
        Put(old(base.spec.podMetadata), "annotations", Obj(Put(old(base.spec.PodMetadataMap("annotations")), "gen3username", Str(username))))
      ensures base.spec.PodMetadataMap("annotations") == Put(old(base.spec.PodMetadataMap("annotations")), "gen3username", Str(username))
      ensures base.spec.PodMetadataMap("labels") == old(base.spec.PodMetadataMap("labels"))
      ensures unchanged(base.spec`entrypoint, base.spec`podGC, base.spec`nodeSelector, base.spec`tolerations,
                        base.spec`arguments, base.spec`volumes, base.spec`workflowTemplateRef)
    {
      base.spec.AddPodMetadataAnnotation("gen3username", Str(username));
    }

    /** `_add_spec_podMetadata_labels`: the user's encoded label. */
    method AddSpecPodMetadataLabels()
      requires base.spec.Valid()
      modifies base.spec
      ensures base.spec.Valid()
      ensures base.spec.podMetadata ==
        Put(old(base.spec.podMetadata), "labels", Obj(Put(old(base.spec.PodMetadataMap("labels")), "gen3username", Str(gen3usernameLabel))))
      ensures base.spec.PodMetadataMap("labels") == Put(old(base.spec.PodMetadataMap("labels")), "gen3username", Str(gen3usernameLabel))
      ensures base.spec.PodMetadataMap("annotations") == old(base.spec.PodMetadataMap("annotations"))
      ensures unchanged(base.spec`entrypoint, base.spec`podGC, base.spec`nodeSelector, base.spec`tolerations,
                        base.spec`arguments, base.spec`volumes, base.spec`workflowTemplateRef)
    {
      base.spec.AddPodMetadataLabel("gen3username", Str(gen3usernameLabel));
    }

    /** `_add_user_defined_spec_parameters`: the request body, stringified. */
    method AddUserDefinedSpecParameters()
      requires Valid() && base.spec.Valid()
      modifies base.spec
      ensures base.spec.Valid()
      ensures base.spec.Parameters() == old(base.spec.Parameters()) + UserDefinedEntries()
      ensures unchanged(base.spec`entrypoint, base.spec`podGC, base.spec`nodeSelector, base.spec`tolerations,
                        base.spec`podMetadata, base.spec`volumes, base.spec`workflowTemplateRef)
    {
      var specParameters := WorkflowRecords.ConvertRequestBodyToParameterDict(requestBody, dumps);
      ParamHelper.AddParamHelper(base.spec, specParameters, PARAMETER_TO_DEFAULT_VALS, ENUM_PARAMETERS_TO_ENUM_VALS);
    }

    /** `_add_hard_coded_spec_parameters`: PLP has none. */
    method AddHardCodedSpecParameters()
      requires base.spec.Valid()
      modifies base.spec
      ensures base.spec.Valid()
      ensures base.spec.Parameters() == old(base.spec.Parameters())
      ensures unchanged(base.spec`entrypoint, base.spec`podGC, base.spec`nodeSelector, base.spec`tolerations,
                        base.spec`podMetadata, base.spec`volumes, base.spec`workflowTemplateRef)
    {
      ParamHelper.AddParamHelper(base.spec, HARD_CODED_PARAMETERS, PARAMETER_TO_DEFAULT_VALS, ENUM_PARAMETERS_TO_ENUM_VALS);
    }

    /** `_add_spec_parameters`: the request body's parameters, then the
        (absent) hard-coded ones, then `internal_api_env`. */
    method AddSpecParameters()
      requires Valid() && base.spec.Valid()
      modifies base.spec
      ensures base.spec.Valid()
      ensures base.spec.Parameters() == old(base.spec.Parameters()) + UserDefinedEntries() + InternalApiEnvEntries()
      ensures unchanged(base.spec`entrypoint, base.spec`podGC, base.spec`nodeSelector, base.spec`tolerations,
                        base.spec`podMetadata, base.spec`volumes, base.spec`workflowTemplateRef)
    {
      AddUserDefinedSpecParameters();
      AddHardCodedSpecParameters();
      ParamHelper.AddParamHelper(base.spec, [("internal_api_env", InternalApiEnv())], PARAMETER_TO_DEFAULT_VALS, ENUM_PARAMETERS_TO_ENUM_VALS);
    }

    /** `_add_spec_volumes`: the gateway claim, then a 20Gi work dir. */
    method AddSpecVolumes()
      modifies base.spec
      ensures base.spec.volumes == old(base.spec.volumes) + [Spec.PvcVolume("gateway", PvcName()), Spec.EmptyDirVolume("workdir", "20Gi")]
      ensures unchanged(base.spec`entrypoint, base.spec`podGC, base.spec`nodeSelector, base.spec`tolerations,
                        base.spec`podMetadata, base.spec`arguments, base.spec`workflowTemplateRef)
    {
      base.spec.AddPersistentVolumeClaim("gateway", PvcName());
      base.spec.AddEmptyDir("workdir", "20Gi");
    }

    /** `setup_spec` of the PLP workflow, on a spec the constructor left
        fresh; it stops with an error where the scaling group choice
        fails. */
    method SetupSpec() returns (err: Option<PlpError>)
      requires Valid() && Base.FreshSpec(base.spec)
      modifies base.spec
      ensures err.Some? <==> ChooseScalingGroup(config, username).Failure?
      ensures err.Some? ==> err.value == ChooseScalingGroup(config, username).error
      ensures err.None? ==> SetUpSpec()
      ensures err.Some? ==>
        base.spec.Valid() && base.spec.entrypoint == settings.plpEntrypoint
        && base.spec.podGC == [("strategy", Str(settings.podCompletionStrategy))]
        && base.spec.nodeSelector == [] && base.spec.tolerations == Obj([])
        && base.spec.podMetadata == [] && base.spec.arguments == [] && base.spec.volumes == [] && base.spec.workflowTemplateRef == []
    {
      base.SetupSpec();
      base.spec.SetPodGCStrategy(settings.podCompletionStrategy);
      err := AddSpecScalingGroup();
      if err.Some? {
        return;
      }
      assert base.spec.PodMetadataMap("annotations") == [] && base.spec.PodMetadataMap("labels") == [];
      assert base.spec.Parameters() == [];
      AddSpecPodMetadataAnnotations();
      AddSpecPodMetadataLabels();
      assert base.spec.PodMetadataMap("annotations") == [("gen3username", Str(username))];
      assert base.spec.PodMetadataMap("labels") == [("gen3username", Str(gen3usernameLabel))];
      assert base.spec.podMetadata == PodMetadata();
      AddSpecContents();
    }

    /** The steps of `setup_spec` after the pod metadata: parameters,
        volumes and the template reference. */
    method AddSpecContents()
      requires Valid() && base.spec.Valid()
      requires base.spec.entrypoint == settings.plpEntrypoint
      requires base.spec.podGC == [("strategy", Str(settings.podCompletionStrategy))]
      requires ScalingGroupPlaced(base.spec.nodeSelector, base.spec.tolerations)
      requires base.spec.podMetadata == PodMetadata()
      requires base.spec.PodMetadataMap("annotations") == [("gen3username", Str(username))]
      requires base.spec.PodMetadataMap("labels") == [("gen3username", Str(gen3usernameLabel))]
      requires base.spec.Parameters() == [] && base.spec.volumes == []
      modifies base.spec
      ensures SetUpSpec()
    {
      ghost var nodeSelector, tolerations, podMetadata := base.spec.nodeSelector, base.spec.tolerations, base.spec.podMetadata;
      ghost var userEntries, envEntries := UserDefinedEntries(), InternalApiEnvEntries();
      AddSpecParameters();
      assert base.spec.Parameters() == userEntries + envEntries by {
        ParamHelper.ConcatAssoc([], userEntries, envEntries);
        ParamHelper.ConcatEmpty(userEntries + envEntries);
      }
      AddSpecVolumes();
      base.spec.SetWorkflowTemplateRef(GetOr(requestBody, "template_version", Null));
      assert base.spec.nodeSelector == nodeSelector && base.spec.tolerations == tolerations && base.spec.podMetadata == podMetadata;
    }

    /** The node selector and tolerations the scaling group choice leaves. */
    predicate ScalingGroupPlaced(nodeSelector: Dict<Value>, tolerations: Value) {
      var group := ChooseScalingGroup(config, username);
      group.Success?
      && (if group.value.None? then nodeSelector == [] && tolerations == Obj([])
          else nodeSelector == [("role", group.value.value)] && tolerations == List([Spec.RoleToleration(group.value.value)]))
    }

    /** The spec half of `SetUp`. */
    predicate SetUpSpec()
      reads base.spec
    {
      base.spec.Valid()
      && base.spec.entrypoint == settings.plpEntrypoint
      && base.spec.podGC == [("strategy", Str(settings.podCompletionStrategy))]
      && ScalingGroupPlaced(base.spec.nodeSelector, base.spec.tolerations)
      && base.spec.podMetadata == PodMetadata()
      && base.spec.PodMetadataMap("annotations") == [("gen3username", Str(username))]
      && base.spec.PodMetadataMap("labels") == [("gen3username", Str(gen3usernameLabel))]
      && base.spec.Parameters() == UserDefinedEntries() + InternalApiEnvEntries()
      && base.spec.volumes == [Spec.PvcVolume("gateway", PvcName()), Spec.EmptyDirVolume("workdir", "20Gi")]
      && base.spec.workflowTemplateRef == [("name", GetOr(requestBody, "template_version", Null))]
    }

    /** `generate_argo_workflow`: the manifest dict. */
    method GenerateArgoWorkflow() returns (d: Dict<Value>)
      ensures d == base.Manifest()
      ensures Keys(d) == ["apiVersion", "kind", "metadata", "spec"]
    {
      d := base.ToDict();
    }
  }
}
