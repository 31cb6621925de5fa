# argo-wrapper core, modelled in Dafny

argo-wrapper is a web service that submits genetic-analysis workflows
(GWAS and PLP) to an Argo Workflows cluster on behalf of Gen3 users, lists
them back and decides who may do so. This project models its
deterministic core:

- **Identity label codec** (`LabelCodec`, `HelpersTest`, `Utf8`, `Hex`):
  - A user name becomes a Kubernetes label value: the prefix `user-`, then
    the name with every ASCII punctuation character replaced by `-` and the
    two lower-case hex digits of its UTF-8 byte. The decoder removes the
    first `user-` and maps every `-XX` group back.
  - A team-project name becomes the lower-case hex of its UTF-8 bytes, and
    is decoded with `bytes.fromhex` followed by a strict UTF-8 decode.
  - `Utf8` and `Hex` model the Python library calls the codec relies on
    (`str.encode`, `bytes.hex`, `bytes.fromhex`, `bytes.decode`).
- **Workflow records** (`WorkflowRecords`, `Attributes`):
  - Phase rewriting for terminated workflows.
  - Extraction of detail and list records from raw Argo workflow objects.
  - The merge of live and archived lists by uid.
  - Stringification of request-body parameters.
  - The truthy-attribute filter every serialiser uses.
- **Manifest builder** (`Metadata`, `Spec`, `Base`, `ParamHelper`,
  `GwasWorkflow`, `PlpWorkflow`): classes whose methods fill the metadata
  and spec of a workflow manifest in place. Each method states its whole
  new state and what it leaves unchanged. The setup sequences of the GWAS
  and PLP workflows are proved to produce exactly the parameters, labels,
  pod metadata and volumes the source builds.
- **Authorization** (`Auth`): parsing of the bearer token, and the
  decision of `authenticate` as a combination of the access service's
  answers, which are given as oracle functions.

Python values are modelled by `Values.Value` (JSON-like, with Python
truthiness). Dicts are ordered association lists (`Dicts.Dict`), because
insertion order shows in the serialised manifest.

## Model

| member | source | states |
|---|---|---|
| Utf8.DecodeEncode | src/argowrapper/engine/helpers/argo_engine_helper.py:189-205 | decoding the UTF-8 encoding of any string gives the string back |
| Utf8.DecodeSingle | src/argowrapper/engine/helpers/argo_engine_helper.py:257-258 | a single byte decodes exactly when it is ASCII, to that character |
| Hex.ToHex | src/argowrapper/engine/helpers/argo_engine_helper.py:193 | `bytes.hex()` yields two lower-case hex digits per byte |
| Hex.FromHexToHex | src/argowrapper/engine/helpers/argo_engine_helper.py:193-202 | `bytes.fromhex` inverts `bytes.hex` on every byte string |
| Hex.FromHexPair | src/argowrapper/engine/helpers/argo_engine_helper.py:257 | two characters parse to one byte exactly when both are hex digits of either case |
| LabelCodec.ConvertToHexOfPunctuation | src/argowrapper/engine/helpers/argo_engine_helper.py:166-169 | the escape of a punctuation character is `-` and the two lower-case hex digits of its code |
| LabelCodec.ConvertStringToPodLabel | src/argowrapper/engine/helpers/argo_engine_helper.py:208-216 | the label grows by two characters per punctuation character, and the only punctuation left in it is `-` |
| LabelCodec.ConvertGen3usernameToPodLabel | src/argowrapper/engine/helpers/argo_engine_helper.py:172-186 | the user label starts with `user-`, has length 5 + n + 2·(punctuation count), and holds no punctuation but `-` after the prefix |
| LabelCodec.ConvertStringToPodLabelConcat | src/argowrapper/engine/helpers/argo_engine_helper.py:208-216 | the encoder works character by character: the label of a concatenation is the concatenation of the labels |
| LabelCodec.ConvertStringToPodLabelPlain | src/argowrapper/engine/helpers/argo_engine_helper.py:208-216 | characters other than punctuation pass through unchanged |
| LabelCodec.UserLabelVectorPlain | src/argowrapper/engine/helpers/argo_engine_helper.py:172-186 | `abc123` encodes to `user-abc123` |
| LabelCodec.UserLabelVectorSymbols | src/argowrapper/engine/helpers/argo_engine_helper.py:172-186 | `a@b` encodes to `user-a-40b` |
| LabelCodec.RemoveFirstAbsent | src/argowrapper/engine/helpers/argo_engine_helper.py:247 | `replace("user-", "", 1)` leaves a string without `user-` unchanged |
| LabelCodec.RemoveFirstLeftmost | src/argowrapper/engine/helpers/argo_engine_helper.py:247 | `replace("user-", "", 1)` removes the leftmost occurrence only, wherever it sits |
| LabelCodec.ConvertToLabel | src/argowrapper/engine/helpers/argo_engine_helper.py:253-261 | a `-XX` group becomes its character when it is hex for an ASCII byte, and stays verbatim otherwise |
| LabelCodec.ConvertUsernameLabelToGen3username | src/argowrapper/engine/helpers/argo_engine_helper.py:235-250 | a missing or empty label decodes to the empty name; decoding never fails |
| LabelCodec.MalformedGroupVerbatim | src/argowrapper/engine/helpers/argo_engine_helper.py:253-261 | a group that is not hex, or is a byte that is not UTF-8 on its own, is kept verbatim with its `-` |
| LabelCodec.SubHexGroupsInvertsEscapes | src/argowrapper/engine/helpers/argo_engine_helper.py:245-261 | substituting the `-XX` groups of an encoded body gives back the original body |
| LabelCodec.PodLabelRoundTrip | src/argowrapper/engine/helpers/argo_engine_helper.py:172-186 | decoding the user label of any name gives the name back |
| LabelCodec.ConvertGen3teamprojectToPodLabel | src/argowrapper/engine/helpers/argo_engine_helper.py:189-194 | the team-project label is all lower-case hex digits, and empty exactly when the name is |
| LabelCodec.ConvertPodLabelToGen3teamproject | src/argowrapper/engine/helpers/argo_engine_helper.py:197-205 | a missing or empty label decodes to None |
| LabelCodec.TeamProjectRoundTrip | src/argowrapper/engine/helpers/argo_engine_helper.py:189-205 | decoding the label of a non-empty team project gives it back; the empty name comes back as None |
| HelpersTest.ConvertToHex | src/argowrapper/engine/helpers/test.py:5-9 | the escape is `-` and two hex digits per UTF-8 byte; for punctuation, the two digits of its code |
| HelpersTest.SubPunctuation | src/argowrapper/engine/helpers/test.py:28-30 | length grows by two per punctuation character; only `-` remains as punctuation |
| HelpersTest.ConvertGen3usernameToLabel | src/argowrapper/engine/helpers/test.py:12-31 | starts with `user-`; length 5 + n + 2·(punctuation count); no punctuation but `-` after the prefix |
| HelpersTest.SubPunctuationKeepsPlain | src/argowrapper/engine/helpers/test.py:28-30 | a name without punctuation passes through unchanged |
| HelpersTest.SubPunctuationAgrees | src/argowrapper/engine/helpers/test.py:28-30 | the test copy's substitution equals the engine helper's on every string |
| HelpersTest.ConvertGen3usernameToLabelAgrees | src/argowrapper/engine/helpers/test.py:12-31 | the test copy's encoder equals `convert_gen3username_to_pod_label` on every name |
| HelpersTest.LabelRoundTrip | src/argowrapper/engine/helpers/test.py:12-31 | the engine helper's decoder inverts the test copy's encoder |
| WorkflowRecords.ParsePhase | src/argowrapper/engine/helpers/argo_engine_helper.py:43-52 | an active workflow with shutdown `Terminate` shows Canceling instead of Running and Canceled instead of Failed; no other phase, shutdown or workflow type changes the phase |
| WorkflowRecords.ParseCommonDetails | src/argowrapper/engine/helpers/argo_engine_helper.py:40-67 | the phase is the rewritten phase; the user name is the decoded user label when labels exist and empty otherwise; name and timestamps are copied from the record |
| WorkflowRecords.CommonDetailsReadsUser | src/argowrapper/engine/helpers/argo_engine_helper.py:54-58 | a workflow labelled with the encoding of a user name reports that user name |
| WorkflowRecords.ParseDetails | src/argowrapper/engine/helpers/argo_engine_helper.py:70-94 | fails exactly when labels exist and the team-project label is not decodable; with labels the user and team project are the decoders' results for those labels, without labels both are None; `wf_name` is the `workflow_name` annotation, arguments and progress are copied, outputs default to `{}`; the phase is the rewritten phase |
| WorkflowRecords.DetailsOfLabelledWorkflow | src/argowrapper/engine/helpers/argo_engine_helper.py:70-94 | labels written by the encoders read back as the user and team project that wrote them |
| WorkflowRecords.ParseListItem | src/argowrapper/engine/helpers/argo_engine_helper.py:97-130 | the uid is copied and the phase rewritten; with a resolver, name, team project and user are the resolver's triple for the uid; without one, it fails exactly when labels are missing or the team-project label is not decodable, and otherwise `wf_name` is the `workflow_name` annotation, the team project is the decoded label and the user is the common details' user |
| WorkflowRecords.Uids | src/argowrapper/engine/helpers/argo_engine_helper.py:148-150 | the uid list lines up with the workflow list |
| WorkflowRecords.RemoveListDuplicate | src/argowrapper/engine/helpers/argo_engine_helper.py:133-157 | the loop computes the merge: all of the first list, then the second list's workflows with an unseen uid |
| WorkflowRecords.MergedWithEmpty | src/argowrapper/engine/helpers/argo_engine_helper.py:137-145 | with one list empty the result is the other list |
| WorkflowRecords.UnseenNoneSeen | src/argowrapper/engine/helpers/argo_engine_helper.py:147-157 | duplicates inside the second list are not removed |
| WorkflowRecords.UnseenMembers | src/argowrapper/engine/helpers/argo_engine_helper.py:147-157 | a workflow of the second list is kept exactly when its uid is unseen |
| WorkflowRecords.MergedMembers | src/argowrapper/engine/helpers/argo_engine_helper.py:133-157 | the merge starts with the first list, and holds a workflow exactly when it is in the first list or in the second with an unseen uid |
| WorkflowRecords.MergedUids | src/argowrapper/engine/helpers/argo_engine_helper.py:133-157 | the merge has every uid of either list and no other |
| WorkflowRecords.MergedDistinct | src/argowrapper/engine/helpers/argo_engine_helper.py:133-157 | merging two lists of distinct uids gives a list of distinct uids |
| WorkflowRecords.StringifyValue | src/argowrapper/engine/helpers/argo_engine_helper.py:32-36 | scalars are kept and anything else becomes its JSON text |
| WorkflowRecords.StringifyEntries | src/argowrapper/engine/helpers/argo_engine_helper.py:29-37 | the keys are kept in order and every value is a scalar |
| WorkflowRecords.ConvertRequestBodyToParameterDict | src/argowrapper/engine/helpers/argo_engine_helper.py:29-37 | each key of the request body maps to its stringified value, and no other key is present |
| WorkflowRecords.GetStringifyEntries | src/argowrapper/engine/helpers/argo_engine_helper.py:29-37 | a lookup in the stringified dict is the stringified lookup |
| Attributes.KeepTruthy | src/argowrapper/workflows/workflow_metadata.py:39-44 | only truthy values remain |
| Attributes.KeepTruthyMembers | src/argowrapper/workflows/workflow_spec.py:112-118 | an attribute is kept exactly when its value is truthy |
| Attributes.KeepTruthyConcat | src/argowrapper/workflows/workflow_spec.py:112-118 | the filter works attribute by attribute, preserving order |
| Attributes.KeepTruthyAll | src/argowrapper/workflows/workflow_metadata.py:39-44 | when every attribute is truthy, all are kept |
| Attributes.KeepTruthyNone | src/argowrapper/workflows/workflow_metadata.py:39-44 | when no attribute is truthy, the dict is empty |
| Attributes.TruthyAttributes | src/argowrapper/workflows/workflow_spec.py:112-118 | the serialising loop computes exactly the truthy attributes in field order |
| Metadata.FreshMetadataDict | src/argowrapper/workflows/workflow_metadata.py:7-11 | a fresh metadata object serialises to its namespace alone |
| Metadata.FullMetadataDict | src/argowrapper/workflows/workflow_metadata.py:39-47 | with all four attributes set, the dict holds namespace, name, annotations and labels in that order |
| Metadata.WorkflowMetadata.constructor | src/argowrapper/workflows/workflow_metadata.py:7-11 | the given namespace, an empty name, no annotations and no labels |
| Metadata.WorkflowMetadata.AddMetadataLabel | src/argowrapper/workflows/workflow_metadata.py:13-22 | the label is set, overwriting; other labels, annotations, name and namespace are unchanged |
| Metadata.WorkflowMetadata.AddMetadataAnnotation | src/argowrapper/workflows/workflow_metadata.py:24-33 | the annotation is set, overwriting; everything else is unchanged |
| Metadata.WorkflowMetadata.SetName | src/argowrapper/workflows/workflow_metadata.py:35-36 | only the name changes |
| Metadata.WorkflowMetadata.ToDict | src/argowrapper/workflows/workflow_metadata.py:39-44 | the attribute loop keeps exactly the truthy attributes, in field order |
| Metadata.WorkflowMetadata.ToArgoMetadataDict | src/argowrapper/workflows/workflow_metadata.py:39-47 | exactly the truthy attributes, in field order |
| Spec.ParameterEntry | src/argowrapper/workflows/workflow_spec.py:32-50 | the entry names the parameter first; `value` is absent for None; `default` and `enum` are present only when truthy |
| Spec.SpecDictHasEntrypointAndTemplate | src/argowrapper/workflows/workflow_spec.py:120-129 | a non-empty spec dict starts with the entry point and ends with the template reference |
| Spec.WorkflowSpec.constructor | src/argowrapper/workflows/workflow_spec.py:7-15 | every attribute starts empty and tolerations is `{}` |
| Spec.WorkflowSpec.SetEntryPoint | src/argowrapper/workflows/workflow_spec.py:17-18 | only the entry point changes |
| Spec.WorkflowSpec.AddScalingGroup | src/argowrapper/workflows/workflow_spec.py:20-30 | the node selector is `{role: g}`, with the single matching `NoSchedule` toleration; nothing else changes |
| Spec.WorkflowSpec.AddParameter | src/argowrapper/workflows/workflow_spec.py:32-50 | exactly one entry is appended to the parameters, and earlier entries are kept |
| Spec.WorkflowSpec.AddEnumParameter | src/argowrapper/workflows/workflow_spec.py:52-59 | appends one entry carrying the enum values and the default |
| Spec.WorkflowSpec.AddStringParameter | src/argowrapper/workflows/workflow_spec.py:61-64 | appends one entry carrying the default and no enum |
| Spec.WorkflowSpec.SetWorkflowTemplateRef | src/argowrapper/workflows/workflow_spec.py:66-67 | only the template reference changes |
| Spec.WorkflowSpec.AddPersistentVolumeClaim | src/argowrapper/workflows/workflow_spec.py:69-72 | one claim volume is appended at the end |
| Spec.WorkflowSpec.AddPodMetadataLabel | src/argowrapper/workflows/workflow_spec.py:74-86 | the pod label is set, overwriting; pod annotations and other labels are unchanged |
| Spec.WorkflowSpec.AddPodMetadataAnnotation | src/argowrapper/workflows/workflow_spec.py:88-102 | the pod annotation is set, overwriting; pod labels and other annotations are unchanged |
| Spec.WorkflowSpec.SetPodGCStrategy | src/argowrapper/workflows/workflow_spec.py:104-105 | only the pod garbage-collection strategy changes |
| Spec.WorkflowSpec.AddEmptyDir | src/argowrapper/workflows/workflow_spec.py:107-109 | one `emptyDir` volume with the size limit is appended at the end |
| Spec.WorkflowSpec.ToDict | src/argowrapper/workflows/workflow_spec.py:112-118 | the attribute loop keeps exactly the truthy attributes, in field order |
| Spec.WorkflowSpec.ToArgoSpecDict | src/argowrapper/workflows/workflow_spec.py:120-129 | empty when the entry point or the template reference is empty; otherwise the truthy attributes, starting with the entry point |
| Base.ManifestDict | src/argowrapper/workflows/workflow_base.py:50-56 | exactly the keys `apiVersion`, `kind`, `metadata` and `spec`, in that order |
| Base.WorkflowBase.Empty | src/argowrapper/workflows/workflow_base.py:18-27 | the assignments of `__init__` before its setup: constants, the given fields, fresh empty metadata and a fresh spec |
| Base.WorkflowBase.constructor | src/argowrapper/workflows/workflow_base.py:18-32 | constants and fresh objects; a dry run leaves metadata and spec empty, otherwise the name, all class annotations and labels, and the entry point are set and every other spec attribute stays as the fresh spec left it |
| Base.WorkflowBase.AddMetadataAnnotations | src/argowrapper/workflows/workflow_base.py:34-36 | every class-level annotation is assigned, in order |
| Base.WorkflowBase.AddMetadataLabels | src/argowrapper/workflows/workflow_base.py:38-40 | every class-level label is assigned, in order |
| Base.WorkflowBase.SetupMetadata | src/argowrapper/workflows/workflow_base.py:42-45 | the name is the workflow name, and the class annotations and labels are added |
| Base.WorkflowBase.SetupSpec | src/argowrapper/workflows/workflow_base.py:47-48 | only the entry point is set |
| Base.WorkflowBase.ToDict | src/argowrapper/workflows/workflow_base.py:50-56 | the manifest of the current state: the truthy metadata attributes, and the truthy spec attributes once the spec has an entry point and a template reference, under the four top-level keys |
| ParamHelper.HelperEntry | src/argowrapper/workflows/argo_workflows/gwas.py:87-100 | the entry names the parameter; it has no enum unless the name has enum values; its default is the workflow's default when that is truthy |
| ParamHelper.HelperEntries | src/argowrapper/workflows/argo_workflows/gwas.py:87-100 | one entry per parameter, in order |
| ParamHelper.AddParamHelper | src/argowrapper/workflows/argo_workflows/plp.py:108-121 | the loop appends one entry per parameter in order; nothing else in the spec changes |
| GwasWorkflow.NatToStringValue | src/argowrapper/workflows/argo_workflows/gwas.py:23-29 | the chromosome number is written in decimal |
| GwasWorkflow.GdsFileList | src/argowrapper/workflows/argo_workflows/gwas.py:23-29 | 23 quoted paths, one per chromosome |
| GwasWorkflow.JoinCommaCount | src/argowrapper/workflows/argo_workflows/gwas.py:29 | joining n comma-free paths with `, ` gives n − 1 commas |
| GwasWorkflow.CreateGdsFiles | src/argowrapper/workflows/argo_workflows/gwas.py:23-29 | the file list is written in square brackets |
| GwasWorkflow.GdsFilesShape | src/argowrapper/workflows/argo_workflows/gwas.py:23-29 | paths for chr1 to chr22, then chrX, separated by exactly 22 commas |
| GwasWorkflow.GenomeBuildIsTheEnumParameter | src/argowrapper/workflows/argo_workflows/gwas.py:53-55 | only `genome_build` carries enum values, `["hg38","hg19"]` |
| GwasWorkflow.NoDefaultWithoutDefaultValue | src/argowrapper/workflows/argo_workflows/gwas.py:42-51 | a parameter without a workflow default gets no `default` key |
| GwasWorkflow.Gwas.constructor | src/argowrapper/workflows/argo_workflows/gwas.py:63-71 | the workflow keeps the given user, request body, config, `json.dumps`, settings, workflow name, dry-run flag, API version and kind; a dry run leaves metadata and spec empty; otherwise the workflow is fully set up |
| GwasWorkflow.Gwas.SetupMetadata | src/argowrapper/workflows/argo_workflows/gwas.py:73-81 | the name, the annotations with `workflow_name` from the request, and the labels with the encoded user |
| GwasWorkflow.Gwas.AddMetadataAnnotations | src/argowrapper/workflows/argo_workflows/gwas.py:73-77 | the class annotations, then `workflow_name` from the request body |
| GwasWorkflow.Gwas.AddMetadataLabels | src/argowrapper/workflows/argo_workflows/gwas.py:79-81 | the class labels, then `gen3username` set to the encoded user |
| GwasWorkflow.Gwas.AddUserDefinedSpecParameters | src/argowrapper/workflows/argo_workflows/gwas.py:102-106 | appends the stringified request-body parameters |
| GwasWorkflow.Gwas.AddHardCodedSpecParameters | src/argowrapper/workflows/argo_workflows/gwas.py:108-109 | appends the hard-coded parameters |
| GwasWorkflow.Gwas.AddInternalApiEnvParameter | src/argowrapper/workflows/argo_workflows/gwas.py:121-123 | appends `internal_api_env` taken from the config |
| GwasWorkflow.Gwas.AddSpecParameters | src/argowrapper/workflows/argo_workflows/gwas.py:111-123 | request-body parameters, then hard-coded ones, then `internal_api_env` last |
| GwasWorkflow.Gwas.AddSpecVolumes | src/argowrapper/workflows/argo_workflows/gwas.py:125-131 | the `gateway` claim, then the `workdir` emptyDir of `10Gi` |
| GwasWorkflow.Gwas.AddSpecPodMetadataAnnotations | src/argowrapper/workflows/argo_workflows/gwas.py:133-134 | the whole pod metadata after the step: the `annotations` sub-map gets `gen3username` set to the raw user name |
| GwasWorkflow.Gwas.AddSpecPodMetadataLabels | src/argowrapper/workflows/argo_workflows/gwas.py:136-137 | the whole pod metadata after the step: the `labels` sub-map gets `gen3username` set to the encoded user label |
| GwasWorkflow.Gwas.SetupSpec | src/argowrapper/workflows/argo_workflows/gwas.py:139-147 | the whole spec after setup: entry point, pod GC, pod metadata with exactly `annotations` then `labels`, parameters in order, volumes and template reference |
| GwasWorkflow.Gwas.GenerateArgoWorkflow | src/argowrapper/workflows/argo_workflows/gwas.py:149-150 | the manifest of the workflow's current metadata and spec, as `WorkflowBase.ToDict` gives it, with the four top-level keys |
| GwasWorkflow.SetUpLabelsNameTheUser | src/argowrapper/workflows/argo_workflows/gwas.py:57-61 | the labels keep archive strategy `true`, and `gen3username` decodes back to the user |
| PlpWorkflow.PlpParametersAreStrings | src/argowrapper/workflows/argo_workflows/plp.py:32-37 | no PLP parameter is an enum; `out_prefix` defaults to `genesis_vadc`; other names have no default |
| PlpWorkflow.TeamProjectOf | src/argowrapper/workflows/argo_workflows/plp.py:57-63 | an absent or falsy team project fails with the required-field message; success exactly for a truthy string, which is the request's value |
| PlpWorkflow.PlpLabelsReadBack | src/argowrapper/workflows/argo_workflows/plp.py:79-86 | the user label and the team-project label decode back to the user and the team project; the archive strategy stays `true` |
| PlpWorkflow.ChooseScalingGroup | src/argowrapper/workflows/argo_workflows/plp.py:88-106 | for every config: not a dict is an error; no group when neither default nor custom is truthy; otherwise a custom map that is not a dict is an error, a truthy entry for the user wins, else the default, and a missing default is an error |
| PlpWorkflow.CustomGroupWins | src/argowrapper/workflows/argo_workflows/plp.py:95-103 | the listed user gets the custom group; any other user gets the default, or the error when there is none |
| PlpWorkflow.InterpretPlpWorkflowError | src/argowrapper/workflows/argo_workflows/plp.py:173-199 | the explanation is `""` or one of the five messages, and `""` for a step no rule names |
| PlpWorkflow.FirstMatch | src/argowrapper/workflows/argo_workflows/plp.py:173-199 | the message of the first matching rule, `""` when none matches |
| PlpWorkflow.InterpretIsFirstMatch | src/argowrapper/workflows/argo_workflows/plp.py:173-199 | the if/elif chain equals the first match over the rule table read in order |
| PlpWorkflow.InterpretEmptyIffNoRule | src/argowrapper/workflows/argo_workflows/plp.py:173-199 | the message is empty exactly when no rule matches |
| PlpWorkflow.FirstMatchNonEmpty | src/argowrapper/workflows/argo_workflows/plp.py:173-199 | if some rule matches, a non-empty message is shown |
| PlpWorkflow.Plp.Assign | src/argowrapper/workflows/argo_workflows/plp.py:46-71 | the assignments after the team-project check (every field, the workflow name, dry-run flag, API version and kind), with empty metadata and spec |
| PlpWorkflow.Plp.Create | src/argowrapper/workflows/argo_workflows/plp.py:46-71 | the team-project error first, then a scaling-group error when not a dry run; otherwise a workflow holding the given user, request body, config, `json.dumps`, settings, workflow name and dry-run flag, fully set up unless dry |
| PlpWorkflow.Plp.SetupMetadata | src/argowrapper/workflows/argo_workflows/plp.py:73-86 | the name, the annotations with `workflow_name`, and the labels with the encoded user and team project |
| PlpWorkflow.Plp.AddMetadataAnnotations | src/argowrapper/workflows/argo_workflows/plp.py:73-77 | the class annotations, then `workflow_name` from the request body |
| PlpWorkflow.Plp.AddMetadataLabels | src/argowrapper/workflows/argo_workflows/plp.py:79-86 | the class labels, then the user label, then the team-project label |
| PlpWorkflow.Plp.AddSpecScalingGroup | src/argowrapper/workflows/argo_workflows/plp.py:88-106 | reports the scaling-group error and changes nothing, leaves the spec unchanged when there is no group, or places the chosen group in the node selector and tolerations |
| PlpWorkflow.Plp.AddSpecPodMetadataAnnotations | src/argowrapper/workflows/argo_workflows/plp.py:154-155 | the whole pod metadata after the step: the `annotations` sub-map gets `gen3username` set to the raw user name |
| PlpWorkflow.Plp.AddSpecPodMetadataLabels | src/argowrapper/workflows/argo_workflows/plp.py:157-158 | the whole pod metadata after the step: the `labels` sub-map gets `gen3username` set to the encoded user label |
| PlpWorkflow.Plp.AddUserDefinedSpecParameters | src/argowrapper/workflows/argo_workflows/plp.py:123-127 | appends the stringified request-body parameters |
| PlpWorkflow.Plp.AddHardCodedSpecParameters | src/argowrapper/workflows/argo_workflows/plp.py:129-130 | the hard-coded list is empty, so the parameters do not change |
| PlpWorkflow.Plp.AddSpecParameters | src/argowrapper/workflows/argo_workflows/plp.py:132-144 | request-body parameters, then `internal_api_env` last |
| PlpWorkflow.Plp.AddSpecVolumes | src/argowrapper/workflows/argo_workflows/plp.py:146-152 | the `gateway` claim, then the `workdir` emptyDir of `20Gi` |
| PlpWorkflow.Plp.AddSpecContents | src/argowrapper/workflows/argo_workflows/plp.py:166-168 | after the pod metadata: the parameters in order, the two volumes and the template reference, completing the set-up spec |
| PlpWorkflow.Plp.SetupSpec | src/argowrapper/workflows/argo_workflows/plp.py:160-168 | fails exactly when the scaling-group choice fails, leaving only the entry point and pod GC set; otherwise the whole spec is set up, pod metadata included |
| PlpWorkflow.Plp.GenerateArgoWorkflow | src/argowrapper/workflows/argo_workflows/plp.py:170-171 | the manifest of the workflow's current metadata and spec, as `WorkflowBase.ToDict` gives it, with the four top-level keys |
| Auth.StripBearer | src/argowrapper/auth/auth.py:32 | removing `[Bb]earer` matches shortens the string by a multiple of six |
| Auth.StripBearerAbsent | src/argowrapper/auth/auth.py:32 | a string with no `[Bb]earer` in it is unchanged |
| Auth.StripBearerConcat | src/argowrapper/auth/auth.py:32 | the substitution works piece by piece when no match crosses the boundary, so every character outside a matched word is kept in order |
| Auth.RemoveSpaces | src/argowrapper/auth/auth.py:33 | no space remains; every other character is kept as often as it occurs; a string without spaces is unchanged |
| Auth.RemoveSpacesConcat | src/argowrapper/auth/auth.py:33 | space removal works piece by piece, so the kept characters stay in order |
| Auth.ParseJwt | src/argowrapper/auth/auth.py:30-38 | the result is `""` or the header with its `[Bb]earer` words and spaces removed, which is then a space-free token with exactly three dot-separated parts |
| Auth.ParseJwtAccepts | src/argowrapper/auth/auth.py:34-38 | a token is accepted exactly when it has two dots |
| Auth.StripBearerDots | src/argowrapper/auth/auth.py:32 | stripping `Bearer` keeps the dot count |
| Auth.RemoveSpacesDots | src/argowrapper/auth/auth.py:33 | removing spaces keeps the dot count |
| Auth.PlainTokenIff | src/argowrapper/auth/auth.py:32-33 | the tokens the header parsing leaves alone are exactly those with no space and no `[Bb]earer` word; any other letter, `b` included, may occur |
| Auth.ParseWordHeader | src/argowrapper/auth/auth.py:30-38 | `Bearer t` and `bearer t` parse to `t` when `t` has three parts, else to `""` |
| Auth.ParseBareToken | src/argowrapper/auth/auth.py:30-38 | a bare token `t` parses to itself when it has three parts, else to `""` |
| Auth.ParseJwtAcceptsVector | src/argowrapper/auth/auth.py:30-38 | a sample three-part header parses to its token |
| Auth.ParseJwtRejectsVector | src/argowrapper/auth/auth.py:30-38 | a sample two-part header is rejected |
| Auth.Authenticate | src/argowrapper/auth/auth.py:40-87 | no token is denied; `NONE` admits any token; otherwise access requires the workflow grant, and the team-project grant when a project is named |
| Auth.ErrorDenies | src/argowrapper/auth/auth.py:81-83 | an error from the access service denies access |
| Auth.AuthenticateSeesParsedToken | src/argowrapper/auth/auth.py:55-79 | the decision depends on the header only through the parsed token |
| Auth.TeamProjectOnlyNarrows | src/argowrapper/auth/auth.py:69-87 | naming a team project can only turn access from granted to denied |

## Left out

- Reading the Argo configuration file (`_get_argo_config_dict`): the configuration dict is a parameter of the workflow classes.
- `generate_workflow_name` draws a random name: the workflow name is a parameter. `workflow_base.py:19-21` passes a `prefix_name` argument that the helper at `argo_engine_helper.py:20` does not accept; the model follows the call sites and takes the name as given.
- `get_username_from_token` decodes a JWT with a library: the user name is a parameter.
- `json.dumps` inside the request-body conversion is an opaque function `Value -> string`.
- Logger calls have no effect on any result and are not modelled.
- `ArgoEngine` (Argo API calls, YAML loading), quota counting and the archived-detail cache are not part of this model.
- `GwasWorkflow.Gwas`: `_add_node_taint` (`gwas.py:83-85`) calls `add_node_taint`, which `WorkflowSpec` does not define. The model leaves that step out of the GWAS spec setup.
- `gwas.py:67` calls `convert_gen3username_to_label` on the engine helper module, but that function exists only in `engine/helpers/test.py`. The model uses the `test.py` definition and proves it equal to `convert_gen3username_to_pod_label`.
- The module-level `print` at `engine/helpers/test.py:34` is output only.
- `TOKEN_REGEX` is a plain string in `constants.py:12`, but `auth.py:32` calls `.sub` on it: `Auth.StripBearer` models the intended removal of `[Bb]earer`.
- `Auth.Authenticate`: the access method and the access service's two checks are parameters (the latter as oracle functions). An exception thrown by the access service is modelled as an `ArboristError` answer.
- `WorkflowRecords.ParseListItem`: the source calls the resolver once per record. The model applies it as a pure function, so it does not state how many times it is called.
- `WorkflowRecords.ParseCommonDetails`, `ParseDetails`, `ParseListItem`: raw workflows are datatypes whose `metadata`, `status` and `spec` are always present. The `KeyError` the source raises when one of these is missing is not modelled, and neither is an annotations key present with the value `None`.
- `LabelCodec.ConvertGen3teamprojectToPodLabel`: a Dafny string cannot hold a lone surrogate, so the `UnicodeEncodeError` that `team_project.encode("utf-8")` raises on one (`argo_engine_helper.py:193`, reached from `plp.py:64-66`) is not modelled.
- `LabelCodec.ConvertPodLabelToGen3teamproject`: `bytes.fromhex` or `.decode()` raising on a malformed label is modelled as a `Failure` result, not as an exception.
- `LabelCodec.UserLabelVectorSymbols`: the test vectors `48@!(CEab***` and `-scott.VA@gmail.com` are not worked out character by character. The short vectors and `ConvertStringToPodLabelConcat` state the same escaping rule, and the round trip holds for every name.
- `Auth.StripBearer`: the function's own contract states only how the length changes. Which characters survive is stated by `Auth.StripBearerAbsent` and `Auth.StripBearerConcat`, because a character-count clause on the recursive function makes every proof that uses it too costly.
- `Auth.ParseJwtAcceptsVector`: the long sample tokens of the auth tests are replaced by short tokens of the same shape.
- `workflow_factory.py` (a one-entry dispatch), the HTTP routes and the app setup are not part of this model.

## Behaviour worth knowing

- Only the 32 ASCII punctuation characters are escaped in user labels, not every non-alphanumeric character. Other characters, such as letters outside ASCII or spaces, pass through unchanged.
- The user-label decoder turns each `-XX` group back into a character only when it stands for a single ASCII byte. A group for a byte of a multi-byte character is kept verbatim, because `bytearray.fromhex(..).decode()` fails on a lone byte. Multi-byte characters are never escaped by the encoder, so the round trip still holds.
- The decoder removes the first `user-` wherever it occurs, not only a prefix.
- The team-project decoder raises on malformed input instead of degrading gracefully; the model returns a failure.
- An empty team-project name encodes to `""`, which decodes to None rather than `""`.
