/** A workflow manifest under construction: API version and kind, a
    metadata object and a spec object. A concrete workflow gives the class
    its annotation and label maps and replaces the setup steps with its own
    (see `GwasWorkflow` and `PlpWorkflow`). */
module Base {
  import opened Values
  import opened Dicts
  import opened Settings
  import Metadata
  import Spec
  import Attributes

  /** The manifest dict: exactly the keys `apiVersion`, `kind`, `metadata`
      and `spec`, in that order. */
  function ManifestDict(apiVersion: string, kind: string, metadata: Dict<Value>, spec: Dict<Value>): (d: Dict<Value>)
    ensures Keys(d) == ["apiVersion", "kind", "metadata", "spec"]
    ensures KeysUnique(d)
  {
    var d := [("apiVersion", Str(apiVersion)), ("kind", Str(kind)), ("metadata", Obj(metadata)), ("spec", Obj(spec))];
    assert Keys(d) == ["apiVersion", "kind", "metadata", "spec"];
    d
  }

  class WorkflowBase {
    /** The workflow name; the source draws it at random, here it is given. */
    const wfName: string
    const apiVersion: string
    const kind: string
    const metadata: Metadata.WorkflowMetadata
    const spec: Spec.WorkflowSpec
    const entrypoint: string
    const dryRun: bool
    /** The class-level `METADATA_ANNOTATIONS` and `METADATA_LABELS`. */
    const metadataAnnotations: Dict<Value>
    const metadataLabels: Dict<Value>

    /** The assignments of `__init__`, without the setup it then runs. A
        concrete workflow builds on this and runs its own setup. */
    constructor Empty(namespace: string, entrypoint: string, dryRun: bool, wfName: string,
                      metadataAnnotations: Dict<Value>, metadataLabels: Dict<Value>, s: Settings)
      ensures this.wfName == wfName && this.entrypoint == entrypoint && this.dryRun == dryRun
      ensures apiVersion == s.apiVersion && kind == s.workflowKind
      ensures this.metadataAnnotations == metadataAnnotations && this.metadataLabels == metadataLabels
      ensures fresh(metadata) && fresh(spec)
      ensures metadata.namespace == namespace && metadata.name == []
      ensures metadata.annotations == [] && metadata.labels == []
      ensures FreshSpec(spec)
    {
      this.wfName := wfName;
      apiVersion := s.apiVersion;
      kind := s.workflowKind;
      metadata := new Metadata.WorkflowMetadata(namespace);
      spec := new Spec.WorkflowSpec();
      this.entrypoint := entrypoint;
      this.dryRun := dryRun;
      this.metadataAnnotations := metadataAnnotations;
      this.metadataLabels := metadataLabels;
    }

    /** `__init__` of the base class itself: in a dry run the metadata and
        spec stay empty; otherwise the metadata is set up and the spec gets
        its entry point. */
    constructor(namespace: string, entrypoint: string, dryRun: bool, wfName: string,
                metadataAnnotations: Dict<Value>, metadataLabels: Dict<Value>, s: Settings)
      ensures this.wfName == wfName && this.entrypoint == entrypoint && this.dryRun == dryRun
      ensures apiVersion == s.apiVersion && kind == s.workflowKind
      ensures this.metadataAnnotations == metadataAnnotations && this.metadataLabels == metadataLabels
      ensures fresh(metadata) && fresh(spec)
      ensures metadata.namespace == namespace
      ensures dryRun ==> metadata.name == [] && metadata.annotations == [] && metadata.labels == [] && FreshSpec(spec)
      ensures !dryRun ==>
        metadata.name == wfName
        && metadata.annotations == PutAll([], metadataAnnotations)
        && metadata.labels == PutAll([], metadataLabels)
        && spec.entrypoint == entrypoint
        && spec.podGC == [] && spec.nodeSelector == [] && spec.tolerations == Obj([])
        && spec.podMetadata == [] && spec.arguments == [] && spec.volumes == [] && spec.workflowTemplateRef == []
      ensures spec.Valid()
    {
      this.wfName := wfName;
      apiVersion := s.apiVersion;
      kind := s.workflowKind;
      metadata := new Metadata.WorkflowMetadata(namespace);
      spec := new Spec.WorkflowSpec();
      this.entrypoint := entrypoint;
      this.dryRun := dryRun;
      this.metadataAnnotations := metadataAnnotations;
      this.metadataLabels := metadataLabels;
      new;
      if !dryRun {
        SetupMetadata();
        SetupSpec();
      }
    }

    /** `_add_metadata_annotations`: assign every class-level annotation. */
    method AddMetadataAnnotations()
      modifies metadata
      ensures metadata.annotations == PutAll(old(metadata.annotations), metadataAnnotations)
      ensures unchanged(metadata`namespace, metadata`name, metadata`labels)
    {
      var i := 0;
      while i < |metadataAnnotations|
        invariant 0 <= i <= |metadataAnnotations|
        invariant metadata.annotations == PutAll(old(metadata.annotations), metadataAnnotations[..i])
        invariant unchanged(metadata`namespace, metadata`name, metadata`labels)
      {
        var (annotationKey, annotationVal) := metadataAnnotations[i];
        metadata.AddMetadataAnnotation(annotationKey, annotationVal);
        PutAllSnoc(old(metadata.annotations), metadataAnnotations[..i], annotationKey, annotationVal);
        assert metadataAnnotations[..i + 1] == metadataAnnotations[..i] + [(annotationKey, annotationVal)];
        i := i + 1;
      }
      assert metadataAnnotations[..i] == metadataAnnotations;
    }

    /** `_add_metadata_labels`: assign every class-level label. */
    method AddMetadataLabels()
      modifies metadata
      ensures metadata.labels == PutAll(old(metadata.labels), metadataLabels)
      ensures unchanged(metadata`namespace, metadata`name, metadata`annotations)
    {
      var i := 0;
      while i < |metadataLabels|
        invariant 0 <= i <= |metadataLabels|
        invariant metadata.labels == PutAll(old(metadata.labels), metadataLabels[..i])
        invariant unchanged(metadata`namespace, metadata`name, metadata`annotations)
      {
        var (labelKey, labelVal) := metadataLabels[i];
        metadata.AddMetadataLabel(labelKey, labelVal);
        PutAllSnoc(old(metadata.labels), metadataLabels[..i], labelKey, labelVal);
        assert metadataLabels[..i + 1] == metadataLabels[..i] + [(labelKey, labelVal)];
        i := i + 1;
      }
      assert metadataLabels[..i] == metadataLabels;
    }

    /** `setup_metadata`: the workflow name, then the annotations, then the
        labels. */
    method SetupMetadata()
      modifies metadata
      ensures metadata.name == wfName
      ensures metadata.annotations == PutAll(old(metadata.annotations), metadataAnnotations)
      ensures metadata.labels == PutAll(old(metadata.labels), metadataLabels)
      ensures metadata.namespace == old(metadata.namespace)
    {
      metadata.SetName(wfName);
      AddMetadataAnnotations();
      AddMetadataLabels();
    }

    /** `setup_spec`: the entry point, and nothing else. */
    method SetupSpec()
      modifies spec
      ensures spec.entrypoint == entrypoint
      ensures unchanged(spec`podGC, spec`nodeSelector, spec`tolerations, spec`podMetadata,
                        spec`arguments, spec`volumes, spec`workflowTemplateRef)
    {
      spec.SetEntryPoint(entrypoint);
    }

    /** The manifest the current state serialises to: the truthy metadata
        attributes, and the truthy spec attributes once the spec has both an
        entry point and a workflow template reference. */
    function Manifest(): Dict<Value>
      reads metadata, spec
    {
      ManifestDict(apiVersion, kind,
        Attributes.KeepTruthy(Metadata.MetadataAttributes(metadata.namespace, metadata.name, metadata.annotations, metadata.labels)),
        if spec.entrypoint == [] || spec.workflowTemplateRef == [] then []
        else Attributes.KeepTruthy(Spec.SpecAttributes(spec.entrypoint, spec.podGC, spec.nodeSelector, spec.tolerations,
                                                       spec.podMetadata, spec.arguments, spec.volumes, spec.workflowTemplateRef)))
    }

    /** `_to_dict`: the four manifest keys, the metadata dict and the spec
        dict. */
    method ToDict() returns (d: Dict<Value>)
      ensures d == Manifest()
      ensures Keys(d) == ["apiVersion", "kind", "metadata", "spec"]
    {
      var metadataDict := metadata.ToArgoMetadataDict();
      var specDict := spec.ToArgoSpecDict();
      d := ManifestDict(apiVersion, kind, metadataDict, specDict);
    }
  }

  /** A spec object as the constructor leaves it. */
  predicate FreshSpec(spec: Spec.WorkflowSpec)
    reads spec
  {
    spec.Valid()
    && spec.entrypoint == [] && spec.podGC == [] && spec.nodeSelector == [] && spec.tolerations == Obj([])
    && spec.podMetadata == [] && spec.arguments == [] && spec.volumes == [] && spec.workflowTemplateRef == []
  }
}
