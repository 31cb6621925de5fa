/** The spec part of a workflow manifest, filled in step by step: entry
    point, pod garbage collection, scaling group, pod metadata, parameters,
    volumes and the workflow template it runs. */
module Spec {
  import opened Wrappers
  import opened Values
  import opened Dicts
  import Attributes

  /** A keyword argument of `_add_parameter` is set when it was passed and
      is truthy; `0`, `""` and an empty list count as not set. */
  predicate IsSet(arg: Option<Value>) {
    arg.Some? && Truthy(arg.value)
  }

  /** The entry `_add_parameter` appends: `name`, then `value` unless the
      value is None, then `default` and `enum` when they are set. */
  function ParameterEntry(name: string, value: Value, default: Option<Value>, enumValues: Option<Value>): (entry: Dict<Value>)
    ensures |entry| >= 1 && entry[0] == ("name", Str(name))
    ensures Get(entry, "value") == (if value.Null? then None else Some(value))
    ensures Get(entry, "default") == (if IsSet(default) then default else None)
    ensures Get(entry, "enum") == (if IsSet(enumValues) then enumValues else None)
    ensures KeysUnique(entry)
  {
    var withValue := if value.Null? then [] else [("value", value)];
    var withDefault := if IsSet(default) then [("default", default.value)] else [];
    var withEnum := if IsSet(enumValues) then [("enum", enumValues.value)] else [];
    var entry := [("name", Str(name))] + withValue + withDefault + withEnum;
    var head := [("name", Str(name))];
    forall k | k != "name"
      ensures Get(entry, k) ==
        if Get(withValue, k).Some? then Get(withValue, k)
        else if Get(withDefault, k).Some? then Get(withDefault, k)
        else Get(withEnum, k)
    {
      GetConcat(head + withValue + withDefault, withEnum, k);
      GetConcat(head + withValue, withDefault, k);
      GetConcat(head, withValue, k);
      assert Get(head, k) == Get(head[1..], k) == None;
    }
    assert Get(withValue, "default") == None && Get(withValue, "enum") == None;
    assert Get(withDefault, "value") == None && Get(withDefault, "enum") == None;
    assert Get(withEnum, "value") == None && Get(withEnum, "default") == None;
    entry
  }

  /** A persistent volume claim entry of `volumes`. */
  function PvcVolume(name: string, claimName: Value): Value {
    Obj([("name", Str(name)), ("persistentVolumeClaim", Obj([("claimName", claimName)]))])
  }

  /** An `emptyDir` entry of `volumes`. */
  function EmptyDirVolume(name: string, dirSize: string): Value {
    Obj([("name", Str(name)), ("emptyDir", Obj([("sizeLimit", Str(dirSize))]))])
  }

  /** The single toleration `add_scaling_group` installs. */
  function RoleToleration(scalingGroup: Value): Value {
    Obj([("key", Str("role")), ("operator", Str("Equal")), ("value", scalingGroup), ("effect", Str("NoSchedule"))])
  }

  /** The attributes of a spec object, in the order its constructor assigns
      them. */
  function SpecAttributes(entrypoint: string, podGC: Dict<Value>, nodeSelector: Dict<Value>, tolerations: Value,
                          podMetadata: Dict<Value>, arguments: Dict<Value>, volumes: seq<Value>,
                          workflowTemplateRef: Dict<Value>): Dict<Value> {
    [("entrypoint", Str(entrypoint)), ("podGC", Obj(podGC)), ("nodeSelector", Obj(nodeSelector)),
     ("tolerations", tolerations), ("podMetadata", Obj(podMetadata)), ("arguments", Obj(arguments)),
     ("volumes", List(volumes)), ("workflowTemplateRef", Obj(workflowTemplateRef))]
  }

  /** A spec dict that is not empty starts with the entry point and holds
      the workflow template reference. */
  lemma SpecDictHasEntrypointAndTemplate(entrypoint: string, podGC: Dict<Value>, nodeSelector: Dict<Value>, tolerations: Value,
                                         podMetadata: Dict<Value>, arguments: Dict<Value>, volumes: seq<Value>,
                                         workflowTemplateRef: Dict<Value>)
    requires entrypoint != [] && workflowTemplateRef != []
    ensures var d := Attributes.KeepTruthy(SpecAttributes(entrypoint, podGC, nodeSelector, tolerations,
                                                          podMetadata, arguments, volumes, workflowTemplateRef));
      |d| >= 2 && d[0] == ("entrypoint", Str(entrypoint)) && d[|d| - 1] == ("workflowTemplateRef", Obj(workflowTemplateRef))
  {
    var attrs := SpecAttributes(entrypoint, podGC, nodeSelector, tolerations, podMetadata, arguments, volumes, workflowTemplateRef);
    var first, middle, last := attrs[..1], attrs[1..7], attrs[7..];
    assert attrs == first + middle + last;
    Attributes.KeepTruthyConcat(first + middle, last);
    Attributes.KeepTruthyConcat(first, middle);
    Attributes.KeepTruthyAll(first);
    Attributes.KeepTruthyAll(last);
  }

  class WorkflowSpec {
    var entrypoint: string
    var podGC: Dict<Value>
    var nodeSelector: Dict<Value>
    /** An empty dict until a scaling group is added, then a list. */
    var tolerations: Value
    var podMetadata: Dict<Value>
    var arguments: Dict<Value>
    var volumes: seq<Value>
    var workflowTemplateRef: Dict<Value>

    /** What the methods of the class ever store: `arguments` is empty or
        holds the `parameters` list alone, and each pod metadata entry is a
        dict. */
    predicate Valid()
      reads this`arguments, this`podMetadata
    {
      (arguments == [] || (|arguments| == 1 && arguments[0].0 == "parameters" && arguments[0].1.List?))
      && (forall i :: 0 <= i < |podMetadata| ==> podMetadata[i].1.Obj?)
    }

    /** The list `arguments["parameters"]`, empty when it is absent. */
    function Parameters(): seq<Value>
      reads this`arguments, this`podMetadata
      requires Valid()
    {
      if arguments == [] then [] else arguments[0].1.items
    }

    /** The sub-map `podMetadata[key]`, empty when it is absent. */
    function PodMetadataMap(key: string): Dict<Value>
      reads this`podMetadata
    {
      var v := Get(podMetadata, key);
      if v.Some? && v.value.Obj? then v.value.fields else []
    }

    constructor()
      ensures Valid()
      ensures entrypoint == [] && podGC == [] && nodeSelector == [] && tolerations == Obj([])
      ensures podMetadata == [] && arguments == [] && volumes == [] && workflowTemplateRef == []
    {
      entrypoint := [];
      podGC := [];
      nodeSelector := [];
      tolerations := Obj([]);
      podMetadata := [];
      arguments := [];
      volumes := [];
      workflowTemplateRef := [];
    }

    /** `set_entry_point` changes the entry point and nothing else. */
    method SetEntryPoint(entrypoint: string)
      modifies this
      ensures this.entrypoint == entrypoint
      ensures unchanged(this`podGC, this`nodeSelector, this`tolerations, this`podMetadata,
                        this`arguments, this`volumes, this`workflowTemplateRef)
    {
      this.entrypoint := entrypoint;
    }

    /** `add_scaling_group`: pods are selected by, and tolerate, the group's
        role, replacing any earlier selector and tolerations. */
    method AddScalingGroup(scalingGroup: Value)
      modifies this
      ensures nodeSelector == [("role", scalingGroup)]
      ensures tolerations == List([RoleToleration(scalingGroup)])
      ensures unchanged(this`entrypoint, this`podGC, this`podMetadata, this`arguments,
                        this`volumes, this`workflowTemplateRef)
    {
      nodeSelector := [("role", scalingGroup)];
      tolerations := List([RoleToleration(scalingGroup)]);
    }

    /** `_add_parameter`: create the parameter list when it is missing and
        append exactly one entry, leaving the earlier entries as they were. */
    method AddParameter(name: string, value: Value, default: Option<Value>, enumValues: Option<Value>)
      requires Valid()
      modifies this
      ensures Valid()
      ensures Parameters() == old(Parameters()) + [Obj(ParameterEntry(name, value, default, enumValues))]
      ensures unchanged(this`entrypoint, this`podGC, this`nodeSelector, this`tolerations,
                        this`podMetadata, this`volumes, this`workflowTemplateRef)
    {
      if arguments == [] || arguments[0].1.items == [] {
        arguments := Put(arguments, "parameters", List([]));
      }
      var parameter := ParameterEntry(name, value, default, enumValues);
      arguments := Put(arguments, "parameters", List(arguments[0].1.items + [Obj(parameter)]));
    }

    /** `add_enum_parameter`: the enum and the default (`""` when not given)
        are passed on. */
    method AddEnumParameter(name: string, value: Value, enumValues: Value, default: Value)
      requires Valid()
      modifies this
      ensures Valid()
      ensures Parameters() == old(Parameters()) + [Obj(ParameterEntry(name, value, Some(default), Some(enumValues)))]
      ensures unchanged(this`entrypoint, this`podGC, this`nodeSelector, this`tolerations,
                        this`podMetadata, this`volumes, this`workflowTemplateRef)
    {
      AddParameter(name, value, Some(default), Some(enumValues));
    }

    /** `add_string_parameter`: only the default is passed on. */
    method AddStringParameter(name: string, value: Value, default: Value)
      requires Valid()
      modifies this
      ensures Valid()
      ensures Parameters() == old(Parameters()) + [Obj(ParameterEntry(name, value, Some(default), None))]
      ensures unchanged(this`entrypoint, this`podGC, this`nodeSelector, this`tolerations,
                        this`podMetadata, this`volumes, this`workflowTemplateRef)
    {
      AddParameter(name, value, Some(default), None);
    }

    /** `set_workflow_template_ref`: the reference names the template. It
        is a one-entry dict, so it is truthy even when the name is None. */
    method SetWorkflowTemplateRef(workflowTemplateName: Value)
      modifies this
      ensures workflowTemplateRef == [("name", workflowTemplateName)]
      ensures unchanged(this`entrypoint, this`podGC, this`nodeSelector, this`tolerations,
                        this`podMetadata, this`arguments, this`volumes)
    {
      workflowTemplateRef := [("name", workflowTemplateName)];
    }

    /** `add_persistent_volume_claim` appends one volume at the end. */
    method AddPersistentVolumeClaim(name: string, claimName: Value)
      modifies this
      ensures volumes == old(volumes) + [PvcVolume(name, claimName)]
      ensures unchanged(this`entrypoint, this`podGC, this`nodeSelector, this`tolerations,
                        this`podMetadata, this`arguments, this`workflowTemplateRef)
    {
      volumes := volumes + [PvcVolume(name, claimName)];
    }

    /** `add_pod_metadata_label`: create the label map when it is missing
        and set `key` in it, overwriting; every other pod metadata entry and
        every other attribute is unchanged. */
    method AddPodMetadataLabel(key: string, val: Value)
      requires Valid()
      modifies this
      ensures Valid()
      ensures podMetadata == Put(old(podMetadata), "labels", Obj(Put(old(PodMetadataMap("labels")), key, val)))
      ensures PodMetadataMap("labels") == Put(old(PodMetadataMap("labels")), key, val)
      ensures PodMetadataMap("annotations") == old(PodMetadataMap("annotations"))
      ensures unchanged(this`entrypoint, this`podGC, this`nodeSelector, this`tolerations,
                        this`arguments, this`volumes, this`workflowTemplateRef)
    {
      SetPodMetadataEntry("labels", key, val);
    }

    /** `add_pod_metadata_annotation`: the same for the annotation map. */
    method AddPodMetadataAnnotation(key: string, val: Value)
      requires Valid()
      modifies this
      ensures Valid()
      ensures podMetadata == Put(old(podMetadata), "annotations", Obj(Put(old(PodMetadataMap("annotations")), key, val)))
      ensures PodMetadataMap("annotations") == Put(old(PodMetadataMap("annotations")), key, val)
      ensures PodMetadataMap("labels") == old(PodMetadataMap("labels"))
      ensures unchanged(this`entrypoint, this`podGC, this`nodeSelector, this`tolerations,
                        this`arguments, this`volumes, this`workflowTemplateRef)
    {
      SetPodMetadataEntry("annotations", key, val);
    }

    /** The steps both pod metadata methods take on the sub-map `sub`. */
    method SetPodMetadataEntry(sub: string, key: string, val: Value)
      requires Valid()
      modifies this
      ensures Valid()
      ensures podMetadata == Put(old(podMetadata), sub, Obj(Put(old(PodMetadataMap(sub)), key, val)))
      ensures forall other :: other != sub ==> PodMetadataMap(other) == old(PodMetadataMap(other))
      ensures PodMetadataMap(sub) == Put(old(PodMetadataMap(sub)), key, val)
      ensures unchanged(this`entrypoint, this`podGC, this`nodeSelector, this`tolerations,
                        this`arguments, this`volumes, this`workflowTemplateRef)
    {
      ghost var before := podMetadata;
      if Get(podMetadata, sub).None? || !Truthy(Get(podMetadata, sub).value) {
        podMetadata := Put(podMetadata, sub, Obj([]));
        GetPut(before, sub, Obj([]), sub);
        PutValues(before, sub, Obj([]));
      }
      var current := PodMetadataMap(sub);
      assert current == old(PodMetadataMap(sub)) by {
        GetFinds(before, sub);
        if Get(before, sub).Some? {
          var v := Get(before, sub).value;
          var i :| 0 <= i < |before| && before[i] == (sub, v);
        }
      }
      ghost var middle := podMetadata;
      podMetadata := Put(podMetadata, sub, Obj(Put(current, key, val)));
      PutPut(before, sub, Obj([]), Obj(Put(current, key, val)));
      PutValues(middle, sub, Obj(Put(current, key, val)));
      forall other | other != sub ensures PodMetadataMap(other) == old(PodMetadataMap(other)) {
        GetPut(middle, sub, Obj(Put(current, key, val)), other);
        GetPut(before, sub, Obj([]), other);
      }
      GetPut(middle, sub, Obj(Put(current, key, val)), sub);
      forall i | 0 <= i < |podMetadata| ensures podMetadata[i].1.Obj? {
        assert podMetadata[i] in podMetadata;
        if podMetadata[i] != (sub, Obj(Put(current, key, val))) {
          assert podMetadata[i] in middle;
          if middle != before {
            assert podMetadata[i] == (sub, Obj([])) || podMetadata[i] in before;
          }
        }
      }
    }

    /** `set_podGC_strategy`. */
    method SetPodGCStrategy(completedPodsDeletionStrategy: string)
      modifies this
      ensures podGC == [("strategy", Str(completedPodsDeletionStrategy))]
      ensures unchanged(this`entrypoint, this`nodeSelector, this`tolerations, this`podMetadata,
                        this`arguments, this`volumes, this`workflowTemplateRef)
    {
      podGC := [("strategy", Str(completedPodsDeletionStrategy))];
    }

    /** `add_empty_dir` appends one volume at the end. */
    method AddEmptyDir(name: string, dirSize: string)
      modifies this
      ensures volumes == old(volumes) + [EmptyDirVolume(name, dirSize)]
      ensures unchanged(this`entrypoint, this`podGC, this`nodeSelector, this`tolerations,
                        this`podMetadata, this`arguments, this`workflowTemplateRef)
    {
      volumes := volumes + [EmptyDirVolume(name, dirSize)];
    }

    /** `_to_dict`: the truthy attributes, in field order. */
    method ToDict() returns (d: Dict<Value>)
      ensures d == Attributes.KeepTruthy(SpecAttributes(entrypoint, podGC, nodeSelector, tolerations,
                                                        podMetadata, arguments, volumes, workflowTemplateRef))
    {
      d := Attributes.TruthyAttributes(SpecAttributes(entrypoint, podGC, nodeSelector, tolerations,
                                                      podMetadata, arguments, volumes, workflowTemplateRef));
    }

    /** `to_argo_spec_dict`: empty when there is no entry point or no
        workflow template reference, the `_to_dict` otherwise. */
    method ToArgoSpecDict() returns (d: Dict<Value>)
      ensures entrypoint == [] || workflowTemplateRef == [] ==> d == []
      ensures entrypoint != [] && workflowTemplateRef != [] ==>
        d == Attributes.KeepTruthy(SpecAttributes(entrypoint, podGC, nodeSelector, tolerations,
                                                  podMetadata, arguments, volumes, workflowTemplateRef))
        && d[0] == ("entrypoint", Str(entrypoint))
    {
      if entrypoint == [] {
        return [];
      }
      if workflowTemplateRef == [] {
        return [];
      }
      d := ToDict();
      SpecDictHasEntrypointAndTemplate(entrypoint, podGC, nodeSelector, tolerations,
                                       podMetadata, arguments, volumes, workflowTemplateRef);
    }
  }
}
