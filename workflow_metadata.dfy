/** The metadata part of a workflow manifest, filled in step by step: a
    namespace, a name, and the annotation and label maps. */
module Metadata {
  import opened Wrappers
  import opened Values
  import opened Dicts
  import Attributes

  /** The attributes of a metadata object, in the order its constructor
      assigns them. */
  function MetadataAttributes(namespace: string, name: string, annotations: Dict<Value>, labels: Dict<Value>): Dict<Value> {
    [("namespace", Str(namespace)), ("name", Str(name)), ("annotations", Obj(annotations)), ("labels", Obj(labels))]
  }

  /** The metadata dict holds exactly the non-empty attributes, in field
      order: a fresh object's dict holds its namespace alone, or nothing when
      the namespace is empty. */
  lemma FreshMetadataDict(namespace: string)
    ensures Attributes.KeepTruthy(MetadataAttributes(namespace, [], [], []))
         == (if namespace == [] then [] else [("namespace", Str(namespace))])
  {
    var attrs := MetadataAttributes(namespace, [], [], []);
    var first, rest := [attrs[0]], attrs[1..];
    assert attrs == first + rest;
    Attributes.KeepTruthyConcat(first, rest);
    Attributes.KeepTruthyNone(rest);
    assert first[..0] == [];
  }

  /** A metadata object with every attribute set serialises them all, in
      field order. */
  lemma FullMetadataDict(namespace: string, name: string, annotations: Dict<Value>, labels: Dict<Value>)
    requires namespace != [] && name != [] && annotations != [] && labels != []
    ensures Attributes.KeepTruthy(MetadataAttributes(namespace, name, annotations, labels))
         == MetadataAttributes(namespace, name, annotations, labels)
  {
    Attributes.KeepTruthyAll(MetadataAttributes(namespace, name, annotations, labels));
  }

  class WorkflowMetadata {
    var namespace: string
    var name: string
    var annotations: Dict<Value>
    var labels: Dict<Value>

    /** A fresh object: the given namespace, no name, no annotations and no
        labels. */
    constructor(namespace: string)
      ensures this.namespace == namespace
      ensures name == [] && annotations == [] && labels == []
    {
      this.namespace := namespace;
      name := [];
      annotations := [];
      labels := [];
    }

    /** `add_metadata_label`: `labels[key] = val`, overwriting an old value;
        other labels and all other attributes are unchanged. */
    method AddMetadataLabel(key: string, val: Value)
      modifies this
      ensures labels == Put(old(labels), key, val)
      ensures Get(labels, key) == Some(val)
      ensures forall k :: k != key ==> Get(labels, k) == Get(old(labels), k)
      ensures unchanged(this`namespace, this`name, this`annotations)
    {
      labels := Put(labels, key, val);
      forall k ensures Get(labels, k) == if k == key then Some(val) else Get(old(labels), k) {
        GetPut(old(labels), key, val, k);
      }
    }

    /** `add_metadata_annotation`: `annotations[key] = val`, overwriting an
        old value; other annotations and all other attributes are
        unchanged. */
    method AddMetadataAnnotation(key: string, val: Value)
      modifies this
      ensures annotations == Put(old(annotations), key, val)
      ensures Get(annotations, key) == Some(val)
      ensures forall k :: k != key ==> Get(annotations, k) == Get(old(annotations), k)
      ensures unchanged(this`namespace, this`name, this`labels)
    {
      annotations := Put(annotations, key, val);
      forall k ensures Get(annotations, k) == if k == key then Some(val) else Get(old(annotations), k) {
        GetPut(old(annotations), key, val, k);
      }
    }

    /** `set_name` changes the name and nothing else. */
    method SetName(name: string)
      modifies this
      ensures this.name == name
      ensures unchanged(this`namespace, this`annotations, this`labels)
    {
      this.name := name;
    }

    /** `_to_dict`: the truthy attributes, in field order. */
    method ToDict() returns (d: Dict<Value>)
      ensures d == Attributes.KeepTruthy(MetadataAttributes(namespace, name, annotations, labels))
    {
      d := Attributes.TruthyAttributes(MetadataAttributes(namespace, name, annotations, labels));
    }

    /** `to_argo_metadata_dict`. */
    method ToArgoMetadataDict() returns (d: Dict<Value>)
      ensures d == Attributes.KeepTruthy(MetadataAttributes(namespace, name, annotations, labels))
    {
      d := ToDict();
    }
  }
}
