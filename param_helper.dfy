/** `_add_param_helper` of the concrete workflows: each parameter becomes
    one spec parameter, in order, with the workflow's default for that name
    (or `""`) and, for a name the workflow lists enum values for, those
    values. */
module ParamHelper {
  import opened Wrappers
  import opened Values
  import opened Dicts
  import Spec

  /** The spec parameter entry for one parameter. */
  function HelperEntry(name: string, value: Value, defaults: Dict<Value>, enums: Dict<Value>): (entry: Value)
    ensures entry.Obj? && |entry.fields| >= 1 && entry.fields[0] == ("name", Str(name))
    ensures name !in Keys(enums) ==> Get(entry.fields, "enum") == None
    ensures Get(entry.fields, "default") ==
      if Spec.IsSet(Get(defaults, name)) then Get(defaults, name) else None
  {
    GetFinds(enums, name);
    Obj(Spec.ParameterEntry(name, value, Some(GetOr(defaults, name, Str(""))), Get(enums, name)))
  }

  /** The entries for a whole parameter dict, in its order. */
  function HelperEntries(parameters: Dict<Value>, defaults: Dict<Value>, enums: Dict<Value>): (entries: seq<Value>)
    ensures |entries| == |parameters|
    ensures forall i :: 0 <= i < |parameters| ==>
      entries[i] == HelperEntry(parameters[i].0, parameters[i].1, defaults, enums)
  {
    seq(|parameters|, i requires 0 <= i < |parameters| => HelperEntry(parameters[i].0, parameters[i].1, defaults, enums))
  }

  /** The entries of one more parameter: those of the shorter prefix, then
      the entry of the next parameter. */
  lemma HelperEntriesPrefix(parameters: Dict<Value>, i: nat, defaults: Dict<Value>, enums: Dict<Value>)
    requires i < |parameters|
    ensures HelperEntries(parameters[..i + 1], defaults, enums)
         == HelperEntries(parameters[..i], defaults, enums) + [HelperEntry(parameters[i].0, parameters[i].1, defaults, enums)]
  {
    var longer := HelperEntries(parameters[..i + 1], defaults, enums);
    var shorter := HelperEntries(parameters[..i], defaults, enums);
    assert |longer| == |shorter| + 1;
    assert forall j :: 0 <= j < i ==> longer[j] == shorter[j];
  }

  /** Concatenation is associative; stated once so that chaining several
      helper runs does not make the solver rediscover it on long lists. */
  lemma ConcatAssoc<T>(a: seq<T>, b: seq<T>, c: seq<T>)
    ensures a + b + c == a + (b + c)
  {
  }

  /** Appending to nothing gives the appended list. */
  lemma ConcatEmpty<T>(a: seq<T>)
    ensures [] + a == a
  {
  }

  /** The loop: one enum or string parameter per entry, appended in order;
      nothing but the parameter list changes. */
  method AddParamHelper(spec: Spec.WorkflowSpec, parameters: Dict<Value>, defaults: Dict<Value>, enums: Dict<Value>)
    requires spec.Valid()
    modifies spec
    ensures spec.Valid()
    ensures spec.Parameters() == old(spec.Parameters()) + HelperEntries(parameters, defaults, enums)
    ensures unchanged(spec`entrypoint, spec`podGC, spec`nodeSelector, spec`tolerations,
                      spec`podMetadata, spec`volumes, spec`workflowTemplateRef)
  {
    var i := 0;
    while i < |parameters|
      invariant 0 <= i <= |parameters|
      invariant spec.Valid()
      invariant spec.Parameters() == old(spec.Parameters()) + HelperEntries(parameters[..i], defaults, enums)
      invariant unchanged(spec`entrypoint, spec`podGC, spec`nodeSelector, spec`tolerations,
                          spec`podMetadata, spec`volumes, spec`workflowTemplateRef)
    {
      var (parameterName, parameterVal) := parameters[i];
      var defaultVal := GetOr(defaults, parameterName, Str(""));
      GetFinds(enums, parameterName);
      if parameterName in Keys(enums) {
        spec.AddEnumParameter(parameterName, parameterVal, Get(enums, parameterName).value, defaultVal);
      } else {
        spec.AddStringParameter(parameterName, parameterVal, defaultVal);
      }
      HelperEntriesPrefix(parameters, i, defaults, enums);
      i := i + 1;
    }
    assert parameters[..i] == parameters;
  }
}
