/** The workflow records of the engine helper: the phase shown for a
    workflow, the details and list entries read out of Argo's raw workflow
    records, the merge of two workflow lists by uid, and the request body
    turned into workflow parameters. */
module WorkflowRecords {
  import opened Wrappers
  import opened Values
  import opened Dicts
  import LabelCodec
  import opened Settings

  const ACTIVE_WORKFLOW: string := "active_workflow"
  const TERMINATE: string := "Terminate"

  /** The parts of a raw Argo workflow record the helper reads; a field
      Argo leaves out is `None`. */
  datatype RawMetadata = RawMetadata(
    name: Option<string>,
    uid: Option<string>,
    creationTimestamp: Option<string>,
    labels: Option<Dict<string>>,
    annotations: Option<Dict<string>>)

  datatype RawSpec = RawSpec(shutdown: Option<string>, arguments: Option<Value>)

  datatype RawStatus = RawStatus(
    phase: Option<string>,
    startedAt: Option<string>,
    finishedAt: Option<string>,
    progress: Option<string>,
    outputs: Option<Value>)

  datatype RawWorkflow = RawWorkflow(metadata: RawMetadata, spec: RawSpec, status: RawStatus)

  /** `if workflow_details["metadata"].get("labels")`: present and not empty. */
  predicate HasLabels(w: RawWorkflow) {
    w.metadata.labels.Some? && w.metadata.labels.value != []
  }

  /** `.get("annotations", {}).get("workflow_name")`. */
  function WorkflowNameAnnotation(w: RawWorkflow): Option<string> {
    Get(w.metadata.annotations.GetOr([]), "workflow_name")
  }

  // ---------------------------------------------------------------- phase

  /** The phase shown for a workflow: an active workflow whose shutdown is
      `Terminate` shows `Canceling` while it still runs and `Canceled` once
      it has failed. No other phase, shutdown value or workflow type changes
      the phase. */
  function ParsePhase(phase: Option<string>, shutdown: Option<string>, workflowType: string): (shown: Option<string>)
    ensures shown != phase ==>
      workflowType == ACTIVE_WORKFLOW && shutdown == Some(TERMINATE)
      && (phase == Some("Running") || phase == Some("Failed"))
    ensures workflowType == ACTIVE_WORKFLOW && shutdown == Some(TERMINATE) ==>
      shown != Some("Running") && shown != Some("Failed")
    ensures workflowType == ACTIVE_WORKFLOW && shutdown == Some(TERMINATE) && phase == Some("Running") ==>
      shown == Some("Canceling")
    ensures workflowType == ACTIVE_WORKFLOW && shutdown == Some(TERMINATE) && phase == Some("Failed") ==>
      shown == Some("Canceled")
  {
    if workflowType == ACTIVE_WORKFLOW && shutdown == Some(TERMINATE) then
      if phase == Some("Running") then Some("Canceling")
      else if phase == Some("Failed") then Some("Canceled")
      else phase
    else phase
  }

  /** The rewritten phases are not rewritten again. */
  lemma ParsePhaseIdempotent(phase: Option<string>, shutdown: Option<string>, workflowType: string)
    ensures ParsePhase(ParsePhase(phase, shutdown, workflowType), shutdown, workflowType)
         == ParsePhase(phase, shutdown, workflowType)
  {
  }

  // ------------------------------------------------------------- details

  /** The dict `parse_common_details` returns. */
  datatype CommonDetails = CommonDetails(
    name: Option<string>,
    phase: Option<string>,
    gen3username: string,
    submittedAt: Option<string>,
    startedAt: Option<string>,
    finishedAt: Option<string>)

  /** `parse_common_details`: the user name is decoded from the user label
      when the record has labels, and is empty otherwise. */
  function ParseCommonDetails(w: RawWorkflow, workflowType: string, s: Settings): (d: CommonDetails)
    ensures !HasLabels(w) ==> d.gen3username == []
    ensures HasLabels(w) ==>
      d.gen3username == LabelCodec.ConvertUsernameLabelToGen3username(Get(w.metadata.labels.value, s.userLabel))
    ensures d.phase == ParsePhase(w.status.phase, w.spec.shutdown, workflowType)
    ensures d.name == w.metadata.name && d.submittedAt == w.metadata.creationTimestamp
    ensures d.startedAt == w.status.startedAt && d.finishedAt == w.status.finishedAt
  {
    var username :=
      if HasLabels(w) then
        LabelCodec.ConvertUsernameLabelToGen3username(Get(w.metadata.labels.value, s.userLabel))
      else [];
    CommonDetails(
      w.metadata.name,
      ParsePhase(w.status.phase, w.spec.shutdown, workflowType),
      username,
      w.metadata.creationTimestamp,
      w.status.startedAt,
      w.status.finishedAt)
  }

  /** A record whose user label was written by the user name encoder shows
      that user name. */
  lemma CommonDetailsReadsUser(w: RawWorkflow, workflowType: string, s: Settings, username: string)
    requires w.metadata.labels.Some?
    requires Get(w.metadata.labels.value, s.userLabel) == Some(LabelCodec.ConvertGen3usernameToPodLabel(username))
    ensures ParseCommonDetails(w, workflowType, s).gen3username == username
  {
    LabelCodec.PodLabelRoundTrip(username);
  }

  /** The dict `parse_details` returns. */
  datatype Details = Details(
    name: Option<string>,
    phase: Option<string>,
    gen3username: Option<string>,
    submittedAt: Option<string>,
    startedAt: Option<string>,
    finishedAt: Option<string>,
    wfName: Option<string>,
    arguments: Option<Value>,
    progress: Option<string>,
    outputs: Value,
    gen3teamproject: Option<string>)

  /** Why reading a record raises: a team project label that is not the hex
      of a UTF-8 string, or a list record without labels. */
  datatype ParseError = TeamProjectLabel(cause: LabelCodec.DecodeError) | LabelsMissing

  /** `parse_details`: it raises exactly when the record has labels and its
      team project label does not decode; without labels the user and the
      team project are both absent. */
  function ParseDetails(w: RawWorkflow, workflowType: string, s: Settings): (r: Result<Details, ParseError>)
    ensures r.Failure? <==>
      HasLabels(w)
      && LabelCodec.ConvertPodLabelToGen3teamproject(Get(w.metadata.labels.value, s.teamProjectLabel)).Failure?
    ensures r.Success? && !HasLabels(w) ==> r.value.gen3username == None && r.value.gen3teamproject == None
    ensures r.Success? && HasLabels(w) ==>
      r.value.gen3username == Some(LabelCodec.ConvertUsernameLabelToGen3username(Get(w.metadata.labels.value, s.userLabel)))
      && Success(r.value.gen3teamproject) == LabelCodec.ConvertPodLabelToGen3teamproject(Get(w.metadata.labels.value, s.teamProjectLabel))
    ensures r.Success? ==> r.value.phase == ParsePhase(w.status.phase, w.spec.shutdown, workflowType)
    ensures r.Success? ==>
      var common := ParseCommonDetails(w, workflowType, s);
      r.value.name == common.name && r.value.submittedAt == common.submittedAt
      && r.value.startedAt == common.startedAt && r.value.finishedAt == common.finishedAt
    ensures r.Success? ==>
      r.value.wfName == WorkflowNameAnnotation(w) && r.value.arguments == w.spec.arguments
      && r.value.progress == w.status.progress && r.value.outputs == w.status.outputs.GetOr(Obj([]))
  {
    var common := ParseCommonDetails(w, workflowType, s);
    var outputs := w.status.outputs.GetOr(Obj([]));
    if HasLabels(w) then
      var labels := w.metadata.labels.value;
      var username := LabelCodec.ConvertUsernameLabelToGen3username(Get(labels, s.userLabel));
      match LabelCodec.ConvertPodLabelToGen3teamproject(Get(labels, s.teamProjectLabel))
      case Failure(e) => Failure(TeamProjectLabel(e))
      case Success(teamProject) =>
        Success(Details(common.name, common.phase, Some(username), common.submittedAt,
          common.startedAt, common.finishedAt, WorkflowNameAnnotation(w), w.spec.arguments,
          w.status.progress, outputs, teamProject))
    else
      Success(Details(common.name, common.phase, None, common.submittedAt,
        common.startedAt, common.finishedAt, WorkflowNameAnnotation(w), w.spec.arguments,
        w.status.progress, outputs, None))
  }

  /** A record labelled by the encoders shows the user and team project it
      was labelled with; an empty team project reads back as absent. */
  lemma DetailsOfLabelledWorkflow(w: RawWorkflow, workflowType: string, s: Settings, username: string, teamProject: string)
    requires w.metadata.labels.Some?
    requires Get(w.metadata.labels.value, s.userLabel) == Some(LabelCodec.ConvertGen3usernameToPodLabel(username))
    requires Get(w.metadata.labels.value, s.teamProjectLabel) == Some(LabelCodec.ConvertGen3teamprojectToPodLabel(teamProject))
    ensures ParseDetails(w, workflowType, s).Success?
    ensures ParseDetails(w, workflowType, s).value.gen3username == Some(username)
    ensures ParseDetails(w, workflowType, s).value.gen3teamproject == (if teamProject == [] then None else Some(teamProject))
  {
    LabelCodec.PodLabelRoundTrip(username);
    LabelCodec.TeamProjectRoundTrip(teamProject);
  }

  // ----------------------------------------------------------- list items

  /** What the archived-workflow lookup returns for a uid: the workflow
      name, the team project and the user name. */
  datatype ArchivedInfo = ArchivedInfo(wfName: Option<string>, teamProject: Option<string>, gen3username: Option<string>)

  /** The dict `parse_list_item` returns. */
  datatype ListItem = ListItem(
    name: Option<string>,
    phase: Option<string>,
    gen3username: Option<string>,
    submittedAt: Option<string>,
    startedAt: Option<string>,
    finishedAt: Option<string>,
    wfName: Option<string>,
    gen3teamproject: Option<string>,
    uid: Option<string>)

  /** `parse_list_item`. Without a lookup the workflow name comes from the
      annotations and the team project from its label, and a record without
      labels raises. With a lookup, the workflow name, team project and user
      are the lookup's answer for the record's uid and nothing raises. The
      uid is copied either way. */
  function ParseListItem(w: RawWorkflow, workflowType: string, s: Settings,
                         lookup: Option<Option<string> -> ArchivedInfo>): (r: Result<ListItem, ParseError>)
    ensures r.Success? ==> r.value.uid == w.metadata.uid
    ensures r.Success? ==> r.value.phase == ParsePhase(w.status.phase, w.spec.shutdown, workflowType)
    ensures lookup.Some? ==>
      r.Success?
      && r.value.wfName == lookup.value(w.metadata.uid).wfName
      && r.value.gen3teamproject == lookup.value(w.metadata.uid).teamProject
      && r.value.gen3username == lookup.value(w.metadata.uid).gen3username
    ensures lookup.None? ==>
      (r.Failure? <==>
        w.metadata.labels.None?
        || LabelCodec.ConvertPodLabelToGen3teamproject(Get(w.metadata.labels.value, s.teamProjectLabel)).Failure?)
    ensures lookup.None? && r.Success? ==>
      r.value.wfName == WorkflowNameAnnotation(w)
      && Success(r.value.gen3teamproject) == LabelCodec.ConvertPodLabelToGen3teamproject(Get(w.metadata.labels.value, s.teamProjectLabel))
      && r.value.gen3username == Some(ParseCommonDetails(w, workflowType, s).gen3username)
    ensures r.Success? ==>
      var common := ParseCommonDetails(w, workflowType, s);
      r.value.name == common.name && r.value.submittedAt == common.submittedAt
      && r.value.startedAt == common.startedAt && r.value.finishedAt == common.finishedAt
  {
    var common := ParseCommonDetails(w, workflowType, s);
    match lookup
    case None =>
      if w.metadata.labels.None? then Failure(LabelsMissing)
      else (
        match LabelCodec.ConvertPodLabelToGen3teamproject(Get(w.metadata.labels.value, s.teamProjectLabel))
        case Failure(e) => Failure(TeamProjectLabel(e))
        case Success(teamProject) =>
          Success(ListItem(common.name, common.phase, Some(common.gen3username), common.submittedAt,
            common.startedAt, common.finishedAt, WorkflowNameAnnotation(w), teamProject, w.metadata.uid)))
    case Some(get) =>
      var info := get(w.metadata.uid);
      Success(ListItem(common.name, common.phase, info.gen3username, common.submittedAt,
        common.startedAt, common.finishedAt, info.wfName, info.teamProject, w.metadata.uid))
  }

  // ----------------------------------------------------------- list merge

  /** The uids of a list of workflows, `.get("uid")` of each. */
  function Uids(l: seq<ListItem>): (uids: seq<Option<string>>)
    ensures |uids| == |l|
    ensures forall i :: 0 <= i < |l| ==> uids[i] == l[i].uid
  {
    seq(|l|, i requires 0 <= i < |l| => l[i].uid)
  }

  /** The workflows of `l` whose uid is not in `seen`, in their order. */
  function Unseen(l: seq<ListItem>, seen: seq<Option<string>>): seq<ListItem> {
    if l == [] then []
    else Unseen(l[..|l| - 1], seen) + (if l[|l| - 1].uid in seen then [] else [l[|l| - 1]])
  }

  /** The merged list: all of the first list, then the workflows of the
      second whose uid the first list does not have. */
  function Merged(l1: seq<ListItem>, l2: seq<ListItem>): seq<ListItem> {
    l1 + Unseen(l2, Uids(l1))
  }

  /** `remove_list_duplicate`. */
  method RemoveListDuplicate(l1: seq<ListItem>, l2: seq<ListItem>) returns (uniq: seq<ListItem>)
    ensures uniq == Merged(l1, l2)
  {
    if |l1| == 0 && |l2| == 0 {
      uniq := [];
    } else if |l1| == 0 && |l2| >= 1 {
      uniq := l2;
      UnseenNoneSeen(l2, []);
    } else if |l2| == 0 && |l1| >= 1 {
      uniq := l1;
    } else {
      uniq := l1;
      var uidList := Uids(l1);
      var i := 0;
      while i < |l2|
        invariant 0 <= i <= |l2|
        invariant uniq == l1 + Unseen(l2[..i], uidList)
      {
        var workflow := l2[i];
        if workflow.uid !in uidList {
          uniq := uniq + [workflow];
        }
        assert l2[..i + 1][..i] == l2[..i];
        i := i + 1;
      }
      assert l2[..i] == l2;
    }
  }

  /** When no uid of `l` has been seen, every workflow of `l` is kept, even
      two with the same uid. */
  lemma {:induction false} UnseenNoneSeen(l: seq<ListItem>, seen: seq<Option<string>>)
    requires forall i :: 0 <= i < |l| ==> l[i].uid !in seen
    ensures Unseen(l, seen) == l
  {
    if l != [] {
      UnseenNoneSeen(l[..|l| - 1], seen);
    }
  }

  /** With one list empty the merge is the other list, duplicates and all. */
  lemma MergedWithEmpty(l1: seq<ListItem>, l2: seq<ListItem>)
    ensures Merged([], l2) == l2
    ensures Merged(l1, []) == l1
  {
    UnseenNoneSeen(l2, []);
  }

  /** A workflow is kept exactly when it is in `l` and its uid is unseen. */
  lemma {:induction false} UnseenMembers(l: seq<ListItem>, seen: seq<Option<string>>, x: ListItem)
    ensures x in Unseen(l, seen) <==> x in l && x.uid !in seen
  {
    if l != [] {
      var init := l[..|l| - 1];
      UnseenMembers(init, seen, x);
      assert l == init + [l[|l| - 1]];
    }
  }

  /** The merge keeps the first list in front and holds a workflow of the
      second list exactly when its uid is not among the first list's. */
  lemma MergedMembers(l1: seq<ListItem>, l2: seq<ListItem>, x: ListItem)
    ensures Merged(l1, l2)[..|l1|] == l1
    ensures x in Merged(l1, l2) <==> x in l1 || (x in l2 && x.uid !in Uids(l1))
  {
    UnseenMembers(l2, Uids(l1), x);
  }

  /** The merge has every uid of either list and no other. */
  lemma MergedUids(l1: seq<ListItem>, l2: seq<ListItem>, u: Option<string>)
    ensures u in Uids(Merged(l1, l2)) <==> u in Uids(l1) || u in Uids(l2)
  {
    var m := Merged(l1, l2);
    if u in Uids(m) {
      var i :| 0 <= i < |m| && Uids(m)[i] == u;
      MergedMembers(l1, l2, m[i]);
      if m[i] in l1 {
        var j :| 0 <= j < |l1| && l1[j] == m[i];
        assert Uids(l1)[j] == u;
      } else {
        var j :| 0 <= j < |l2| && l2[j] == m[i];
        assert Uids(l2)[j] == u;
      }
    }
    if u in Uids(l1) {
      var j :| 0 <= j < |l1| && Uids(l1)[j] == u;
      assert m[j] == l1[j];
      assert Uids(m)[j] == u;
    } else if u in Uids(l2) {
      var j :| 0 <= j < |l2| && Uids(l2)[j] == u;
      MergedMembers(l1, l2, l2[j]);
      var k :| 0 <= k < |m| && m[k] == l2[j];
      assert Uids(m)[k] == u;
    }
  }

  /** No two workflows of the list share a uid. */
  predicate UidsDistinct(l: seq<ListItem>) {
    forall i, j :: 0 <= i < j < |l| ==> l[i].uid != l[j].uid
  }

  lemma {:induction false} UnseenDistinct(l: seq<ListItem>, seen: seq<Option<string>>)
    requires UidsDistinct(l)
    ensures UidsDistinct(Unseen(l, seen))
  {
    if l != [] {
      var init, last := l[..|l| - 1], l[|l| - 1];
      UnseenDistinct(init, seen);
      var u := Unseen(init, seen);
      forall i | 0 <= i < |u| ensures u[i].uid != last.uid {
        UnseenMembers(init, seen, u[i]);
        var j :| 0 <= j < |init| && init[j] == u[i];
        assert l[j] == u[i];
      }
    }
  }

  /** Merging two lists whose uids are distinct gives a list whose uids are
      distinct. */
  lemma MergedDistinct(l1: seq<ListItem>, l2: seq<ListItem>)
    requires UidsDistinct(l1) && UidsDistinct(l2)
    ensures UidsDistinct(Merged(l1, l2))
  {
    var m, u := Merged(l1, l2), Unseen(l2, Uids(l1));
    UnseenDistinct(l2, Uids(l1));
    forall i, j | 0 <= i < j < |m| ensures m[i].uid != m[j].uid {
      if j >= |l1| {
        if i < |l1| {
          assert m[j] == u[j - |l1|];
          UnseenMembers(l2, Uids(l1), m[j]);
          assert Uids(l1)[i] == m[i].uid;
        } else {
          assert m[i] == u[i - |l1|] && m[j] == u[j - |l1|];
        }
      }
    }
  }

  // ------------------------------------------------------ request body

  /** One request body value as a parameter: a number, bool or string is
      kept, anything else becomes its JSON text. */
  function StringifyValue(v: Value, dumps: Value -> string): (p: Value)
    ensures IsScalar(p)
    ensures IsScalar(v) ==> p == v
    ensures !IsScalar(v) ==> p == Str(dumps(v))
  {
    if IsScalar(v) then v else Str(dumps(v))
  }

  /** Each entry of the body with its value stringified. */
  function StringifyEntries(body: Dict<Value>, dumps: Value -> string): (r: Dict<Value>)
    ensures Keys(r) == Keys(body)
    ensures forall i :: 0 <= i < |r| ==> IsScalar(r[i].1)
  {
    var r := seq(|body|, i requires 0 <= i < |body| => (body[i].0, StringifyValue(body[i].1, dumps)));
    assert Keys(r) == Keys(body);
    r
  }

  /** `_convert_request_body_to_parameter_dict`; `dumps` is `json.dumps`. The
      result has the body's keys in the body's order, each with its value
      stringified. */
  method ConvertRequestBodyToParameterDict(requestBody: Dict<Value>, dumps: Value -> string)
    returns (stringified: Dict<Value>)
    requires KeysUnique(requestBody)
    ensures stringified == StringifyEntries(requestBody, dumps)
    ensures forall k :: (Get(stringified, k) ==
      match Get(requestBody, k) case None => None case Some(v) => Some(StringifyValue(v, dumps)))
  {
    stringified := [];
    var i := 0;
    while i < |requestBody|
      invariant 0 <= i <= |requestBody|
      invariant stringified == StringifyEntries(requestBody[..i], dumps)
    {
      var (key, value) := requestBody[i];
      assert key !in Keys(stringified) by {
        forall j | 0 <= j < i ensures requestBody[..i][j].0 != key {
          assert requestBody[..i][j] == requestBody[j];
        }
      }
      PutAppend(stringified, key, StringifyValue(value, dumps));
      stringified := Put(stringified, key, StringifyValue(value, dumps));
      assert requestBody[..i + 1] == requestBody[..i] + [requestBody[i]];
      i := i + 1;
    }
    assert requestBody[..i] == requestBody;
    forall k ensures Get(stringified, k) ==
      (match Get(requestBody, k) case None => None case Some(v) => Some(StringifyValue(v, dumps)))
    {
      GetStringifyEntries(requestBody, dumps, k);
    }
  }

  lemma {:induction false} GetStringifyEntries(body: Dict<Value>, dumps: Value -> string, k: string)
    ensures Get(StringifyEntries(body, dumps), k) ==
      (match Get(body, k) case None => None case Some(v) => Some(StringifyValue(v, dumps)))
  {
    if body != [] {
      GetStringifyEntries(body[1..], dumps, k);
      assert StringifyEntries(body, dumps)[1..] == StringifyEntries(body[1..], dumps);
    }
  }
}
