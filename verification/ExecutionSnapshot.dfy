/** The stored form of an execution snapshot and the check every reader applies to it. */
module ExecutionSnapshot {
  import opened Wrappers
  import opened Json

  const SCHEMA_VERSION := "lingxilearn.execution.v1"

  datatype Node = Node(id: string, title: string, kind: string, capability: string, provider: Option<string>,
                       status: string, step: int, taskId: Option<string>, namespace: Value, details: Value, output: Value)

  datatype Dependency = Dependency(id: string, source: string, target: string, kind: string, status: string, title: string)

  /** `order` lists the node ids as they were inserted. */
  datatype Snapshot = Snapshot(executionId: string, taskId: string, graphVersion: string, status: string,
                               paused: bool, terminal: bool, order: seq<string>, nodes: map<string, Node>,
                               dependencies: seq<Dependency>, variables: Value, groups: Value, metadata: Value)

  datatype SnapshotError = InvalidSchema | IdentityMismatch

  // ----- Writing -----

  const SNAPSHOT_KEYS := ["schemaVersion", "executionId", "taskId", "graphVersion", "status", "paused", "terminal",
                          "nodes", "dependencies", "variables", "groups", "metadata"]
  const NODE_KEYS := ["id", "label", "kind", "capability", "provider", "status", "step", "taskId", "namespace", "details"]
  const DEPENDENCY_KEYS := ["id", "sourceNodeId", "targetNodeId", "kind", "status", "label"]

  function Fields(keys: seq<string>, values: seq<Value>): seq<Entry>
    requires |keys| == |values|
  {
    seq(|keys|, i requires 0 <= i < |keys| => Entry(keys[i], true, values[i]))
  }

  function TextOrNull(o: Option<string>): Value {
    match o case None => Null case Some(text) => Text(text)
  }

  function NodeValues(n: Node): seq<Value> {
    [Text(n.id), Text(n.title), Text(n.kind), Text(n.capability), TextOrNull(n.provider), Text(n.status), Num(n.step),
     TextOrNull(n.taskId), Safe(n.namespace), Safe(n.details)]
  }

  /** An output that is missing or empty is not written. */
  function NodeDict(n: Node): Value {
    var fields := Fields(NODE_KEYS, NodeValues(n));
    if n.output in [Null, Dict([]), List([])] then Dict(fields)
    else Dict(fields + [Entry("output", true, Safe(n.output))])
  }

  function DependencyDict(d: Dependency): Value {
    Dict(Fields(DEPENDENCY_KEYS,
                [Text(d.id), Text(d.source), Text(d.target), Text(d.kind), Text(d.status), Text(d.title)]))
  }

  predicate WellFormed(s: Snapshot) {
    && (forall i, j :: 0 <= i < j < |s.order| ==> s.order[i] != s.order[j])
    && (forall i :: 0 <= i < |s.order| ==> s.order[i] in s.nodes && s.nodes[s.order[i]].id == s.order[i])
    && s.variables.Dict? && s.groups.Dict? && s.metadata.Dict?
  }

  function SnapshotValues(s: Snapshot): seq<Value>
    requires WellFormed(s)
  {
    [Text(SCHEMA_VERSION), Text(s.executionId), Text(s.taskId), Text(s.graphVersion), Text(s.status), Bool(s.paused),
     Bool(s.terminal),
     Dict(seq(|s.order|, i requires 0 <= i < |s.order| => Entry(s.order[i], true, NodeDict(s.nodes[s.order[i]])))),
     List(seq(|s.dependencies|, i requires 0 <= i < |s.dependencies| => DependencyDict(s.dependencies[i]))),
     Safe(s.variables), Safe(s.groups), Safe(s.metadata)]
  }

  function ToDict(s: Snapshot): Value
    requires WellFormed(s)
  {
    Dict(Fields(SNAPSHOT_KEYS, SnapshotValues(s)))
  }

  // ----- Reading -----

  const NODE_REQUIRED := ["id", "label", "kind", "capability", "status", "step", "details"]

  /** The printed form of a value; only the forms an identity can have are spelled out. */
  function Printed(v: Value): string {
    match v
    case Text(text) => text
    case Null => "None"
    case Bool(flag) => if flag then "True" else "False"
    case Other(printed) => printed
    case _ => ""
  }

  predicate HasKeys(entries: seq<Entry>, keys: seq<string>) {
    forall k :: 0 <= k < |keys| ==> HasKey(entries, keys[k])
  }

  predicate ReadableNode(id: string, v: Value) {
    v.Dict? && HasKeys(v.entries, NODE_REQUIRED) && Printed(Get(v.entries, "id")) == id
  }

  predicate ReadableDependency(v: Value) {
    v.Dict? && HasKeys(v.entries, DEPENDENCY_KEYS)
  }

  predicate SchemaMatches(state: seq<Entry>) {
    Get(state, "schemaVersion") == Text(SCHEMA_VERSION) && HasKeys(state, SNAPSHOT_KEYS)
  }

  predicate IdentityMatches(state: seq<Entry>, executionId: string, taskId: string, graphVersion: string) {
    && Printed(Get(state, "executionId")) == executionId
    && Printed(Get(state, "taskId")) == taskId
    && Printed(Get(state, "graphVersion")) == graphVersion
  }

  predicate ShapeMatches(state: seq<Entry>) {
    && Get(state, "variables").Dict? && Get(state, "groups").Dict? && Get(state, "metadata").Dict?
    && Get(state, "paused").Bool? && Get(state, "terminal").Bool?
    && NodesReadable(Get(state, "nodes")) && DependenciesReadable(Get(state, "dependencies"))
  }

  predicate NodesReadable(nodes: Value) {
    nodes.Dict? && forall i :: 0 <= i < |nodes.entries| ==> ReadableNode(nodes.entries[i].key, nodes.entries[i].value)
  }

  predicate DependenciesReadable(dependencies: Value) {
    dependencies.List? && forall i :: 0 <= i < |dependencies.items| ==> ReadableDependency(dependencies.items[i])
  }

  /** Validate a persisted state and fail closed on everything else. A status other than the
      empty one overrides the stored status. */
  function Require(value: Value, executionId: string, taskId: string, graphVersion: string, status: Option<string>)
    : Result<Value, SnapshotError>
    requires value.Dict? || value.Null?
  {
    var state := if value.Dict? then value.entries else [];
    if !SchemaMatches(state) then Err(InvalidSchema)
    else if !IdentityMatches(state, executionId, taskId, graphVersion) then Err(IdentityMismatch)
    else if !ShapeMatches(state) then Err(InvalidSchema)
    else
      var stored := if status.Some? && status.value != "" then Text(status.value) else Get(state, "status");
      Ok(Safe(Dict(Assign(state, "status", stored))))
  }

  // ----- Round trip -----

  lemma {:induction false} KeysAreDistinct()
    ensures forall i, j :: 0 <= i < j < |SNAPSHOT_KEYS| ==> SNAPSHOT_KEYS[i] != SNAPSHOT_KEYS[j]
    ensures forall i, j :: 0 <= i < j < |DEPENDENCY_KEYS| ==> DEPENDENCY_KEYS[i] != DEPENDENCY_KEYS[j]
  {
  }

  lemma {:induction false} NodeKeysAreDistinct()
    ensures forall i, j :: 0 <= i < j < |NODE_KEYS| ==> NODE_KEYS[i] != NODE_KEYS[j]
    ensures forall i :: 0 <= i < |NODE_KEYS| ==> NODE_KEYS[i] != "output"
  {
  }

  lemma {:induction false} FieldsAreSafe(keys: seq<string>, values: seq<Value>)
    requires |keys| == |values|
    requires forall i, j :: 0 <= i < j < |keys| ==> keys[i] != keys[j]
    requires forall i :: 0 <= i < |values| ==> IsSafe(values[i])
    ensures SafeFields(Fields(keys, values)) && HasKeys(Fields(keys, values), keys)
    ensures forall i :: 0 <= i < |keys| ==> Get(Fields(keys, values), keys[i]) == values[i]
  {
    var fields := Fields(keys, values);
    forall i | 0 <= i < |keys| ensures Get(fields, keys[i]) == values[i] && HasKey(fields, keys[i]) {
      GetAt(fields, i);
      assert fields[i].key == keys[i];
    }
  }

  /** Where the required node fields stand among the written ones. */
  const REQUIRED_AT: seq<nat> := [0, 1, 2, 3, 5, 6, 9]

  lemma {:induction false} RequiredNodeKeys(k: nat)
    requires k < |NODE_REQUIRED|
    ensures |NODE_REQUIRED| == |REQUIRED_AT| && REQUIRED_AT[k] < |NODE_KEYS| && NODE_KEYS[REQUIRED_AT[k]] == NODE_REQUIRED[k]
  {
  }

  lemma {:induction false} LongerHasKeys(n: Node, entries: seq<Entry>)
    requires Fields(NODE_KEYS, NodeValues(n)) <= entries && DistinctKeys(entries)
    ensures HasKeys(entries, NODE_REQUIRED) && Get(entries, "id") == Text(n.id)
  {
    var fields := Fields(NODE_KEYS, NodeValues(n));
    forall k | 0 <= k < |NODE_REQUIRED| ensures HasKey(entries, NODE_REQUIRED[k]) {
      RequiredNodeKeys(k);
      assert entries[REQUIRED_AT[k]] == fields[REQUIRED_AT[k]];
    }
    assert entries[0] == fields[0];
    GetAt(entries, 0);
  }

  lemma {:induction false} NodeFieldsAreSafe(n: Node)
    ensures SafeFields(NodeDict(n).entries) && Fields(NODE_KEYS, NodeValues(n)) <= NodeDict(n).entries
  {
    NodeKeysAreDistinct();
    SafeIsSafe(n.namespace);
    SafeIsSafe(n.details);
    SafeIsSafe(n.output);
    FieldsAreSafe(NODE_KEYS, NodeValues(n));
  }

  lemma {:induction false} NodeIsReadable(n: Node)
    ensures ReadableNode(n.id, NodeDict(n)) && IsSafe(NodeDict(n))
  {
    NodeFieldsAreSafe(n);
    LongerHasKeys(n, NodeDict(n).entries);
  }

  lemma {:induction false} DependencyIsReadable(d: Dependency)
    ensures ReadableDependency(DependencyDict(d)) && IsSafe(DependencyDict(d))
  {
    KeysAreDistinct();
    FieldsAreSafe(DEPENDENCY_KEYS,
                  [Text(d.id), Text(d.source), Text(d.target), Text(d.kind), Text(d.status), Text(d.title)]);
  }

  lemma {:induction false} ValuesAreSafe(s: Snapshot)
    requires WellFormed(s)
    ensures forall i :: 0 <= i < |SnapshotValues(s)| ==> IsSafe(SnapshotValues(s)[i])
    ensures forall i :: 0 <= i < |s.order| ==> ReadableNode(s.order[i], SnapshotValues(s)[7].entries[i].value)
    ensures forall i :: 0 <= i < |s.dependencies| ==> ReadableDependency(SnapshotValues(s)[8].items[i])
  {
    SafeIsSafe(s.variables);
    SafeIsSafe(s.groups);
    SafeIsSafe(s.metadata);
    forall i | 0 <= i < |s.order|
      ensures IsSafe(NodeDict(s.nodes[s.order[i]])) && ReadableNode(s.order[i], NodeDict(s.nodes[s.order[i]]))
    {
      NodeIsReadable(s.nodes[s.order[i]]);
    }
    forall i | 0 <= i < |s.dependencies|
      ensures IsSafe(DependencyDict(s.dependencies[i])) && ReadableDependency(DependencyDict(s.dependencies[i]))
    {
      DependencyIsReadable(s.dependencies[i]);
    }
  }

  lemma {:induction false} AssignSame(entries: seq<Entry>, i: nat)
    requires i < |entries| && DistinctKeys(entries) && entries[i].textKey
    ensures Assign(entries, entries[i].key, entries[i].value) == entries
  {
    if i > 0 {
      AssignSame(entries[1..], i - 1);
    }
  }

  /** What is written is read back unchanged under its own identity, and under no other. */
  lemma {:induction false} SnapshotRoundTrip(s: Snapshot, executionId: string, taskId: string, graphVersion: string)
    requires WellFormed(s)
    ensures Require(ToDict(s), executionId, taskId, graphVersion, None) ==
      if executionId == s.executionId && taskId == s.taskId && graphVersion == s.graphVersion then Ok(ToDict(s))
      else Err(IdentityMismatch)
  {
    FieldsReadBack(s);
    WrittenShapeMatches(s);
    AssignSame(ToDict(s).entries, 4);
    SafeIsIdentityOnSafe(ToDict(s));
  }

  lemma {:induction false} WrittenShapeMatches(s: Snapshot)
    requires WellFormed(s)
    ensures SchemaMatches(ToDict(s).entries) && ShapeMatches(ToDict(s).entries)
  {
    ValuesAreSafe(s);
    FieldsReadBack(s);
  }

  lemma {:induction false} FieldsReadBack(s: Snapshot)
    requires WellFormed(s)
    ensures var fields := ToDict(s).entries;
      && SafeFields(fields) && HasKeys(fields, SNAPSHOT_KEYS) && fields[4] == Entry("status", true, Text(s.status))
      && Get(fields, "schemaVersion") == Text(SCHEMA_VERSION) && Get(fields, "executionId") == Text(s.executionId)
      && Get(fields, "taskId") == Text(s.taskId) && Get(fields, "graphVersion") == Text(s.graphVersion)
      && Get(fields, "status") == Text(s.status) && Get(fields, "paused") == Bool(s.paused)
      && Get(fields, "terminal") == Bool(s.terminal) && Get(fields, "nodes") == SnapshotValues(s)[7]
      && Get(fields, "dependencies") == SnapshotValues(s)[8] && Get(fields, "variables") == Safe(s.variables)
      && Get(fields, "groups") == Safe(s.groups) && Get(fields, "metadata") == Safe(s.metadata)
  {
    KeysAreDistinct();
    ValuesAreSafe(s);
    var values, fields := SnapshotValues(s), ToDict(s).entries;
    FieldsAreSafe(SNAPSHOT_KEYS, values);
    assert Get(fields, SNAPSHOT_KEYS[0]) == values[0] && Get(fields, SNAPSHOT_KEYS[1]) == values[1];
    assert Get(fields, SNAPSHOT_KEYS[2]) == values[2] && Get(fields, SNAPSHOT_KEYS[3]) == values[3];
    assert Get(fields, SNAPSHOT_KEYS[4]) == values[4] && Get(fields, SNAPSHOT_KEYS[5]) == values[5];
    assert Get(fields, SNAPSHOT_KEYS[6]) == values[6] && Get(fields, SNAPSHOT_KEYS[7]) == values[7];
    assert Get(fields, SNAPSHOT_KEYS[8]) == values[8] && Get(fields, SNAPSHOT_KEYS[9]) == values[9];
    assert Get(fields, SNAPSHOT_KEYS[10]) == values[10] && Get(fields, SNAPSHOT_KEYS[11]) == values[11];
  }
}
