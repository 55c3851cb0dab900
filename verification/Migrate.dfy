/** cmd/migrate.go: the transformation of a v1 server file into a v2 server. */
module Migrate {
  import opened Common

  /** A decoded json value: the code only asks whether it is a string. */
  datatype Value = Text(text: string) | Other(id: int)

  type Step = map<string, Value>

  // ---- The v1 objects ----

  datatype DataObject = DataObject(description: string, display: string, internal: bool, required: bool,
                                   value: Value, userEditable: bool)

  datatype RunObject = RunObject(arguments: seq<string>, program: string, stop: string, enabled: bool,
                                 autoStart: bool, autoRestartFromCrash: bool, autoRestartFromGraceful: bool,
                                 pre: seq<Step>, post: seq<Step>, stopCode: int,
                                 environmentVariables: map<string, string>)

  datatype ProgramData = ProgramData(data: map<string, DataObject>, display: string, environmentData: Step,
                                     install: seq<Step>, uninstall: seq<Step>, kind: string, identifier: string,
                                     run: RunObject, template: string)

  // ---- The v2 objects ----

  datatype MetadataType = MetadataType(kind: string, metadata: Step)

  datatype Variable = Variable(description: string, display: string, internal: bool, required: bool,
                               value: Value, userEditable: bool, kind: string, options: seq<string>)

  datatype Execution = Execution(arguments: seq<string>, programName: string, stopCommand: string, disabled: bool,
                                 autoStart: bool, autoRestartFromCrash: bool, autoRestartFromGraceful: bool,
                                 preExecution: seq<MetadataType>, postExecution: seq<MetadataType>, stopCode: int,
                                 environmentVariables: map<string, string>)

  datatype Server = Server(variables: map<string, Variable>, display: string, environmentType: string,
                           installation: seq<MetadataType>, uninstallation: seq<MetadataType>, kind: string,
                           identifier: string, execution: Execution)

  /** The type assertion `v["type"].(string)` succeeds. */
  predicate Typed(v: Step) {
    "type" in v && v["type"].Text?
  }

  predicate AllTyped(steps: seq<Step>) {
    forall i :: 0 <= i < |steps| ==> Typed(steps[i])
  }

  /** The migration does not panic. */
  predicate Migratable(p: ProgramData) {
    && Typed(p.environmentData)
    && AllTyped(p.install) && AllTyped(p.uninstall) && AllTyped(p.run.pre) && AllTyped(p.run.post)
  }

  /** Putting "type" back into a migrated step. */
  function Rejoined(m: MetadataType): Step {
    m.metadata["type" := Text(m.kind)]
  }

  function RejoinedAll(steps: seq<MetadataType>): (r: seq<Step>)
    ensures |r| == |steps| && forall i :: 0 <= i < |steps| ==> r[i] == Rejoined(steps[i])
  {
    seq(|steps|, i requires 0 <= i < |steps| => Rejoined(steps[i]))
  }

  /** No migrated step keeps "type" among its metadata. */
  predicate TypeMoved(steps: seq<MetadataType>) {
    forall i :: 0 <= i < |steps| ==> "type" !in steps[i].metadata
  }

  /** Step by step and in order: the type by itself, everything else as it was. */
  predicate Moves(steps: seq<Step>, moved: seq<MetadataType>) {
    && |moved| == |steps|
    && forall i :: 0 <= i < |steps| ==>
         Typed(steps[i]) && moved[i] == MetadataType(steps[i]["type"].text, steps[i] - {"type"})
  }

  /** The inner loop: everything of a step but its type. */
  method WithoutType(v: Step) returns (c: Step)
    ensures c == map i | i in v && i != "type" :: v[i]
  {
    c := map[];
    var remaining := v.Keys;
    while remaining != {}
      invariant remaining <= v.Keys
      invariant c == map i | i in v.Keys - remaining && i != "type" :: v[i]
      decreases |remaining|
    {
      var i :| i in remaining;
      remaining := remaining - {i};
      if i == "type" {
        continue;
      }
      c := c[i := v[i]];
    }
  }

  /**
   * One of the four step loops. It panics exactly when some step has no string type; otherwise
   * rejoining the migrated steps gives back the original list, in order.
   */
  method MigrateSteps(operations: seq<Step>) returns (r: Option<seq<MetadataType>>)
    ensures r.Some? <==> AllTyped(operations)
    ensures r.Some? ==> RejoinedAll(r.value) == operations && TypeMoved(r.value)
    ensures r.Some? ==> Moves(operations, r.value)
  {
    var result: seq<MetadataType> := [];
    for n := 0 to |operations|
      invariant |result| == n && TypeMoved(result)
      invariant forall i :: 0 <= i < n ==> Typed(operations[i]) && Rejoined(result[i]) == operations[i]
      invariant Moves(operations[..n], result)
    {
      var v := operations[n];
      var c := WithoutType(v);
      if "type" !in v || !v["type"].Text? {
        return None;
      }
      assert c["type" := v["type"]] == v && c == v - {"type"};
      result := result + [MetadataType(v["type"].text, c)];
    }
    assert operations[..|operations|] == operations;
    return Some(result);
  }

  /** The variable a v1 data object becomes. */
  function VariableOf(v: DataObject): Variable {
    Variable(v.description, v.display, v.internal, v.required, v.value, v.userEditable, "text", [])
  }

  /** Every attribute of the data object can be read back from its variable. */
  function DataOf(v: Variable): DataObject {
    DataObject(v.description, v.display, v.internal, v.required, v.value, v.userEditable)
  }

  method MigrateData(data: map<string, DataObject>) returns (variables: map<string, Variable>)
    ensures variables.Keys == data.Keys
    ensures forall k :: k in data ==>
              && DataOf(variables[k]) == data[k]
              && variables[k] == Variable(data[k].description, data[k].display, data[k].internal, data[k].required,
                                          data[k].value, data[k].userEditable, "text", [])
  {
    variables := map[];
    var remaining := data.Keys;
    while remaining != {}
      invariant remaining <= data.Keys
      invariant variables == map k | k in data.Keys - remaining :: VariableOf(data[k])
      decreases |remaining|
    {
      var k :| k in remaining;
      var v := data[k];
      variables := variables[k := Variable(v.description, v.display, v.internal, v.required, v.value,
                                           v.userEditable, "text", [])];
      remaining := remaining - {k};
    }
  }

  /** What the v2 server still says of the v1 file; `enabled`, template and other environment attributes are given. */
  function Recovered(s: Server, environmentRest: Step, enabled: bool, template: string): ProgramData {
    ProgramData(map k | k in s.variables :: DataOf(s.variables[k]), s.display,
                environmentRest["type" := Text(s.environmentType)],
                RejoinedAll(s.installation), RejoinedAll(s.uninstallation), s.kind, s.identifier,
                RunObject(s.execution.arguments, s.execution.programName, s.execution.stopCommand, enabled,
                          s.execution.autoStart, s.execution.autoRestartFromCrash, s.execution.autoRestartFromGraceful,
                          RejoinedAll(s.execution.preExecution), RejoinedAll(s.execution.postExecution),
                          s.execution.stopCode, s.execution.environmentVariables),
                template)
  }

  /** The migrated server has its steps without "type", its variables as text, and is not disabled. */
  predicate Canonical(s: Server) {
    && TypeMoved(s.installation) && TypeMoved(s.uninstallation)
    && TypeMoved(s.execution.preExecution) && TypeMoved(s.execution.postExecution)
    && (forall k :: k in s.variables ==> s.variables[k].kind == "text" && s.variables[k].options == [])
    && !s.execution.disabled
  }

  /**
   * The transformation of migrateFile. It panics exactly when the environment or some step has no
   * string type; otherwise the whole v1 file can be recovered from the v2 server, except for the
   * enabled flag, the template, and the environment's attributes other than its type.
   */
  method MigrateFile(p: ProgramData) returns (r: Option<Server>)
    ensures r.Some? <==> Migratable(p)
    ensures r.Some? ==> Canonical(r.value) && Recovered(r.value, p.environmentData, p.run.enabled, p.template) == p
    ensures r.Some? ==>
              var s, x := r.value, r.value.execution;
              && s.display == p.display && s.kind == p.kind && s.identifier == p.identifier
              && Text(s.environmentType) == p.environmentData["type"]
              && Moves(p.install, s.installation) && Moves(p.uninstall, s.uninstallation)
              && x.arguments == p.run.arguments && x.programName == p.run.program && x.stopCommand == p.run.stop
              && !x.disabled && x.autoStart == p.run.autoStart
              && x.autoRestartFromCrash == p.run.autoRestartFromCrash
              && x.autoRestartFromGraceful == p.run.autoRestartFromGraceful
              && Moves(p.run.pre, x.preExecution) && Moves(p.run.post, x.postExecution)
              && x.stopCode == p.run.stopCode && x.environmentVariables == p.run.environmentVariables
              && s.variables.Keys == p.data.Keys
              && forall k :: k in p.data ==>
                   s.variables[k] == Variable(p.data[k].description, p.data[k].display, p.data[k].internal,
                                              p.data[k].required, p.data[k].value, p.data[k].userEditable, "text", [])
  {
    if !("type" in p.environmentData && p.environmentData["type"].Text?) {
      return None;
    }
    var variables := MigrateData(p.data);
    var installation := MigrateSteps(p.install);
    if installation.None? { return None; }
    var uninstallation := MigrateSteps(p.uninstall);
    if uninstallation.None? { return None; }
    var pre := MigrateSteps(p.run.pre);
    if pre.None? { return None; }
    var post := MigrateSteps(p.run.post);
    if post.None? { return None; }
    var s := Server(variables, p.display, p.environmentData["type"].text, installation.value, uninstallation.value,
                    p.kind, p.identifier,
                    Execution(p.run.arguments, p.run.program, p.run.stop, false, p.run.autoStart,
                              p.run.autoRestartFromCrash, p.run.autoRestartFromGraceful, pre.value, post.value,
                              p.run.stopCode, p.run.environmentVariables));
    assert (map k | k in s.variables :: DataOf(s.variables[k])) == p.data;
    assert p.environmentData["type" := Text(s.environmentType)] == p.environmentData;
    return Some(s);
  }

  // ---- What is lost ----

  /** A canonical v2 server is the migration of `p`. */
  predicate MigratesTo(p: ProgramData, s: Server) {
    Migratable(p) && Canonical(s) && Recovered(s, p.environmentData, p.run.enabled, p.template) == p
  }

  /** Two v1 files agree on everything but the enabled flag, the template and other environment attributes. */
  predicate Agree(p: ProgramData, q: ProgramData) {
    && Typed(p.environmentData) && Typed(q.environmentData)
    && p.environmentData["type"] == q.environmentData["type"]
    && p.(environmentData := q.environmentData, template := q.template, run := p.run.(enabled := q.run.enabled)) == q
  }

  lemma RejoinedInjective(a: seq<MetadataType>, b: seq<MetadataType>)
    requires TypeMoved(a) && TypeMoved(b) && RejoinedAll(a) == RejoinedAll(b)
    ensures a == b
  {
    forall i | 0 <= i < |a| ensures a[i] == b[i] {
      assert Rejoined(a[i]) == RejoinedAll(a)[i] == RejoinedAll(b)[i] == Rejoined(b[i]);
      assert Rejoined(a[i])["type"] == Text(a[i].kind) && Rejoined(b[i])["type"] == Text(b[i].kind);
      assert a[i].metadata == Rejoined(a[i]) - {"type"} && b[i].metadata == Rejoined(b[i]) - {"type"};
    }
  }

  lemma VariablesInjective(a: map<string, Variable>, b: map<string, Variable>)
    requires forall k :: k in a ==> a[k].kind == "text" && a[k].options == []
    requires forall k :: k in b ==> b[k].kind == "text" && b[k].options == []
    requires (map k | k in a :: DataOf(a[k])) == (map k | k in b :: DataOf(b[k]))
    ensures a == b
  {
    var ma, mb := map k | k in a :: DataOf(a[k]), map k | k in b :: DataOf(b[k]);
    assert a.Keys == ma.Keys == mb.Keys == b.Keys;
    forall k | k in a ensures a[k] == b[k] {
      assert ma[k] == mb[k];
    }
  }

  /** Nothing else is lost: two v1 files migrate to the same server if and only if they agree so. */
  lemma MigrationLosesExactly(p: ProgramData, q: ProgramData, s: Server, t: Server)
    requires MigratesTo(p, s) && MigratesTo(q, t)
    ensures s == t <==> Agree(p, q)
  {
    assert p.environmentData["type"] == Text(s.environmentType);
    assert q.environmentData["type"] == Text(t.environmentType);
    if Agree(p, q) {
      VariablesInjective(s.variables, t.variables);
      RejoinedInjective(s.installation, t.installation);
      RejoinedInjective(s.uninstallation, t.uninstallation);
      RejoinedInjective(s.execution.preExecution, t.execution.preExecution);
      RejoinedInjective(s.execution.postExecution, t.execution.postExecution);
    }
  }
}
