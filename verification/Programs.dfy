/** programs/program.go: one server, with the methods that start it, react to its exit and edit it. */
module Programs {
  import opened Common
  import opened Restart
  import opened Operations
  import E = Environment
  import TtyObject
  import StartService

  /** A configured variable of a server. */
  datatype Variable = Variable(
    description: string, display: string, internal: bool, required: bool,
    value: Value, userEditable: bool, kind: string, options: seq<string>)

  type Variables = map<string, Variable>

  datatype StartError = ErrServerDisabled | StepError(error: Error) | SpawnError

  /** The value of every variable, as the steps see it. */
  function ValuesOf(variables: Variables): (r: Data) {
    map k | k in variables :: variables[k].value
  }

  // ---- Edit ----

  /** The element an edit of key k works on: the existing variable, else the submitted one. */
  function Element(variables: Variables, data: Variables, k: string): Variable
    requires k in data
  {
    if k in variables then variables[k] else data[k]
  }

  predicate Writable(variables: Variables, data: Variables, overrideUser: bool, k: string) {
    k in data && (Element(variables, data, k).userEditable || overrideUser)
  }

  /** What an edit that handles the keys in `keys` leaves under one key. */
  function EditedKey(variables: Variables, data: Variables, keys: set<string>, overrideUser: bool,
                     k: string): Option<Variable>
  {
    if k in keys && Writable(variables, data, overrideUser, k) then
      Some(Element(variables, data, k).(value := data[k].value))
    else if k in variables then Some(variables[k])
    else None
  }

  /** The variables after the submitted keys in `keys` were handled, key by key and in no order. */
  function EditedOn(variables: Variables, data: Variables, keys: set<string>, overrideUser: bool): Variables {
    map k | k in variables.Keys + keys && EditedKey(variables, data, keys, overrideUser, k).Some? ::
      EditedKey(variables, data, keys, overrideUser, k).value
  }

  lemma EditedOnKeys(variables: Variables, data: Variables, keys: set<string>, overrideUser: bool)
    ensures var m := EditedOn(variables, data, keys, overrideUser);
            && (forall k :: k in m <==> EditedKey(variables, data, keys, overrideUser, k).Some?)
            && (forall k :: k in m ==> Some(m[k]) == EditedKey(variables, data, keys, overrideUser, k))
  {
    forall k | EditedKey(variables, data, keys, overrideUser, k).Some?
      ensures k in EditedOn(variables, data, keys, overrideUser)
    {
      assert k in variables.Keys + keys;
    }
  }

  lemma EditNothing(variables: Variables, data: Variables, overrideUser: bool)
    ensures EditedOn(variables, data, {}, overrideUser) == variables
  {
    EditedOnKeys(variables, data, {}, overrideUser);
  }

  function Edited(variables: Variables, data: Variables, overrideUser: bool): Variables {
    EditedOn(variables, data, data.Keys, overrideUser)
  }

  /** Submitting the same edit again changes nothing. */
  lemma EditIdempotent(variables: Variables, data: Variables, overrideUser: bool)
    ensures Edited(Edited(variables, data, overrideUser), data, overrideUser) == Edited(variables, data, overrideUser)
  {
    var once := Edited(variables, data, overrideUser);
    var twice := Edited(once, data, overrideUser);
    EditedOnKeys(variables, data, data.Keys, overrideUser);
    EditedOnKeys(once, data, data.Keys, overrideUser);
    hide EditedOn;
    assert twice.Keys == once.Keys;
    forall k | k in once ensures twice[k] == once[k] {
      if k in variables { assert once[k].userEditable == variables[k].userEditable; }
    }
  }

  /**
   * An edit never removes a variable and never changes anything of an existing one but its value;
   * without override it leaves non-editable variables alone and admits only keys marked editable.
   */
  lemma EditRespectsUsers(variables: Variables, data: Variables, overrideUser: bool)
    ensures var m := Edited(variables, data, overrideUser);
            && variables.Keys <= m.Keys <= variables.Keys + data.Keys
            && (forall k :: k in variables ==> m[k] == variables[k].(value := m[k].value))
            && (forall k :: k in variables && k !in data ==> m[k] == variables[k])
            && (forall k :: k in variables && k in data && (overrideUser || variables[k].userEditable)
                  ==> m[k].value == data[k].value)
            && (!overrideUser ==> forall k :: k in variables && !variables[k].userEditable ==> m[k] == variables[k])
            && (forall k :: k in data && k !in variables ==>
                  (k in m <==> overrideUser || data[k].userEditable) && (k in m ==> m[k] == data[k]))
  {
    EditedOnKeys(variables, data, data.Keys, overrideUser);
    hide EditedOn;
  }

  /** The part of the json file that says how to run the server. */
  datatype Execution = Execution(
    config: Config, preExecution: seq<Direction>, postExecution: seq<Direction>,
    environmentVariables: map<string, string>)

  class Program {
    const identifier: nat
    var crashCounter: int
    var variables: Variables
    var execution: Execution
    var installation: seq<Direction>
    var uninstallation: seq<Direction>
    var display: string
    var kind: string
    var rootDirectory: string
    var environment: TtyObject.Tty

    constructor (identifier: nat, environment: TtyObject.Tty)
      ensures this.identifier == identifier && this.environment == environment && crashCounter == 0
    {
      this.identifier := identifier;
      crashCounter := 0;
      execution := Execution(Config(true, false, false), [], [], map[]);
      variables := map[];
      installation, uninstallation := [], [];
      display, kind, rootDirectory := "Unknown server", "standard", "";
      this.environment := environment;
    }

    method DataToMap() returns (result: Data)
      ensures result == ValuesOf(variables)
      ensures result.Keys == variables.Keys && forall k :: k in variables ==> result[k] == variables[k].value
    {
      result := map[];
      var remaining := variables.Keys;
      while remaining != {}
        invariant remaining <= variables.Keys
        invariant result == map k | k in variables.Keys - remaining :: variables[k].value
        decreases |remaining|
      {
        var k :| k in remaining;
        result := result[k := variables[k].value];
        remaining := remaining - {k};
      }
    }

    /** The pre-execution steps, as the operations they become. */
    function PreSteps(lib: Library, factories: map<string, Factory>): seq<Option<Operation>>
      reads this
      requires AllUsable(factories, execution.preExecution)
    {
      Instructions(lib, factories, execution.preExecution, StepData(ValuesOf(variables), rootDirectory),
                   execution.environmentVariables)
    }

    /** No step fails before the list ends or a nil step cuts it short. */
    predicate StepsSucceed(steps: seq<Option<Operation>>) {
      Failure(steps).None?
    }

    /** Start gets as far as the main process. */
    predicate Launches(lib: Library, factories: map<string, Factory>)
      reads this, environment
    {
      && execution.config.enabled && !E.IsRunning(environment.View([]))
      && AllUsable(factories, execution.preExecution) && StepsSucceed(PreSteps(lib, factories))
    }

    /**
     * A disabled or running server is left alone. Otherwise the steps run up to the first failure,
     * and the main process is launched exactly when there is none. Only then can the call wait for
     * the wait group, and then it does not return while that is raised, hence the requires.
     */
    method Start(lib: Library, factories: map<string, Factory>, host: Host, spawnOk: bool)
      returns (err: Option<StartError>)
      requires Launches(lib, factories) ==> environment.wait == 0
      modifies host, environment
      ensures !execution.config.enabled ==> err == Some(ErrServerDisabled)
      ensures !execution.config.enabled || old(E.IsRunning(environment.View([])))
              || !AllUsable(factories, execution.preExecution) ==>
                environment.View([]) == old(environment.View([])) && host.executed == old(host.executed)
      ensures execution.config.enabled && old(E.IsRunning(environment.View([]))) ==> err == None
      ensures execution.config.enabled && old(!E.IsRunning(environment.View([])))
              && !AllUsable(factories, execution.preExecution) ==>
                err.Some? && err.value.StepError?
      ensures execution.config.enabled && old(!E.IsRunning(environment.View([])))
              && AllUsable(factories, execution.preExecution) ==>
                var data := (map k | k in variables :: variables[k].value)["rootDir" := Text(rootDirectory)];
                var steps := Instructions(lib, factories, execution.preExecution, data, execution.environmentVariables);
                && Reach(steps) <= |steps| && (forall i :: 0 <= i < Reach(steps) ==> steps[i].Some?)
                && host.executed == old(host.executed) + Values(steps[..Reach(steps)])
                && (!StepsSucceed(steps) ==>
                      err == Some(StepError(Failure(steps).value)) && environment.View([]) == old(environment.View([])))
                && (StepsSucceed(steps) ==>
                      && (err == if spawnOk then None else Some(SpawnError))
                      && E.Legal(E.Exclusive, old(environment.View([E.Entering])), TtyObject.ExecuteLines(spawnOk))
                      && environment.View([E.Returned(spawnOk)])
                         == E.Exec(E.Exclusive, old(environment.View([E.Entering])), TtyObject.ExecuteLines(spawnOk)))
    {
      if !execution.config.enabled {
        return Some(ErrServerDisabled);
      }
      var running := environment.IsRunning();
      if running {
        return None;
      }
      var data := DataToMap();
      var generated := GenerateProcess(lib, factories, execution.preExecution, rootDirectory, data,
                                       execution.environmentVariables);
      if generated.Refused? {
        return Some(StepError(generated.error));
      }
      var process := new OperationProcess(generated.instructions);
      var failed := process.Run(host);
      if failed.Some? {
        return Some(StepError(failed.value));
      }
      var spawnErr := environment.ExecuteAsync(spawnOk);
      err := if spawnErr.Some? then Some(SpawnError) else None;
    }

    /** The post-execution steps of an exit, which see whether it was graceful. */
    function PostData(graceful: bool): Data
      reads this
    {
      StepData(ValuesOf(variables)["success" := Flag(graceful)], rootDirectory)
    }

    predicate PostSucceeds(lib: Library, factories: map<string, Factory>, graceful: bool)
      reads this
    {
      AllUsable(factories, execution.postExecution)
      && StepsSucceed(Instructions(lib, factories, execution.postExecution, PostData(graceful),
                                   execution.environmentVariables))
    }

    /** The callback of the close handler: counter, post-execution steps, and the restart decision. */
    method AfterExit(graceful: bool, limit: int, lib: Library, factories: map<string, Factory>, host: Host,
                     service: StartService.StartService)
      modifies this`crashCounter, host, service
      ensures var o := AfterExitOutcome(execution.config, old(crashCounter), limit, graceful,
                                        PostSucceeds(lib, factories, graceful));
              && crashCounter == o.0
              && service.queue == old(service.queue) + (if o.1 && service.running then [identifier] else [])
      ensures var data := (map k | k in variables :: variables[k].value)["success" := Flag(graceful)]
                          ["rootDir" := Text(rootDirectory)];
              var usable := AllUsable(factories, execution.postExecution);
              var steps := if usable then
                             Instructions(lib, factories, execution.postExecution, data, execution.environmentVariables)
                           else [];
              var crashed := !graceful && execution.config.onCrash && old(crashCounter) < limit;
              && Reach(steps) <= |steps| && (forall i :: 0 <= i < Reach(steps) ==> steps[i].Some?)
              && host.executed == old(host.executed) + Values(steps[..Reach(steps)])
              && (service.queue == old(service.queue) + [identifier]
                  <==> service.running && usable && Failure(steps).None?
                       && ((graceful && execution.config.onGraceful) || crashed))
              && (service.queue != old(service.queue) + [identifier] ==> service.queue == old(service.queue))
              && crashCounter == (if graceful then 0
                                  else if usable && Failure(steps).None? && crashed then old(crashCounter) + 1
                                  else old(crashCounter))
      ensures service.running == old(service.running) && service.stopped == old(service.stopped)
    {
      if graceful {
        crashCounter := 0;
      }
      var mapping := DataToMap();
      mapping := mapping["success" := Flag(graceful)];
      var processes := GenerateProcess(lib, factories, execution.postExecution, rootDirectory, mapping,
                                       execution.environmentVariables);
      if processes.Refused? {
        return;
      }
      var process := new OperationProcess(processes.instructions);
      var err := process.Run(host);
      if err.Some? {
        return;
      }
      if !execution.config.onCrash && !execution.config.onGraceful {
        return;
      }
      if graceful && execution.config.onGraceful {
        service.StartViaService(identifier);
      } else if !graceful && execution.config.onCrash && crashCounter < limit {
        crashCounter := crashCounter + 1;
        service.StartViaService(identifier);
      }
    }

    /** Reload takes everything from the fresh copy except the identifier and CrashCounter. */
    method CopyFrom(s: Program)
      modifies this
      ensures crashCounter == old(crashCounter)
      ensures execution == old(s.execution) && variables == old(s.variables)
      ensures environment == old(s.environment) && rootDirectory == old(s.rootDirectory)
      ensures installation == old(s.installation) && uninstallation == old(s.uninstallation)
      ensures display == old(s.display) && kind == old(s.kind)
    {
      variables := s.variables;
      execution := s.execution;
      display := s.display;
      environment, rootDirectory := s.environment, s.rootDirectory;
      installation := s.installation;
      uninstallation := s.uninstallation;
      kind := s.kind;
    }

    /** Whatever order the submitted keys come in, the result is the same; `saved` is the result of Save. */
    method Edit(data: Variables, overrideUser: bool, saved: Option<Error>) returns (err: Option<Error>)
      modifies this`variables
      ensures variables == Edited(old(variables), data, overrideUser)
      ensures err == saved
    {
      ghost var before := variables;
      EditNothing(before, data, overrideUser);
      hide EditedOn, EditedKey;
      var remaining := data.Keys;
      assert data.Keys - remaining == {};
      while remaining != {}
        invariant remaining <= data.Keys
        invariant variables == EditedOn(before, data, data.Keys - remaining, overrideUser)
        decreases |remaining|
      {
        var k :| k in remaining;
        EditOne(before, data, data.Keys - remaining, k, overrideUser);
        assert data.Keys - remaining + {k} == data.Keys - (remaining - {k});
        remaining := remaining - {k};
        var elem := if k in variables then variables[k] else data[k];
        if !elem.userEditable && !overrideUser {
          continue;
        }
        elem := elem.(value := data[k].value);
        variables := variables[k := elem];
      }
      assert data.Keys - {} == data.Keys;
      err := saved;
    }
  }

  /** One more key, whichever it is, extends the edit by exactly that key. */
  lemma EditOne(variables: Variables, data: Variables, done: set<string>, k: string, overrideUser: bool)
    requires k in data && k !in done
    ensures var m := EditedOn(variables, data, done, overrideUser);
            var elem := if k in m then m[k] else data[k];
            EditedOn(variables, data, done + {k}, overrideUser)
            == if !elem.userEditable && !overrideUser then m else m[k := elem.(value := data[k].value)]
  {
    EditedOnKeys(variables, data, done, overrideUser);
    EditedOnKeys(variables, data, done + {k}, overrideUser);
    hide EditedOn;
    var m, m' := EditedOn(variables, data, done, overrideUser), EditedOn(variables, data, done + {k}, overrideUser);
    forall x | x != k ensures (x in m <==> x in m') && (x in m ==> m[x] == m'[x]) {
      assert EditedKey(variables, data, done, overrideUser, x)
             == EditedKey(variables, data, done + {k}, overrideUser, x);
    }
    var elem := if k in m then m[k] else data[k];
    assert elem == Element(variables, data, k);
    assert m'.Keys == if !elem.userEditable && !overrideUser then m.Keys else m.Keys + {k};
  }
}
