/**
 * The pipeline of pre- and post-execution steps: GenerateProcess builds one operation for each
 * direction, OperationProcess runs them. Decoding, token replacement, the operation factories
 * and the operations themselves are given from outside, as values.
 */
module Operations {
  import opened Common

  datatype Error = Error(message: string)

  const MISSING_FACTORY := Error("missing factory")

  /** The dynamic values of the metadata and data maps, by the cases the code distinguishes. */
  datatype Value =
    | Text(text: string)
    | Texts(texts: seq<string>)
    | TextMap(entries: map<string, string>)
    | Items(items: seq<Value>)
    | Flag(flag: bool)
    | Other(id: int)

  type Data = map<string, Value>

  /** What decoding a configured step gives: an error, or its type and metadata. */
  datatype Direction = Undecodable(error: Error) | Direction(kind: string, metadata: Data)

  /** The arguments of a factory. */
  datatype CreateOperation = CreateOperation(args: Data, environment: map<string, string>, data: Data)

  /** A created operation and what its Run will return. */
  datatype Operation = Operation(create: CreateOperation, outcome: Option<Error>)

  /** A factory may return a nil operation. */
  type Factory = CreateOperation -> Option<Operation>

  /** Token replacement and string conversion, which live in libraries. */
  datatype Library = Library(
    replace: (string, Data) -> string,
    replaceInArr: (seq<string>, Data) -> seq<string>,
    replaceInMap: (map<string, string>, Data) -> map<string, string>,
    toStrings: seq<Value> -> seq<string>)

  datatype Generated = Process(instructions: seq<Option<Operation>>) | Refused(error: Error)

  /** How one metadata value reaches its operation (operationprocess.go:70-95). */
  function Resolve(lib: Library, v: Value, data: Data): Value {
    match v
    case Text(s) => Text(lib.replace(s, data))
    case Texts(ss) => Texts(lib.replaceInArr(ss, data))
    case TextMap(m) => TextMap(lib.replaceInMap(m, data))
    case Items(vs) =>
      if |lib.toStrings(vs)| == |vs| then Texts(lib.replaceInArr(lib.toStrings(vs), data)) else v
    case Flag(_) => v
    case Other(_) => v
  }

  /** The direction can be turned into an operation. */
  predicate Usable(factories: map<string, Factory>, d: Direction) {
    d.Direction? && d.kind in factories
  }

  /** The data the steps see: the caller's, with the server root put in. */
  function StepData(data: Data, root: string): Data {
    data["rootDir" := Text(root)]
  }

  /** What the factory of `d` makes from all of d's metadata, resolved value by value. */
  function OperationOf(lib: Library, factories: map<string, Factory>, d: Direction, data: Data,
                       environment: map<string, string>): Option<Operation>
    requires Usable(factories, d)
  {
    factories[d.kind](CreateOperation(map k | k in d.metadata :: Resolve(lib, d.metadata[k], data),
                                      lib.replaceInMap(environment, data), data))
  }

  /** The arguments are the metadata, key by key, with tokens replaced wherever there is text to replace. */
  predicate Substituted(lib: Library, metadata: Data, data: Data, args: Data) {
    && args.Keys == metadata.Keys
    && forall k :: k in metadata ==>
         var v, w := metadata[k], args[k];
         && (v.Text? ==> w == Text(lib.replace(v.text, data)))
         && (v.Texts? ==> w == Texts(lib.replaceInArr(v.texts, data)))
         && (v.TextMap? ==> w == TextMap(lib.replaceInMap(v.entries, data)))
         && (v.Items? && |lib.toStrings(v.items)| == |v.items| ==>
               w == Texts(lib.replaceInArr(lib.toStrings(v.items), data)))
         && (v.Items? && |lib.toStrings(v.items)| != |v.items| ==> w == v)
         && (v.Flag? || v.Other? ==> w == v)
  }

  /** `op` is what the factory of this kind makes from the substituted metadata, environment and data. */
  ghost predicate MadeFrom(lib: Library, factory: Factory, metadata: Data, data: Data,
                           environment: map<string, string>, op: Option<Operation>)
  {
    exists args: Data ::
      Substituted(lib, metadata, data, args)
      && op == factory(CreateOperation(args, lib.replaceInMap(environment, data), data))
  }

  lemma OperationMade(lib: Library, factories: map<string, Factory>, d: Direction, data: Data,
                      environment: map<string, string>)
    requires Usable(factories, d)
    ensures MadeFrom(lib, factories[d.kind], d.metadata, data, environment,
                     OperationOf(lib, factories, d, data, environment))
  {
    assert Substituted(lib, d.metadata, data, map k | k in d.metadata :: Resolve(lib, d.metadata[k], data));
  }

  predicate AllUsable(factories: map<string, Factory>, directions: seq<Direction>) {
    forall i :: 0 <= i < |directions| ==> Usable(factories, directions[i])
  }

  /** One operation for each direction, in order. */
  function Instructions(lib: Library, factories: map<string, Factory>, directions: seq<Direction>, data: Data,
                        environment: map<string, string>): (r: seq<Option<Operation>>)
    requires AllUsable(factories, directions)
  {
    seq(|directions|, i requires 0 <= i < |directions| => OperationOf(lib, factories, directions[i], data, environment))
  }

  /**
   * GenerateProcess is all or nothing: it refuses exactly when some direction cannot be used, with
   * the error of the first such one, and otherwise yields one operation per direction, in order.
   */
  method GenerateProcess(lib: Library, factories: map<string, Factory>, directions: seq<Direction>,
                         root: string, dataMapping: Data, env: map<string, string>)
    returns (r: Generated)
    ensures r.Process? <==> AllUsable(factories, directions)
    ensures r.Process? ==> r.instructions == Instructions(lib, factories, directions, StepData(dataMapping, root), env)
    ensures r.Process? ==>
              |r.instructions| == |directions|
              && forall i :: 0 <= i < |directions| ==>
                   MadeFrom(lib, factories[directions[i].kind], directions[i].metadata,
                            dataMapping["rootDir" := Text(root)], env, r.instructions[i])
    ensures r.Refused? ==>
              exists i :: 0 <= i < |directions| && !Usable(factories, directions[i])
                && (forall j :: 0 <= j < i ==> Usable(factories, directions[j]))
                && r.error == (if directions[i].Undecodable? then directions[i].error else MISSING_FACTORY)
  {
    var dataMap := dataMapping["rootDir" := Text(root)];
    var operationList: seq<Option<Operation>> := [];
    for i := 0 to |directions|
      invariant |operationList| == i
      invariant forall j :: 0 <= j < i ==>
                  Usable(factories, directions[j])
                  && operationList[j] == OperationOf(lib, factories, directions[j], dataMap, env)
    {
      var direction := directions[i];
      if direction.Undecodable? {
        return Refused(direction.error);
      }
      if direction.kind !in factories {
        return Refused(MISSING_FACTORY);
      }
      var mapCopy: Data := map[];
      var remaining := direction.metadata.Keys;
      while remaining != {}
        invariant remaining <= direction.metadata.Keys
        invariant mapCopy
                  == map k | k in direction.metadata.Keys - remaining :: Resolve(lib, direction.metadata[k], dataMap)
        decreases |remaining|
      {
        var k :| k in remaining;
        mapCopy := mapCopy[k := Resolve(lib, direction.metadata[k], dataMap)];
        remaining := remaining - {k};
      }
      assert mapCopy == map k | k in direction.metadata :: Resolve(lib, direction.metadata[k], dataMap);
      var envMap := lib.replaceInMap(env, dataMap);
      var op := factories[direction.kind](CreateOperation(mapCopy, envMap, dataMap));
      operationList := operationList + [op];
    }
    forall i | 0 <= i < |directions|
      ensures MadeFrom(lib, factories[directions[i].kind], directions[i].metadata, dataMap, env, operationList[i])
    {
      OperationMade(lib, factories, directions[i], dataMap, env);
    }
    return Process(operationList);
  }

  /** What the operations act on: the environment, as the list of operations run against it. */
  class Host {
    var executed: seq<Operation>

    constructor ()
      ensures executed == []
    {
      executed := [];
    }
  }

  /** The number of steps Run takes: up to the first failing step, a nil step, or the end. */
  function Reach(instructions: seq<Option<Operation>>): nat {
    if instructions == [] || instructions[0].None? then 0
    else if instructions[0].value.outcome.Some? then 1
    else 1 + Reach(instructions[1..])
  }

  /** The first failing step that is not behind a nil step, if any. */
  function Failure(instructions: seq<Option<Operation>>): Option<Error> {
    if instructions == [] || instructions[0].None? then None
    else if instructions[0].value.outcome.Some? then instructions[0].value.outcome
    else Failure(instructions[1..])
  }

  /** What Reach and Failure mean, without recursion. */
  lemma {:induction false} ReachMeaning(ins: seq<Option<Operation>>)
    ensures Reach(ins) <= |ins|
    ensures forall i :: 0 <= i < Reach(ins) ==> ins[i].Some?
    ensures forall i :: 0 <= i < Reach(ins) - 1 ==> ins[i].value.outcome.None?
    ensures Failure(ins).Some? ==> Reach(ins) > 0 && ins[Reach(ins) - 1].value.outcome == Failure(ins)
    ensures Failure(ins).None? ==>
              && (forall i :: 0 <= i < Reach(ins) ==> ins[i].value.outcome.None?)
              && (Reach(ins) == |ins| || ins[Reach(ins)].None?)
  {
    if ins != [] && ins[0].Some? && ins[0].value.outcome.None? {
      ReachMeaning(ins[1..]);
      assert forall i :: 0 < i < |ins| ==> ins[i] == ins[1..][i - 1];
    }
  }

  /** The operations of the instructions, which must not be nil. */
  function Values(instructions: seq<Option<Operation>>): (r: seq<Operation>)
    requires forall i :: 0 <= i < |instructions| ==> instructions[i].Some?
  {
    seq(|instructions|, i requires 0 <= i < |instructions| => instructions[i].value)
  }

  class OperationProcess {
    var processInstructions: seq<Option<Operation>>

    constructor (instructions: seq<Option<Operation>>)
      ensures processInstructions == instructions
    {
      processInstructions := instructions;
    }

    predicate HasNext()
      reads this
    {
      |processInstructions| != 0 && processInstructions[0].Some?
    }

    /** Takes the first step off the list and runs it. */
    method RunNext(env: Host) returns (err: Option<Error>)
      requires HasNext()
      modifies this, env
      ensures processInstructions == old(processInstructions)[1..]
      ensures env.executed == old(env.executed) + [old(processInstructions)[0].value]
      ensures err == old(processInstructions)[0].value.outcome
    {
      var op := processInstructions[0].value;
      processInstructions := processInstructions[1..];
      env.executed := env.executed + [op];
      err := op.outcome;
    }

    /**
     * Runs exactly the prefix up to and including the first failing step (or up to a nil step),
     * returns that step's error, and leaves exactly the suffix that was not run.
     */
    method Run(env: Host) returns (err: Option<Error>)
      modifies this, env
      ensures var ins := old(processInstructions);
              && Reach(ins) <= |ins| && (forall i :: 0 <= i < Reach(ins) ==> ins[i].Some?)
              && env.executed == old(env.executed) + Values(ins[..Reach(ins)])
              && processInstructions == ins[Reach(ins)..]
              && err == Failure(ins)
    {
      ghost var ins := processInstructions;
      ghost var n := 0;
      err := None;
      ReachMeaning(ins);
      while HasNext()
        invariant n <= |ins| && processInstructions == ins[n..]
        invariant forall i :: 0 <= i < n ==> ins[i].Some?
        invariant env.executed == old(env.executed) + Values(ins[..n])
        invariant err.None? && Reach(ins) == n + Reach(ins[n..]) && Failure(ins) == Failure(ins[n..])
        decreases |processInstructions|
      {
        assert ins[n..][0] == ins[n] && ins[n..][1..] == ins[n + 1..];
        err := RunNext(env);
        assert Values(ins[..n + 1]) == Values(ins[..n]) + [ins[n].value];
        n := n + 1;
        if err.Some? {
          break;
        }
      }
    }
  }
}
