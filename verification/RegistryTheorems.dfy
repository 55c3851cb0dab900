/** What every sequence of registry commands keeps, and what a failed one leaves behind. */
module RegistryTheorems {
  import opened Registry

  /** Ids are unique and every registered program has its json file. */
  predicate Consistent(s: State) {
    Distinct(s.programs) && forall i :: 0 <= i < |s.programs| ==> s.programs[i].id in s.files
  }

  datatype Command =
    | Create(program: Entry, createFaults: CreateFaults)
    | Delete(id: string, deleteFaults: DeleteFaults)
    | Save(id: string, saveFaults: SaveFaults)
    | Reload(id: string, environments: set<string>)

  function Apply(s: State, c: Command): (State, Outcome) {
    match c
    case Create(p, f) => Created(s, p, f)
    case Delete(id, f) => Deleted(s, id, f)
    case Save(id, f) => Saved(s, id, f)
    case Reload(id, envs) => Reloaded(s, id, envs)
  }

  function ApplyAll(s: State, commands: seq<Command>): State
    decreases commands
  {
    if commands == [] then s else ApplyAll(Apply(s, commands[0]).0, commands[1..])
  }

  lemma DeleteKeeps(s: State, id: string, f: DeleteFaults)
    requires Consistent(s)
    ensures Consistent(Deleted(s, id, f).0)
  {
    var i := IndexOf(s.programs, id);
    if i < |s.programs| {
      assert forall j :: 0 <= j < |Without(s.programs, i)| ==>
               Without(s.programs, i)[j] == s.programs[if j < i then j else j + 1];
    }
  }

  lemma CreateKeeps(s: State, p: Entry, f: CreateFaults)
    requires Consistent(s)
    ensures Consistent(Created(s, p, f).0)
  {
  }

  lemma SaveKeeps(s: State, id: string, f: SaveFaults)
    requires Consistent(s)
    ensures Consistent(Saved(s, id, f).0)
  {
  }

  lemma ReloadKeeps(s: State, id: string, environments: set<string>)
    requires Consistent(s)
    ensures Consistent(Reloaded(s, id, environments).0)
  {
  }

  lemma CommandKeeps(s: State, c: Command)
    requires Consistent(s)
    ensures Consistent(Apply(s, c).0)
  {
    hide Created, Deleted, Saved, Reloaded, Consistent;
    match c
    case Create(p, f) => CreateKeeps(s, p, f);
    case Delete(id, f) => DeleteKeeps(s, id, f);
    case Save(id, f) => SaveKeeps(s, id, f);
    case Reload(id, envs) => ReloadKeeps(s, id, envs);
  }

  /** Whatever commands run and whichever of their steps fail, the registry stays consistent. */
  lemma {:induction false} CommandsKeep(s: State, commands: seq<Command>)
    requires Consistent(s)
    ensures Consistent(ApplyAll(s, commands))
    decreases commands
  {
    if commands != [] {
      CommandKeeps(s, commands[0]);
      CommandsKeep(Apply(s, commands[0]).0, commands[1..]);
    }
  }

  // ---- The slice as a map ----

  function Ids(programs: seq<Entry>): set<string> {
    set i | 0 <= i < |programs| :: programs[i].id
  }

  /** The map the slice stands for: an id to the program GetFromCache finds. */
  function Table(programs: seq<Entry>): map<string, Entry> {
    map id | id in Ids(programs) :: programs[IndexOf(programs, id)]
  }

  /** With unique ids, every position of the slice is a lookup. */
  lemma TableAt(programs: seq<Entry>, i: nat)
    requires Distinct(programs) && i < |programs|
    ensures IndexOf(programs, programs[i].id) == i
    ensures programs[i].id in Table(programs) && Table(programs)[programs[i].id] == programs[i]
  {
    var j := IndexOf(programs, programs[i].id);
    assert programs[i].id in Ids(programs);
  }

  lemma SameTable(programs: seq<Entry>, m: map<string, Entry>)
    requires Distinct(programs)
    requires forall i :: 0 <= i < |programs| ==> programs[i].id in m && m[programs[i].id] == programs[i]
    requires forall id :: id in m ==> Registered(programs, id)
    ensures Table(programs) == m
  {
    assert Table(programs).Keys == m.Keys by {
      forall id | id in m ensures id in Ids(programs) {
        var i :| 0 <= i < |programs| && programs[i].id == id;
      }
    }
  }

  lemma TableAppend(programs: seq<Entry>, p: Entry)
    requires Distinct(programs) && !Registered(programs, p.id)
    ensures Table(programs + [p]) == Table(programs)[p.id := p]
  {
    var m, more := Table(programs)[p.id := p], programs + [p];
    forall i | 0 <= i < |more| ensures more[i].id in m && m[more[i].id] == more[i] {
      if i < |programs| { TableAt(programs, i); }
    }
    forall id | id in m ensures Registered(more, id) {
      if id == p.id { assert more[|programs|].id == id; }
      else { assert more[IndexOf(programs, id)].id == id; }
    }
    SameTable(more, m);
  }

  lemma WithoutAt(programs: seq<Entry>, i: nat)
    requires i < |programs|
    ensures |Without(programs, i)| == |programs| - 1
    ensures forall j :: 0 <= j < |programs| - 1 ==> Without(programs, i)[j] == programs[if j < i then j else j + 1]
  {
  }

  lemma OthersRegistered(programs: seq<Entry>, i: nat, id: string)
    requires i < |programs| && id != programs[i].id && Registered(programs, id)
    ensures Registered(Without(programs, i), id)
  {
    WithoutAt(programs, i);
    var j := IndexOf(programs, id);
    assert Without(programs, i)[if j < i then j else j - 1].id == id;
  }

  lemma WithoutDistinct(programs: seq<Entry>, i: nat)
    requires Distinct(programs) && i < |programs|
    ensures Distinct(Without(programs, i))
  {
    WithoutAt(programs, i);
    hide Without;
  }

  lemma TableWithout(programs: seq<Entry>, i: nat)
    requires Distinct(programs) && i < |programs|
    ensures Distinct(Without(programs, i))
    ensures Table(Without(programs, i)) == Table(programs) - {programs[i].id}
  {
    WithoutDistinct(programs, i);
    WithoutAt(programs, i);
    hide Without;
    var m, less := Table(programs) - {programs[i].id}, Without(programs, i);
    forall j | 0 <= j < |less| ensures less[j].id in m && m[less[j].id] == less[j] {
      TableAt(programs, if j < i then j else j + 1);
    }
    forall id | id in m ensures Registered(less, id) {
      OthersRegistered(programs, i, id);
    }
    hide Table, Distinct, Registered;
    SameTable(less, m);
  }

  lemma TableReplace(programs: seq<Entry>, i: nat, p: Entry)
    requires Distinct(programs) && i < |programs| && p.id == programs[i].id
    ensures Table(programs[i := p]) == Table(programs)[p.id := p]
  {
    var m, changed := Table(programs)[p.id := p], programs[i := p];
    forall j | 0 <= j < |changed| ensures changed[j].id in m && m[changed[j].id] == changed[j] {
      if j != i { TableAt(programs, j); }
    }
    forall id | id in m ensures Registered(changed, id) {
      if id == p.id { assert changed[i].id == id; }
      else { assert changed[IndexOf(programs, id)].id == id; }
    }
    SameTable(changed, m);
  }

  /** Whether a Delete that finds its program gets as far as cutting it out. */
  predicate Cuts(f: DeleteFaults) {
    !f.statusFails && !(f.running && f.stopFails) && !f.destroyFails
  }

  /** The same command on the map: insert on success, remove once destroyed, replace the data. */
  function TableStep(m: map<string, Entry>, files: map<string, File>, c: Command, outcome: Outcome)
    : map<string, Entry>
  {
    match c
    case Create(p, _) => if outcome.Done? then m[p.id := p] else m
    case Delete(id, f) => if Cuts(f) then m - {id} else m
    case Save(_, _) => m
    case Reload(id, _) =>
      if outcome.Done? && id in m && id in files && files[id].Json? then m[id := m[id].(data := files[id].data)] else m
  }

  lemma DeleteRefinesMap(s: State, id: string, f: DeleteFaults)
    requires Consistent(s)
    ensures Table(Deleted(s, id, f).0.programs) == if Cuts(f) then Table(s.programs) - {id} else Table(s.programs)
  {
    var i := IndexOf(s.programs, id);
    if i < |s.programs| {
      TableWithout(s.programs, i);
    } else {
      assert id !in Ids(s.programs);
      assert Table(s.programs) - {id} == Table(s.programs);
    }
  }

  lemma ReloadRefinesMap(s: State, id: string, environments: set<string>)
    requires Consistent(s)
    ensures Table(Reloaded(s, id, environments).0.programs)
            == TableStep(Table(s.programs), s.files, Reload(id, environments), Reloaded(s, id, environments).1)
  {
    hide Table, Ids, Registered;
    var i := IndexOf(s.programs, id);
    if i < |s.programs| && Reloaded(s, id, environments).1.Done? {
      TableAt(s.programs, i);
      var p := s.programs[i].(data := s.files[id].data);
      assert Reloaded(s, id, environments).0.programs == s.programs[i := p];
      TableReplace(s.programs, i, p);
    }
  }

  /** Refinement: on the map it stands for, the slice does exactly what the command says. */
  lemma CommandRefinesMap(s: State, c: Command)
    requires Consistent(s)
    ensures Table(Apply(s, c).0.programs) == TableStep(Table(s.programs), s.files, c, Apply(s, c).1)
  {
    hide Table, Deleted, Reloaded, IndexOf;
    match c
    case Create(p, _) =>
      if Apply(s, c).1.Done? { TableAppend(s.programs, p); }
    case Delete(id, f) => DeleteRefinesMap(s, id, f);
    case Save(_, _) =>
    case Reload(id, envs) => ReloadRefinesMap(s, id, envs);
  }

  /** The programs with another id, in their order. */
  function Others(programs: seq<Entry>, id: string): seq<Entry> {
    if programs == [] then []
    else (if programs[0].id == id then [] else [programs[0]]) + Others(programs[1..], id)
  }

  lemma {:induction false} OthersAll(programs: seq<Entry>, id: string)
    requires !Registered(programs, id)
    ensures Others(programs, id) == programs
  {
    if programs != [] {
      assert programs[0].id != id;
      forall i | 0 <= i < |programs[1..]| ensures programs[1..][i].id != id {
        assert programs[1..][i] == programs[i + 1];
      }
      OthersAll(programs[1..], id);
    }
  }

  /** The in-place cut removes exactly the programs with that id and keeps the order of the rest. */
  lemma {:induction false} CutIsFilter(programs: seq<Entry>, i: nat)
    requires Distinct(programs) && i < |programs|
    ensures Without(programs, i) == Others(programs, programs[i].id)
  {
    var rest := programs[1..];
    assert forall j :: 0 <= j < |rest| ==> rest[j] == programs[j + 1];
    if i == 0 {
      OthersAll(rest, programs[0].id);
    } else {
      CutIsFilter(rest, i - 1);
      assert Without(programs, i) == [programs[0]] + Without(rest, i - 1);
    }
  }

  // ---- What the commands leave behind ----

  /** Outside the id and the directory, nothing on disk differs. */
  predicate SameElsewhere(s: State, t: State, id: string, root: string) {
    && t.files - {id} == s.files - {id}
    && t.dirs - {root} == s.dirs - {root}
  }

  /**
   * A server that was deleted without an error is gone: it is not registered, its json file cannot be
   * loaded again, its directory is not there, and nothing else changed.
   */
  lemma DeletedIsGone(s: State, id: string, f: DeleteFaults, environments: set<string>)
    requires Consistent(s) && Registered(s.programs, id) && Deleted(s, id, f).1 == Done
    ensures var t, p := Deleted(s, id, f).0, s.programs[IndexOf(s.programs, id)];
            && !Registered(t.programs, id) && id !in t.files && p.data.root !in t.dirs
            && Load(t.files, environments, id) == LoadError(IoError)
            && SameElsewhere(s, t, id, p.data.root)
  {
    CutIsFilter(s.programs, IndexOf(s.programs, id));
    OthersLack(s.programs, id);
  }

  lemma {:induction false} OthersLack(programs: seq<Entry>, id: string)
    ensures !Registered(Others(programs, id), id)
  {
    if programs != [] {
      OthersLack(programs[1..], id);
      var first: seq<Entry> := if programs[0].id == id then [] else [programs[0]];
      var rest := Others(programs[1..], id);
      forall i | 0 <= i < |first + rest| ensures (first + rest)[i].id != id {
        if i >= |first| { assert (first + rest)[i] == rest[i - |first|]; }
      }
    }
  }

  /** Exactly when, and with what, a deletion fails, and what it has changed then. */
  lemma DeleteOutcome(s: State, id: string, f: DeleteFaults)
    requires Consistent(s)
    ensures var (t, outcome) := Deleted(s, id, f);
            var refused := f.statusFails || (f.running && f.stopFails);
            && (!Registered(s.programs, id) ==> t == s && outcome == Done)
            && (Registered(s.programs, id) && refused ==> t == s && outcome == Failed(IoError))
            && (Registered(s.programs, id) && !refused && f.destroyFails ==> t == s && outcome == Failed(StepFailed))
            && (Registered(s.programs, id) && !refused && !f.destroyFails && f.removeFails ==>
                  && outcome == Failed(IoError) && t.files == s.files
                  && t.programs == Others(s.programs, id)
                  && t.dirs == s.dirs - {s.programs[IndexOf(s.programs, id)].data.root})
            && (Registered(s.programs, id) && !refused && !f.destroyFails && !f.removeFails ==> outcome == Done)
  {
    if Registered(s.programs, id) { CutIsFilter(s.programs, IndexOf(s.programs, id)); }
  }

  /** A server that was created is there: registered last, on disk, and loadable as it was. */
  lemma CreatedIsThere(s: State, p: Entry, f: CreateFaults, environments: set<string>)
    requires Created(s, p, f).1 == Done
    ensures var t := Created(s, p, f).0;
            && t.programs == s.programs + [p] && p.data.root in t.dirs && p.data.root !in s.dirs
            && p.id in t.files && t.files[p.id] == Json(p.data)
            && (p.data.environmentType in environments ==>
                  Load(t.files, environments, p.id) == Loaded(Entry(p.id, p.data, 0)))
            && SameElsewhere(s, t, p.id, p.data.root)
  {
  }

  /** Exactly when, and with what, a creation fails. */
  lemma CreateOutcome(s: State, p: Entry, f: CreateFaults)
    ensures Created(s, p, f).1
            == if Registered(s.programs, p.id) then Failed(AlreadyExists)
               else if f.openFails || f.encodeFails then Failed(IoError)
               else if f.typeFails then Failed(DecodeError)
               else if f.environmentFails then Panicked
               else if f.mkdirFails || p.data.root in s.dirs then Failed(IoError)
               else Done
    ensures Registered(s.programs, p.id) ==> Created(s, p, f).0 == s
  {
  }

  /** A faultless save is what a reload gives back; it changes nothing but the file. */
  lemma SavedIsReloaded(s: State, id: string, environments: set<string>)
    requires Registered(s.programs, id)
    ensures var (t, outcome) := Saved(s, id, NoFault);
            var p := s.programs[IndexOf(s.programs, id)];
            && outcome == Done && t.programs == s.programs && t.dirs == s.dirs && t.files - {id} == s.files - {id}
            && id in t.files && t.files[id] == Json(p.data)
            && (p.data.environmentType in environments ==> Reloaded(t, id, environments) == (t, Done))
  {
    var i := IndexOf(s.programs, id);
    assert s.programs[i := s.programs[i]] == s.programs;
  }

  /** What a reload does, case by case of what is on disk. */
  lemma ReloadCases(s: State, id: string, environments: set<string>)
    ensures var (t, outcome) := Reloaded(s, id, environments);
            var known := Registered(s.programs, id);
            && t.files == s.files && t.dirs == s.dirs
            && (outcome != Done ==> t == s)
            && (!known ==> outcome == Failed(NotFound))
            && (known && id !in s.files ==> outcome == Failed(IoError))
            && (known && id in s.files && s.files[id].Blank? ==> outcome == Panicked)
            && (known && id in s.files && s.files[id].Garbage? ==> outcome == Failed(DecodeError))
            && (known && id in s.files && s.files[id].Json? && s.files[id].data.environmentType !in environments ==>
                  outcome == Failed(UnknownEnvironment))
            && (known && id in s.files && s.files[id].Json? && s.files[id].data.environmentType in environments ==>
                  var i := IndexOf(s.programs, id);
                  outcome == Done
                  && t.programs == s.programs[i := Entry(s.programs[i].id, s.files[id].data, s.programs[i].crashes)])
  {
  }

  // ---- Failed creations ----

  /** Create got past its environment, to the mkdir of the root directory. */
  predicate ReachedMkdir(f: CreateFaults) {
    !f.openFails && !f.encodeFails && !f.typeFails && !f.environmentFails
  }

  /** A creation that does not succeed never registers anything. */
  lemma FailedCreateRegistersNothing(s: State, p: Entry, f: CreateFaults)
    requires Created(s, p, f).1 != Done
    ensures Created(s, p, f).0.programs == s.programs
  {
  }

  /**
   * Exactly when a failed creation is undone, given that its clean-up calls succeed: there was no
   * json file of that id before, and, if it got that far, no root directory either. In every other
   * case the rollback removes what was there before.
   */
  lemma FailedCreateUndoneIff(s: State, p: Entry, f: CreateFaults)
    requires !Registered(s.programs, p.id) && Created(s, p, f).1 != Done && !f.removeFails && !f.deleteFails
    ensures Created(s, p, f).0 == s <==> p.id !in s.files && (ReachedMkdir(f) ==> p.data.root !in s.dirs)
    ensures p.id !in Created(s, p, f).0.files
    ensures ReachedMkdir(f) ==> p.data.root !in Created(s, p, f).0.dirs
  {
    var t := Created(s, p, f).0;
    if p.id !in s.files { assert t.files == s.files; }
    if p.data.root !in s.dirs { assert t.dirs == s.dirs; }
  }

  // ---- Failed saves ----

  /**
   * A reload after a save panics exactly if the save truncated the file and wrote nothing, or could
   * not open a file that was empty already.
   */
  lemma ReloadAfterSavePanicsIff(s: State, id: string, f: SaveFaults, environments: set<string>)
    requires Registered(s.programs, id)
    ensures Reloaded(Saved(s, id, f).0, id, environments).1 == Panicked
            <==> f == WriteFails(NoBytes) || (f == OpenFails && id in s.files && s.files[id] == Blank)
  {
    var t := Saved(s, id, f).0;
    assert t.programs == s.programs && IndexOf(t.programs, id) < |t.programs|;
    if f != OpenFails { assert id in t.files; }
  }

  // ---- Loading a folder ----

  predicate Loadable(files: map<string, File>, environments: set<string>, e: DirEntry) {
    !e.isDir && Load(files, environments, e.stem).Loaded?
  }

  /** No two entries that load share their name before the extension. */
  predicate StemsDiffer(files: map<string, File>, environments: set<string>, entries: seq<DirEntry>) {
    forall i, j :: (0 <= i < j < |entries| && Loadable(files, environments, entries[i])
                    && Loadable(files, environments, entries[j])) ==> entries[i].stem != entries[j].stem
  }

  predicate LoadedBy(files: map<string, File>, environments: set<string>, entries: seq<DirEntry>, id: string) {
    exists i :: 0 <= i < |entries| && Loadable(files, environments, entries[i]) && entries[i].stem == id
  }

  /** The ids that are registered are the stems of the entries that load. */
  lemma {:induction false} LoadedIds(
    files: map<string, File>, environments: set<string>, entries: seq<DirEntry>, id: string)
    ensures Registered(LoadedFrom(files, environments, entries), id) <==> LoadedBy(files, environments, entries, id)
  {
    if entries != [] {
      var n := |entries| - 1;
      var before, all := LoadedFrom(files, environments, entries[..n]), LoadedFrom(files, environments, entries);
      LoadedIds(files, environments, entries[..n], id);
      if Loadable(files, environments, entries[n]) {
        assert all[|before|].id == entries[n].stem;
      }
      if Registered(before, id) {
        assert all[IndexOf(before, id)].id == id;
        var i :| 0 <= i < n && Loadable(files, environments, entries[..n][i]) && entries[..n][i].stem == id;
        assert Loadable(files, environments, entries[i]) && entries[i].stem == id;
      } else if Registered(all, id) {
        assert IndexOf(all, id) == |before|;
      }
      if LoadedBy(files, environments, entries, id) {
        var i :| 0 <= i < |entries| && Loadable(files, environments, entries[i]) && entries[i].stem == id;
        if i < n { assert entries[..n][i] == entries[i]; }
      }
    }
  }

  /**
   * A loaded folder has unique ids exactly when no two loadable entries share a stem: `a.json`
   * together with `a.txt` registers server `a` twice.
   */
  lemma {:induction false} LoadedDistinctIff(
    files: map<string, File>, environments: set<string>, entries: seq<DirEntry>)
    ensures Distinct(LoadedFrom(files, environments, entries)) <==> StemsDiffer(files, environments, entries)
  {
    if entries != [] {
      var n := |entries| - 1;
      var before, all := LoadedFrom(files, environments, entries[..n]), LoadedFrom(files, environments, entries);
      var last := entries[n];
      LoadedDistinctIff(files, environments, entries[..n]);
      LoadedIds(files, environments, entries[..n], last.stem);
      DistinctGrows(before, all);
      StemsGrow(files, environments, entries);
    }
  }

  lemma DistinctGrows(before: seq<Entry>, all: seq<Entry>)
    requires all == before || (|all| == |before| + 1 && all[..|before|] == before)
    ensures Distinct(all) <==> Distinct(before) && (all == before || !Registered(before, all[|before|].id))
  {
    assert forall i :: 0 <= i < |before| ==> all[i] == before[i];
    if all != before && Registered(before, all[|before|].id) {
      assert all[IndexOf(before, all[|before|].id)].id == all[|before|].id;
    }
  }

  lemma StemsGrow(files: map<string, File>, environments: set<string>, entries: seq<DirEntry>)
    requires entries != []
    ensures var n := |entries| - 1;
            StemsDiffer(files, environments, entries) <==>
              && StemsDiffer(files, environments, entries[..n])
              && (Loadable(files, environments, entries[n])
                  ==> !LoadedBy(files, environments, entries[..n], entries[n].stem))
  {
    var n := |entries| - 1;
    assert forall i :: 0 <= i < n ==> entries[..n][i] == entries[i];
  }

  /** A folder that loads gives a consistent registry, if its stems differ. */
  lemma LoadedConsistent(files: map<string, File>, dirs: set<string>, environments: set<string>, entries: seq<DirEntry>)
    requires StemsDiffer(files, environments, entries)
    ensures Consistent(State(LoadedFrom(files, environments, entries), files, dirs))
  {
    LoadedDistinctIff(files, environments, entries);
    var programs := LoadedFrom(files, environments, entries);
    forall i | 0 <= i < |programs| ensures programs[i].id in files {
      LoadedIds(files, environments, entries, programs[i].id);
      assert Registered(programs, programs[i].id);
    }
  }
}
