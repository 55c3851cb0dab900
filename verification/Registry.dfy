/**
 * programs/loader.go: the slice of all programs against the json files and root directories on
 * disk. Input and output can fail at every point where the code checks (or ignores) an error;
 * which of them do is given with each call.
 */
module Registry {
  import opened Common

  /** What the loader code reads and writes of a server; `payload` stands for everything else. */
  datatype ServerData = ServerData(environmentType: string, root: string, payload: int)

  /** A registered program, as far as the loader is concerned. */
  datatype Entry = Entry(id: string, data: ServerData, crashes: int)

  /** `<id>.json` in the server folder. */
  datatype File = Blank | Garbage | Json(data: ServerData)

  datatype State = State(programs: seq<Entry>, files: map<string, File>, dirs: set<string>)

  datatype Error = AlreadyExists | NotFound | IoError | DecodeError | UnknownEnvironment | StepFailed

  /** How a call ends; a panic is a nil dereference. */
  datatype Outcome = Done | Failed(error: Error) | Panicked

  // ---- Reading ----

  /** Load can also yield no program and no error: that is what an empty file does. */
  datatype LoadResult = Loaded(program: Entry) | Nothing | LoadError(error: Error)

  function Load(files: map<string, File>, environments: set<string>, id: string): LoadResult {
    if id !in files then LoadError(IoError)
    else
      match files[id]
      case Blank => Nothing
      case Garbage => LoadError(DecodeError)
      case Json(data) =>
        if data.environmentType in environments then Loaded(Entry(id, data, 0)) else LoadError(UnknownEnvironment)
  }

  predicate Distinct(programs: seq<Entry>) {
    forall i, j :: 0 <= i < j < |programs| ==> programs[i].id != programs[j].id
  }

  predicate Registered(programs: seq<Entry>, id: string) {
    exists i :: 0 <= i < |programs| && programs[i].id == id
  }

  /** The place of the first program with this id, or the length if there is none. */
  function IndexOf(programs: seq<Entry>, id: string): (i: nat)
    ensures i <= |programs| && (i < |programs| <==> Registered(programs, id))
    ensures i < |programs| ==> programs[i].id == id
    ensures forall j :: 0 <= j < i ==> programs[j].id != id
  {
    if programs == [] then 0
    else if programs[0].id == id then 0
    else
      assert forall j :: 0 < j < |programs| ==> programs[j] == programs[1..][j - 1];
      1 + IndexOf(programs[1..], id)
  }

  function Without(programs: seq<Entry>, i: nat): seq<Entry>
    requires i < |programs|
  {
    programs[..i] + programs[i + 1..]
  }

  // ---- The commands, as functions on values ----

  /** How much of a file a write that failed left behind; the file was truncated before. */
  datatype Extent = NoBytes | SomeBytes | AllBytes

  function Leftover(extent: Extent, data: ServerData): File {
    match extent
    case NoBytes => Blank
    case SomeBytes => Garbage
    case AllBytes => Json(data)
  }

  datatype CreateFaults = CreateFaults(
    openFails: bool, encodeFails: bool, extent: Extent, typeFails: bool, environmentFails: bool, mkdirFails: bool,
    removeFails: bool, deleteFails: bool)

  /** The deferred rollback: the file goes, and with an environment also its root directory. */
  function Rollback(s: State, p: Entry, environment: bool, f: CreateFaults): State {
    State(s.programs,
          if f.removeFails then s.files else s.files - {p.id},
          if environment && !f.deleteFails then s.dirs - {p.data.root} else s.dirs)
  }

  function Created(s: State, p: Entry, f: CreateFaults): (State, Outcome) {
    if Registered(s.programs, p.id) then (s, Failed(AlreadyExists))
    else if f.openFails then (Rollback(s, p, false, f), Failed(IoError))
    else if f.encodeFails then
      (Rollback(s.(files := s.files[p.id := Leftover(f.extent, p.data)]), p, false, f), Failed(IoError))
    else
      var w := s.(files := s.files[p.id := Json(p.data)]);
      if f.typeFails then (Rollback(w, p, false, f), Failed(DecodeError))
      else if f.environmentFails then (Rollback(w, p, false, f), Panicked)
      else if f.mkdirFails || p.data.root in s.dirs then (Rollback(w, p, true, f), Failed(IoError))
      else (State(s.programs + [p], w.files, s.dirs + {p.data.root}), Done)
  }

  datatype DeleteFaults = DeleteFaults(
    statusFails: bool, running: bool, stopFails: bool, destroyFails: bool, removeFails: bool)

  function Deleted(s: State, id: string, f: DeleteFaults): (State, Outcome) {
    var i := IndexOf(s.programs, id);
    if i == |s.programs| then (s, Done)
    else if f.statusFails || (f.running && f.stopFails) then (s, Failed(IoError))
    else if f.destroyFails then (s, Failed(StepFailed))
    else
      (State(Without(s.programs, i), if f.removeFails then s.files else s.files - {id},
             s.dirs - {s.programs[i].data.root}),
       if f.removeFails || id !in s.files then Failed(IoError) else Done)
  }

  datatype SaveFaults = NoFault | OpenFails | WriteFails(extent: Extent)

  function Saved(s: State, id: string, f: SaveFaults): (State, Outcome) {
    var i := IndexOf(s.programs, id);
    if i == |s.programs| then (s, Failed(NotFound))
    else
      match f
      case NoFault => (s.(files := s.files[id := Json(s.programs[i].data)]), Done)
      case OpenFails => (s, Failed(IoError))
      case WriteFails(extent) =>
        (s.(files := s.files[id := Leftover(extent, s.programs[i].data)]), Failed(IoError))
  }

  function Reloaded(s: State, id: string, environments: set<string>): (State, Outcome) {
    var i := IndexOf(s.programs, id);
    if i == |s.programs| then (s, Failed(NotFound))
    else
      match Load(s.files, environments, id)
      case LoadError(e) => (s, Failed(e))
      case Nothing => (s, Panicked)
      case Loaded(p) => (s.(programs := s.programs[i := s.programs[i].(data := p.data)]), Done)
  }

  // ---- The object ----

  datatype DirEntry = DirEntry(stem: string, extension: string, isDir: bool)

  class Registry {
    var allPrograms: seq<Entry>
    var files: map<string, File>
    var dirs: set<string>

    constructor (files: map<string, File>, dirs: set<string>)
      ensures View() == State([], files, dirs)
    {
      allPrograms := [];
      this.files, this.dirs := files, dirs;
    }

    function View(): State
      reads this
    {
      State(allPrograms, files, dirs)
    }

    method GetFromCache(id: string) returns (program: Option<Entry>)
      ensures program.None? <==> !Registered(allPrograms, id)
      ensures program.Some? ==> program.value == allPrograms[IndexOf(allPrograms, id)]
    {
      for i := 0 to |allPrograms|
        invariant forall j :: 0 <= j < i ==> allPrograms[j].id != id
      {
        if allPrograms[i].id == id {
          return Some(allPrograms[i]);
        }
      }
      return None;
    }

    /** The cached program, else what Load finds on disk. */
    method Get(id: string, environments: set<string>) returns (r: LoadResult)
      ensures r == if Registered(allPrograms, id) then Loaded(allPrograms[IndexOf(allPrograms, id)])
                   else Load(files, environments, id)
    {
      var cached := GetFromCache(id);
      r := if cached.Some? then Loaded(cached.value) else Load(files, environments, id);
    }

    /**
     * Loads the folder's entries in order. An entry that cannot be loaded is skipped; an entry
     * whose file is empty loads as nil and ends the call in a panic.
     */
    method LoadFromFolder(entries: seq<DirEntry>, environments: set<string>) returns (outcome: Outcome)
      modifies this
      ensures files == old(files) && dirs == old(dirs)
      ensures outcome.Done? || outcome.Panicked?
      ensures outcome.Done? <==> NoBlanks(files, environments, entries)
      ensures outcome.Done? ==> allPrograms == old(allPrograms) + LoadedFrom(old(files), environments, entries)
    {
      for i := 0 to |entries|
        invariant files == old(files) && dirs == old(dirs)
        invariant NoBlanks(files, environments, entries[..i])
        invariant allPrograms == old(allPrograms) + LoadedFrom(files, environments, entries[..i])
      {
        LoadedOne(files, environments, entries, i);
        if entries[i].isDir {
          continue;
        }
        var r := Load(files, environments, entries[i].stem);
        match r {
          case LoadError(_) => continue;
          case Nothing => return Panicked;
          case Loaded(program) => allPrograms := allPrograms + [program];
        }
      }
      assert entries[..|entries|] == entries;
      return Done;
    }

    method Create(program: Entry, f: CreateFaults) returns (outcome: Outcome)
      modifies this
      ensures (View(), outcome) == Created(old(View()), program, f)
    {
      var cached := GetFromCache(program.id);
      if cached.Some? {
        return Failed(AlreadyExists);
      }
      var environment := false;
      outcome := Done;
      if f.openFails {
        outcome := Failed(IoError);
      } else {
        files := files[program.id := if f.encodeFails then Leftover(f.extent, program.data) else Json(program.data)];
        if f.encodeFails {
          outcome := Failed(IoError);
        } else if f.typeFails {
          outcome := Failed(DecodeError);
        } else if f.environmentFails {
          outcome := Panicked;
        } else {
          environment := true;
          if f.mkdirFails || program.data.root in dirs {
            outcome := Failed(IoError);
          } else {
            dirs := dirs + {program.data.root};
            allPrograms := allPrograms + [program];
          }
        }
      }
      if outcome != Done {
        if !f.removeFails {
          files := files - {program.id};
        }
        if environment && !f.deleteFails {
          dirs := dirs - {program.data.root};
        }
      }
    }

    /** Finds the program by a loop and cuts it out of the slice in place. */
    method Delete(id: string, f: DeleteFaults) returns (outcome: Outcome)
      modifies this
      ensures (View(), outcome) == Deleted(old(View()), id, f)
    {
      var index := 0;
      while index < |allPrograms| && allPrograms[index].id != id
        invariant index <= |allPrograms|
        invariant forall j :: 0 <= j < index ==> allPrograms[j].id != id
      {
        index := index + 1;
      }
      if index == |allPrograms| {
        return Done;
      }
      var program := allPrograms[index];
      if f.statusFails {
        return Failed(IoError);
      }
      if f.running && f.stopFails {
        return Failed(IoError);
      }
      if f.destroyFails {
        return Failed(StepFailed);
      }
      dirs := dirs - {program.data.root};
      outcome := if f.removeFails || id !in files then Failed(IoError) else Done;
      if !f.removeFails {
        files := files - {id};
      }
      allPrograms := allPrograms[..index] + allPrograms[index + 1..];
    }

    method Save(id: string, f: SaveFaults) returns (outcome: Outcome)
      modifies this
      ensures (View(), outcome) == Saved(old(View()), id, f)
    {
      var program := GetFromCache(id);
      if program.None? {
        return Failed(NotFound);
      }
      if f == OpenFails {
        return Failed(IoError);
      }
      var written := if f.WriteFails? then f.extent else AllBytes;
      files := files[id := Leftover(written, program.value.data)];
      outcome := if f.WriteFails? then Failed(IoError) else Done;
    }

    method Reload(id: string, environments: set<string>) returns (outcome: Outcome)
      modifies this
      ensures (View(), outcome) == Reloaded(old(View()), id, environments)
    {
      var program := GetFromCache(id);
      if program.None? {
        return Failed(NotFound);
      }
      var r := Load(files, environments, id);
      match r {
        case LoadError(e) => return Failed(e);
        case Nothing => return Panicked;
        case Loaded(copy) =>
          var i := IndexOf(allPrograms, id);
          allPrograms := allPrograms[i := allPrograms[i].(data := copy.data)];
          return Done;
      }
    }
  }

  // ---- Loading a folder ----

  /** No entry of the folder belongs to an empty json file. */
  predicate NoBlanks(files: map<string, File>, environments: set<string>, entries: seq<DirEntry>) {
    forall i :: (0 <= i < |entries| && !entries[i].isDir) ==> Load(files, environments, entries[i].stem) != Nothing
  }

  /** The programs of those entries that load, in order. */
  function LoadedFrom(files: map<string, File>, environments: set<string>, entries: seq<DirEntry>): seq<Entry> {
    if entries == [] then []
    else
      var e := entries[|entries| - 1];
      LoadedFrom(files, environments, entries[..|entries| - 1])
      + (if !e.isDir && Load(files, environments, e.stem).Loaded?
         then [Load(files, environments, e.stem).program] else [])
  }

  lemma LoadedOne(files: map<string, File>, environments: set<string>, entries: seq<DirEntry>, i: nat)
    requires i < |entries|
    ensures LoadedFrom(files, environments, entries[..i + 1])
            == LoadedFrom(files, environments, entries[..i])
               + (if !entries[i].isDir && Load(files, environments, entries[i].stem).Loaded?
                  then [Load(files, environments, entries[i].stem).program] else [])
  {
    assert entries[..i + 1][..i] == entries[..i];
  }
}
