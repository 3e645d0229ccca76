/**
 * The workflow registry: a directory tree of workflow plugins on disk and an
 * in-memory dictionary of the plugins that loaded, with the operations that
 * scan, load, register, execute, list, read and delete them.
 *
 * The file system is the pair `rootFiles` (plain files directly under the
 * workflows directory) and `dirs` (its sub-directories, each a map from file
 * name to content). Importing a plugin, calling its `run_graph`, and reading
 * and writing JSON are the fields of a `Runtime` fixed when the registry is
 * built.
 */
module WorkflowService {
  import opened Values

  /** The files of one directory: file name to content. */
  type Files = map<string, string>

  const MainFile := "main.py"
  const InitFile := "__init__.py"
  const MetadataFile := "metadata.json"
  const ReservedPrefix := "__"
  const RootInitText := "# Automatically generated\n"
  const MissingMainMessage := "No such file or directory: main.py"

  function WorkflowInitText(name: string): string
  {
    "# Workflow: " + name + "\n"
  }

  function NotFoundMessage(id: string): string
  {
    "Workflow not found: " + id
  }

  function ExecutionErrorMessage(cause: string): string
  {
    "Error executing workflow: " + cause
  }

  /** What importing `main.py` of a workflow directory does. */
  datatype ImportOutcome =
    | NoSpec                       // no module spec or no loader
    | ImportRaised(msg: string)    // executing the module raised
    | Executed(hasRunGraph: bool)  // the module ran; does it define `run_graph`?

  /** What calling a plugin's `run_graph(inputs)` does. */
  datatype RunOutcome = Returned(value: Value) | RunRaised(msg: string)

  /** The exceptions the registry and the HTTP layer tell apart. */
  datatype Exception = ValueError(msg: string) | OtherError(msg: string)

  /**
   * The parts of the Python runtime the registry relies on but does not define:
   * importing a workflow's code, running its entry function, and JSON.
   */
  datatype Runtime = Runtime(
    importer: Files -> ImportOutcome,
    run: (Files, map<string, Value>) -> RunOutcome,
    parse: string -> Option<Value>,
    dump: Value -> string)

  /** A loaded workflow: the directory contents its module was executed from, and when. */
  datatype Entry = Entry(code: Files, loadedAt: string)

  /** The workflow directory has a `main.py` that executes and defines `run_graph`. */
  predicate Loadable(rt: Runtime, files: Files)
  {
    MainFile in files && rt.importer(files) == Executed(true)
  }

  predicate HasReservedPrefix(name: string)
  {
    |name| >= |ReservedPrefix| && name[..|ReservedPrefix|] == ReservedPrefix
  }

  /** The directory names the startup scan tries to load. */
  function ScannedNames(dirs: map<string, Files>): set<string>
  {
    set d | d in dirs && !HasReservedPrefix(d)
  }

  predicate NoDuplicates(s: seq<string>)
  {
    forall i, j :: 0 <= i < j < |s| ==> s[i] != s[j]
  }

  /** The metadata document `register_workflow` writes. */
  function MetadataDoc(id: string, name: string, createdAt: string): (doc: Value)
    ensures doc.Dict? && doc.fields.Keys == {"workflow_id", "name", "created_at"}
    ensures doc.fields["workflow_id"] == Str(id) && doc.fields["name"] == Str(name)
  {
    Dict(map["workflow_id" := Str(id), "name" := Str(name), "created_at" := Str(createdAt)])
  }

  /** JSON writes `doc` so that it reads back as `doc`. */
  predicate RoundTrips(rt: Runtime, doc: Value)
  {
    rt.parse(rt.dump(doc)) == Some(doc)
  }

  /** A duplicate-free key order that lists exactly the dictionary's keys is as long as the dictionary. */
  lemma {:induction false} OrderLengthIsDictionarySize<V>(order: seq<string>, dict: map<string, V>)
    requires NoDuplicates(order)
    requires forall id :: id in order <==> id in dict
    ensures |order| == |dict|
  {
    if order != [] {
      var last := order[|order| - 1];
      var front := order[..|order| - 1];
      assert order == front + [last];
      forall k | 0 <= k < |front|
        ensures front[k] != last
      {
        assert front[k] == order[k];
      }
      forall id ensures id in front <==> id in dict - {last} {
        if id in front {
          var k :| 0 <= k < |front| && front[k] == id;
          assert order[k] == id;
        }
        if id in order && id != last {
          var k :| 0 <= k < |order| && order[k] == id;
          assert k < |order| - 1 && front[k] == id;
        }
      }
      OrderLengthIsDictionarySize(front, dict - {last});
    }
  }

  /** Reading `<id>/metadata.json`: absent file or unparsable text gives `None`. */
  function ReadMetadata(rt: Runtime, dirs: map<string, Files>, id: string): Option<Value>
  {
    if id in dirs && MetadataFile in dirs[id] then rt.parse(dirs[id][MetadataFile]) else None
  }

  /** The metadata of `ids`, in that order, skipping those without readable metadata. */
  function Listing(rt: Runtime, dirs: map<string, Files>, ids: seq<string>): seq<Value>
  {
    if ids == [] then []
    else
      Listing(rt, dirs, ids[..|ids| - 1]) +
      match ReadMetadata(rt, dirs, ids[|ids| - 1])
      case Some(v) => [v]
      case None => []
  }

  /** The result of calling the entry function, as `execute_workflow` reports it. */
  function ExecutionResult(outcome: RunOutcome): Result<Value, Exception>
  {
    match outcome
    case Returned(v) => Success(v)
    case RunRaised(msg) => Failure(ValueError(ExecutionErrorMessage(msg)))
  }

  /**
   * A workflow directory after registration: the code files written over the
   * existing ones, then the package marker and the metadata written last.
   */
  function WrittenFiles(existing: Files, codeFiles: Files, name: string, metadataText: string): (r: Files)
    ensures r.Keys == existing.Keys + codeFiles.Keys + {InitFile, MetadataFile}
    ensures r[InitFile] == WorkflowInitText(name) && r[MetadataFile] == metadataText
    ensures forall f :: f in codeFiles && f != InitFile && f != MetadataFile ==> r[f] == codeFiles[f]
    ensures forall f :: f in existing && f !in codeFiles && f != InitFile && f != MetadataFile ==> r[f] == existing[f]
  {
    (existing + codeFiles)[InitFile := WorkflowInitText(name)][MetadataFile := metadataText]
  }

  /** `s` with `x` taken out, the others in their order (Python's `del` on a dict's keys). */
  function Without(s: seq<string>, x: string): (r: seq<string>)
    ensures forall y :: y in r <==> y in s && y != x
    ensures NoDuplicates(s) ==> NoDuplicates(r)
    ensures x !in s ==> r == s
    ensures |r| <= |s|
  {
    if s == [] then []
    else if s[0] == x then Without(s[1..], x)
    else
      var rest := Without(s[1..], x);
      if NoDuplicates(s) then
        assert s[0] !in s[1..] by {
          if k :| 0 <= k < |s[1..]| && s[1..][k] == s[0] {
            assert s[k + 1] == s[0];
          }
        }
        PrependKeepsNoDuplicates(s[0], rest);
        [s[0]] + rest
      else
        [s[0]] + rest
  }

  /** Taking out a key keeps the keys before it and after it in their order. */
  lemma {:induction false} WithoutKeepsOrder(s: seq<string>, x: string, i: nat)
    requires NoDuplicates(s) && i < |s| && s[i] == x
    ensures Without(s, x) == s[..i] + s[i + 1..]
  {
    if i == 0 {
      forall k | 0 <= k < |s[1..]|
        ensures s[1..][k] != x
      {
        assert s[1..][k] == s[k + 1];
      }
      assert s[..0] + s[1..] == s[1..];
    } else {
      assert s[0] != x;
      assert NoDuplicates(s[1..]) by {
        forall a, b | 0 <= a < b < |s[1..]| ensures s[1..][a] != s[1..][b] {
          assert s[1..][a] == s[a + 1] && s[1..][b] == s[b + 1];
        }
      }
      WithoutKeepsOrder(s[1..], x, i - 1);
      assert s[..i] + s[i + 1..] == [s[0]] + (s[1..][..i - 1] + s[1..][i..]);
    }
  }

  lemma PrependKeepsNoDuplicates(a: string, t: seq<string>)
    requires a !in t && NoDuplicates(t)
    ensures NoDuplicates([a] + t)
  {
    forall i, j | 0 <= i < j < |[a] + t|
      ensures ([a] + t)[i] != ([a] + t)[j]
    {
      if i > 0 {
        assert ([a] + t)[i] == t[i - 1] && ([a] + t)[j] == t[j - 1];
      } else {
        assert ([a] + t)[j] == t[j - 1];
      }
    }
  }

  class WorkflowRegistry {
    const runtime: Runtime
    /** Plain files directly under the workflows directory. */
    var rootFiles: Files
    /** Sub-directories of the workflows directory, by name. */
    var dirs: map<string, Files>
    /** The in-memory dictionary `self.workflows`. */
    var workflows: map<string, Entry>
    /** The keys of `workflows` in the dictionary's insertion order. */
    var order: seq<string>

    ghost predicate Valid()
      reads this
    {
      && rootFiles.Keys !! dirs.Keys
      && NoDuplicates(order)
      && (forall id :: id in order <==> id in workflows)
      && workflows.Keys <= dirs.Keys
      && (forall id :: id in workflows ==> Loadable(runtime, workflows[id].code))
    }

    /**
     * Builds the registry over the workflows directory as found on disk:
     * makes sure the package marker exists, then loads every workflow directory.
     */
    constructor (runtime: Runtime, root: Files, subdirs: map<string, Files>, now: string)
      requires root.Keys !! subdirs.Keys
      ensures Valid()
      ensures this.runtime == runtime && dirs == subdirs
      ensures rootFiles == if InitFile in root || InitFile in subdirs then root else root[InitFile := RootInitText]
      ensures forall id :: id in workflows <==> id in ScannedNames(subdirs) && Loadable(runtime, subdirs[id])
      ensures forall id :: id in workflows ==> workflows[id] == Entry(subdirs[id], now)
    {
      this.runtime := runtime;
      rootFiles := root;
      dirs := subdirs;
      workflows := map[];
      order := [];
      new;
      EnsureWorkflowsDir();
      LoadAll(now);
    }

    /** Writes the root package marker unless something of that name exists. */
    method EnsureWorkflowsDir()
      requires Valid()
      modifies this`rootFiles
      ensures Valid()
      ensures InitFile in rootFiles || InitFile in dirs
      ensures rootFiles == if InitFile in old(rootFiles) || InitFile in dirs then old(rootFiles) else old(rootFiles)[InitFile := RootInitText]
    {
      if InitFile !in rootFiles && InitFile !in dirs {
        rootFiles := rootFiles[InitFile := RootInitText];
      }
    }

    /**
     * Tries to load every sub-directory whose name does not start with "__";
     * a failing one is skipped.
     */
    method LoadAll(now: string)
      requires Valid()
      modifies this`workflows, this`order
      ensures Valid()
      ensures forall id :: id in workflows <==> id in old(workflows) || (id in ScannedNames(dirs) && Loadable(runtime, dirs[id]))
      ensures forall id :: id in workflows ==>
        workflows[id] == if id in ScannedNames(dirs) && Loadable(runtime, dirs[id]) then Entry(dirs[id], now) else old(workflows)[id]
    {
      var pending := ScannedNames(dirs);
      while pending != {}
        invariant Valid()
        invariant pending <= ScannedNames(dirs)
        invariant forall id :: id in workflows <==>
          id in old(workflows) || (id in ScannedNames(dirs) - pending && Loadable(runtime, dirs[id]))
        invariant forall id :: id in workflows ==>
          workflows[id] == if id in ScannedNames(dirs) - pending && Loadable(runtime, dirs[id]) then Entry(dirs[id], now) else old(workflows)[id]
        decreases pending
      {
        var d :| d in pending;
        var loaded := Load(d, now);
        pending := pending - {d};
      }
    }

    /**
     * Imports `<id>/main.py`; when it runs and defines `run_graph`, records it
     * under `id`, replacing any earlier entry. Every failure returns false and
     * leaves the dictionary as it was.
     */
    method Load(id: string, now: string) returns (ok: bool)
      requires Valid()
      modifies this`workflows, this`order
      ensures Valid()
      ensures ok <==> id in dirs && Loadable(runtime, dirs[id])
      ensures ok ==> workflows == old(workflows)[id := Entry(dirs[id], now)]
      ensures ok ==> order == if id in old(workflows) then old(order) else old(order) + [id]
      ensures !ok ==> workflows == old(workflows) && order == old(order)
    {
      if id !in dirs && id !in rootFiles {
        return false;
      }
      // a plain file or a directory without main.py: executing the module raises
      var outcome := if id in dirs && MainFile in dirs[id] then runtime.importer(dirs[id]) else ImportRaised(MissingMainMessage);
      match outcome {
        case NoSpec =>
          ok := false;
        case ImportRaised(_) =>
          ok := false;
        case Executed(hasRunGraph) =>
          if hasRunGraph {
            if id !in workflows {
              order := order + [id];
            }
            workflows := workflows[id := Entry(dirs[id], now)];
            ok := true;
          } else {
            ok := false;
          }
      }
    }

    /**
     * Writes the code files, the package marker and the metadata into `<id>/`
     * and then loads it. Nothing written is removed when the load fails.
     */
    method Register(id: string, name: string, codeFiles: Files, now: string) returns (ok: bool)
      requires Valid()
      modifies this`dirs, this`workflows, this`order
      ensures Valid()
      ensures id in rootFiles ==> !ok && dirs == old(dirs) && workflows == old(workflows) && order == old(order)
      ensures id !in rootFiles ==>
        dirs == old(dirs)[id := WrittenFiles(if id in old(dirs) then old(dirs)[id] else map[], codeFiles, name, runtime.dump(MetadataDoc(id, name, now)))]
      ensures ok <==> id !in rootFiles && Loadable(runtime, dirs[id])
      ensures ok ==> workflows == old(workflows)[id := Entry(dirs[id], now)]
      ensures ok ==> order == if id in old(workflows) then old(order) else old(order) + [id]
      ensures !ok ==> workflows == old(workflows) && order == old(order)
    {
      if id in rootFiles {
        // os.makedirs raises: a plain file already has this name
        return false;
      }
      WriteWorkflowDir(id, name, codeFiles, runtime.dump(MetadataDoc(id, name, now)));
      assert Valid();
      ok := Load(id, now);
    }

    /**
     * Creates `<id>/` when missing, writes the code files into it, then the
     * package marker and the metadata text.
     */
    method WriteWorkflowDir(id: string, name: string, codeFiles: Files, metadataText: string)
      modifies this`dirs
      ensures dirs == old(dirs)[id := WrittenFiles(if id in old(dirs) then old(dirs)[id] else map[], codeFiles, name, metadataText)]
    {
      // os.makedirs(exist_ok=True): an existing directory is kept as it is
      var files := if id in dirs then dirs[id] else map[];
      dirs := dirs[id := files];
      WriteCodeFiles(id, codeFiles);
      files := dirs[id][InitFile := WorkflowInitText(name)];
      dirs := dirs[id := files];
      files := files[MetadataFile := metadataText];
      dirs := dirs[id := files];
    }

    /** Writes each code file into the existing directory `<id>/`, overwriting files of the same name. */
    method WriteCodeFiles(id: string, codeFiles: Files)
      requires id in dirs
      modifies this`dirs
      ensures dirs == old(dirs)[id := old(dirs)[id] + codeFiles]
    {
      ghost var base := dirs[id];
      var files := dirs[id];
      var remaining := codeFiles.Keys;
      while remaining != {}
        invariant remaining <= codeFiles.Keys
        invariant dirs == old(dirs)[id := files]
        invariant files.Keys == base.Keys + (codeFiles.Keys - remaining)
        invariant forall f :: f in files ==>
          files[f] == if f in codeFiles && f !in remaining then codeFiles[f] else base[f]
        decreases remaining
      {
        var f :| f in remaining;
        files := files[f := codeFiles[f]];
        dirs := dirs[id := files];
        remaining := remaining - {f};
      }
      assert files == base + codeFiles;
    }

    /**
     * Runs the workflow's entry function on `inputs`, loading the workflow
     * first when it is not in the dictionary. Not finding it and the entry
     * function raising are both reported as `ValueError`.
     */
    method Execute(id: string, inputs: map<string, Value>, now: string) returns (r: Result<Value, Exception>)
      requires Valid()
      modifies this`workflows, this`order
      ensures Valid()
      ensures id in old(workflows) ==> workflows == old(workflows) && order == old(order)
      ensures id !in old(workflows) && id in dirs && Loadable(runtime, dirs[id]) ==>
        workflows == old(workflows)[id := Entry(dirs[id], now)] && order == old(order) + [id]
      ensures id !in old(workflows) && !(id in dirs && Loadable(runtime, dirs[id])) ==>
        workflows == old(workflows) && order == old(order) && r == Failure(ValueError(NotFoundMessage(id)))
      ensures id in workflows ==> r == ExecutionResult(runtime.run(workflows[id].code, inputs))
      ensures r.Failure? ==> r.error.ValueError?
    {
      if id !in workflows {
        var loaded := Load(id, now);
        if !loaded {
          return Failure(ValueError(NotFoundMessage(id)));
        }
      }
      var outcome := runtime.run(workflows[id].code, inputs);
      match outcome {
        case Returned(v) =>
          r := Success(v);
        case RunRaised(msg) =>
          r := Failure(ValueError(ExecutionErrorMessage(msg)));
      }
    }

    /** The metadata of the workflows in the dictionary, in its order, read from disk. */
    method GetAll() returns (list: seq<Value>)
      ensures list == Listing(runtime, dirs, order)
    {
      list := [];
      var i := 0;
      while i < |order|
        invariant 0 <= i <= |order|
        invariant list == Listing(runtime, dirs, order[..i])
      {
        var id := order[i];
        if id in dirs && MetadataFile in dirs[id] {
          var parsed := runtime.parse(dirs[id][MetadataFile]);
          if parsed.Some? {
            list := list + [parsed.value];
          }
        }
        assert order[..i + 1][..i] == order[..i];
        i := i + 1;
      }
      assert order[..|order|] == order;
    }

    /** Reads `<id>/metadata.json` whether or not the workflow is loaded. */
    method GetMetadata(id: string) returns (r: Option<Value>)
      ensures r == ReadMetadata(runtime, dirs, id)
      ensures r.Some? ==> id in dirs
    {
      if id in dirs && MetadataFile in dirs[id] {
        r := runtime.parse(dirs[id][MetadataFile]);
      } else {
        r := None;
      }
    }

    /**
     * Removes the workflow from the dictionary and its directory from disk;
     * false when there is no such directory.
     */
    method Delete(id: string) returns (ok: bool)
      requires Valid()
      modifies this`dirs, this`workflows, this`order
      ensures Valid()
      ensures ok <==> id in old(dirs)
      ensures ok ==> dirs == old(dirs) - {id} && workflows == old(workflows) - {id} && order == Without(old(order), id)
      ensures !ok ==> dirs == old(dirs) && workflows == old(workflows) && order == old(order)
    {
      if id !in dirs && id !in rootFiles {
        return false;
      }
      if id in workflows {
        workflows := workflows - {id};
        order := Without(order, id);
      }
      if id in rootFiles {
        // shutil.rmtree raises on a plain file
        return false;
      }
      dirs := dirs - {id};
      ok := true;
    }
  }

  /** The listing is never longer than the dictionary it walks. */
  lemma {:induction false} ListingLength(rt: Runtime, dirs: map<string, Files>, ids: seq<string>)
    ensures |Listing(rt, dirs, ids)| <= |ids|
  {
    if ids != [] {
      ListingLength(rt, dirs, ids[..|ids| - 1]);
    }
  }

  /** Listing a registry's dictionary yields at most one metadata document per loaded workflow. */
  lemma ListingAtMostDictionarySize(rt: Runtime, dirs: map<string, Files>, order: seq<string>, workflows: map<string, Entry>)
    requires NoDuplicates(order)
    requires forall id :: id in order <==> id in workflows
    ensures |Listing(rt, dirs, order)| <= |workflows|
  {
    ListingLength(rt, dirs, order);
    OrderLengthIsDictionarySize(order, workflows);
  }

  /** A value is listed exactly when some id walked has it as readable metadata. */
  lemma {:induction false} ListingMembers(rt: Runtime, dirs: map<string, Files>, ids: seq<string>, v: Value)
    ensures v in Listing(rt, dirs, ids) <==> exists id :: id in ids && ReadMetadata(rt, dirs, id) == Some(v)
  {
    if ids != [] {
      var front, last := ids[..|ids| - 1], ids[|ids| - 1];
      assert ids == front + [last];
      ListingMembers(rt, dirs, front, v);
      if v in Listing(rt, dirs, ids) && v !in Listing(rt, dirs, front) {
        assert ReadMetadata(rt, dirs, last) == Some(v);
      }
      if id :| id in ids && ReadMetadata(rt, dirs, id) == Some(v) {
        if id != last {
          assert id in front;
        }
      }
    }
  }

  /** The listing follows the order of the ids: listing a concatenation concatenates the listings. */
  lemma {:induction false} ListingAppend(rt: Runtime, dirs: map<string, Files>, a: seq<string>, b: seq<string>)
    ensures Listing(rt, dirs, a + b) == Listing(rt, dirs, a) + Listing(rt, dirs, b)
  {
    if b == [] {
      assert a + b == a;
    } else {
      var front := b[..|b| - 1];
      assert (a + b)[..|a + b| - 1] == a + front;
      ListingAppend(rt, dirs, a, front);
    }
  }

  /** A workflow whose metadata is readable and that is in the dictionary is listed. */
  lemma LoadedWorkflowIsListed(rt: Runtime, dirs: map<string, Files>, order: seq<string>, id: string)
    requires id in order && ReadMetadata(rt, dirs, id).Some?
    ensures ReadMetadata(rt, dirs, id).value in Listing(rt, dirs, order)
  {
    ListingMembers(rt, dirs, order, ReadMetadata(rt, dirs, id).value);
  }

  /** After registration `<id>/metadata.json` reads back as the document written, carrying the id and name. */
  lemma RegisteredMetadataReadsBack(rt: Runtime, dirs: map<string, Files>, id: string, name: string,
                                    existing: Files, codeFiles: Files, createdAt: string)
    requires RoundTrips(rt, MetadataDoc(id, name, createdAt))
    ensures ReadMetadata(rt, dirs[id := WrittenFiles(existing, codeFiles, name, rt.dump(MetadataDoc(id, name, createdAt)))], id)
      == Some(MetadataDoc(id, name, createdAt))
  {
  }

  /** A deleted workflow has no metadata to read, and every other workflow's is as before. */
  lemma DeletedHasNoMetadata(rt: Runtime, dirs: map<string, Files>, id: string, other: string)
    requires other != id
    ensures ReadMetadata(rt, dirs - {id}, id) == None
    ensures ReadMetadata(rt, dirs - {id}, other) == ReadMetadata(rt, dirs, other)
  {
  }

  /**
   * Re-registering a loaded workflow with code that fails to load keeps the
   * earlier version: the next execution runs the code loaded before.
   */
  method ReregisterThenExecute(reg: WorkflowRegistry, id: string, name: string, codeFiles: Files,
                               inputs: map<string, Value>, now: string)
    returns (ok: bool, r: Result<Value, Exception>)
    requires reg.Valid() && id in reg.workflows
    modifies reg`dirs, reg`workflows, reg`order
    ensures reg.Valid()
    ensures !ok ==> r == ExecutionResult(reg.runtime.run(old(reg.workflows[id].code), inputs))
    ensures id in reg.dirs && (ok ==> r == ExecutionResult(reg.runtime.run(reg.dirs[id], inputs)))
  {
    ok := reg.Register(id, name, codeFiles, now);
    r := reg.Execute(id, inputs, now);
  }

  /** A workflow that registers successfully is listed and fetchable at once. */
  method RegisterThenList(reg: WorkflowRegistry, id: string, name: string, codeFiles: Files, now: string)
    returns (ok: bool, list: seq<Value>, metadata: Option<Value>)
    requires reg.Valid() && RoundTrips(reg.runtime, MetadataDoc(id, name, now))
    modifies reg`dirs, reg`workflows, reg`order
    ensures reg.Valid()
    ensures ok ==> MetadataDoc(id, name, now) in list && metadata == Some(MetadataDoc(id, name, now))
  {
    ok := reg.Register(id, name, codeFiles, now);
    list := reg.GetAll();
    metadata := reg.GetMetadata(id);
    if ok {
      RegisteredMetadataReadsBack(reg.runtime, old(reg.dirs), id, name,
        if id in old(reg.dirs) then old(reg.dirs)[id] else map[], codeFiles, now);
      LoadedWorkflowIsListed(reg.runtime, reg.dirs, reg.order, id);
    }
  }
}
