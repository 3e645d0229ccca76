# Workflow registry model

A Dafny model of the workflow registry of a small FastAPI service, and of the
HTTP handlers in front of it. Clients register a workflow by uploading source
files, list and fetch workflow metadata, execute a workflow by id, and delete
it. The registry keeps one directory per workflow id under a workflows
directory. Each directory holds `main.py`, other code files, a package marker
`__init__.py` and `metadata.json`. The registry also keeps an in-memory
dictionary of the workflows whose `main.py` imported and defined `run_graph`.

Files:

- `values.dfy` (module `Values`): `Option`, `Result`, and `Value`, a Python
  value as seen at the plugin and JSON boundaries.
- `workflow_service.dfy` (module `WorkflowService`): the class
  `WorkflowRegistry` and the functions and lemmas that specify it.
- `workflow_endpoints.dfy` (module `WorkflowEndpoints`): the handlers for
  `/workflows`, the result normalisation, and the exception-to-status mapping.

The registry's state is four fields:

- `rootFiles`: plain files directly under the workflows directory.
- `dirs`: its sub-directories, each a map from file name to content.
- `workflows`: the in-memory dictionary, id to `Entry`.
- `order`: that dictionary's keys in Python's insertion order.

`Valid()` says four things:

- no name is both a file and a directory;
- `order` lists exactly the dictionary's keys, once each;
- every loaded id still has its directory;
- every entry was loaded from code that imports and defines `run_graph`.

Every operation preserves `Valid()`.

An `Entry` keeps a snapshot of the directory contents its module was executed
from. So a reload that fails leaves the earlier version running
(`ReregisterThenExecute`).

The code does things the runtime provides and the model cannot see. These are
the fields of a `Runtime` value fixed when the registry is built:

- `importer`: what executing `main.py` does;
- `run`: what `run_graph(inputs)` returns or raises;
- `parse` and `dump`: JSON reading and writing.

`os.path.exists(<root>/<id>)` holds for a plain file as well as for a
directory. The model follows that:

- registering an id that names a plain file fails, because `os.makedirs` raises;
- loading it fails, because there is no `main.py` to execute;
- deleting it fails, because `shutil.rmtree` raises.

Timestamps (`datetime.now()`) and generated ids (`uuid.uuid4()`) are
parameters.

Two points where the code's own text suggests one thing and its control flow
does another; the model follows the control flow:

- The 500 branch of `execute_workflow` in the handler
  (app/api/endpoints/workflows.py:119-123) phrases its detail as
  `Error executing workflow: <cause>`, which suggests a failing plugin was meant
  to be a 500. But the registry's `execute_workflow` catches the plugin's
  exception and raises `ValueError` with that same prefix
  (app/services/workflow_service.py:166-168), and the handler's `ValueError`
  branch (app/api/endpoints/workflows.py:114-118) comes first and answers 404.
  So a failing plugin is answered with 404, the same status as an unknown id.
  `ExecuteHandler` and `PluginFailureIsNotFoundStatus` state this. The 500
  branch of `ErrorResponse` is unreachable from the registry.
- `register_workflow` returns a boolean (app/services/workflow_service.py:101,
  138), not the metadata. Only the HTTP handler reads the metadata back from
  disk after a success (app/api/endpoints/workflows.py:170), so the 201 body is
  whatever `metadata.json` then parses to.

## Model

| member | source | states |
|---|---|---|
| `WorkflowService.WorkflowRegistry.constructor` | app/services/workflow_service.py:19-29 | Starts from the disk as found and adds the root package marker unless that name exists. Afterwards exactly the directories not starting with `__` whose code imports and defines `run_graph` are loaded, each from its own files. |
| `WorkflowService.WorkflowRegistry.EnsureWorkflowsDir` | app/services/workflow_service.py:31-37 | The root `__init__.py` exists afterwards. It is written with the generated-file text only when nothing of that name existed. |
| `WorkflowService.WorkflowRegistry.LoadAll` | app/services/workflow_service.py:39-49 | An id is in the dictionary afterwards iff it was before, or it is a non-`__` directory whose code is loadable. Scanned loadable ids get fresh entries and every other entry is unchanged. |
| `WorkflowService.WorkflowRegistry.Load` | app/services/workflow_service.py:51-96 | Returns true iff the directory exists and its `main.py` executes and defines `run_graph`. On success only `id`'s entry is set, replacing any earlier one, and a new id goes to the end of the order. On every failure the dictionary and order are unchanged. |
| `WorkflowService.WorkflowRegistry.Register` | app/services/workflow_service.py:98-142 | For an id that names a plain file: false, nothing changed. Otherwise the directory becomes `WrittenFiles(...)` with the metadata document. The result is exactly what loading the new directory gives. Written files stay when the load fails. |
| `WorkflowService.WorkflowRegistry.WriteWorkflowDir` | app/services/workflow_service.py:114-135 | Only `dirs[id]` changes. It becomes the existing files (or none) overwritten by the code files, then the marker and the metadata text. |
| `WorkflowService.WorkflowRegistry.WriteCodeFiles` | app/services/workflow_service.py:118-121 | The directory becomes its old files overwritten by every code file, whatever order they are written in. No other directory changes. |
| `WorkflowService.WorkflowRegistry.Execute` | app/services/workflow_service.py:144-168 | An id not in the dictionary is loaded first. If that fails the result is `ValueError("Workflow not found: <id>")` and nothing changes. Otherwise the result is the entry's `run_graph` result unchanged, or `ValueError("Error executing workflow: <cause>")`. Every failure is a `ValueError`. |
| `WorkflowService.WorkflowRegistry.GetAll` | app/services/workflow_service.py:170-191 | Returns `Listing` of the dictionary's keys in insertion order. |
| `WorkflowService.WorkflowRegistry.GetMetadata` | app/services/workflow_service.py:193-213 | Returns the parsed `<id>/metadata.json`, or None when it is absent or unparsable. This depends on the disk only, not on the dictionary. |
| `WorkflowService.WorkflowRegistry.Delete` | app/services/workflow_service.py:215-245 | Returns true iff the directory existed. Then exactly that directory and that dictionary entry are removed, and the other keys keep their order. On false nothing changes. |
| `WorkflowService.MetadataDoc` | app/services/workflow_service.py:128-132 | The metadata document has exactly the keys `workflow_id`, `name`, `created_at`, and carries the given id and name. |
| `WorkflowService.WrittenFiles` | app/services/workflow_service.py:115-135 | A registered directory holds the old files plus the code files plus `__init__.py` and `metadata.json`. Code files overwrite old ones. The marker and metadata written last win over code files of the same name. |
| `WorkflowService.Without` | app/services/workflow_service.py:233-234 | Deleting a key keeps exactly the other keys. It keeps them free of duplicates and never lengthens the order. |
| `WorkflowService.WithoutKeepsOrder` | app/services/workflow_service.py:233-234 | Deleting a key from a duplicate-free order at position `i` leaves exactly the keys before it followed by the keys after it, in their old order. |
| `WorkflowService.ListingLength` | app/services/workflow_service.py:177-191 | The listing is never longer than the key order it walks. |
| `WorkflowService.OrderLengthIsDictionarySize` | app/services/workflow_service.py:177-179 | A duplicate-free key order listing exactly a dictionary's keys is as long as the dictionary. |
| `WorkflowService.ListingAtMostDictionarySize` | app/services/workflow_service.py:177-191 | Under `Valid()`'s key correspondence the listing has at most as many items as the in-memory dictionary has workflows. |
| `WorkflowService.ListingMembers` | app/services/workflow_service.py:179-187 | A value is listed iff some id in the dictionary has it as readable metadata. |
| `WorkflowService.ListingAppend` | app/services/workflow_service.py:179-187 | The listing follows iteration order: listing `a + b` is listing `a` followed by listing `b`. |
| `WorkflowService.LoadedWorkflowIsListed` | app/services/workflow_service.py:179-187 | A loaded workflow whose metadata reads is listed. |
| `WorkflowService.RegisteredMetadataReadsBack` | app/services/workflow_service.py:127-135 | When JSON round-trips, the metadata read after registration is the document written. |
| `WorkflowService.DeletedHasNoMetadata` | app/services/workflow_service.py:203-213 | After the directory is removed its metadata reads as None, and every other id's metadata is as before. |
| `WorkflowService.ReregisterThenExecute` | app/services/workflow_service.py:138-165 | Re-registering a loaded workflow with code that fails to load keeps the earlier code running. A successful re-registration runs the new files. |
| `WorkflowService.RegisterThenList` | app/services/workflow_service.py:98-191 | A successful registration's metadata is at once in the listing and returned by the metadata read. |
| `WorkflowEndpoints.Normalised` | app/api/endpoints/workflows.py:96-112 | A dict result keeps every key except `workflow_id`, which becomes the request id, and gains `node_results: []` only when missing. Any other result becomes exactly `{workflow_id, status: "completed", node_results: [], result}`. |
| `WorkflowEndpoints.Normalise` | app/api/endpoints/workflows.py:96-112 | The key-by-key update of the dict, or the wrapping of any other value, yields `Normalised`. |
| `WorkflowEndpoints.NormalisedKeepsCompleteDict` | app/api/endpoints/workflows.py:98-104 | A dict that already has `node_results` and the request's `workflow_id` comes back unchanged. |
| `WorkflowEndpoints.NormaliseIdempotent` | app/api/endpoints/workflows.py:96-104 | Normalising a normalised result changes nothing. |
| `WorkflowEndpoints.ErrorResponse` | app/api/endpoints/workflows.py:114-123 | The status is 404 iff the exception is a `ValueError`, with its message as detail. It is 500 iff it is any other exception. |
| `WorkflowEndpoints.PluginFailureIsNotFoundStatus` | app/api/endpoints/workflows.py:114-118 | A plugin that raises gets the same 404 status as an unknown id, with `Error executing workflow: <cause>`. |
| `WorkflowEndpoints.ExecuteHandler` | app/api/endpoints/workflows.py:76-123 | A success is 200 with the normalised result. Every registry failure is 404 with the registry's message, an unknown id included. The outcome is the loaded entry's run result. A loaded id leaves the dictionary and order unchanged; an unloaded id whose directory loads gets a fresh entry at the end of the order; otherwise nothing changes. |
| `WorkflowEndpoints.ChosenId` | app/api/endpoints/workflows.py:152-154 | The given id is used; only a missing one is replaced by the generated id. |
| `WorkflowEndpoints.RegisterResponse` | app/api/endpoints/workflows.py:163-172 | The status is 500 iff registration failed. Success is 201 with the metadata read back. |
| `WorkflowEndpoints.RegisterAnswersWrittenMetadata` | app/api/endpoints/workflows.py:169-172 | When JSON round-trips, a successful registration answers with the metadata document written, carrying its id and name. |
| `WorkflowEndpoints.RegisterHandler` | app/api/endpoints/workflows.py:133-172 | Registers under the chosen id. Answers 500 exactly when the registry fails, else 201 with that id's metadata as on disk. An id naming a plain file leaves the directories unchanged; otherwise only that directory becomes `WrittenFiles(...)`. A 201 sets exactly that id's entry (a new id goes last in the order); a 500 leaves the dictionary and order unchanged. |
| `WorkflowEndpoints.GetWorkflowResponse` | app/api/endpoints/workflows.py:58-66 | The status is 404 iff the registry returns None. Otherwise 200 with the metadata unchanged. |
| `WorkflowEndpoints.GetWorkflowHandler` | app/api/endpoints/workflows.py:45-66 | Answers from the metadata on disk, whether the workflow is loaded or not. |
| `WorkflowEndpoints.ListHandler` | app/api/endpoints/workflows.py:28-35 | Answers 200 with the registry's listing. |
| `WorkflowEndpoints.DeleteResponse` | app/api/endpoints/workflows.py:194-202 | The status is 404 iff the registry returns false. Otherwise 204 with no body. |
| `WorkflowEndpoints.DeleteHandler` | app/api/endpoints/workflows.py:181-202 | Answers 204 iff the directory existed. A 204 removes exactly that directory and entry, and the other keys keep their order; after it the metadata reads as None. A 404 changes nothing. |

## Left out

- File-system failures other than the two modelled ones (an id naming a plain file at `os.makedirs` and at `shutil.rmtree`) are not modelled. Examples: permissions, a full disk, a code file name that is a sub-directory or contains a path separator. The `except` branches of `register_workflow` and `delete_workflow` for these are not modelled.
- Path semantics are not modelled. Ids and file names are opaque names, and ids such as `""`, `.`, `..` or names with `/` are treated like any other.
- Sub-directories inside a workflow directory are not modelled, including the bytecode cache the import may write.
- Importing and running plugin code is not modelled. The `importer` and `run` oracles make a plugin a deterministic function of its directory contents and inputs. Side effects of plugin code, module-level state kept between runs, and hangs are outside the model.
- JSON is not modelled. It is the `parse` and `dump` oracles, and round-tripping is assumed only by the lemmas whose `requires` say so.
- Timestamps are one opaque `now` string per call. `created_at` and `loaded_at` share it.
- Generated ids are a parameter. Their uniqueness is not claimed.
- Logging is left out.
- Aliasing is not modelled. `Normalise` works on the dict's value, while the source mutates the dict object the plugin returned, which the plugin may still hold.
- Key order inside result and metadata dicts is not modelled, because `map` is unordered. The order of the listing is modelled.
- WorkflowService.WorkflowRegistry.LoadAll: the order in which directories are visited follows `os.listdir`, which is unspecified, so newly loaded ids are not placed in a stated order (`Valid()` still holds).
- FastAPI's validation and filtering of responses against the declared response schemas is not modelled. Response bodies are what the handlers return. A `None` metadata after a successful registration is shown as `null`. This hides two effects, read from the schemas and not run: `WorkflowDefinition` requires `input_schema` (app/schemas/workflow.py:56), which the `metadata.json` written by `register_workflow` never has, so the metadata answers of GET /workflows/{id}, a successful POST /workflows and a non-empty GET /workflows would fail response validation; and `WorkflowOutput` (app/schemas/workflow.py:13-18) has no `result` field, so the envelope's `result` key would be filtered out of the execute answer.
- A plugin result that is a dict with non-string keys (such as `{1: "a"}`) passes `isinstance(result, dict)` (app/api/endpoints/workflows.py:96) and is updated in place by the source, but `Value.Dict` has string keys only, so such a result can only be modelled as `Object` and takes the envelope branch instead.
- Exceptions that are not `Exception` subclasses (such as `KeyboardInterrupt`) are not modelled. Neither handler catches them.
- A workflows root that exists as a plain file is not modelled. Nor is the outer `try` of `load_all_workflows`, since listing the root cannot fail in the model.
- Concurrency, `async` handlers and the absence of locking are left out.
- Routing, request schemas, CORS, settings, router auto-discovery and the health endpoint are framework glue and are not part of this model.
