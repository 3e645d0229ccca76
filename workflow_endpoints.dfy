/**
 * The `/workflows` HTTP handlers: the status each registry outcome becomes,
 * the choice of id on registration, and the shape a plugin's result is given
 * before it is returned to the client.
 */
module WorkflowEndpoints {
  import opened Values
  import opened WorkflowService

  const WorkflowIdKey := "workflow_id"
  const NodeResultsKey := "node_results"
  const StatusKey := "status"
  const ResultKey := "result"
  const CompletedStatus := "completed"
  const RegisterFailedMessage := "Failed to register workflow"

  function DeleteFailedMessage(id: string): string
  {
    "Workflow not found or could not be deleted: " + id
  }

  /** A response body: JSON, FastAPI's `{"detail": ...}` error body, or none. */
  datatype Body = Json(value: Value) | Detail(message: string) | NoBody

  datatype Response = Response(status: int, body: Body)

  /** The envelope a result that is not a dict is wrapped in. */
  function Envelope(id: string, result: Value): map<string, Value>
  {
    map[WorkflowIdKey := Str(id), StatusKey := Str(CompletedStatus), NodeResultsKey := List([]), ResultKey := result]
  }

  /**
   * What the client receives for a plugin result: a dict keeps all its keys,
   * gets the request's workflow id and gains an empty `node_results` only when
   * it has none; anything else is wrapped in the envelope.
   */
  function Normalised(id: string, result: Value): (out: map<string, Value>)
    ensures WorkflowIdKey in out && out[WorkflowIdKey] == Str(id)
    ensures NodeResultsKey in out
    ensures result.Dict? ==> out.Keys == result.fields.Keys + {WorkflowIdKey, NodeResultsKey}
    ensures result.Dict? ==> forall k :: k in result.fields && k != WorkflowIdKey ==> out[k] == result.fields[k]
    ensures result.Dict? && NodeResultsKey !in result.fields ==> out[NodeResultsKey] == List([])
    ensures !result.Dict? ==> out == Envelope(id, result)
  {
    match result
    case Dict(fields) =>
      map k | k in fields.Keys + {WorkflowIdKey, NodeResultsKey} ::
        if k == WorkflowIdKey then Str(id) else if k in fields then fields[k] else List([])
    case _ => Envelope(id, result)
  }

  /**
   * The normalisation `execute_workflow` performs: a dict result is updated
   * key by key, any other result is wrapped.
   */
  method Normalise(id: string, result: Value) returns (out: map<string, Value>)
    ensures out == Normalised(id, result)
  {
    if result.Dict? {
      out := result.fields;
      out := out[WorkflowIdKey := Str(id)];
      if NodeResultsKey !in out {
        out := out[NodeResultsKey := List([])];
      }
    } else {
      out := Envelope(id, result);
    }
  }

  /** A dict that already has `node_results` and the request's id is returned unchanged. */
  lemma NormalisedKeepsCompleteDict(id: string, fields: map<string, Value>)
    requires NodeResultsKey in fields
    requires WorkflowIdKey in fields && fields[WorkflowIdKey] == Str(id)
    ensures Normalised(id, Dict(fields)) == fields
  {
    var out := Normalised(id, Dict(fields));
    assert out.Keys == fields.Keys;
    forall k | k in fields
      ensures out[k] == fields[k]
    {
    }
  }

  /** Normalising an already normalised result changes nothing. */
  lemma NormaliseIdempotent(id: string, result: Value)
    ensures Normalised(id, Dict(Normalised(id, result))) == Normalised(id, result)
  {
    NormalisedKeepsCompleteDict(id, Normalised(id, result));
  }

  /**
   * How `execute_workflow` turns an exception into an HTTP error: every
   * `ValueError` is a 404 carrying its message, anything else a 500.
   */
  function ErrorResponse(e: Exception): (r: Response)
    ensures r.status == 404 <==> e.ValueError?
    ensures r.status == 500 <==> e.OtherError?
    ensures e.ValueError? ==> r.body == Detail(e.msg)
    ensures e.OtherError? ==> r.body == Detail(ExecutionErrorMessage(e.msg))
  {
    match e
    case ValueError(msg) => Response(404, Detail(msg))
    case OtherError(msg) => Response(500, Detail(ExecutionErrorMessage(msg)))
  }

  /** A plugin that raises is reported to the client as 404, like an unknown id. */
  lemma PluginFailureIsNotFoundStatus(cause: string, id: string)
    ensures ErrorResponse(ExecutionResult(RunRaised(cause)).error) == Response(404, Detail(ExecutionErrorMessage(cause)))
    ensures ErrorResponse(ValueError(NotFoundMessage(id))).status == ErrorResponse(ExecutionResult(RunRaised(cause)).error).status
  {
  }

  /** POST /workflows/execute */
  method ExecuteHandler(reg: WorkflowRegistry, id: string, inputs: map<string, Value>, now: string)
    returns (resp: Response, ghost outcome: Result<Value, Exception>)
    requires reg.Valid()
    modifies reg`workflows, reg`order
    ensures reg.Valid()
    ensures outcome.Success? ==> resp == Response(200, Json(Dict(Normalised(id, outcome.value))))
    ensures outcome.Failure? ==> resp == Response(404, Detail(outcome.error.msg))
    ensures id !in old(reg.workflows) && !(id in reg.dirs && Loadable(reg.runtime, reg.dirs[id])) ==>
      resp == Response(404, Detail(NotFoundMessage(id)))
    ensures id in old(reg.workflows) ==> reg.workflows == old(reg.workflows) && reg.order == old(reg.order)
    ensures id !in old(reg.workflows) && id in reg.dirs && Loadable(reg.runtime, reg.dirs[id]) ==>
      reg.workflows == old(reg.workflows)[id := Entry(reg.dirs[id], now)] && reg.order == old(reg.order) + [id]
    ensures id !in old(reg.workflows) && !(id in reg.dirs && Loadable(reg.runtime, reg.dirs[id])) ==>
      reg.workflows == old(reg.workflows) && reg.order == old(reg.order)
    ensures id in reg.workflows ==> outcome == ExecutionResult(reg.runtime.run(reg.workflows[id].code, inputs))
  {
    var r := reg.Execute(id, inputs, now);
    outcome := r;
    match r {
      case Success(v) =>
        var body := Normalise(id, v);
        resp := Response(200, Json(Dict(body)));
      case Failure(e) =>
        resp := ErrorResponse(e);
    }
  }

  /** The id a registration uses: the one given, or else the freshly generated one. */
  function ChosenId(requested: Option<string>, generated: string): (id: string)
    ensures requested.Some? ==> id == requested.value
    ensures requested.None? ==> id == generated
  {
    requested.GetOr(generated)
  }

  /** A failed registration is a 500; a successful one returns the stored metadata. */
  function RegisterResponse(ok: bool, metadata: Option<Value>): (r: Response)
    ensures r.status == 500 <==> !ok
    ensures !ok ==> r.body == Detail(RegisterFailedMessage)
    ensures ok ==> r.status == 201 && r.body == Json(metadata.GetOr(Null))
  {
    if ok then Response(201, Json(metadata.GetOr(Null))) else Response(500, Detail(RegisterFailedMessage))
  }

  /** A successful registration answers with the metadata document it wrote, carrying its id and name. */
  lemma RegisterAnswersWrittenMetadata(rt: Runtime, dirs: map<string, Files>, id: string, name: string,
                                       existing: Files, codeFiles: Files, createdAt: string)
    requires RoundTrips(rt, MetadataDoc(id, name, createdAt))
    ensures RegisterResponse(true, ReadMetadata(rt, dirs[id := WrittenFiles(existing, codeFiles, name, rt.dump(MetadataDoc(id, name, createdAt)))], id))
      == Response(201, Json(MetadataDoc(id, name, createdAt)))
  {
    RegisteredMetadataReadsBack(rt, dirs, id, name, existing, codeFiles, createdAt);
  }

  /** POST /workflows */
  method RegisterHandler(reg: WorkflowRegistry, name: string, codeFiles: Files,
                         requested: Option<string>, generated: string, now: string)
    returns (resp: Response)
    requires reg.Valid()
    modifies reg`dirs, reg`workflows, reg`order
    ensures reg.Valid()
    ensures ChosenId(requested, generated) !in reg.rootFiles ==> ChosenId(requested, generated) in reg.dirs
    ensures var id := ChosenId(requested, generated);
      resp == RegisterResponse(id !in reg.rootFiles && Loadable(reg.runtime, reg.dirs[id]), ReadMetadata(reg.runtime, reg.dirs, id))
    ensures var id := ChosenId(requested, generated);
      id in reg.rootFiles ==> reg.dirs == old(reg.dirs)
    ensures var id := ChosenId(requested, generated);
      id !in reg.rootFiles ==>
        reg.dirs == old(reg.dirs)[id := WrittenFiles(if id in old(reg.dirs) then old(reg.dirs)[id] else map[],
                                                     codeFiles, name, reg.runtime.dump(MetadataDoc(id, name, now)))]
    ensures var id := ChosenId(requested, generated);
      resp.status == 201 ==>
        reg.workflows == old(reg.workflows)[id := Entry(reg.dirs[id], now)] &&
        reg.order == (if id in old(reg.workflows) then old(reg.order) else old(reg.order) + [id])
    ensures resp.status == 500 ==> reg.workflows == old(reg.workflows) && reg.order == old(reg.order)
  {
    var id := ChosenId(requested, generated);
    var ok := reg.Register(id, name, codeFiles, now);
    if !ok {
      return Response(500, Detail(RegisterFailedMessage));
    }
    var metadata := reg.GetMetadata(id);
    resp := Response(201, Json(metadata.GetOr(Null)));
  }

  /** The answer to GET /workflows/{id}: 404 exactly when there is no metadata. */
  function GetWorkflowResponse(id: string, metadata: Option<Value>): (r: Response)
    ensures r.status == 404 <==> metadata.None?
    ensures metadata.Some? ==> r == Response(200, Json(metadata.value))
    ensures metadata.None? ==> r.body == Detail(NotFoundMessage(id))
  {
    match metadata
    case None => Response(404, Detail(NotFoundMessage(id)))
    case Some(m) => Response(200, Json(m))
  }

  /** GET /workflows/{id} */
  method GetWorkflowHandler(reg: WorkflowRegistry, id: string) returns (resp: Response)
    ensures resp == GetWorkflowResponse(id, ReadMetadata(reg.runtime, reg.dirs, id))
  {
    var metadata := reg.GetMetadata(id);
    resp := GetWorkflowResponse(id, metadata);
  }

  /** GET /workflows */
  method ListHandler(reg: WorkflowRegistry) returns (resp: Response)
    ensures resp == Response(200, Json(List(Listing(reg.runtime, reg.dirs, reg.order))))
  {
    var list := reg.GetAll();
    resp := Response(200, Json(List(list)));
  }

  /** The answer to DELETE /workflows/{id}: 404 exactly when the registry reports failure. */
  function DeleteResponse(id: string, ok: bool): (r: Response)
    ensures r.status == 404 <==> !ok
    ensures ok ==> r == Response(204, NoBody)
    ensures !ok ==> r.body == Detail(DeleteFailedMessage(id))
  {
    if ok then Response(204, NoBody) else Response(404, Detail(DeleteFailedMessage(id)))
  }

  /** DELETE /workflows/{id} */
  method DeleteHandler(reg: WorkflowRegistry, id: string) returns (resp: Response)
    requires reg.Valid()
    modifies reg`dirs, reg`workflows, reg`order
    ensures reg.Valid()
    ensures resp == DeleteResponse(id, id in old(reg.dirs))
    ensures resp.status == 204 ==>
      reg.dirs == old(reg.dirs) - {id} && reg.workflows == old(reg.workflows) - {id} && reg.order == Without(old(reg.order), id)
    ensures resp.status == 404 ==>
      reg.dirs == old(reg.dirs) && reg.workflows == old(reg.workflows) && reg.order == old(reg.order)
    ensures resp.status == 204 ==> ReadMetadata(reg.runtime, reg.dirs, id) == None && id !in reg.workflows
  {
    var ok := reg.Delete(id);
    resp := DeleteResponse(id, ok);
  }
}
