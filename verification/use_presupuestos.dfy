/** The `usePresupuestos` hook: a budget list with a loading flag and the
    last error message. Every write refetches the list on success and
    records the error on failure; nothing ever clears the error. */
module UsePresupuestos {
  import opened Common
  import opened Types

  class PresupuestosHook {
    var presupuestos: seq<Registro>
    var loading: bool
    var error: Option<string>

    /** The state before the mount-time fetch: no budgets, not loading, no error. */
    constructor ()
      ensures presupuestos == [] && !loading && error == None
    {
      presupuestos, loading, error := [], false, None;
    }

    /** `fetchPresupuestos`: loading while the GET runs; the response
        replaces the list, a failure records its message and leaves the list;
        loading ends false either way. */
    method FetchPresupuestos(response: Remote<seq<Registro>>)
      modifies this
      ensures response.Success? ==> presupuestos == response.payload && error == old(error)
      ensures response.Failure? ==> presupuestos == old(presupuestos) && error == Some(response.msg)
      ensures !loading
    {
      loading := true;
      match response {
        case Success(data) => presupuestos := data;
        case Failure(msg) => error := Some(msg);
      }
      loading := false;
    }

    /** The shared shape of create, update and delete: after the write
        succeeds the list is refetched (`refetch` is that GET's outcome);
        after it fails the error is set and nothing else changes. */
    method AfterWrite(write: Remote<()>, refetch: Remote<seq<Registro>>)
      modifies this
      ensures write.Success? && refetch.Success? ==>
                presupuestos == refetch.payload && error == old(error) && !loading
      ensures write.Success? && refetch.Failure? ==>
                presupuestos == old(presupuestos) && error == Some(refetch.msg) && !loading
      ensures write.Failure? ==>
                presupuestos == old(presupuestos) && error == Some(write.msg) && loading == old(loading)
      ensures old(error).Some? ==> error.Some?
    {
      if write.Success? {
        FetchPresupuestos(refetch);
      } else {
        error := Some(write.msg);
      }
    }

    /** `createPresupuesto`: POST the new budget as given. */
    method CreatePresupuesto(nuevo: Registro, post: Remote<()>, refetch: Remote<seq<Registro>>)
      returns (sent: Registro)
      modifies this
      ensures sent == nuevo
      ensures post.Success? && refetch.Success? ==>
                presupuestos == refetch.payload && error == old(error) && !loading
      ensures post.Success? && refetch.Failure? ==>
                presupuestos == old(presupuestos) && error == Some(refetch.msg) && !loading
      ensures post.Failure? ==>
                presupuestos == old(presupuestos) && error == Some(post.msg) && loading == old(loading)
      ensures old(error).Some? ==> error.Some?
    {
      sent := nuevo;
      AfterWrite(post, refetch);
    }

    /** `updatePresupuesto`: PUT the given budget under the given id. */
    method UpdatePresupuesto(id: int, actualizado: Registro, put: Remote<()>, refetch: Remote<seq<Registro>>)
      returns (sentId: int, sent: Registro)
      modifies this
      ensures sentId == id && sent == actualizado
      ensures put.Success? && refetch.Success? ==>
                presupuestos == refetch.payload && error == old(error) && !loading
      ensures put.Success? && refetch.Failure? ==>
                presupuestos == old(presupuestos) && error == Some(refetch.msg) && !loading
      ensures put.Failure? ==>
                presupuestos == old(presupuestos) && error == Some(put.msg) && loading == old(loading)
      ensures old(error).Some? ==> error.Some?
    {
      sentId, sent := id, actualizado;
      AfterWrite(put, refetch);
    }

    /** `deletePresupuesto`: DELETE the given id. */
    method DeletePresupuesto(id: int, delete: Remote<()>, refetch: Remote<seq<Registro>>)
      returns (sentId: int)
      modifies this
      ensures sentId == id
      ensures delete.Success? && refetch.Success? ==>
                presupuestos == refetch.payload && error == old(error) && !loading
      ensures delete.Success? && refetch.Failure? ==>
                presupuestos == old(presupuestos) && error == Some(refetch.msg) && !loading
      ensures delete.Failure? ==>
                presupuestos == old(presupuestos) && error == Some(delete.msg) && loading == old(loading)
      ensures old(error).Some? ==> error.Some?
    {
      sentId := id;
      AfterWrite(delete, refetch);
    }
  }
}
