/**
 * What the two newer orchestrators see of a `MelhorIp` task submitted to the
 * thread pool: the `Future<Amostra>` and what its `get()` produces. The pool
 * itself is not modelled; the outcome of `get()` is an input.
 */
module Tasks {
  import opened Wrappers
  import opened Address
  import opened Samples
  import Race

  /** A submitted task, identified by the address list and port of its `MelhorIp`. */
  datatype Tarefa = Tarefa(enderecos: seq<Addr>, porta: int)

  /** Why `Future.get()` threw: an `InterruptedException`, or an `ExecutionException` wrapping the race's exception. */
  datatype TaskFailure = Interrupted | Execution(causa: Race.RaceError)

  /** The outcome of `Future.get()`: the winning sample, or the exception. */
  type Desfecho = Result<Amostra, TaskFailure>

  /** The objects an outcome refers to. */
  function Objs(d: Desfecho): set<object>
  {
    if d.Success? then {d.value} else {}
  }

  /**
   * An outcome that the race over `enderecos` can produce: a successful race
   * returns the sample of one of its addresses (`MelhorIp.Call`).
   */
  predicate Plausible(d: Desfecho, enderecos: seq<Addr>)
  {
    d.Success? ==> d.value.enderecoIp.Some? && d.value.enderecoIp.value in enderecos
  }
}
