/**
 * `HappyEyeballsImpl`: resolves a host, races its IPv6 and IPv4 addresses in
 * two `MelhorIp` tasks and caches the winner under `host:port`. Every failure
 * propagates as an exception.
 *
 * The resolver's answer (`None` for `UnknownHostException`) and the outcome of
 * each family's task are inputs. The cache is a map from key to address.
 */
module EyeballsImpl {
  import opened Wrappers
  import opened JavaLong
  import opened Address
  import opened Samples
  import opened Tasks
  import Race
  import CacheKey

  /** The exceptions `obterIp` lets escape. */
  datatype ImplError =
    | UnknownHost
    | Construction(causa: Race.RaceError)
    | Task(falha: TaskFailure)
    | IllegalArgument

  /** `criaAtividade`: an `IllegalArgumentException` for a null or empty list, else the `MelhorIp` constructor's checks. */
  function CriaAtividade(enderecosIp: Option<seq<Addr>>, porta: int): (r: Result<Tarefa, ImplError>)
    ensures (enderecosIp.None? || |enderecosIp.value| == 0) <==> r == Failure(IllegalArgument)
    ensures r.Success? <==> Race.CheckArgs(enderecosIp, porta).None?
    ensures r.Success? ==> r.value == Tarefa(enderecosIp.value, porta)
    ensures r.Failure? && r.error != IllegalArgument ==> r.error == Construction(Race.InvalidPort)
  {
    if enderecosIp.None? || |enderecosIp.value| == 0 then Failure(IllegalArgument)
    else
      var erro := Race.CheckArgs(enderecosIp, porta);
      if erro.Some? then Failure(Construction(erro.value)) else Success(Tarefa(enderecosIp.value, porta))
  }

  /** `executarTarefa`: an `IllegalArgumentException` for a null task, otherwise `get()`, whose exceptions are wrapped. */
  function ExecutarTarefa(tarefa: Option<Tarefa>, desfecho: Desfecho): (r: Result<Amostra, ImplError>)
    ensures tarefa.None? ==> r == Failure(IllegalArgument)
    ensures tarefa.Some? && desfecho.Success? ==> r == Success(desfecho.value)
    ensures tarefa.Some? && desfecho.Failure? ==> r == Failure(Task(desfecho.error))
  {
    if tarefa.None? then Failure(IllegalArgument)
    else if desfecho.Failure? then Failure(Task(desfecho.error))
    else Success(desfecho.value)
  }

  /**
   * The merge of `obterMelhorIp`: with no IPv6 sample, the IPv4 one; otherwise
   * IPv6 only when it compares strictly below IPv4. As `compareTo(null)` is 1,
   * an IPv6 sample without an IPv4 one yields `null`.
   */
  function Merge(v4: Amostra?, v6: Amostra?): (m: Amostra?)
    reads v4, v6
    ensures m == null <==> v4 == null
    ensures m == v4 || m == v6
  {
    if v6 == null then v4 else if v6.CompareTo(v4) < 0 then v6 else v4
  }

  /** With both samples present the faster one wins, and a tie goes to IPv4. */
  lemma MergePicksFasterTiesToV4(v4: Amostra, v6: Amostra)
    ensures Merge(v4, v6).TempoTotal() <= v4.TempoTotal()
    ensures Merge(v4, v6).TempoTotal() <= v6.TempoTotal()
    ensures v6.TempoTotal() < v4.TempoTotal() ==> Merge(v4, v6) == v6
    ensures v6.TempoTotal() >= v4.TempoTotal() ==> Merge(v4, v6) == v4
  {
  }

  /** A family's future: `null` (`None`) when the list is empty, else the outcome of `criaAtividade`. */
  function Futuro(enderecos: seq<Addr>, porta: int): (r: Result<Option<Tarefa>, ImplError>)
    ensures |enderecos| == 0 ==> r == Success(None)
    ensures |enderecos| > 0 ==> (r.Success? <==> 0 < porta <= SHORT_MAX)
    ensures r.Success? && |enderecos| > 0 ==> r.value == Some(Tarefa(enderecos, porta))
    ensures r.Failure? ==> r.error == Construction(Race.InvalidPort)
  {
    if |enderecos| == 0 then Success(None)
    else
      var tarefa := CriaAtividade(Some(enderecos), porta);
      if tarefa.Failure? then Failure(tarefa.error) else Success(Some(tarefa.value))
  }

  /** A family's sample: `null` when no future was created, else the outcome of `executarTarefa`. */
  function Aguarda(futuro: Option<Tarefa>, desfecho: Desfecho): (r: Result<Amostra?, ImplError>)
    reads Objs(desfecho)
    ensures futuro.None? ==> r == Success(null)
    ensures futuro.Some? && desfecho.Success? ==> r == Success(desfecho.value)
    ensures futuro.Some? && desfecho.Failure? ==> r == Failure(Task(desfecho.error))
  {
    if futuro.None? then Success(null)
    else
      var amostra := ExecutarTarefa(futuro, desfecho);
      if amostra.Failure? then Failure(amostra.error) else Success(amostra.value)
  }

  /**
   * `obterMelhorIp`: a task is created for each non-empty family (IPv6 first),
   * then each created task is awaited (IPv6 first), and the samples are merged.
   * The first exception in that order is the one thrown.
   */
  function ObterMelhorIp(v4: seq<Addr>, v6: seq<Addr>, porta: int, d4: Desfecho, d6: Desfecho): (r: Result<Amostra?, ImplError>)
    reads Objs(d4), Objs(d6)
    ensures (|v4| > 0 || |v6| > 0) && !(0 < porta <= SHORT_MAX) ==> r == Failure(Construction(Race.InvalidPort))
    ensures 0 < porta <= SHORT_MAX ==>
              (r.Failure? <==> (|v6| > 0 && d6.Failure?) || (|v4| > 0 && d4.Failure?))
    ensures 0 < porta <= SHORT_MAX && |v6| > 0 && d6.Failure? ==> r == Failure(Task(d6.error))
    ensures 0 < porta <= SHORT_MAX && !(|v6| > 0 && d6.Failure?) && |v4| > 0 && d4.Failure? ==>
              r == Failure(Task(d4.error))
    ensures r.Success? ==> (r.value == null <==> |v4| == 0)
    ensures r.Success? && r.value != null ==>
              (|v4| > 0 && d4.Success? && r.value == d4.value) || (|v6| > 0 && d6.Success? && r.value == d6.value)
  {
    var f6 := Futuro(v6, porta);
    var f4 := Futuro(v4, porta);
    if f6.Failure? then Failure(f6.error)
    else if f4.Failure? then Failure(f4.error)
    else
      var a6 := Aguarda(f6.value, d6);
      var a4 := Aguarda(f4.value, d4);
      if a6.Failure? then Failure(a6.error)
      else if a4.Failure? then Failure(a4.error)
      else Success(Merge(a4.value, a6.value))
  }

  class HappyEyeballsImpl {
    /** The Ehcache cache, seen as a map from `host:port` to address. */
    var cache: map<string, Addr>

    /** The static initialiser: a fresh Ehcache cache, empty. */
    constructor ()
      ensures cache == map[]
    {
      cache := map[];
    }

    /**
     * `obterIp`: a cache hit returns the cached address; on a miss the host is
     * resolved, its addresses split by family and raced, and a non-null
     * winner's address is cached and returned. `None` is Java's `null`.
     */
    method ObterIp(nomeRede: string, porta: int, resolvidos: Option<seq<Addr>>, d4: Desfecho, d6: Desfecho)
      returns (r: Result<Option<Addr>, ImplError>)
      requires resolvidos.Some? && |Family(resolvidos.value, true)| > 0 ==> Plausible(d4, Family(resolvidos.value, true))
      requires resolvidos.Some? && |Family(resolvidos.value, false)| > 0 ==> Plausible(d6, Family(resolvidos.value, false))
      modifies this
      ensures var nome := CacheKey.Key(nomeRede, porta);
              nome in old(cache) ==> r == Success(Some(old(cache)[nome])) && cache == old(cache)
      ensures var nome := CacheKey.Key(nomeRede, porta);
              nome !in old(cache) && resolvidos.None? ==> r == Failure(UnknownHost) && cache == old(cache)
      ensures var nome := CacheKey.Key(nomeRede, porta);
              nome !in old(cache) && resolvidos.Some? ==>
                var m := ObterMelhorIp(Family(resolvidos.value, true), Family(resolvidos.value, false), porta, d4, d6);
                && (m.Failure? ==> r == Failure(m.error) && cache == old(cache))
                && (m.Success? && m.value == null ==> r == Success(None) && cache == old(cache))
                && (m.Success? && m.value != null ==>
                      r == Success(m.value.enderecoIp) && cache == old(cache)[nome := m.value.enderecoIp.value])
      ensures r.Success? && r.value.Some? ==>
                r.value.value in old(cache).Values || (resolvidos.Some? && r.value.value in resolvidos.value)
    {
      var nome := CacheKey.Key(nomeRede, porta);
      if nome in cache {
        return Success(Some(cache[nome]));
      }
      if resolvidos.None? {
        return Failure(UnknownHost);
      }
      var enderecosIpV4, enderecosIpV6 := SplitByFamily(resolvidos.value);
      var amostra := ObterMelhorIp(enderecosIpV4, enderecosIpV6, porta, d4, d6);
      if amostra.Failure? {
        return Failure(amostra.error);
      }
      if amostra.value == null {
        return Success(None);
      }
      var melhor := amostra.value;
      if |enderecosIpV4| > 0 && d4.Success? && melhor == d4.value {
        FamilyMembers(resolvidos.value, true, melhor.enderecoIp.value);
      } else {
        FamilyMembers(resolvidos.value, false, melhor.enderecoIp.value);
      }
      cache := cache[nome := melhor.enderecoIp.value];
      r := Success(melhor.enderecoIp);
    }
  }
}
