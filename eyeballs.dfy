/**
 * The second generation's `HappyEyeballs`: the same pipeline as
 * `HappyEyeballsImpl`, but failing tasks are logged and become `null`, and the
 * merge sends ties to IPv6. Only a resolver failure escapes, as an
 * `IOException`.
 *
 * The resolver's answer (`None` for `UnknownHostException`) and the outcome of
 * each family's task are inputs. The cache is a map from key to address.
 */
module Eyeballs {
  import opened Wrappers
  import opened JavaLong
  import opened Address
  import opened Samples
  import opened Tasks
  import Race
  import CacheKey

  /** The exception `obterIp` lets escape: the resolver's `UnknownHostException`. */
  datatype EyeballsError = UnknownHost

  /**
   * `criaAtividade`: no task (`null`) for a null or empty list, nor when the
   * `MelhorIp` constructor throws, which is logged and swallowed.
   */
  function CriaAtividade(enderecosIp: Option<seq<Addr>>, porta: int): (r: Option<Tarefa>)
    ensures r.Some? <==> Race.CheckArgs(enderecosIp, porta).None?
    ensures r.Some? ==> r.value == Tarefa(enderecosIp.value, porta)
  {
    if enderecosIp.Some? && |enderecosIp.value| > 0 && Race.CheckArgs(enderecosIp, porta).None? then
      Some(Tarefa(enderecosIp.value, porta))
    else None
  }

  /** `executarTarefa`: `null` for a null task and for a task whose `get()` throws. */
  function ExecutarTarefa(tarefa: Option<Tarefa>, desfecho: Desfecho): (r: Amostra?)
    ensures r != null <==> tarefa.Some? && desfecho.Success?
    ensures r != null ==> r == desfecho.value
  {
    if tarefa.Some? && desfecho.Success? then desfecho.value else null
  }

  /**
   * The merge of `obterMelhorIp`: with both samples, IPv6 unless IPv4 compares
   * strictly below it; with only one of them, the IPv4 slot, so an IPv6 sample
   * alone yields `null`.
   */
  function Merge(v4: Amostra?, v6: Amostra?): (m: Amostra?)
    reads v4, v6
    ensures m == null <==> v4 == null
    ensures m == v4 || m == v6
  {
    if v6 != null && v4 != null then (if v4.CompareTo(v6) >= 0 then v6 else v4)
    else if v6 == null then v4
    else v4
  }

  /** With both samples present the faster one wins, and a tie goes to IPv6. */
  lemma MergePicksFasterTiesToV6(v4: Amostra, v6: Amostra)
    ensures Merge(v4, v6).TempoTotal() <= v4.TempoTotal()
    ensures Merge(v4, v6).TempoTotal() <= v6.TempoTotal()
    ensures v4.TempoTotal() < v6.TempoTotal() ==> Merge(v4, v6) == v4
    ensures v4.TempoTotal() >= v6.TempoTotal() ==> Merge(v4, v6) == v6
  {
  }

  /**
   * `obterMelhorIp`: both tasks are created (IPv6 first), awaited, and merged.
   * Nothing is thrown: a family without a task or with a failed task has a
   * `null` sample.
   */
  function ObterMelhorIp(v4: seq<Addr>, v6: seq<Addr>, porta: int, d4: Desfecho, d6: Desfecho): (r: Amostra?)
    reads Objs(d4), Objs(d6)
    ensures r == null <==> !(|v4| > 0 && 0 < porta <= SHORT_MAX && d4.Success?)
    ensures r != null ==> r == d4.value || (|v6| > 0 && d6.Success? && r == d6.value)
  {
    var ipv6Futuro := CriaAtividade(Some(v6), porta);
    var ipv4Futuro := CriaAtividade(Some(v4), porta);
    var melhorIpV6 := ExecutarTarefa(ipv6Futuro, d6);
    var melhorIpV4 := ExecutarTarefa(ipv4Futuro, d4);
    Merge(melhorIpV4, melhorIpV6)
  }

  class HappyEyeballs {
    const coneccaoExpiracao: Long
    /** The Ehcache cache, seen as a map from `host:port` to address; a missing key reads as `null`. */
    var cache: map<string, Addr>

    /** The singleton is built with a 300 ms connection timeout. */
    constructor (coneccaoExpiracao: Long)
      ensures this.coneccaoExpiracao == coneccaoExpiracao && cache == map[]
    {
      this.coneccaoExpiracao := coneccaoExpiracao;
      cache := map[];
    }

    /**
     * `obterIp`: a cached address is returned; otherwise the host is resolved,
     * split by family and raced, and a non-null winner's address is cached.
     * `None` is Java's `null`.
     */
    method ObterIp(nomeRede: string, porta: int, resolvidos: Option<seq<Addr>>, d4: Desfecho, d6: Desfecho)
      returns (r: Result<Option<Addr>, EyeballsError>)
      requires resolvidos.Some? && |Family(resolvidos.value, true)| > 0 ==> Plausible(d4, Family(resolvidos.value, true))
      requires resolvidos.Some? && |Family(resolvidos.value, false)| > 0 ==> Plausible(d6, Family(resolvidos.value, false))
      modifies this
      ensures var nome := CacheKey.Key(nomeRede, porta);
              nome in old(cache) ==> r == Success(Some(old(cache)[nome])) && cache == old(cache)
      ensures var nome := CacheKey.Key(nomeRede, porta);
              nome !in old(cache) && resolvidos.None? ==> r == Failure(UnknownHost) && cache == old(cache)
      ensures var nome := CacheKey.Key(nomeRede, porta);
              nome !in old(cache) && resolvidos.Some? ==>
                var m := ObterMelhorIp(Family(resolvidos.value, true), Family(resolvidos.value, false), porta, d4, d6);
                && (m == null ==> r == Success(None) && cache == old(cache))
                && (m != null ==> r == Success(m.enderecoIp) && cache == old(cache)[nome := m.enderecoIp.value])
      ensures r.Success? && r.value.Some? ==>
                r.value.value in old(cache).Values || (resolvidos.Some? && r.value.value in resolvidos.value)
    {
      var nome := CacheKey.Key(nomeRede, porta);
      if nome in cache {
        return Success(Some(cache[nome]));
      }
      if resolvidos.None? {
        return Failure(UnknownHost);
      }
      var enderecosIpV4, enderecosIpV6 := SplitByFamily(resolvidos.value);
      var amostra := ObterMelhorIp(enderecosIpV4, enderecosIpV6, porta, d4, d6);
      if amostra == null {
        return Success(None);
      }
      if |enderecosIpV4| > 0 && d4.Success? && amostra == d4.value {
        FamilyMembers(resolvidos.value, true, amostra.enderecoIp.value);
      } else {
        FamilyMembers(resolvidos.value, false, amostra.enderecoIp.value);
      }
      cache := cache[nome := amostra.enderecoIp.value];
      r := Success(amostra.enderecoIp);
    }
  }
}
