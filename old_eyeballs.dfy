/**
 * The first generation's `HappyEyeballs` with its `CacheItem`: a map from host
 * name (the port is not part of the key) to a mutable item holding an address
 * and the instant it was stored. A hit younger than `TEMPO_EXPIRACAO` is
 * returned; an older one is removed and the host is resolved and raced again,
 * with one `MelhorIP` task per family, and the result is always stored.
 *
 * The clock readings, the resolver's answer (`None` for
 * `UnknownHostException`) and each family's race outcome (`None` when its
 * `Future.get()` threw) are inputs.
 */
module OldEyeballs {
  import opened Wrappers
  import opened JavaLong
  import opened Address
  import OldRace

  /** The exceptions `obterIP` lets escape. */
  datatype OldError = UnknownHost | NullPointer

  /** The mutable cache entry; `None` is a `null` address. */
  class CacheItem {
    var endereco: Option<Addr>
    var tempoAcesso: Long

    constructor (endereco: Option<Addr>, tempoAcesso: Long)
      ensures this.endereco == endereco && this.tempoAcesso == tempoAcesso
    {
      this.endereco := endereco;
      this.tempoAcesso := tempoAcesso;
    }

    method SetEndereco(endereco: Option<Addr>)
      modifies this
      ensures this.endereco == endereco && tempoAcesso == old(tempoAcesso)
    {
      this.endereco := endereco;
    }

    method SetTempoAcesso(tempoAcesso: Long)
      modifies this
      ensures this.tempoAcesso == tempoAcesso && endereco == old(endereco)
    {
      this.tempoAcesso := tempoAcesso;
    }
  }

  /** The TTL test of `obterIP`: the long difference between now and the stored instant is below the expiry. */
  predicate Vigente(tempoAcesso: Long, agora: Long, tempoExpiracao: Long)
    ensures agora == tempoAcesso ==> (Vigente(tempoAcesso, agora, tempoExpiracao) <==> 0 < tempoExpiracao)
  {
    Sub(agora, tempoAcesso) < tempoExpiracao
  }

  /** With clock readings that do not run backwards, an entry is live exactly while its age is below the expiry. */
  lemma VigenteIffYoung(tempoAcesso: Long, agora: Long, tempoExpiracao: Long)
    requires 0 <= tempoAcesso <= agora
    ensures Vigente(tempoAcesso, agora, tempoExpiracao) <==> agora - tempoAcesso < tempoExpiracao
  {
    SubOfReadings(agora, tempoAcesso);
  }

  /**
   * `obterMelhorIP`: when an IPv6 result exists, IPv4 wins only with a strictly
   * smaller time; without one, IPv4 is chosen. A missing IPv4 result is
   * dereferenced, which throws.
   */
  function ObterMelhorIP(v4: Option<OldRace.Tupla>, v6: Option<OldRace.Tupla>): (r: Result<Addr, OldError>)
    ensures v4.None? <==> r == Failure(NullPointer)
    ensures r.Success? ==> r.value == v4.value.endereco || (v6.Some? && r.value == v6.value.endereco)
    ensures v4.Some? && v6.None? ==> r == Success(v4.value.endereco)
  {
    if v6.Some? then
      if v4.None? then Failure(NullPointer)
      else if v4.value.tempo < v6.value.tempo then Success(v4.value.endereco)
      else Success(v6.value.endereco)
    else if v4.None? then Failure(NullPointer)
    else Success(v4.value.endereco)
  }

  /** With both results, the faster family wins and a tie goes to IPv6. */
  lemma ObterMelhorIPTiesToV6(v4: OldRace.Tupla, v6: OldRace.Tupla)
    ensures v4.tempo < v6.tempo ==> ObterMelhorIP(Some(v4), Some(v6)) == Success(v4.endereco)
    ensures v4.tempo >= v6.tempo ==> ObterMelhorIP(Some(v4), Some(v6)) == Success(v6.endereco)
  {
  }

  class HappyEyeballs {
    const tempoExpiracao: Long
    const tempoTimeout: Long
    /** The static `ConcurrentHashMap` from host name to entry. */
    var cache: map<string, CacheItem>

    /** The singleton is built with a 5000 ms expiry and a 300 ms timeout. */
    constructor (tempoExpiracao: Long, tempoTimeout: Long)
      ensures this.tempoExpiracao == tempoExpiracao && this.tempoTimeout == tempoTimeout && cache == map[]
    {
      this.tempoExpiracao := tempoExpiracao;
      this.tempoTimeout := tempoTimeout;
      cache := map[];
    }

    /** The cache as `obterIP` leaves it before resolving: any entry for the host removed. */
    function SemEntrada(nomeRede: string): (m: map<string, CacheItem>)
      reads this
      ensures nomeRede !in m
      ensures forall k :: k in m <==> k in cache && k != nomeRede
      ensures forall k :: k in m ==> m[k] == cache[k]
    {
      if nomeRede in cache then cache - {nomeRede} else cache
    }

    /**
     * `obterIP`: `agora` is the clock reading for the TTL test and
     * `agoraInsercao` the one for the new entry; `o4` and `o6` are the two
     * races' results. `None` is Java's `null`.
     */
    method ObterIP(nomeRede: string, porta: int, agora: Long, resolvidos: Option<seq<Addr>>,
                   o4: Option<OldRace.Tupla>, o6: Option<OldRace.Tupla>, agoraInsercao: Long)
      returns (r: Result<Option<Addr>, OldError>)
      requires resolvidos.Some? && o4.Some? ==> o4.value.endereco in Family(resolvidos.value, true)
      requires resolvidos.Some? && o6.Some? ==> o6.value.endereco in Family(resolvidos.value, false)
      modifies this
      ensures nomeRede in old(cache) && Vigente(old(cache[nomeRede].tempoAcesso), agora, tempoExpiracao) ==>
                r == Success(old(cache[nomeRede].endereco)) && cache == old(cache)
      ensures !(nomeRede in old(cache) && Vigente(old(cache[nomeRede].tempoAcesso), agora, tempoExpiracao)) ==>
                && (resolvidos.None? ==> r == Failure(UnknownHost) && cache == old(SemEntrada(nomeRede)))
                && (resolvidos.Some? && ObterMelhorIP(o4, o6).Failure? ==>
                      r == Failure(NullPointer) && cache == old(SemEntrada(nomeRede)))
                && (resolvidos.Some? && ObterMelhorIP(o4, o6).Success? ==>
                      && r == Success(Some(ObterMelhorIP(o4, o6).value))
                      && nomeRede in cache && fresh(cache[nomeRede])
                      && cache[nomeRede].endereco == Some(ObterMelhorIP(o4, o6).value)
                      && cache[nomeRede].tempoAcesso == agoraInsercao
                      && cache == old(SemEntrada(nomeRede))[nomeRede := cache[nomeRede]])
      ensures r.Success? && r.value.Some? &&
              !(nomeRede in old(cache) && Vigente(old(cache[nomeRede].tempoAcesso), agora, tempoExpiracao)) ==>
                resolvidos.Some? && r.value.value in resolvidos.value
    {
      if nomeRede in cache {
        var item := cache[nomeRede];
        var tempoDecorrido := Sub(agora, item.tempoAcesso);
        if tempoDecorrido < tempoExpiracao {
          return Success(item.endereco);
        } else {
          cache := cache - {nomeRede};
        }
      }
      if resolvidos.None? {
        return Failure(UnknownHost);
      }
      var enderecosIPV4, enderecosIPV6 := SplitByFamily(resolvidos.value);
      var melhor := ObterMelhorIP(o4, o6);
      if melhor.Failure? {
        return Failure(melhor.error);
      }
      if melhor.value == o4.value.endereco {
        FamilyMembers(resolvidos.value, true, melhor.value);
      } else {
        FamilyMembers(resolvidos.value, false, melhor.value);
      }
      var novo := new CacheItem(Some(melhor.value), agoraInsercao);
      cache := cache[nomeRede := novo];
      r := Success(Some(melhor.value));
    }
  }
}
