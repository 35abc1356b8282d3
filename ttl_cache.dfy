/**
 * The `cache` package: a map from name to `CacheItem` with eviction on lookup.
 * `CacheItem` is immutable; its `getTempoAcesso` reads the clock and returns
 * the item's age, not the instant it was stored. Every clock reading is a
 * parameter: `obtem` reads the clock once itself (`agora`) and once more
 * inside `getTempoAcesso` (`agoraItem`), in that order.
 */
module TtlCache {
  import opened Wrappers
  import opened JavaLong

  /** An item and the clock reading at which it was stored; both fields are final. */
  datatype CacheItem<T> = CacheItem(item: T, tempoAcesso: Long)
  {
    /** `getItem`. */
    function GetItem(): (x: T)
      ensures x == item
    {
      item
    }

    /** `getTempoAcesso`: the long difference between the clock reading `agora` and the stored instant. */
    function GetTempoAcesso(agora: Long): (idade: Long)
      ensures agora == tempoAcesso ==> idade == 0
      ensures 0 <= tempoAcesso && 0 <= agora ==> idade == agora - tempoAcesso
    {
      Sub(agora, tempoAcesso)
    }
  }

  /** `getItem` returns what the item was built with, whenever it is called. */
  lemma GetItemReturnsStored<T>(x: T, tempoAcesso: Long)
    ensures CacheItem(x, tempoAcesso).GetItem() == x
  {
  }

  /** An item read at the instant it was stored is zero milliseconds old. */
  lemma AgeAtCreation<T>(c: CacheItem<T>)
    ensures c.GetTempoAcesso(c.tempoAcesso) == 0
  {
  }

  /** With clock readings that do not run backwards, the age is the time elapsed since storage and grows exactly with the clock. */
  lemma AgeTracksClock<T>(c: CacheItem<T>, agora: Long, passo: int)
    requires 0 <= c.tempoAcesso <= agora
    requires 0 <= passo && agora + passo <= LONG_MAX
    ensures c.GetTempoAcesso(agora) == agora - c.tempoAcesso
    ensures c.GetTempoAcesso(agora + passo) == c.GetTempoAcesso(agora) + passo
  {
    SubOfReadings(agora, c.tempoAcesso);
    SubOfReadings(agora + passo, c.tempoAcesso);
  }

  /** The test `obtem` computes: the clock minus the item's age, compared with the expiry. */
  predicate Expirou<T>(c: CacheItem<T>, tempoExpiracao: Long, agora: Long, agoraItem: Long)
    ensures agoraItem == c.tempoAcesso ==> (Expirou(c, tempoExpiracao, agora, agoraItem) <==> agora > tempoExpiracao)
  {
    Sub(agora, c.GetTempoAcesso(agoraItem)) > tempoExpiracao
  }

  /**
   * When both readings agree, `obtem`'s test compares the stored instant, not
   * the age, with the expiry: subtracting the age from the clock gives the
   * stored instant back.
   */
  lemma ExpirouComparesStoredInstant<T>(c: CacheItem<T>, tempoExpiracao: Long, agora: Long)
    ensures Expirou(c, tempoExpiracao, agora, agora) <==> c.tempoAcesso > tempoExpiracao
  {
    SubSubCancels(agora, c.tempoAcesso);
  }

  /**
   * With clock readings that do not run backwards, the test holds exactly when
   * the stored instant, less the time between the two readings, exceeds the
   * expiry; the age of the item does not enter it.
   */
  lemma ExpirouIgnoresAge<T>(c: CacheItem<T>, tempoExpiracao: Long, agora: Long, agoraItem: Long)
    requires 0 <= c.tempoAcesso <= agora <= agoraItem
    ensures Expirou(c, tempoExpiracao, agora, agoraItem) <==> c.tempoAcesso - (agoraItem - agora) > tempoExpiracao
  {
    SubOfReadings(agoraItem, c.tempoAcesso);
    SubOfReadings(agora, agoraItem - c.tempoAcesso);
  }

  /** An item stored at 1000 ms and read 999 000 ms later passes the test for a 300 ms expiry. */
  lemma StaleItemPassesExpirou()
    ensures CacheItem(0, 1000).GetTempoAcesso(1_000_000) == 999_000
    ensures Expirou(CacheItem(0, 1000), 300, 1_000_000, 1_000_000)
  {
  }

  /** The intended test: an item is still valid while its age does not exceed the expiry. */
  predicate Vigente<T>(c: CacheItem<T>, tempoExpiracao: Long, agora: Long)
    ensures agora == c.tempoAcesso ==> (Vigente(c, tempoExpiracao, agora) <==> 0 <= tempoExpiracao)
  {
    c.GetTempoAcesso(agora) <= tempoExpiracao
  }

  /** With clock readings that do not run backwards, an item is valid exactly while the time since storage is within the expiry. */
  lemma VigenteIffYoung<T>(c: CacheItem<T>, tempoExpiracao: Long, agora: Long)
    requires 0 <= c.tempoAcesso <= agora
    ensures Vigente(c, tempoExpiracao, agora) <==> agora - c.tempoAcesso <= tempoExpiracao
  {
    SubOfReadings(agora, c.tempoAcesso);
  }

  /** A fresh item is valid for any non-negative expiry, and one that has expired stays expired as the clock advances. */
  lemma VigenteExpiresForGood<T>(c: CacheItem<T>, tempoExpiracao: Long, agora: Long, depois: Long)
    requires 0 <= c.tempoAcesso <= agora <= depois
    ensures 0 <= tempoExpiracao ==> Vigente(c, tempoExpiracao, c.tempoAcesso)
    ensures !Vigente(c, tempoExpiracao, agora) ==> !Vigente(c, tempoExpiracao, depois)
  {
    SubOfReadings(agora, c.tempoAcesso);
    SubOfReadings(depois, c.tempoAcesso);
  }

  /** The stale item of `StaleItemPassesExpirou` is rejected by the intended test. */
  lemma StaleItemIsNotVigente()
    ensures !Vigente(CacheItem(0, 1000), 300, 1_000_000)
  {
  }

  /** `ItemNaoEncontrado`. */
  datatype CacheError = ItemNaoEncontrado

  class Cache<T> {
    /** The `ConcurrentHashMap`. */
    var mapa: map<string, CacheItem<T>>
    /** Final: `getTempoExpiracao` returns the constructor's argument for the cache's whole life. */
    const tempoExpiracao: Long

    constructor (tempoExpiracao: Long)
      ensures this.tempoExpiracao == tempoExpiracao && mapa == map[]
    {
      this.tempoExpiracao := tempoExpiracao;
      mapa := map[];
    }

    /** `getTempoExpiracao`. */
    function GetTempoExpiracao(): (t: Long)
      ensures t == tempoExpiracao
    {
      tempoExpiracao
    }

    /**
     * `obtem` as written: an absent name throws; a present one is returned when
     * `Expirou` holds, and otherwise removed before throwing.
     */
    method Obtem(nome: string, agora: Long, agoraItem: Long) returns (r: Result<T, CacheError>)
      modifies this
      ensures nome !in old(mapa) ==> r == Failure(ItemNaoEncontrado) && mapa == old(mapa)
      ensures nome in old(mapa) && Expirou(old(mapa)[nome], tempoExpiracao, agora, agoraItem) ==>
                r == Success(old(mapa)[nome].item) && mapa == old(mapa)
      ensures nome in old(mapa) && !Expirou(old(mapa)[nome], tempoExpiracao, agora, agoraItem) ==>
                r == Failure(ItemNaoEncontrado) && mapa == old(mapa) - {nome}
    {
      if nome in mapa {
        var item := mapa[nome];
        var expirou := Sub(agora, item.GetTempoAcesso(agoraItem)) > tempoExpiracao;
        if expirou {
          return Success(item.GetItem());
        } else {
          mapa := mapa - {nome};
        }
      }
      return Failure(ItemNaoEncontrado);
    }

    /**
     * `obtem` as evidently intended: a present name is returned while its item
     * is `Vigente`, and otherwise removed before throwing.
     */
    method ObtemVigente(nome: string, agora: Long) returns (r: Result<T, CacheError>)
      modifies this
      ensures nome !in old(mapa) ==> r == Failure(ItemNaoEncontrado) && mapa == old(mapa)
      ensures nome in old(mapa) && Vigente(old(mapa)[nome], tempoExpiracao, agora) ==>
                r == Success(old(mapa)[nome].item) && mapa == old(mapa)
      ensures nome in old(mapa) && !Vigente(old(mapa)[nome], tempoExpiracao, agora) ==>
                r == Failure(ItemNaoEncontrado) && mapa == old(mapa) - {nome}
    {
      if nome in mapa {
        var item := mapa[nome];
        var expirou := item.GetTempoAcesso(agora) > tempoExpiracao;
        if !expirou {
          return Success(item.GetItem());
        } else {
          mapa := mapa - {nome};
        }
      }
      return Failure(ItemNaoEncontrado);
    }

    /** `adiciona`: overwrites any entry for the name. */
    method Adiciona(nome: string, item: CacheItem<T>)
      modifies this
      ensures mapa == old(mapa)[nome := item]
    {
      mapa := mapa[nome := item];
    }

    /** `limpa`: from any state, including an already empty one, the map ends empty. */
    method Limpa()
      modifies this
      ensures mapa == map[]
    {
      mapa := map[];
    }
  }
}
