/**
 * `MelhorIp`: the race of one address family. One non-blocking connection is
 * registered per address, each tagged with a fresh `Amostra`; at the first
 * selector wake-up every ready attempt is stamped with the wake-up time and
 * the one with the smallest duration is returned.
 *
 * The selector is replaced by its observable outcome: `inicios[i]` is the
 * clock reading when address `i` was registered, `prontos` lists the ready
 * registrations in the order the selected-key set yields them (empty when
 * `select` timed out), and `fim` is the clock reading at the wake-up.
 */
module Race {
  import opened Wrappers
  import opened JavaLong
  import opened Address
  import opened Selection
  import opened Samples

  /** The `HappyEyeBallsException`s of a race. */
  datatype RaceError = EmptyAddressList | InvalidPort | Timeout | CloseFailed

  /** The constructor's validation: a non-null, non-empty list and `0 < porta <= Short.MAX_VALUE`. */
  function CheckArgs(enderecosIpV: Option<seq<Addr>>, porta: int): (r: Option<RaceError>)
    ensures r.None? <==> enderecosIpV.Some? && |enderecosIpV.value| > 0 && 0 < porta <= SHORT_MAX
    ensures r == Some(EmptyAddressList) <==> enderecosIpV.None? || |enderecosIpV.value| == 0
    ensures r.Some? ==> r == Some(EmptyAddressList) || r == Some(InvalidPort)
  {
    if enderecosIpV.None? || |enderecosIpV.value| == 0 then Some(EmptyAddressList)
    else if porta <= 0 || porta > SHORT_MAX then Some(InvalidPort)
    else None
  }

  /** Durations of attempts started at `inicios` once all are stamped with the wake-up time `fim`. */
  function Stamped(inicios: seq<Long>, fim: Long): (d: seq<Long>)
    ensures |d| == |inicios|
    ensures forall k :: 0 <= k < |inicios| ==> d[k] == Total(inicios[k], fim)
  {
    seq(|inicios|, k requires 0 <= k < |inicios| => Total(inicios[k], fim))
  }

  /** Start times of the samples (constants of `Amostra`, so no heap is read). */
  function StartTimes(cs: seq<Amostra>): (r: seq<Long>)
    ensures |r| == |cs|
    ensures forall i :: 0 <= i < |cs| ==> r[i] == cs[i].tempoInicio
  {
    seq(|cs|, i requires 0 <= i < |cs| => cs[i].tempoInicio)
  }

  /** End times of the samples. */
  function EndTimes(cs: seq<Amostra>): (r: seq<Long>)
    reads cs
    ensures |r| == |cs|
    ensures forall i :: 0 <= i < |cs| ==> r[i] == cs[i].tempoFim
  {
    seq(|cs|, i requires 0 <= i < |cs| reads cs => cs[i].tempoFim)
  }

  /** Position, within the ready list, of the attempt the race returns. */
  function Winner(inicios: seq<Long>, prontos: seq<nat>, fim: Long): (k: nat)
    requires |prontos| > 0 && InRange(prontos, |inicios|)
    ensures k < |prontos|
    ensures IsFirstMinimum(Stamped(Pick(inicios, prontos), fim), k)
  {
    FirstMinIndexIsFirstMinimum(Stamped(Pick(inicios, prontos), fim));
    FirstMinIndex(Stamped(Pick(inicios, prontos), fim))
  }

  /**
   * Every ready attempt is stamped with the same wake-up reading, so with
   * non-negative readings the fastest one is the one registered last: the
   * winner has the greatest start reading among the ready attempts, and no
   * earlier ready attempt shares it.
   */
  lemma WinnerStartedLast(inicios: seq<Long>, prontos: seq<nat>, fim: Long)
    requires |prontos| > 0 && InRange(prontos, |inicios|)
    requires 0 < fim && forall k :: 0 <= k < |prontos| ==> 0 <= inicios[prontos[k]]
    ensures forall k :: 0 <= k < |prontos| ==>
              inicios[prontos[k]] <= inicios[prontos[Winner(inicios, prontos, fim)]]
    ensures forall k :: 0 <= k < Winner(inicios, prontos, fim) ==>
              inicios[prontos[k]] < inicios[prontos[Winner(inicios, prontos, fim)]]
  {
    var d := Stamped(Pick(inicios, prontos), fim);
    var w := Winner(inicios, prontos, fim);
    forall k | 0 <= k < |prontos|
      ensures d[k] == fim - inicios[prontos[k]]
    {
    }
    assert d[w] == fim - inicios[prontos[w]];
  }

  /** Durations of the samples as they stand now. */
  function Durations(cs: seq<Amostra>): (d: seq<Long>)
    reads cs
    ensures |d| == |cs|
    ensures forall i :: 0 <= i < |cs| ==> d[i] == cs[i].TempoTotal()
  {
    seq(|cs|, i requires 0 <= i < |cs| reads cs => cs[i].TempoTotal())
  }

  /**
   * `TreeSet.first()` once the samples `arvore` have been added in this order.
   * The set is ordered by `compareTo`, and adding a sample that compares equal
   * to one already present leaves the set unchanged, so its least element is
   * the first added sample of least duration.
   */
  function Primeiro(arvore: seq<Amostra>): (p: Amostra)
    reads arvore
    requires |arvore| > 0
    ensures p in arvore
  {
    arvore[FirstMinIndex(Durations(arvore))]
  }

  /** The element `Primeiro` picks is least under `compareTo`, and every sample added before it compares greater. */
  lemma PrimeiroIsLeast(arvore: seq<Amostra>)
    requires |arvore| > 0
    ensures forall x :: x in arvore ==> Primeiro(arvore).CompareTo(x) <= 0
    ensures forall j :: 0 <= j < FirstMinIndex(Durations(arvore)) ==> arvore[j].CompareTo(Primeiro(arvore)) > 0
  {
    FirstMinIndexIsFirstMinimum(Durations(arvore));
  }

  class MelhorIp {
    const tempoTimeOut: Long
    const enderecosIp: seq<Addr>
    const porta: int
    /** Each registered `SocketChannel`, represented by the `Amostra` attached to its selection key. */
    var canais: seq<Amostra>

    /** After `inicializaCanais`: one distinct channel per address, in input order. */
    ghost predicate Registered()
      reads this
    {
      && |canais| == |enderecosIp|
      && (forall i :: 0 <= i < |canais| ==> canais[i].enderecoIp == Some(enderecosIp[i]))
      && (forall i, j :: 0 <= i < |canais| && 0 <= j < |canais| && i != j ==> canais[i] != canais[j])
    }

    /** The constructor once its validation has passed. */
    constructor (tempoTimeOut: Long, enderecosIp: seq<Addr>, porta: int)
      requires CheckArgs(Some(enderecosIp), porta).None?
      ensures this.tempoTimeOut == tempoTimeOut && this.enderecosIp == enderecosIp && this.porta == porta
      ensures canais == []
    {
      this.tempoTimeOut := tempoTimeOut;
      this.enderecosIp := enderecosIp;
      this.porta := porta;
      canais := [];
    }

    /** The constructor with its validation: it throws on a null or empty list and on an invalid port. */
    static method New(tempoTimeOut: Long, enderecosIpV: Option<seq<Addr>>, porta: int)
      returns (r: Result<MelhorIp, RaceError>)
      ensures CheckArgs(enderecosIpV, porta).Some? ==> r == Failure(CheckArgs(enderecosIpV, porta).value)
      ensures CheckArgs(enderecosIpV, porta).None? ==>
                && r.Success? && fresh(r.value)
                && r.value.tempoTimeOut == tempoTimeOut && r.value.enderecosIp == enderecosIpV.value
                && r.value.porta == porta && r.value.canais == []
    {
      var erro := CheckArgs(enderecosIpV, porta);
      if erro.Some? {
        return Failure(erro.value);
      }
      var melhorIp := new MelhorIp(tempoTimeOut, enderecosIpV.value, porta);
      return Success(melhorIp);
    }

    /** `inicializaCanais`: registers one channel per address, in order, each with an unfinished sample. */
    method InicializaCanais(inicios: seq<Long>)
      requires |inicios| == |enderecosIp|
      modifies this
      ensures Registered()
      ensures StartTimes(canais) == inicios
      ensures forall i :: 0 <= i < |canais| ==> fresh(canais[i]) && canais[i].tempoFim == 0
    {
      canais := [];
      var i := 0;
      while i < |enderecosIp|
        invariant 0 <= i <= |enderecosIp|
        invariant |canais| == i
        invariant forall k :: 0 <= k < i ==> canais[k].enderecoIp == Some(enderecosIp[k]) && canais[k].tempoInicio == inicios[k]
        invariant forall k :: 0 <= k < i ==> fresh(canais[k]) && canais[k].tempoFim == 0
        invariant forall k, l :: 0 <= k < l < i ==> canais[k] != canais[l]
      {
        var amostra := new Amostra(Some(enderecosIp[i]), inicios[i]);
        canais := canais + [amostra];
        i := i + 1;
      }
    }

    /**
     * `checaCanais`: stamps every ready sample with `fim` and returns the first
     * element of the `TreeSet` they are added to. A `TreeSet` keeps the first of
     * samples that compare equal, so its least element is the first ready sample
     * of least duration. The loop collects the samples in the order they are
     * added, in `arvore`, and `Primeiro(arvore)` is that least element.
     */
    method ChecaCanais(prontos: seq<nat>, fim: Long) returns (r: Result<Amostra, RaceError>)
      requires Registered()
      requires InRange(prontos, |canais|)
      modifies canais
      ensures canais == old(canais)
      ensures |prontos| == 0 ==> r == Failure(Timeout)
      ensures |prontos| > 0 ==> r == Success(canais[prontos[Winner(StartTimes(canais), prontos, fim)]])
      ensures forall j :: 0 <= j < |prontos| ==> canais[prontos[j]].tempoFim == fim
      ensures forall i :: 0 <= i < |canais| && i !in prontos ==> canais[i].tempoFim == old(canais[i].tempoFim)
    {
      if |prontos| == 0 {
        return Failure(Timeout);
      }
      ghost var inicios := StartTimes(canais);
      ghost var duracoes := Stamped(Pick(inicios, prontos), fim);
      ghost var antigos := EndTimes(canais);
      ghost var cs := canais;
      var arvore: seq<Amostra> := [];
      var k := 0;
      while k < |prontos|
        invariant 0 <= k <= |prontos|
        invariant |arvore| == k
        invariant forall j :: 0 <= j < k ==> arvore[j] == cs[prontos[j]]
        invariant forall j :: 0 <= j < k ==> cs[prontos[j]].tempoFim == fim
        invariant forall i :: 0 <= i < |cs| && i !in prontos ==> cs[i].tempoFim == antigos[i]
      {
        var dados := canais[prontos[k]];
        dados.SetTempoFim(fim);
        arvore := arvore + [dados];
        k := k + 1;
      }
      assert Durations(arvore) == duracoes;
      r := Success(Primeiro(arvore));
    }

    /** `fechaConexoes`: closes every channel; on success the channel list is empty. */
    method FechaConexoes(fechamentoOk: bool) returns (erro: Option<RaceError>)
      modifies this
      ensures fechamentoOk ==> erro == None && canais == []
      ensures !fechamentoOk ==> erro == Some(CloseFailed) && canais == old(canais)
    {
      if fechamentoOk {
        canais := [];
        erro := None;
      } else {
        erro := Some(CloseFailed);
      }
    }

    /**
     * `call()`: registration, the wake-up, and `fechaConexoes` in the `finally`
     * block, whose exception replaces any result. `fechamentoOk` says whether
     * every `finishConnect`/`close` succeeded.
     */
    method Call(inicios: seq<Long>, prontos: seq<nat>, fim: Long, fechamentoOk: bool)
      returns (r: Result<Amostra, RaceError>)
      requires |inicios| == |enderecosIp|
      requires InRange(prontos, |enderecosIp|)
      modifies this
      ensures fechamentoOk ==> canais == []
      ensures !fechamentoOk ==> r == Failure(CloseFailed)
      ensures !fechamentoOk ==>
                && |canais| == |enderecosIp|
                && (forall k :: 0 <= k < |canais| ==>
                      && fresh(canais[k]) && canais[k].enderecoIp == Some(enderecosIp[k])
                      && canais[k].tempoInicio == inicios[k])
                && (forall k :: 0 <= k < |canais| ==> canais[k].tempoFim == if k in prontos then fim else 0)
      ensures fechamentoOk && |prontos| == 0 ==> r == Failure(Timeout)
      ensures fechamentoOk && |prontos| > 0 ==>
                var w := prontos[Winner(inicios, prontos, fim)];
                && r.Success? && fresh(r.value)
                && r.value.enderecoIp == Some(enderecosIp[w]) && r.value.tempoInicio == inicios[w]
                && r.value.tempoFim == fim
    {
      InicializaCanais(inicios);
      r := ChecaCanais(prontos, fim);
      if |prontos| > 0 {
        assert prontos[Winner(inicios, prontos, fim)] in prontos;
      }
      var erro := FechaConexoes(fechamentoOk);
      if erro.Some? {
        r := Failure(erro.value);
      }
    }
  }
}
