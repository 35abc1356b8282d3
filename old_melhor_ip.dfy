/**
 * The first generation's `MelhorIP`: the same race as `MelhorIp`, but each
 * registration is tagged with the pair (address, start time), the durations
 * are plain `fim - inicio` differences, and the best one is found by a scan
 * that starts from `Long.MAX_VALUE` and replaces its candidate only on a
 * strictly smaller duration. The result is the pair (address, duration).
 *
 * As in `Race`, the selector is replaced by its outcome: `inicios[i]` is the
 * clock reading when address `i` was registered, `prontos` the positions of
 * the selected keys in iteration order (empty when `select` timed out), and
 * `fim` the clock reading at the wake-up.
 */
module OldRace {
  import opened Wrappers
  import opened JavaLong
  import opened Address
  import opened Selection
  import Race

  /** The attachment of a selection key: `new Object[] { endereco, inicio }`. */
  datatype Registro = Registro(endereco: Addr, inicio: Long)

  /** The returned `Object[] { melhor, tempoFim }`. */
  datatype Tupla = Tupla(endereco: Addr, tempo: Long)

  /**
   * What the race throws: the timeout `IOException`, an `IOException` from
   * closing the channels, and the `NullPointerException` raised when no ready
   * key beat `Long.MAX_VALUE`, so that `melhor` stayed `null`.
   */
  datatype OldRaceError = Timeout | CloseFailed | NullPointer

  /** `fim - inicio` in long arithmetic, for each registration. */
  function Elapsed(inicios: seq<Long>, fim: Long): (d: seq<Long>)
    ensures |d| == |inicios|
    ensures forall k :: 0 <= k < |inicios| ==> d[k] == Sub(fim, inicios[k])
  {
    seq(|inicios|, k requires 0 <= k < |inicios| => Sub(fim, inicios[k]))
  }

  /** The start times of the registrations. */
  function Inicios(rs: seq<Registro>): (r: seq<Long>)
    ensures |r| == |rs|
    ensures forall i :: 0 <= i < |rs| ==> r[i] == rs[i].inicio
  {
    seq(|rs|, i requires 0 <= i < |rs| => rs[i].inicio)
  }

  /**
   * `melhor` stays `null` exactly when every ready key's duration equals
   * `Long.MAX_VALUE`, since the scan needs a duration strictly below it.
   */
  lemma NullOnlyWhenAllSaturated(d: seq<Long>)
    requires |d| > 0
    ensures d[FirstMinIndex(d)] == LONG_MAX <==> forall k :: 0 <= k < |d| ==> d[k] == LONG_MAX
  {
    FirstMinIndexIsFirstMinimum(d);
  }

  /**
   * With positive start readings that do not exceed the wake-up reading, every
   * duration is below `Long.MAX_VALUE`, so the `NullPointerException` path is
   * never taken.
   */
  lemma NoNullWithClockReadings(inicios: seq<Long>, prontos: seq<nat>, fim: Long)
    requires |prontos| > 0 && InRange(prontos, |inicios|)
    requires forall k :: 0 <= k < |inicios| ==> 0 < inicios[k] <= fim
    ensures var d := Elapsed(Pick(inicios, prontos), fim);
            d[FirstMinIndex(d)] < LONG_MAX
  {
    var d := Elapsed(Pick(inicios, prontos), fim);
    var w := FirstMinIndex(d);
    SubOfReadings(fim, inicios[prontos[w]]);
  }

  /**
   * Both generations pick the same ready attempt: once every ready sample is
   * stamped with a non-zero wake-up time, its `Amostra` duration is the plain
   * long difference the old scan uses.
   */
  lemma SameWinnerAsNewRace(inicios: seq<Long>, prontos: seq<nat>, fim: Long)
    requires |prontos| > 0 && InRange(prontos, |inicios|)
    requires fim != 0
    ensures Race.Winner(inicios, prontos, fim) == FirstMinIndex(Elapsed(Pick(inicios, prontos), fim))
  {
    assert Race.Stamped(Pick(inicios, prontos), fim) == Elapsed(Pick(inicios, prontos), fim);
  }

  /** `rs` holds one registration per address, in order, tagged with that address and its start reading. */
  predicate Registrados(rs: seq<Registro>, enderecos: seq<Addr>, inicios: seq<Long>)
    requires |inicios| == |enderecos|
  {
    && |rs| == |enderecos|
    && forall i :: 0 <= i < |rs| ==> rs[i] == Registro(enderecos[i], inicios[i])
  }

  class MelhorIP {
    const tempoTimeout: Long
    const enderecosIPV: seq<Addr>
    const porta: int
    /** The registered channels, each represented by its key's attachment. */
    var canais: seq<Registro>

    /** The constructor performs no validation. */
    constructor (tempoTimeout: Long, enderecosIPV: seq<Addr>, porta: int)
      ensures this.tempoTimeout == tempoTimeout && this.enderecosIPV == enderecosIPV && this.porta == porta
      ensures canais == []
    {
      this.tempoTimeout := tempoTimeout;
      this.enderecosIPV := enderecosIPV;
      this.porta := porta;
      canais := [];
    }

    /** `fechaConexoes`: closes every channel and clears the list, or throws. */
    method FechaConexoes(fechamentoOk: bool) returns (erro: Option<OldRaceError>)
      modifies this
      ensures fechamentoOk ==> erro == None && canais == []
      ensures !fechamentoOk ==> erro == Some(CloseFailed) && canais == old(canais)
    {
      if fechamentoOk {
        canais := [];
        erro := None;
      } else {
        erro := Some(CloseFailed);
      }
    }

    /** The registration loop of `melhorIPV`: one channel per address, in order. */
    method Registra(inicios: seq<Long>)
      requires |inicios| == |enderecosIPV|
      modifies this
      ensures |canais| == |enderecosIPV|
      ensures forall i :: 0 <= i < |canais| ==> canais[i] == Registro(enderecosIPV[i], inicios[i])
    {
      canais := [];
      var i := 0;
      while i < |enderecosIPV|
        invariant 0 <= i <= |enderecosIPV|
        invariant |canais| == i
        invariant forall k :: 0 <= k < i ==> canais[k] == Registro(enderecosIPV[k], inicios[k])
      {
        canais := canais + [Registro(enderecosIPV[i], inicios[i])];
        i := i + 1;
      }
    }

    /**
     * The scan over the selected keys: starting from `Long.MAX_VALUE`, a key
     * replaces the candidate only when its duration is strictly smaller. It
     * returns the candidate's address (`None` for `null`) and `melhorTempo`.
     */
    method Melhor(prontos: seq<nat>, fim: Long) returns (melhor: Option<Addr>, melhorTempo: Long)
      requires |prontos| > 0 && InRange(prontos, |canais|)
      ensures var inicios := Inicios(canais);
              var d := Elapsed(Pick(inicios, prontos), fim);
              var w := FirstMinIndex(d);
              && melhorTempo == d[w]
              && (d[w] < LONG_MAX ==> melhor == Some(canais[prontos[w]].endereco))
              && (d[w] == LONG_MAX ==> melhor == None)
    {
      ghost var inicios := Inicios(canais);
      ghost var d := Elapsed(Pick(inicios, prontos), fim);
      melhor := None;
      melhorTempo := LONG_MAX;
      var k := 0;
      while k < |prontos|
        invariant 0 <= k <= |prontos|
        invariant k == 0 ==> melhor == None && melhorTempo == LONG_MAX
        invariant k > 0 ==> melhorTempo == d[FirstMinIndex(d[..k])]
        invariant k > 0 && melhorTempo < LONG_MAX ==> melhor == Some(canais[prontos[FirstMinIndex(d[..k])]].endereco)
        invariant k > 0 && melhorTempo == LONG_MAX ==> melhor == None
      {
        var dados := canais[prontos[k]];
        var tempo := Sub(fim, dados.inicio);
        assert tempo == d[k];
        if k > 0 {
          FirstMinIndexStep(d, k);
        } else {
          assert FirstMinIndex(d[..1]) == 0;
        }
        if tempo < melhorTempo {
          melhorTempo := tempo;
          melhor := Some(dados.endereco);
        }
        k := k + 1;
      }
      assert d[..k] == d;
    }

    /**
     * `melhorIPV()` (and `call()`): registers, waits, scans, and closes. On a
     * timeout the channels are closed before the timeout is thrown; when no
     * candidate was found, the `null` dereference in the log line throws before
     * the channels are closed; otherwise a failure to close replaces the result.
     */
    method MelhorIPV(inicios: seq<Long>, prontos: seq<nat>, fim: Long, fechamentoOk: bool)
      returns (r: Result<Tupla, OldRaceError>)
      requires |inicios| == |enderecosIPV|
      requires InRange(prontos, |enderecosIPV|)
      modifies this
      ensures |enderecosIPV| == 0 ==> r.Failure?
      ensures |prontos| == 0 ==> r == Failure(if fechamentoOk then Timeout else CloseFailed)
      ensures |prontos| == 0 && fechamentoOk ==> canais == []
      ensures |prontos| == 0 && !fechamentoOk ==> Registrados(canais, enderecosIPV, inicios)
      ensures |prontos| > 0 ==>
                var d := Elapsed(Pick(inicios, prontos), fim);
                var w := FirstMinIndex(d);
                && (d[w] == LONG_MAX ==> r == Failure(NullPointer) && Registrados(canais, enderecosIPV, inicios))
                && (d[w] < LONG_MAX && !fechamentoOk ==>
                      r == Failure(CloseFailed) && Registrados(canais, enderecosIPV, inicios))
                && (d[w] < LONG_MAX && fechamentoOk ==>
                      r == Success(Tupla(enderecosIPV[prontos[w]], d[w])) && canais == [])
    {
      Registra(inicios);
      if |prontos| == 0 {
        var erro := FechaConexoes(fechamentoOk);
        if erro.Some? {
          return Failure(erro.value);
        }
        return Failure(Timeout);
      }
      assert Inicios(canais) == inicios;
      var melhor, tempoFim := Melhor(prontos, fim);
      if melhor.None? {
        return Failure(NullPointer);
      }
      var erro := FechaConexoes(fechamentoOk);
      if erro.Some? {
        return Failure(erro.value);
      }
      r := Success(Tupla(melhor.value, tempoFim));
    }
  }
}
