/**
 * `Amostra`: one connection attempt, with the address tried, the instant the
 * attempt started and the instant it became ready (0 while it has not).
 */
module Samples {
  import opened Wrappers
  import opened JavaLong
  import opened Address

  /** Duration of an attempt: `Long.MAX_VALUE` while unfinished (`tempoFim == 0`), else the long difference. */
  function Total(tempoInicio: Long, tempoFim: Long): (t: Long)
    ensures tempoFim == 0 ==> t == LONG_MAX
    ensures tempoFim != 0 && 0 <= tempoInicio && 0 <= tempoFim ==> t == tempoFim - tempoInicio
  {
    if tempoFim == 0 then LONG_MAX else Sub(tempoFim, tempoInicio)
  }

  class Amostra {
    /** The address; `None` is Java's `null`, which the constructor accepts. */
    const enderecoIp: Option<Addr>
    const tempoInicio: Long
    var tempoFim: Long

    constructor (enderecoIp: Option<Addr>, tempoInicio: Long)
      ensures this.enderecoIp == enderecoIp && this.tempoInicio == tempoInicio
      ensures tempoFim == 0
    {
      this.enderecoIp := enderecoIp;
      this.tempoInicio := tempoInicio;
      tempoFim := 0;
    }

    /** Only `tempoFim` changes: the address and the start time are constants. */
    method SetTempoFim(tempoFim: Long)
      modifies this
      ensures this.tempoFim == tempoFim
    {
      this.tempoFim := tempoFim;
    }

    /** `getTempoTotal`: the sentinel while unfinished, else the elapsed time. */
    function TempoTotal(): (t: Long)
      reads this
      ensures tempoFim == 0 ==> t == LONG_MAX
      ensures tempoFim != 0 && 0 <= tempoInicio && 0 <= tempoFim ==> t == tempoFim - tempoInicio
    {
      Total(tempoInicio, tempoFim)
    }

    /** Orders samples by duration; a missing (`null`) partner always compares as greater. */
    function CompareTo(outro: Amostra?): (r: int)
      reads this, outro
      ensures outro == null ==> r == 1
      ensures outro != null ==> (r < 0 <==> TempoTotal() < outro.TempoTotal())
      ensures outro != null ==> (r == 0 <==> TempoTotal() == outro.TempoTotal())
      ensures outro != null ==> (r > 0 <==> TempoTotal() > outro.TempoTotal())
    {
      if outro == null then 1 else LongCompare(TempoTotal(), outro.TempoTotal())
    }

    /** Java's `equals(Object)`: identity, or another `Amostra` with the same non-null address and times. */
    predicate Equals(objeto: object?)
      reads this, objeto
      ensures this == objeto ==> Equals(objeto)
      ensures Equals(objeto) ==> objeto != null && objeto is Amostra
      ensures this != objeto && enderecoIp.None? ==> !Equals(objeto)
    {
      if this == objeto then true
      else if objeto is Amostra then
        var outro := objeto as Amostra;
        if enderecoIp.None? then false
        else enderecoIp == outro.enderecoIp && tempoInicio == outro.tempoInicio && tempoFim == outro.tempoFim
      else false
    }
  }

  /** A finished attempt lasts `tempoFim - tempoInicio`, below the sentinel when the start is a positive reading. */
  lemma FinishedDuration(a: Amostra)
    requires a.tempoFim != 0
    requires 0 < a.tempoInicio <= a.tempoFim
    ensures a.TempoTotal() == a.tempoFim - a.tempoInicio < LONG_MAX
  {
    SubOfReadings(a.tempoFim, a.tempoInicio);
  }

  /** A freshly constructed attempt has the sentinel duration. */
  lemma FreshSampleIsUnfinished(a: Amostra)
    requires a.tempoFim == 0
    ensures a.TempoTotal() == LONG_MAX
  {
  }

  /** An unfinished attempt never beats a finished one whose clock readings are positive. */
  lemma UnfinishedLosesToFinished(u: Amostra, f: Amostra)
    requires u.tempoFim == 0
    requires f.tempoFim != 0 && 0 < f.tempoInicio <= f.tempoFim
    ensures u.CompareTo(f) > 0 && f.CompareTo(u) < 0
  {
    FinishedDuration(f);
  }

  /** `compareTo`'s sign is antisymmetric. */
  lemma CompareToAntisymmetric(a: Amostra, b: Amostra)
    ensures (a.CompareTo(b) < 0 <==> b.CompareTo(a) > 0) && (a.CompareTo(b) == 0 <==> b.CompareTo(a) == 0)
  {
  }

  /** `compareTo` is transitive. */
  lemma CompareToTransitive(a: Amostra, b: Amostra, c: Amostra)
    requires a.CompareTo(b) <= 0 && b.CompareTo(c) <= 0
    ensures a.CompareTo(c) <= 0
    ensures a.CompareTo(b) < 0 || b.CompareTo(c) < 0 ==> a.CompareTo(c) < 0
  {
  }

  /** Two attempts tie exactly when their durations agree, whatever their addresses. */
  lemma CompareToTiesIgnoreAddress(a: Amostra, b: Amostra)
    ensures a.CompareTo(b) == 0 <==> a.TempoTotal() == b.TempoTotal()
  {
  }

  /** `compareTo(null)` is positive. */
  lemma CompareToNull(a: Amostra)
    ensures a.CompareTo(null) == 1
  {
  }

  /** `equals` holds of the object itself, even when its address is null. */
  lemma EqualsReflexive(a: Amostra)
    ensures a.Equals(a)
  {
  }

  /** `equals(null)` and `equals` of an object that is not an `Amostra` are false. */
  lemma EqualsRejectsOthers(a: Amostra, o: object?)
    requires o == null || !(o is Amostra)
    ensures !a.Equals(o)
  {
  }

  /** On two distinct objects, `equals` is false when the receiver's address is null, else field equality. */
  lemma EqualsOnDistinctSamples(a: Amostra, b: Amostra)
    requires a != b
    ensures a.enderecoIp.None? ==> !a.Equals(b)
    ensures a.enderecoIp.Some? ==>
              (a.Equals(b) <==> a.enderecoIp == b.enderecoIp && a.tempoInicio == b.tempoInicio && a.tempoFim == b.tempoFim)
  {
  }

  /**
   * Not a library operation: the scenario of the `AmostraTeste` unit tests,
   * replayed on the model (finished, unfinished and null-address samples
   * sharing one start instant).
   */
  method Scenario(agora: Long, localhost: Addr)
    requires 0 < agora && agora + 200 <= LONG_MAX
  {
    var a1 := new Amostra(Some(localhost), agora);
    var a2 := new Amostra(Some(localhost), agora);
    var a3 := new Amostra(Some(localhost), agora);
    var a4 := new Amostra(Some(localhost), agora);
    var a5 := new Amostra(None, agora);
    a1.SetTempoFim(agora + 100);
    a4.SetTempoFim(agora + 100);
    a2.SetTempoFim(agora + 200);
    assert a3.TempoTotal() == LONG_MAX;
    assert a1.TempoTotal() == 100 && a2.TempoTotal() == 200;
    assert a1.CompareTo(a2) < 0 && a2.CompareTo(a1) > 0 && a1.CompareTo(null) > 0;
    assert !a1.Equals(null) && !a1.Equals(a2) && !a5.Equals(a4);
    assert a1.Equals(a1) && a1.Equals(a4);
  }
}
