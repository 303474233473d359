/** Fluent chains of builder calls.

    A chain such as `builder.EstablecerMarca("Ford").ConAnioActual()...` is modelled as a
    sequence of `Call`s run left to right. Each call is described independently of its
    implementation by the set of fields it `Touches` and the value it `Written` into each
    of them; `Apply` is proved to follow that table. From it follow the builder's laws:
    untouched fields survive a chain, the last write to a field wins, calls on disjoint
    fields commute, and a chain that writes every field does not depend on where it
    started.
 */
module Chains {
  import opened Models
  import CarBuilder

  /** One call on the builder: the eight setters and the five default operations. */
  datatype Call =
    | EstablecerMarca(marca: string)
    | EstablecerModelo(modelo: string)
    | EstablecerColor(color: string)
    | EstablecerAnio(anio: int)
    | EstablecerTipoMotor(tipoMotor: string)
    | EstablecerCaballosFuerza(caballos: int)
    | EstablecerTransmision(transmision: string)
    | EstablecerAniosGarantia(anios: int)
    | ConAnioActual
    | ConGarantiaEstandar
    | ConMotorEstandar
    | ConTransmisionAutomatica
    | ConTodosLosDefectos

  /** The fields a call overwrites. */
  function Touches(c: Call): set<Field> {
    match c
    case EstablecerMarca(_) => {Marca}
    case EstablecerModelo(_) => {Modelo}
    case EstablecerColor(_) => {Color}
    case EstablecerAnio(_) => {Anio}
    case EstablecerTipoMotor(_) => {TipoMotor}
    case EstablecerCaballosFuerza(_) => {CaballosFuerza}
    case EstablecerTransmision(_) => {Transmision}
    case EstablecerAniosGarantia(_) => {AniosGarantia}
    case ConAnioActual => {Anio}
    case ConGarantiaEstandar => {AniosGarantia}
    case ConMotorEstandar => {TipoMotor, CaballosFuerza}
    case ConTransmisionAutomatica => {Transmision}
    case ConTodosLosDefectos => {Anio, AniosGarantia, TipoMotor, CaballosFuerza, Transmision}
  }

  /** The value a call writes into a field it touches; it depends only on the call and
      the current year, never on the builder's previous state. */
  function Written(c: Call, f: Field, currentYear: int): Value
    requires f in Touches(c)
  {
    match c
    case EstablecerMarca(m) => Text(m)
    case EstablecerModelo(m) => Text(m)
    case EstablecerColor(k) => Text(k)
    case EstablecerAnio(a) => Number(a)
    case EstablecerTipoMotor(t) => Text(t)
    case EstablecerCaballosFuerza(h) => Number(h)
    case EstablecerTransmision(t) => Text(t)
    case EstablecerAniosGarantia(a) => Number(a)
    case ConAnioActual => Number(currentYear)
    case ConGarantiaEstandar => Number(3)
    case ConMotorEstandar => if f == TipoMotor then Text("I4") else Number(200)
    case ConTransmisionAutomatica => Text("Automática")
    case ConTodosLosDefectos =>
      match f
      case Anio => Number(currentYear)
      case AniosGarantia => Number(3)
      case TipoMotor => Text("I4")
      case CaballosFuerza => Number(200)
      case _ => Text("Automática")
  }

  /** Performs one call on the builder. Every touched field receives the call's written
      value and every other field keeps its value. */
  function Apply(b: CarBuilder.Builder, c: Call, currentYear: int): (r: CarBuilder.Builder)
    ensures forall f :: r.Get(f) == if f in Touches(c) then Written(c, f, currentYear) else b.Get(f)
  {
    match c
    case EstablecerMarca(m) => CarBuilder.EstablecerMarca(b, m)
    case EstablecerModelo(m) => CarBuilder.EstablecerModelo(b, m)
    case EstablecerColor(k) => CarBuilder.EstablecerColor(b, k)
    case EstablecerAnio(a) => CarBuilder.EstablecerAnio(b, a)
    case EstablecerTipoMotor(t) => CarBuilder.EstablecerTipoMotor(b, t)
    case EstablecerCaballosFuerza(h) => CarBuilder.EstablecerCaballosFuerza(b, h)
    case EstablecerTransmision(t) => CarBuilder.EstablecerTransmision(b, t)
    case EstablecerAniosGarantia(a) => CarBuilder.EstablecerAniosGarantia(b, a)
    case ConAnioActual => CarBuilder.ConAnioActual(b, currentYear)
    case ConGarantiaEstandar => CarBuilder.ConGarantiaEstandar(b)
    case ConMotorEstandar => CarBuilder.ConMotorEstandar(b)
    case ConTransmisionAutomatica => CarBuilder.ConTransmisionAutomatica(b)
    case ConTodosLosDefectos => CarBuilder.ConTodosLosDefectos(b, currentYear)
  }

  /** The fields written by some call of the chain. */
  function TouchedBy(cs: seq<Call>): set<Field> {
    if cs == [] then {} else Touches(cs[0]) + TouchedBy(cs[1..])
  }

  /** Runs a chain left to right; fields no call of the chain touches are unchanged. */
  function Run(b: CarBuilder.Builder, cs: seq<Call>, currentYear: int): (r: CarBuilder.Builder)
    ensures CarBuilder.SameExcept(b, r, TouchedBy(cs))
    decreases |cs|
  {
    if cs == [] then b else Run(Apply(b, cs[0], currentYear), cs[1..], currentYear)
  }

  /** Running a non-empty chain performs its first call, then runs the rest. */
  lemma RunStep(b: CarBuilder.Builder, c: Call, rest: seq<Call>, currentYear: int)
    ensures Run(b, [c] + rest, currentYear) == Run(Apply(b, c, currentYear), rest, currentYear)
  {
    assert ([c] + rest)[1..] == rest;
  }

  /** Running an eight-call chain is applying its calls one after another. */
  lemma RunEight(b: CarBuilder.Builder, c0: Call, c1: Call, c2: Call, c3: Call,
                 c4: Call, c5: Call, c6: Call, c7: Call, currentYear: int)
    ensures Run(b, [c0, c1, c2, c3, c4, c5, c6, c7], currentYear)
         == Apply(Apply(Apply(Apply(Apply(Apply(Apply(Apply(b,
              c0, currentYear), c1, currentYear), c2, currentYear), c3, currentYear),
              c4, currentYear), c5, currentYear), c6, currentYear), c7, currentYear)
  {
    var y := currentYear;
    var b1 := Apply(b, c0, y);
    var b2 := Apply(b1, c1, y);
    var b3 := Apply(b2, c2, y);
    var b4 := Apply(b3, c3, y);
    var b5 := Apply(b4, c4, y);
    var b6 := Apply(b5, c5, y);
    var b7 := Apply(b6, c6, y);
    RunStep(b, c0, [c1, c2, c3, c4, c5, c6, c7], y);
    RunStep(b1, c1, [c2, c3, c4, c5, c6, c7], y);
    RunStep(b2, c2, [c3, c4, c5, c6, c7], y);
    RunStep(b3, c3, [c4, c5, c6, c7], y);
    RunStep(b4, c4, [c5, c6, c7], y);
    RunStep(b5, c5, [c6, c7], y);
    RunStep(b6, c6, [c7], y);
    RunStep(b7, c7, [], y);
  }

  /** The value the LAST call touching `f` writes into it: scanned from the end of the
      chain, independently of how `Run` walks it. */
  function LastWritten(cs: seq<Call>, f: Field, currentYear: int): Value
    requires f in TouchedBy(cs)
    decreases |cs|
  {
    TouchedBySplit(cs);
    var last := cs[|cs| - 1];
    if f in Touches(last) then Written(last, f, currentYear)
    else LastWritten(cs[..|cs| - 1], f, currentYear)
  }

  /** The fields a chain touches are those of its prefix plus those of its last call. */
  lemma {:induction false} TouchedBySplit(cs: seq<Call>)
    requires cs != []
    ensures TouchedBy(cs) == TouchedBy(cs[..|cs| - 1]) + Touches(cs[|cs| - 1])
    decreases |cs|
  {
    if |cs| > 1 {
      TouchedBySplit(cs[1..]);
      assert cs[1..][..|cs[1..]| - 1] == cs[..|cs| - 1][1..];
    }
  }

  /** Last write wins: after running a chain, every touched field holds the value written
      by the last call of the chain that touches it. */
  lemma {:induction false} RunLastWriteWins(b: CarBuilder.Builder, cs: seq<Call>, currentYear: int, f: Field)
    requires f in TouchedBy(cs)
    ensures Run(b, cs, currentYear).Get(f) == LastWritten(cs, f, currentYear)
    decreases |cs|
  {
    var b1 := Apply(b, cs[0], currentYear);
    var tail := cs[1..];
    if f in TouchedBy(tail) {
      RunLastWriteWins(b1, tail, currentYear, f);
      LastWrittenOfTail(cs, f, currentYear);
    } else {
      LastWrittenOfHead(cs, f, currentYear);
    }
  }

  /** A field the tail of a chain touches gets its last write from the tail. */
  lemma {:induction false} LastWrittenOfTail(cs: seq<Call>, f: Field, currentYear: int)
    requires cs != [] && f in TouchedBy(cs[1..])
    ensures LastWritten(cs, f, currentYear) == LastWritten(cs[1..], f, currentYear)
    decreases |cs|
  {
    var n := |cs|;
    TouchedBySplit(cs[1..]);
    assert cs[1..][n - 2] == cs[n - 1];
    if f !in Touches(cs[n - 1]) {
      assert cs[1..][..n - 2] == cs[..n - 1][1..];
      LastWrittenOfTail(cs[..n - 1], f, currentYear);
    }
  }

  /** A field only the first call touches gets its last write from that call. */
  lemma {:induction false} LastWrittenOfHead(cs: seq<Call>, f: Field, currentYear: int)
    requires cs != [] && f in Touches(cs[0]) && f !in TouchedBy(cs[1..])
    ensures LastWritten(cs, f, currentYear) == Written(cs[0], f, currentYear)
    decreases |cs|
  {
    var n := |cs|;
    if n > 1 {
      TouchedBySplit(cs[1..]);
      assert cs[1..][n - 2] == cs[n - 1];
      assert cs[1..][..n - 2] == cs[..n - 1][1..];
      LastWrittenOfHead(cs[..n - 1], f, currentYear);
    }
  }

  /** A chain's result depends on its starting builder only through the fields the chain
      does not touch. */
  lemma {:induction false} RunDependsOnlyOnUntouched(b1: CarBuilder.Builder, b2: CarBuilder.Builder, cs: seq<Call>, currentYear: int)
    requires CarBuilder.SameExcept(b1, b2, TouchedBy(cs))
    ensures Run(b1, cs, currentYear) == Run(b2, cs, currentYear)
    decreases |cs|
  {
    if cs == [] {
      CarBuilder.Extensionality(b1, b2);
    } else {
      var a1 := Apply(b1, cs[0], currentYear);
      var a2 := Apply(b2, cs[0], currentYear);
      assert CarBuilder.SameExcept(a1, a2, TouchedBy(cs[1..]));
      RunDependsOnlyOnUntouched(a1, a2, cs[1..], currentYear);
    }
  }

  /** A chain that writes every field produces the same builder whatever it starts from. */
  lemma CoveringChainIgnoresStart(b1: CarBuilder.Builder, b2: CarBuilder.Builder, cs: seq<Call>, currentYear: int)
    requires TouchedBy(cs) == AllFields
    ensures Run(b1, cs, currentYear) == Run(b2, cs, currentYear)
  {
    forall f ensures f in TouchedBy(cs) {
      AllFieldsComplete(f);
    }
    RunDependsOnlyOnUntouched(b1, b2, cs, currentYear);
  }

  /** A later call that touches every field an earlier one touches erases the earlier one:
      a setter called twice keeps only the second value, and any call is idempotent. */
  lemma LaterCallOverrides(b: CarBuilder.Builder, c1: Call, c2: Call, currentYear: int)
    requires Touches(c1) <= Touches(c2)
    ensures Apply(Apply(b, c1, currentYear), c2, currentYear) == Apply(b, c2, currentYear)
  {
    CarBuilder.Extensionality(Apply(Apply(b, c1, currentYear), c2, currentYear), Apply(b, c2, currentYear));
  }

  /** Calls on disjoint fields commute. */
  lemma DisjointCallsCommute(b: CarBuilder.Builder, c1: Call, c2: Call, currentYear: int)
    requires Touches(c1) !! Touches(c2)
    ensures Apply(Apply(b, c1, currentYear), c2, currentYear)
         == Apply(Apply(b, c2, currentYear), c1, currentYear)
  {
    CarBuilder.Extensionality(
      Apply(Apply(b, c1, currentYear), c2, currentYear),
      Apply(Apply(b, c2, currentYear), c1, currentYear));
  }

  /** The chain of the four individual defaults, in the order the composite applies them. */
  const DefaultsChain: seq<Call> :=
    [ConAnioActual, ConGarantiaEstandar, ConMotorEstandar, ConTransmisionAutomatica]

  /** The composite default is exactly its four parts run in order. */
  lemma TodosLosDefectosIsChain(b: CarBuilder.Builder, currentYear: int)
    ensures Apply(b, ConTodosLosDefectos, currentYear) == Run(b, DefaultsChain, currentYear)
  {
    var b1 := Apply(b, ConAnioActual, currentYear);
    var b2 := Apply(b1, ConGarantiaEstandar, currentYear);
    var b3 := Apply(b2, ConMotorEstandar, currentYear);
    var b4 := Apply(b3, ConTransmisionAutomatica, currentYear);
    assert Run(b, DefaultsChain, currentYear) == b4;
    CarBuilder.Extensionality(Apply(b, ConTodosLosDefectos, currentYear), b4);
  }

  /** A setter called after all defaults wins over the default for its field. */
  lemma SetterAfterDefaultsWins(b: CarBuilder.Builder, c: Call, currentYear: int, f: Field)
    requires f in Touches(c)
    ensures Apply(Apply(b, ConTodosLosDefectos, currentYear), c, currentYear).Get(f) == Written(c, f, currentYear)
  {
  }
}
