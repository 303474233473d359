/** The fluent car builder.

    The builder's state is an immutable record of the eight configuration fields. Every
    operation that "returns this" in the fluent interface is a pure function from the
    builder before the call to the builder after it, so a chain of calls is nested
    application. The one impure input, the clock's current year, is the explicit
    parameter `currentYear`.
 */
module CarBuilder {
  import opened Models

  /** The builder's state: one component per configuration field. */
  datatype Builder = Builder(
    marca: string,
    modelo: string,
    color: string,
    anio: int,
    tipoMotor: string,
    caballosFuerza: int,
    transmision: string,
    aniosGarantia: int)
  {
    /** The value this builder currently holds for field `f`; the same view of the
        fields as `Car.Get`, so `Construir` can be stated field by field. */
    function Get(f: Field): Value {
      match f
      case Marca => Text(marca)
      case Modelo => Text(modelo)
      case Color => Text(color)
      case Anio => Number(anio)
      case TipoMotor => Text(tipoMotor)
      case CaballosFuerza => Number(caballosFuerza)
      case Transmision => Text(transmision)
      case AniosGarantia => Number(aniosGarantia)
    }
  }

  /** `r` holds the same value as `b` in every field outside `fs`. */
  predicate SameExcept(b: Builder, r: Builder, fs: set<Field>) {
    forall f :: f !in fs ==> r.Get(f) == b.Get(f)
  }

  /** Two builders that agree on every field are the same builder. */
  lemma Extensionality(b1: Builder, b2: Builder)
    requires forall f :: b1.Get(f) == b2.Get(f)
    ensures b1 == b2
  {
    assert b1.Get(Marca) == b2.Get(Marca);
    assert b1.Get(Modelo) == b2.Get(Modelo);
    assert b1.Get(Color) == b2.Get(Color);
    assert b1.Get(Anio) == b2.Get(Anio);
    assert b1.Get(TipoMotor) == b2.Get(TipoMotor);
    assert b1.Get(CaballosFuerza) == b2.Get(CaballosFuerza);
    assert b1.Get(Transmision) == b2.Get(Transmision);
    assert b1.Get(AniosGarantia) == b2.Get(AniosGarantia);
  }

  /** A freshly constructed builder: every field starts at its seed value, the year at
      the current year. */
  function New(currentYear: int): (r: Builder)
    ensures r.marca == "Ford" && r.modelo == "Mustang" && r.color == "Rojo"
    ensures r.anio == currentYear
    ensures r.tipoMotor == "I4" && r.caballosFuerza == 200
    ensures r.transmision == "Automática" && r.aniosGarantia == 3
  {
    Builder("Ford", "Mustang", "Rojo", currentYear, "I4", 200, "Automática", 3)
  }

  // Individual setters: each stores its argument, without validation, in exactly one field.

  function EstablecerMarca(b: Builder, marca: string): (r: Builder)
    ensures r.marca == marca
    ensures SameExcept(b, r, {Marca})
  {
    b.(marca := marca)
  }

  function EstablecerModelo(b: Builder, modelo: string): (r: Builder)
    ensures r.modelo == modelo
    ensures SameExcept(b, r, {Modelo})
  {
    b.(modelo := modelo)
  }

  function EstablecerColor(b: Builder, color: string): (r: Builder)
    ensures r.color == color
    ensures SameExcept(b, r, {Color})
  {
    b.(color := color)
  }

  function EstablecerAnio(b: Builder, anio: int): (r: Builder)
    ensures r.anio == anio
    ensures SameExcept(b, r, {Anio})
  {
    b.(anio := anio)
  }

  function EstablecerTipoMotor(b: Builder, tipoMotor: string): (r: Builder)
    ensures r.tipoMotor == tipoMotor
    ensures SameExcept(b, r, {TipoMotor})
  {
    b.(tipoMotor := tipoMotor)
  }

  function EstablecerCaballosFuerza(b: Builder, caballos: int): (r: Builder)
    ensures r.caballosFuerza == caballos
    ensures SameExcept(b, r, {CaballosFuerza})
  {
    b.(caballosFuerza := caballos)
  }

  function EstablecerTransmision(b: Builder, transmision: string): (r: Builder)
    ensures r.transmision == transmision
    ensures SameExcept(b, r, {Transmision})
  {
    b.(transmision := transmision)
  }

  function EstablecerAniosGarantia(b: Builder, anios: int): (r: Builder)
    ensures r.aniosGarantia == anios
    ensures SameExcept(b, r, {AniosGarantia})
  {
    b.(aniosGarantia := anios)
  }

  // Default operations: each overwrites a fixed subset of fields with fixed values.

  function ConAnioActual(b: Builder, currentYear: int): (r: Builder)
    ensures r.anio == currentYear
    ensures SameExcept(b, r, {Anio})
  {
    b.(anio := currentYear)
  }

  function ConGarantiaEstandar(b: Builder): (r: Builder)
    ensures r.aniosGarantia == 3
    ensures SameExcept(b, r, {AniosGarantia})
  {
    b.(aniosGarantia := 3)
  }

  function ConMotorEstandar(b: Builder): (r: Builder)
    ensures r.tipoMotor == "I4" && r.caballosFuerza == 200
    ensures SameExcept(b, r, {TipoMotor, CaballosFuerza})
  {
    b.(tipoMotor := "I4", caballosFuerza := 200)
  }

  function ConTransmisionAutomatica(b: Builder): (r: Builder)
    ensures r.transmision == "Automática"
    ensures SameExcept(b, r, {Transmision})
  {
    b.(transmision := "Automática")
  }

  /** All four defaults, applied as current year, standard warranty, standard engine,
      automatic transmission. The result carries every default value, and brand, model
      and color are left as they were. */
  function ConTodosLosDefectos(b: Builder, currentYear: int): (r: Builder)
    ensures r.anio == currentYear && r.aniosGarantia == 3
    ensures r.tipoMotor == "I4" && r.caballosFuerza == 200
    ensures r.transmision == "Automática"
    ensures r.marca == b.marca && r.modelo == b.modelo && r.color == b.color
  {
    ConTransmisionAutomatica(ConMotorEstandar(ConGarantiaEstandar(ConAnioActual(b, currentYear))))
  }

  /** Applying all defaults twice with the same year is the same as applying them once. */
  lemma TodosLosDefectosIdempotent(b: Builder, currentYear: int)
    ensures ConTodosLosDefectos(ConTodosLosDefectos(b, currentYear), currentYear)
         == ConTodosLosDefectos(b, currentYear)
  {
  }

  /** The seed values of a fresh builder agree with the defaults: applying all defaults to
      a fresh builder, in the same year, changes nothing. */
  lemma NewIsDefaulted(currentYear: int)
    ensures ConTodosLosDefectos(New(currentYear), currentYear) == New(currentYear)
  {
  }

  /** Builds a car from the current configuration. The car holds exactly the builder's
      values in every field; the builder is a value and is not consumed, so building twice
      from it gives equal cars. */
  function Construir(b: Builder): (r: Car)
    ensures forall f :: r.Get(f) == b.Get(f)
  {
    Car(b.color, b.marca, b.modelo,
        b.anio, b.tipoMotor, b.caballosFuerza, b.transmision, b.aniosGarantia)
  }

  /** Building loses no configuration: different builders build different cars. */
  lemma ConstruirInjective(b1: Builder, b2: Builder)
    ensures Construir(b1) == Construir(b2) <==> b1 == b2
  {
    if Construir(b1) == Construir(b2) {
      Extensionality(b1, b2);
    }
  }

  /** The compatibility alias: builds the same car as `Construir`. */
  function Build(b: Builder): (r: Car)
    ensures r == Construir(b)
  {
    Construir(b)
  }
}
