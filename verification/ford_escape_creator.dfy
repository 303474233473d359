/** The Ford Escape creator: a fresh builder driven through one fixed chain of calls.

    The creator holds no state; the clock read the chain depends on is the parameter
    `currentYear`.
 */
module FordEscapeCreator {
  import opened Models
  import CarBuilder
  import opened Chains

  /** The chain the creator runs on its fresh builder. The standard-engine default is not
      part of it, so the turbo engine and its horsepower are never overwritten. */
  const EscapeChain: seq<Call> := [
    EstablecerMarca("Ford"),
    EstablecerModelo("Escape"),
    EstablecerColor("Rojo"),
    EstablecerTipoMotor("I4 Turbo"),
    EstablecerCaballosFuerza(250),
    ConAnioActual,
    ConGarantiaEstandar,
    ConTransmisionAutomatica
  ]

  /** The chain writes every one of the eight fields. */
  lemma EscapeChainCoversAllFields()
    ensures TouchedBy(EscapeChain) == AllFields
  {
  }

  /** Creates a Ford Escape: red Ford Escape of the current year with the 250 hp turbo
      engine, automatic transmission and the standard three-year warranty. */
  function Create(currentYear: int): (r: Car)
    ensures r.marca == "Ford" && r.modelo == "Escape" && r.color == "Rojo"
    ensures r.tipoMotor == "I4 Turbo" && r.caballosFuerza == 250
    ensures r.anio == currentYear && r.aniosGarantia == 3 && r.transmision == "Automática"
  {
    EscapeValues(CarBuilder.New(currentYear), currentYear);
    CarBuilder.Construir(Run(CarBuilder.New(currentYear), EscapeChain, currentYear))
  }

  /** The Escape calls, applied one after another, from any starting builder. */
  lemma EscapeCalls(b: CarBuilder.Builder, currentYear: int)
    ensures Apply(Apply(Apply(Apply(Apply(Apply(Apply(Apply(b,
              EstablecerMarca("Ford"), currentYear), EstablecerModelo("Escape"), currentYear),
              EstablecerColor("Rojo"), currentYear), EstablecerTipoMotor("I4 Turbo"), currentYear),
              EstablecerCaballosFuerza(250), currentYear), ConAnioActual, currentYear),
              ConGarantiaEstandar, currentYear), ConTransmisionAutomatica, currentYear)
         == CarBuilder.Builder("Ford", "Escape", "Rojo", currentYear, "I4 Turbo", 250, "Automática", 3)
  {
    var y := currentYear;
    var named := Apply(Apply(Apply(b, EstablecerMarca("Ford"), y), EstablecerModelo("Escape"), y), EstablecerColor("Rojo"), y);
    var engine := Apply(Apply(named, EstablecerTipoMotor("I4 Turbo"), y), EstablecerCaballosFuerza(250), y);
    var defaults := Apply(Apply(Apply(engine, ConAnioActual, y), ConGarantiaEstandar, y), ConTransmisionAutomatica, y);
    CarBuilder.Extensionality(defaults, CarBuilder.Builder("Ford", "Escape", "Rojo", y, "I4 Turbo", 250, "Automática", 3));
  }

  /** The builder the Escape chain leaves behind, from any starting builder. */
  lemma EscapeValues(b: CarBuilder.Builder, currentYear: int)
    ensures Run(b, EscapeChain, currentYear)
         == CarBuilder.Builder("Ford", "Escape", "Rojo", currentYear, "I4 Turbo", 250, "Automática", 3)
  {
    RunEight(b, EstablecerMarca("Ford"), EstablecerModelo("Escape"), EstablecerColor("Rojo"),
             EstablecerTipoMotor("I4 Turbo"), EstablecerCaballosFuerza(250),
             ConAnioActual, ConGarantiaEstandar, ConTransmisionAutomatica, currentYear);
    EscapeCalls(b, currentYear);
  }

  /** The Escape does not depend on the builder's seed values: the same chain run on any
      builder builds the same car, so every call with the same year gives an equal car. */
  lemma CreateIgnoresStartingBuilder(b: CarBuilder.Builder, currentYear: int)
    ensures CarBuilder.Construir(Run(b, EscapeChain, currentYear)) == Create(currentYear)
  {
    EscapeChainCoversAllFields();
    CoveringChainIgnoresStart(b, CarBuilder.New(currentYear), EscapeChain, currentYear);
  }
}
