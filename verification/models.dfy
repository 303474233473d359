/** The car produced by the builder, as a plain value record, and a uniform view of its
    eight configuration fields.

    A car is its eight field values: the three constructor arguments (color, brand, model)
    and the five properties the builder assigns afterwards. Object identity is not
    modelled, so cars are compared field by field.
 */
module Models {

  /** The eight configuration fields shared by the builder and the car. */
  datatype Field =
    | Marca | Modelo | Color | Anio
    | TipoMotor | CaballosFuerza | Transmision | AniosGarantia

  /** Every configuration field. */
  const AllFields: set<Field> :=
    {Marca, Modelo, Color, Anio, TipoMotor, CaballosFuerza, Transmision, AniosGarantia}

  /** `AllFields` leaves no field out. */
  lemma AllFieldsComplete(f: Field)
    ensures f in AllFields
  {
  }

  /** A field's value: four fields hold text, four hold an integer. */
  datatype Value = Text(text: string) | Number(number: int)

  /** A configured car; the first three components follow the constructor order
      `Car(color, marca, modelo)`, the rest are the properties set after construction. */
  datatype Car = Car(
    color: string,
    marca: string,
    modelo: string,
    anio: int,
    tipoMotor: string,
    caballosFuerza: int,
    transmision: string,
    aniosGarantia: int)
  {
    /** The value this car holds for field `f`; `CarBuilder.Builder.Get` gives the same
        view of a builder. */
    function Get(f: Field): Value {
      match f
      case Marca => Text(marca)
      case Modelo => Text(modelo)
      case Color => Text(color)
      case Anio => Number(anio)
      case TipoMotor => Text(tipoMotor)
      case CaballosFuerza => Number(caballosFuerza)
      case Transmision => Text(transmision)
      case AniosGarantia => Number(aniosGarantia)
    }
  }
}
