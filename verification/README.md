# Vehicle construction pipeline: `CarBuilder` and `FordEscapeCreator`

This Dafny project models the vehicle construction pipeline of a small educational ASP.NET
application that demonstrates the Builder and Factory Method patterns. It covers two parts:

- **`CarBuilder`** is a fluent builder. It holds eight configuration fields, each with a
  seed value: brand, model, color, year, engine type, horsepower, transmission and warranty
  years. It has eight setters (`Establecer*`) and four defaults (`ConAñoActual`,
  `ConGarantiaEstandar`, `ConMotorEstandar`, `ConTransmisionAutomatica`). The composite
  `ConTodosLosDefectos` applies the four defaults. `Construir` and its alias `Build` turn
  the builder into a `Car`.
- **`FordEscapeCreator.Create`** starts from a new builder and runs one fixed chain of calls
  to produce the Ford Escape.

The model is functional. A builder is an immutable record. Every call that "returns this" in
C# is a pure function from the builder before the call to the builder after it. The clock
read `DateTime.Now.Year` is the explicit parameter `currentYear`.

Modules:

- `Models` (`models.dfy`): the `Car` value record and the field enumeration `Field`.
  `Car.Get` / `Builder.Get` give a uniform view of the eight fields as a `Value`.
- `CarBuilder` (`car_builder.dfy`): the builder record, its seed values (`New`), the setters,
  the defaults, `Construir` and `Build`.
- `Chains` (`chains.dfy`): a fluent chain as a `seq<Call>`, run left to right by `Run`.
  Each call is described by a table that does not depend on how the call is implemented:
  the fields it `Touches` and the value it `Written` into each of them. `Apply` is proved
  to follow this table. From it the module proves:
  - untouched fields survive a chain;
  - the last write to a field wins;
  - calls on disjoint fields commute;
  - the composite default equals its four parts in order;
  - a chain that writes every field does not depend on its starting builder.
- `FordEscapeCreator` (`ford_escape_creator.dfy`): the Escape chain and `Create`.

Dafny identifiers cannot contain `ñ`, so `ConAñoActual`, `EstablecerAño`,
`EstablecerAñosGarantia`, `_año` and `_añosGarantia` become `ConAnioActual`,
`EstablecerAnio`, `EstablecerAniosGarantia`, `anio` and `aniosGarantia`. String values keep
their exact spelling, for example `"Automática"`.

## Model

| member | source | states |
|---|---|---|
| CarBuilder.New | BestPractices/ModelBuilders/CarBuilder.cs:22-31 | A fresh builder holds brand "Ford", model "Mustang", color "Rojo", the current year, engine "I4", 200 hp, transmission "Automática" and a 3-year warranty |
| CarBuilder.EstablecerMarca | BestPractices/ModelBuilders/CarBuilder.cs:42-46 | The brand becomes the argument, any non-null string including the empty one; the other seven fields are unchanged |
| CarBuilder.EstablecerModelo | BestPractices/ModelBuilders/CarBuilder.cs:53-57 | The model becomes the argument; the other seven fields are unchanged |
| CarBuilder.EstablecerColor | BestPractices/ModelBuilders/CarBuilder.cs:64-68 | The color becomes the argument; the other seven fields are unchanged |
| CarBuilder.EstablecerAnio | BestPractices/ModelBuilders/CarBuilder.cs:75-79 | The year becomes the argument, negative values included; the other seven fields are unchanged |
| CarBuilder.EstablecerTipoMotor | BestPractices/ModelBuilders/CarBuilder.cs:86-90 | The engine type becomes the argument; the other seven fields are unchanged |
| CarBuilder.EstablecerCaballosFuerza | BestPractices/ModelBuilders/CarBuilder.cs:97-101 | The horsepower becomes the argument, negative values included; the other seven fields are unchanged |
| CarBuilder.EstablecerTransmision | BestPractices/ModelBuilders/CarBuilder.cs:108-112 | The transmission becomes the argument; the other seven fields are unchanged |
| CarBuilder.EstablecerAniosGarantia | BestPractices/ModelBuilders/CarBuilder.cs:119-123 | The warranty years become the argument, negative values included; the other seven fields are unchanged |
| CarBuilder.ConAnioActual | BestPractices/ModelBuilders/CarBuilder.cs:134-138 | Only the year changes, and it becomes the current year |
| CarBuilder.ConGarantiaEstandar | BestPractices/ModelBuilders/CarBuilder.cs:144-148 | Only the warranty changes, and it becomes 3 years |
| CarBuilder.ConMotorEstandar | BestPractices/ModelBuilders/CarBuilder.cs:154-159 | Only engine type and horsepower change, and they become "I4" and 200 |
| CarBuilder.ConTransmisionAutomatica | BestPractices/ModelBuilders/CarBuilder.cs:165-169 | Only the transmission changes, and it becomes "Automática" |
| CarBuilder.ConTodosLosDefectos | BestPractices/ModelBuilders/CarBuilder.cs:179-185 | The result has the current year, a 3-year warranty, engine "I4", 200 hp and "Automática"; brand, model and color are unchanged |
| CarBuilder.TodosLosDefectosIdempotent | BestPractices/ModelBuilders/CarBuilder.cs:179-185 | Applying all defaults twice with the same year equals applying them once |
| CarBuilder.NewIsDefaulted | BestPractices/ModelBuilders/CarBuilder.cs:25-31 | The seed values agree with the defaults: applying all defaults to a fresh builder in the same year changes nothing |
| CarBuilder.Construir | BestPractices/ModelBuilders/CarBuilder.cs:202-214 | The car holds the builder's value in each of the eight fields |
| CarBuilder.ConstruirInjective | BestPractices/ModelBuilders/CarBuilder.cs:202-214 | Building loses no configuration: two builders build the same car exactly when they are the same builder |
| CarBuilder.Build | BestPractices/ModelBuilders/CarBuilder.cs:220-223 | The alias builds the same car as `Construir` |
| Chains.Apply | BestPractices/ModelBuilders/CarBuilder.cs:42-185 | Every builder call writes its table value into each field it touches and leaves every other field unchanged |
| Chains.Run | BestPractices/Infraestructure/Factories/FordEscapeCreator.cs:29-38 | Running a fluent chain leaves every field that no call in it touches unchanged |
| Chains.RunLastWriteWins | BestPractices/ModelBuilders/CarBuilder.cs:42-169 | After a chain, every touched field holds the value written by the last call that touches it |
| Chains.LaterCallOverrides | BestPractices/ModelBuilders/CarBuilder.cs:42-123 | A call followed by one that touches a superset of its fields equals the later call alone. So a setter called twice keeps the second value, and every call is idempotent |
| Chains.DisjointCallsCommute | BestPractices/ModelBuilders/CarBuilder.cs:42-123 | Calls on disjoint fields commute, for example setters on different fields |
| Chains.TodosLosDefectosIsChain | BestPractices/ModelBuilders/CarBuilder.cs:179-185 | The composite default equals the chain current year, standard warranty, standard engine, automatic transmission |
| Chains.SetterAfterDefaultsWins | BestPractices/ModelBuilders/CarBuilder.cs:179-185 | A call made after all defaults decides the value of every field it touches |
| Chains.RunDependsOnlyOnUntouched | BestPractices/Infraestructure/Factories/FordEscapeCreator.cs:27-38 | Two starting builders that agree outside the fields a chain touches give the same result |
| Chains.CoveringChainIgnoresStart | BestPractices/Infraestructure/Factories/FordEscapeCreator.cs:27-38 | A chain that touches all eight fields gives the same builder from any start |
| FordEscapeCreator.EscapeChainCoversAllFields | BestPractices/Infraestructure/Factories/FordEscapeCreator.cs:29-37 | The Escape chain sets all eight fields explicitly |
| FordEscapeCreator.EscapeCalls | BestPractices/Infraestructure/Factories/FordEscapeCreator.cs:30-37 | The eight Escape calls, applied in order to any builder, leave exactly Ford / Escape / Rojo / current year / "I4 Turbo" / 250 / "Automática" / 3 |
| FordEscapeCreator.EscapeValues | BestPractices/Infraestructure/Factories/FordEscapeCreator.cs:29-37 | From any starting builder, the Escape chain leaves exactly Ford / Escape / Rojo / current year / "I4 Turbo" / 250 / "Automática" / 3. The standard engine is never applied |
| FordEscapeCreator.Create | BestPractices/Infraestructure/Factories/FordEscapeCreator.cs:25-38 | The Escape is a red Ford Escape of the current year, with engine "I4 Turbo", 250 hp, "Automática" and a 3-year warranty |
| FordEscapeCreator.CreateIgnoresStartingBuilder | BestPractices/Infraestructure/Factories/FordEscapeCreator.cs:27-38 | The output does not depend on the builder's seed values. So `Create` is stateless: two calls with the same year build equal cars |

## Left out

- `HomeController`: routing, redirects, `ViewBag`, query-string parsing, logging, and the
  catch blocks that turn exceptions into redirects, are not modelled. They are
  web-framework glue around the pipeline.
- The `VehicleCollection` singleton and the vehicle repository (`AddVehicle`, `Find`,
  listing) are not modelled, and neither are their duplicate-id and not-found rules.
- Vehicle runtime behaviour (`StartEngine`, `StopEngine`, `AddGas`) is not modelled:
  fuel thresholds and engine state rules are outside this model.
- The Mustang and Explorer creators are not modelled.
- Null strings are not modelled. In C# every `string` argument of the setters
  (CarBuilder.cs:44, 55, 66, 88, 110) may be null and is stored without a check, then
  passed on by `Construir`. A Dafny `string` cannot be null, so the model covers every
  non-null string, the empty string included.
- `Car` is modelled as a record of its eight values. This assumes that the `Car`
  constructor stores its arguments `(color, marca, modelo)` into the car's color, brand and
  model, and that the five properties assigned at CarBuilder.cs:207-211 hold exactly the
  values assigned.
- Car identity and identifier assignment are not modelled. Cars are value records compared
  field by field, so "two builds give equal cars" means field-equal cars, not whether they
  are separate objects.
- The clock: `DateTime.Now.Year` is the parameter `currentYear`. Two reads of the clock in
  different years, for example across New Year's Eve, are not modelled. Every operation of
  one chain sees the same `currentYear`.
- Object mutation and aliasing: the C# builder is mutated in place and returns `this`. The
  model threads the builder value through the calls instead, which matches how every
  caller in the modelled files uses the fluent chain.
- C#'s 32-bit `int` is Dafny's unbounded `int`. The builder does no arithmetic, so no
  wrap-around can occur.
