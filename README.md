# Design-pattern demos: observer registry, fluent builder, lazy singleton

A Dafny model of the three demos of the repository that carry a contract
beyond a single virtual call:

- **Observer** (`observer.dfy`): the `WeatherStation` subject keeps an ordered
  registry of observers. `addObserver` appends. `removeObserver` erases every
  occurrence with the erase-remove idiom. `setWeatherData` stores a reading and
  then `notifyObservers` calls `update` once per registry entry, in registry
  order. Observers are a type with equality, standing for the `Observer*`
  pointers the C++ compares. The float type is a type parameter `F`, because
  the station only copies those values. The `update` calls are recorded in a
  ghost log of `(observer, reading)` pairs.
- **Builder** (`builder.dfy`, `decimal.dfy`): `ComputerBuilder` has setters
  that overwrite their own fields and an `addPeripheral` that appends.
  `build` rejects an empty CPU first, then RAM 0, and otherwise copies every
  field into an immutable `Computer`. The `ComputerDirector` recipes are
  included. `setStorage` stores `std::to_string` of its size; `decimal.dfy`
  defines that rendering and proves a parser inverts it.
- **Singleton** (`singleton.dfy`): `getInstance` builds the instance only
  while the static pointer is null, and returns it every time after.
  Dafny has no mutable static fields, so the static pointer is the field of an
  `InstanceSlot` object that all callers share.

`wrappers.dfy` holds the `Option` and `Result` types. A `Result` stands for
`build`'s exceptions, and `Option` for the station's fields before the first
reading.

The files under `Implementations/` are byte-identical to their root-level
counterparts, with the same line numbers. Each row below cites one of the two
copies, and the cited lines are the same in the other.

The code has no accessor for the stored reading, no policy for an `update`
call that fails, and no snapshot of the registry taken before a notification
pass; the model has none of these either.

## Model

| member | source | states |
|---|---|---|
| `Observer.Without` | ObserverMethod.cpp:25-27 | the erased observer is absent from the result, and every other observer occurs exactly as often as before |
| `Observer.WithoutAppend` | Implementations/ObserverMethod.cpp:25-27 | erasing distributes over concatenation, so the remaining observers keep their relative order |
| `Observer.WithoutAbsent` | Implementations/ObserverMethod.cpp:25-27 | removing an observer that is not registered leaves the registry unchanged |
| `Observer.WithoutIdempotent` | ObserverMethod.cpp:25-27 | removing the same observer twice equals removing it once |
| `Observer.WithoutCommutes` | Implementations/ObserverMethod.cpp:25-27 | removing two observers gives the same registry in either order |
| `Observer.Deliveries` | Implementations/ObserverMethod.cpp:29-33 | a notification pass makes one call per registry entry, and the i-th call goes to the i-th entry with the stored reading |
| `Observer.DeliveredOncePerEntry` | ObserverMethod.cpp:29-33 | in one pass, an observer registered k times receives the reading exactly k times (none if absent or the registry is empty), and only that reading |
| `Observer.RemovedReceivesNothing` | ObserverMethod.cpp:72-74 | after `removeObserver(o)`, a pass over the remaining registry delivers nothing to `o` |
| `Observer.WeatherStation.constructor` | ObserverMethod.cpp:12-17 | a new station has no observers, no reading yet and has made no calls |
| `Observer.WeatherStation.AddObserver` | ObserverMethod.cpp:21-23 | the registry becomes the old one plus the observer at the end, duplicates included; the reading and the calls made are unchanged |
| `Observer.WeatherStation.RemoveObserver` | ObserverMethod.cpp:25-27 | the compaction loop of `std::remove` followed by `erase` leaves exactly the old registry with every occurrence of the observer erased; nothing else changes |
| `Observer.WeatherStation.NotifyObservers` | ObserverMethod.cpp:29-33 | the calls made grow by one per registry entry, in registry order, each with the stored reading; registry and reading are unchanged |
| `Observer.WeatherStation.SetWeatherData` | Implementations/ObserverMethod.cpp:35-40 | the stored reading becomes the three new values, every call of the pass carries exactly them, and the registry is unchanged |
| `Observer.WeatherDemo` | ObserverMethod.cpp:59-76 | the driver's calls go phone, desktop, phone, desktop, phone with readings 1, 1, 2, 2, 3; desktop receives only the first two readings; the final registry is the phone alone |
| `Decimal.NatToString` | BuilderMethod.cpp:26 | the rendering of a natural number is non-empty, digits only, and starts with '0' only for zero |
| `Decimal.IntToString` | BuilderMethod.cpp:26 | `to_string` starts with '-' exactly for negative numbers and is otherwise the canonical digit string of the magnitude |
| `Decimal.NatRoundTrip` | Implementations/BuilderMethod.cpp:26 | reading the digits back gives the natural number that was rendered |
| `Decimal.IntRoundTrip` | BuilderMethod.cpp:25-29 | reading back the stored storage string gives the integer passed to `setStorage` |
| `Decimal.IntToStringInjective` | Implementations/BuilderMethod.cpp:25-29 | different storage sizes are stored as different strings |
| `Builder.Validate` | Implementations/BuilderMethod.cpp:95-100 | `build` succeeds exactly when the CPU is non-empty and the RAM is non-zero (negative RAM passes); an empty CPU is reported first, RAM 0 only when the CPU is set; on success the product equals the builder's fields; each failure carries the text its `runtime_error` throws |
| `Builder.GpuLabel` | BuilderMethod.cpp:64 | the GPU line shows the GPU whenever one was set and "None" when it is empty |
| `Builder.UnconfiguredFails` | BuilderMethod.cpp:44-51 | a builder whose CPU or RAM still has its initial value cannot build |
| `Builder.ComputerBuilder.Create` | BuilderMethod.cpp:11-13 | a new builder has empty strings, RAM 0 and no peripherals |
| `Builder.ComputerBuilder.SetCpu` | BuilderMethod.cpp:15-18 | overwrites the CPU and no other field |
| `Builder.ComputerBuilder.SetRam` | BuilderMethod.cpp:20-23 | overwrites the RAM and no other field |
| `Builder.ComputerBuilder.SetStorage` | BuilderMethod.cpp:25-29 | stores the decimal rendering of the size and the type verbatim, and changes no other field |
| `Builder.ComputerBuilder.SetGpu` | Implementations/BuilderMethod.cpp:31-34 | overwrites the GPU and no other field |
| `Builder.ComputerBuilder.AddPeripheral` | Implementations/BuilderMethod.cpp:36-39 | appends the peripheral after the earlier ones, duplicates kept, and changes no other field |
| `Builder.ComputerBuilder.Build` | BuilderMethod.cpp:93-103 | the result is the validation of the builder's current fields, which copies them all into the `Computer` on success |
| `Builder.BuildCustomComputer` | BuilderMethod.cpp:132-139 | the driver's hand-built machine passes validation with exactly the fields it set |
| `Builder.BuildGamingComputer` | Implementations/BuilderMethod.cpp:107-117 | the gaming recipe never fails and yields exactly the listed fields |
| `Builder.BuildOfficeComputer` | BuilderMethod.cpp:119-127 | the office recipe never fails, yields exactly the listed fields with an empty GPU, and its GPU line reads "None" |
| `LazySingleton.InstanceSlot.constructor` | SingletoneMethod.cpp:28 | the static pointer starts null and nothing has been constructed |
| `LazySingleton.InstanceSlot.GetInstance` | SingletoneMethod.cpp:13-18 | a new object is constructed only when the pointer is null; the result is never null and is what the pointer then holds; at most one object is ever constructed |
| `LazySingleton.SingletonDemo` | Implementations/SingletoneMethod.cpp:30-42 | the driver's two calls return the same instance, built once |

## Left out

- Output: every `cout` line is left out. This covers `Observer::update`'s display bodies, `showSpecs` apart from its GPU "None" choice, `showMessage`, and the `Singleton` constructor's message.
- Float values: the weather fields are a type parameter, so no float arithmetic or rounding is modelled.
- Observer.WeatherStation.NotifyObservers: requires a stored reading. In the C++, calling `notifyObservers` before any `setWeatherData` reads uninitialised floats, which the model does not give a value to.
- Registry mutation from inside `update` is not modelled: the range-for in `notifyObservers` would then use an invalidated iterator, which is undefined behaviour. `update` is taken not to touch the registry.
- Chaining: the setters return `*this` so calls can be chained. The model's setters return nothing and the recipes issue the same calls one after another.
- Pointer ownership and lifetimes are left out: raw `Observer*`, `unique_ptr<Computer>`, the leaked singleton, and the deleted copy operations, which only matter at compile time.
- Thread safety is left out; every demo is single-threaded.
- `ComputerBuilder::create` returns the builder by value. In the model it is the constructor `Create`.
- The abstract factory, factory, adapter and strategy demos are not part of this model. They only dispatch virtual calls that print or multiply doubles.
