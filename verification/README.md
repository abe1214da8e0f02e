# Parameter registry of the Bela stiff-string instrument

The instrument drives a dynamic stiff-string simulation from analog
controls. Its parameter registry holds one `Parameter` for each physical
quantity: length `L`, density `rho`, radius `r`, tension `T`, Young's
modulus `E`, the damping coefficients `sigma0` and `sigma1`, and the
excitation location `loc`. Each parameter stores its initial value and the
range its control maps onto. It also carries two integers derived from its
name:

- its *id*: its position in the order the simulation expects, namely
  `L, rho, r, T, E, sigma0, sigma1`, or -1 for a name outside that order;
- its *channel*: the integer value of its name, which is the analog
  channel of the `AnalogInput` the parameter creates and owns.

The registry packs the current values of the seven canonical parameters
into the simulation's parameter vector. `loc` never enters that vector.

The project is split into four modules:

- `Names` (`names.dfy`) covers the names, the two orders and the id/channel
  derivation. The id is found by a linear search over the canonical order,
  proved correct once and then specialised. The channel is the name's enum
  value, a cast in the source, modelled as the name's position in the
  declaration order under the enum assumption stated below.
- `Analog` (`analog_input.dfy`) is the analog input: its state fields, its
  constructor with the default threshold 0.005 and calibration switched on,
  and its accessors. The target range is constant.
- `StiffString` (`stiff_string.dfy`) is the simulation's parameter vector
  and its field layout.
- `Registry` (`parameters.dfy`) holds the configured initial values and
  ranges, the `Parameter` class, and the `Parameters` registry.
  - The registry's map is filled by emplace. An emplace never replaces an
    existing entry.
  - `GetDSSParameters` packs the vector.

How a parameter's current value is computed (`getValue`) is not part of
this model. `GetDSSParameters` therefore takes it as a function argument,
and the lemmas about the vector hold for every such function. That
function cannot read the heap, so the lemmas describe the vector built from
one snapshot of the parameters' state.

Nothing in the modelled code writes a parameter's value after
construction, so `Parameter.value` is a constant.

## Model

| member | source | states |
|---|---|---|
| Names.FindIndex | core/Parameters.cpp:61-63 | The search result is -1 exactly when the name is absent. Otherwise it is an index holding the name with no earlier occurrence, i.e. the distance to the first match. |
| Names.FindIndexOfDistinct | core/Parameters.cpp:61-63 | On a sequence without duplicates, the search returns each element's own position. |
| Names.FindIndexInPrefix | core/Parameters.cpp:61-63 | Appending elements never changes where an element already present is found. |
| Names.CanonicalMembers | core/Parameters.cpp:48-58 | The canonical order holds every name except `loc`. Under the assumed enum, the declaration order is the canonical order followed by `loc`. |
| Names.ParamId | core/Parameters.cpp:61-65 | The id lies in -1..6. It is -1 exactly for `loc`. Otherwise the canonical order holds the name at that position. |
| Names.ParamIdOfCanonical | core/Parameters.cpp:50-65 | The k-th name of the canonical order has id k. |
| Names.ParamIdDistinct | core/Parameters.cpp:50-65 | Two different names never share a non-negative id. |
| Names.Channel | core/Parameters.cpp:67 | The channel is the name's enum value: a number in 0..7 whose position in the declaration order holds the name. |
| Names.NameOfChannel | core/Parameters.cpp:67 | A channel number has a name exactly when it lies in 0..7, and that name's channel is the number given: the inverse of the cast. |
| Names.ChannelRoundTrip | core/Parameters.cpp:67 | Channel and NameOfChannel are mutually inverse, so no two names share a channel. |
| Names.ParamIdIsChannel | core/Parameters.cpp:48-67 | Under the assumed enum order, the simulation id equals the analog channel for every canonical name. The program itself does not rely on this: it computes the id by lookup. |
| Registry.InitialValue | core/Parameters.cpp:15-28 | The configured initial values: each canonical parameter starts inside its range, and `loc` starts outside it at -1. |
| Registry.InitialRange | core/Parameters.cpp:15-28 | The configured ranges: density's is the only reversed one. |
| Registry.Emplace | core/Parameters.cpp:11 | Emplace adds the key. An existing key keeps its entry, a new key gets the new value, and every other entry is unchanged. |
| Registry.EmplaceEachName | core/Parameters.cpp:15-28 | Emplacing the eight names in sequence into an empty map never meets an existing key, so each name ends up with the entry created for it. |
| Registry.Parameter.constructor | core/Parameters.cpp:45-69 | It stores name, value and range and sets the id to the canonical position, or -1. It creates a fresh input on the name's channel over the same range, with threshold 0.005 and calibration on. |
| Registry.Parameters.CreateParameter | core/Parameters.cpp:10-12 | It builds a fresh parameter from its arguments and emplaces it under its name. |
| Registry.Parameters.constructor | core/Parameters.cpp:7-29 | Every name has a freshly created entry stored under its own name, with its canonical id, its configured initial value and range, and an owned input over that range. |
| Registry.Parameters.GetDSSParameters | core/Parameters.cpp:31-43 | Slot k of the vector is the value of the k-th canonical parameter. |
| Registry.Parameters.ValueAtParamId | core/Parameters.cpp:31-43 | Each canonical parameter's value lands in the slot named by its id. |
| Registry.Parameters.IgnoresLoc | core/Parameters.cpp:31-43 | The vector depends only on the seven canonical parameters, never on `loc`. |
| Analog.AnalogInput.constructor | AnalogInput.h:13 | It stores the channel, the target range and the threshold, which defaults to 0.005. Calibration starts switched on. |
| Analog.AnalogInput.GetCurrentValue | AnalogInput.h:17 | It returns the stored reading and changes nothing. |
| Analog.AnalogInput.HasChanged | AnalogInput.h:20 | It returns the stored change flag and changes nothing. |
| Analog.AnalogInput.GetValueRange | AnalogInput.h:22 | It returns the observed calibration bounds as (minimum, maximum), not the target range, and changes nothing. |

## Left out

- `AnalogInput::read` and `AnalogInput::getCurrentValueMapped`: their bodies live in `AnalogInput.cpp`, which is not part of this model.
  - `Analog.AnalogInput.Read` only declares the frame the header allows: any field except the constant target range.
  - `getCurrentValueMapped` is not modelled.
- The hardware context (`BelaContext`) passed to `read` is dropped. Only the frame index remains as a parameter.
- `Parameter::getValue` and its behaviour curves are not part of this model. `GetDSSParameters` takes the value function as an argument.
- Single-precision floats are modelled as exact `real`s. Rounding of the literals, e.g. `0.0005f` or `200000000000.f`, is not captured.
- `std::shared_ptr` ownership of the input is not modelled. The input is a plain constant field.
- Analog.AnalogInput.constructor: its body lives in `AnalogInput.cpp`, which is not part of this model; that it stores the channel, the target range and the threshold it is given is assumed from the header's signature. `Registry.Parameter.constructor`'s statements about its input's channel and range rest on this assumption.
- Analog.AnalogInput.constructor: the initial reading, change flag and calibration bounds are left unconstrained, because the header does not initialise them.
- Registry.Parameters.constructor: does not state that the eight inputs are pairwise distinct objects.
- Registry.Parameters.constructor: does not restate each input's channel, read threshold or calibration flag. These are mutable fields of the input, and `Registry.Parameter.constructor` states them for each parameter it builds.
- The enum `ParameterName` is assumed to have exactly the eight values `L`, `rho`, `r`, `T`, `E`, `sigma0`, `sigma1`, `loc`, numbered in that order from 0 to 7. `Parameters.h`, which declares them, is not part of this model. The channel numbers, `Names.ParamIdIsChannel`, `ParamId` being -1 exactly for `loc`, and the registry holding an entry for every name all rest on this.
- `getDSSParameters` dereferences the result of `find` unchecked. The model therefore requires the registry invariant, which guarantees every name is present and which the registry constructor establishes.
- The comment on line 17 of `core/Parameters.cpp` calls the radius range reversed, but the range written there, (0.0005, 0.001), is increasing. The model follows the code: `Registry.InitialRange` proves that density's range is the only reversed one.
- The simulation itself (`DynamicStiffString`) is not part of this model.
