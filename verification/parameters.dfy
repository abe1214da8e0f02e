/** The parameter registry: one Parameter per name, each owning the analog
    input of its own channel, and the packing of the seven canonical values
    into the simulation's parameter vector. */
module Registry {
  import opened Names
  import opened Analog
  import StiffString

  /** The initial value configured for each parameter. Every canonical
      parameter starts inside its range; `loc` starts at -1, outside its
      range (0, 1). */
  function InitialValue(name: ParameterName): (v: real)
    ensures InitialRange(name).Contains(v) <==> name != loc
  {
    match name
    case L => 1.0
    case rho => 7850.0
    case r => 0.0005
    case T => 300.0
    case E => 200000000000.0
    case sigma0 => 1.0
    case sigma1 => 0.005
    case loc => -1.0
  }

  /** The range configured for each parameter. Density is the only one
      given reversed. */
  function InitialRange(name: ParameterName): (rg: Range)
    ensures rg.Reversed() <==> name == rho
  {
    match name
    case L => Range(0.5, 4.0)
    case rho => Range(15700.0, 1962.5)
    case r => Range(0.0005, 0.001)
    case T => Range(150.0, 1200.0)
    case E => Range(5000000000.0, 400000000000.0)
    case sigma0 => Range(0.0, 8.0)
    case sigma1 => Range(0.0002, 0.04)
    case loc => Range(0.0, 1.0)
  }

  /** Inserting into a keyed map without replacing: a key already present
      keeps its entry, a new key gets `v`, and no other entry changes. */
  function Emplace<K, V>(m: map<K, V>, k: K, v: V): (m': map<K, V>)
    ensures m'.Keys == m.Keys + {k}
    ensures m'[k] == if k in m then m[k] else v
    ensures forall j :: j in m && j != k ==> m'[j] == m[j]
  {
    if k in m then m else m[k := v]
  }

  class Parameter {
    const name: ParameterName
    const value: real
    const range: Range
    /** Position in the canonical simulation order, or -1. */
    const id: int
    /** The input this parameter owns. */
    const analogInput: AnalogInput

    /** Stores the name, initial value and range as given, takes as id the
        name's position in the canonical order (-1 outside it), and creates
        a fresh input on the channel numbered by the name, over the same
        range, with the default threshold and calibration switched on. */
    constructor (name: ParameterName, value: real, range: Range)
      ensures this.name == name && this.value == value && this.range == range
      ensures id == ParamId(name)
      ensures fresh(analogInput)
      ensures analogInput.channel == Channel(name) && analogInput.valueRange == range
      ensures analogInput.readThreshold == DefaultReadThreshold && analogInput.calibrate
    {
      this.name := name;
      this.value := value;
      this.range := range;
      id := ParamId(name);
      var channel := Channel(name);
      analogInput := new AnalogInput(channel, range);
    }
  }

  /** The entry, among eight given in declaration order, that belongs to `n`. */
  function Select<V>(n: ParameterName, vL: V, vRho: V, vR: V, vT: V, vE: V, vSigma0: V, vSigma1: V, vLoc: V): V {
    match n
    case L => vL
    case rho => vRho
    case r => vR
    case T => vT
    case E => vE
    case sigma0 => vSigma0
    case sigma1 => vSigma1
    case loc => vLoc
  }

  /** Emplacing the eight names one after another into an empty map never
      meets a name already present: every name ends up with exactly the
      entry emplaced for it. */
  lemma EmplaceEachName<V>(vL: V, vRho: V, vR: V, vT: V, vE: V, vSigma0: V, vSigma1: V, vLoc: V)
    ensures var m := Emplace(Emplace(Emplace(Emplace(Emplace(Emplace(Emplace(Emplace(
                       map[], L, vL), rho, vRho), r, vR), T, vT), E, vE), sigma0, vSigma0), sigma1, vSigma1), loc, vLoc);
      forall n :: n in m && m[n] == Select(n, vL, vRho, vR, vT, vE, vSigma0, vSigma1, vLoc)
  {
    var m1 := Emplace(map[], L, vL);
    var m2 := Emplace(m1, rho, vRho);
    var m3 := Emplace(m2, r, vR);
    var m4 := Emplace(m3, T, vT);
    var m5 := Emplace(m4, E, vE);
    var m6 := Emplace(m5, sigma0, vSigma0);
    var m7 := Emplace(m6, sigma1, vSigma1);
    var m8 := Emplace(m7, loc, vLoc);
    assert m7.Keys == {L, rho, r, T, E, sigma0, sigma1};
    forall n
      ensures n in m8 && m8[n] == Select(n, vL, vRho, vR, vT, vE, vSigma0, vSigma1, vLoc)
    {
      match n
      case L => case rho => case r => case T => case E => case sigma0 => case sigma1 => case loc =>
    }
  }

  class Parameters {
    var parameters: map<ParameterName, Parameter>

    /** Every name has exactly one entry, stored under its own name. */
    ghost predicate Valid()
      reads this
    {
      && (forall n: ParameterName :: n in parameters)
      && (forall n :: n in parameters ==> parameters[n].name == n)
    }

    /** Fills the registry with the eight configured parameters, each built
        from its literal initial value and range. */
    constructor ()
      ensures Valid()
      ensures forall n :: n in parameters ==>
        && fresh(parameters[n]) && fresh(parameters[n].analogInput)
        && parameters[n].id == ParamId(n)
        && parameters[n].value == InitialValue(n) && parameters[n].range == InitialRange(n)
        && parameters[n].analogInput.valueRange == InitialRange(n)
    {
      parameters := map[];
      new;
      ghost var pL := CreateParameter(L, 1.0, Range(0.5, 4.0));
      ghost var pRho := CreateParameter(rho, 7850.0, Range(15700.0, 1962.5));
      ghost var pR := CreateParameter(r, 0.0005, Range(0.0005, 0.001));
      ghost var pT := CreateParameter(T, 300.0, Range(150.0, 1200.0));
      ghost var pE := CreateParameter(E, 200000000000.0, Range(5000000000.0, 400000000000.0));
      ghost var pSigma0 := CreateParameter(sigma0, 1.0, Range(0.0, 8.0));
      ghost var pSigma1 := CreateParameter(sigma1, 0.005, Range(0.0002, 0.04));
      ghost var pLoc := CreateParameter(loc, -1.0, Range(0.0, 1.0));
      EmplaceEachName(pL, pRho, pR, pT, pE, pSigma0, pSigma1, pLoc);
      forall n: ParameterName
        ensures n in parameters
        ensures fresh(parameters[n]) && fresh(parameters[n].analogInput)
        ensures parameters[n].name == n && parameters[n].id == ParamId(n)
        ensures parameters[n].value == InitialValue(n) && parameters[n].range == InitialRange(n)
        ensures parameters[n].analogInput.valueRange == InitialRange(n)
      {
        match n
        case L => assert parameters[n] == pL;
        case rho => assert parameters[n] == pRho;
        case r => assert parameters[n] == pR;
        case T => assert parameters[n] == pT;
        case E => assert parameters[n] == pE;
        case sigma0 => assert parameters[n] == pSigma0;
        case sigma1 => assert parameters[n] == pSigma1;
        case loc => assert parameters[n] == pLoc;
      }
    }

    /** Builds a parameter and emplaces it under its name: a name that
        already has an entry keeps it. */
    method CreateParameter(name: ParameterName, initValue: real, range: Range) returns (ghost p: Parameter)
      modifies this
      ensures fresh(p) && fresh(p.analogInput)
      ensures p.name == name && p.id == ParamId(name) && p.value == initValue && p.range == range
      ensures p.analogInput.valueRange == range
      ensures parameters == Emplace(old(parameters), name, p)
    {
      var created := new Parameter(name, initValue, range);
      parameters := Emplace(parameters, name, created);
      p := created;
    }

    /** The simulation's parameter vector: the value of each canonical
        parameter, position by position in the canonical order. */
    function GetDSSParameters(getValue: Parameter -> real): (p: StiffString.SimulationParameters)
      reads this
      requires Valid()
      ensures forall k :: 0 <= k < |CanonicalOrder| ==>
        StiffString.Fields(p)[k] == getValue(parameters[CanonicalOrder[k]])
    {
      CanonicalMembers(L);
      StiffString.SimulationParameters(
        getValue(parameters[L]),
        getValue(parameters[rho]),
        getValue(parameters[r]),
        getValue(parameters[T]),
        getValue(parameters[E]),
        getValue(parameters[sigma0]),
        getValue(parameters[sigma1]))
    }

    /** Each canonical parameter's value lands in the slot its id names. */
    lemma ValueAtParamId(getValue: Parameter -> real, name: ParameterName)
      requires Valid()
      requires name != loc
      ensures StiffString.Fields(GetDSSParameters(getValue))[ParamId(name)] == getValue(parameters[name])
    {
    }

    /** The vector never depends on `loc`: value functions that agree on the
        seven canonical parameters give the same vector. */
    lemma IgnoresLoc(getValue: Parameter -> real, getValue': Parameter -> real)
      requires Valid()
      requires forall n :: n != loc ==> getValue(parameters[n]) == getValue'(parameters[n])
      ensures GetDSSParameters(getValue) == GetDSSParameters(getValue')
    {
    }
  }
}
