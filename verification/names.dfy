/** Names of the physical quantities, the canonical simulation order, and the
    two integers a parameter derives from its name: its simulation id and its
    analog channel. */
module Names {

  /** The parameter names, in their declaration order. */
  datatype ParameterName = L | rho | r | T | E | sigma0 | sigma1 | loc

  /** Every name in declaration order. A name's enum value is assumed to be
      its position here, and these eight to be the only values. */
  const DeclarationOrder: seq<ParameterName> := [L, rho, r, T, E, sigma0, sigma1, loc]

  /** The order in which the stiff-string simulation expects its parameters. */
  const CanonicalOrder: seq<ParameterName> := [L, rho, r, T, E, sigma0, sigma1]

  ghost predicate NoDuplicates<X>(s: seq<X>) {
    forall i, j :: 0 <= i < j < |s| ==> s[i] != s[j]
  }

  /** A linear search from the front: the index of the first occurrence of `x`
      in `s`, or -1 when `x` does not occur. */
  function FindIndex<X(==)>(s: seq<X>, x: X): (i: int)
    ensures -1 <= i < |s|
    ensures i == -1 <==> x !in s
    ensures 0 <= i ==> s[i] == x
    ensures 0 <= i ==> forall j :: 0 <= j < i ==> s[j] != x
  {
    if |s| == 0 then -1
    else if s[0] == x then 0
    else
      var k := FindIndex(s[1..], x);
      if k == -1 then -1 else k + 1
  }

  /** On a sequence without duplicates the search finds exactly the position
      of every element. */
  lemma FindIndexOfDistinct<X>(s: seq<X>, k: nat)
    requires NoDuplicates(s)
    requires k < |s|
    ensures FindIndex(s, s[k]) == k
  {
  }

  /** Searching a longer sequence finds an element of its prefix where the
      prefix alone would have found it. */
  lemma {:induction false} FindIndexInPrefix<X>(s: seq<X>, t: seq<X>, x: X)
    requires x in s
    ensures FindIndex(s + t, x) == FindIndex(s, x)
  {
    if s[0] != x {
      assert (s + t)[1..] == s[1..] + t;
      FindIndexInPrefix(s[1..], t, x);
    }
  }

  /** The canonical order holds every name except `loc`, and the declaration
      order is the canonical order followed by `loc`. The second fact is
      about the assumed enum order, not something the program relies on. */
  lemma CanonicalMembers(name: ParameterName)
    ensures name in CanonicalOrder <==> name != loc
    ensures DeclarationOrder == CanonicalOrder + [loc]
    ensures name in DeclarationOrder
  {
    match name
    case L => assert CanonicalOrder[0] == name;
    case rho => assert CanonicalOrder[1] == name;
    case r => assert CanonicalOrder[2] == name;
    case T => assert CanonicalOrder[3] == name;
    case E => assert CanonicalOrder[4] == name;
    case sigma0 => assert CanonicalOrder[5] == name;
    case sigma1 => assert CanonicalOrder[6] == name;
    case loc => assert DeclarationOrder[7] == name;
  }

  /** The simulation id of a parameter: its position in the canonical order,
      or -1 when the name is not part of that order. */
  function ParamId(name: ParameterName): (id: int)
    ensures -1 <= id < |CanonicalOrder|
    ensures 0 <= id ==> CanonicalOrder[id] == name
    ensures id == -1 <==> name == loc
  {
    CanonicalMembers(name);
    FindIndex(CanonicalOrder, name)
  }

  /** The analog channel a parameter owns: the integer value of its name. */
  function Channel(name: ParameterName): (c: int)
    ensures 0 <= c < |DeclarationOrder|
    ensures DeclarationOrder[c] == name
  {
    CanonicalMembers(name);
    FindIndex(DeclarationOrder, name)
  }

  /** The name that owns an analog channel, if any; the inverse of Channel. */
  function NameOfChannel(c: int): (n: Option<ParameterName>)
    ensures n.Some? <==> 0 <= c < |DeclarationOrder|
    ensures n.Some? ==> Channel(n.value) == c
  {
    if 0 <= c < |DeclarationOrder| then
      FindIndexOfDistinct(DeclarationOrder, c);
      Some(DeclarationOrder[c])
    else None
  }

  datatype Option<T> = None | Some(value: T)

  /** Every position of the canonical order is the id of the name stored there. */
  lemma ParamIdOfCanonical(k: nat)
    requires k < |CanonicalOrder|
    ensures ParamId(CanonicalOrder[k]) == k
  {
    FindIndexOfDistinct(CanonicalOrder, k);
  }

  /** Distinct names never share an id unless both are outside the canonical order. */
  lemma ParamIdDistinct(a: ParameterName, b: ParameterName)
    requires a != b
    ensures ParamId(a) != ParamId(b) || ParamId(a) == -1
  {
  }

  /** Channel and NameOfChannel are inverse to each other. */
  lemma ChannelRoundTrip(name: ParameterName, c: int)
    ensures NameOfChannel(Channel(name)) == Some(name)
    ensures NameOfChannel(c) == Some(name) ==> Channel(name) == c
  {
  }

  /** Under the assumed enum order, the simulation id and the analog channel
      coincide for every name in the canonical order, because the canonical
      order is then a prefix of the declaration order. */
  lemma {:induction false} ParamIdIsChannel(name: ParameterName)
    requires name != loc
    ensures ParamId(name) == Channel(name)
  {
    CanonicalMembers(name);
    FindIndexInPrefix(CanonicalOrder, [loc], name);
  }
}
