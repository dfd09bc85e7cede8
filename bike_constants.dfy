/** The vehicle-type registry: three tables keyed by the type names "BMX", "MTB" and "UNI".
    BikeMap gives the vehicle class of a name, SwitchMap the class of the type that comes next when
    the player cycles vehicle types, and RendererMap the renderer class for that name. Classes are
    represented by the closed enumerations BikeType and RendererType. */
module BikeConstants {

  datatype BikeType = BMX | MTB | UNI

  datatype RendererType = BMXRenderer | MTBRenderer | UNIRenderer

  const BikeMap: map<string, BikeType> := map["BMX" := BMX, "MTB" := MTB, "UNI" := UNI]

  const SwitchMap: map<string, BikeType> := map["BMX" := MTB, "MTB" := UNI, "UNI" := BMX]

  const RendererMap: map<string, RendererType> :=
    map["BMX" := BMXRenderer, "MTB" := MTBRenderer, "UNI" := UNIRenderer]

  /** The three tables have the same keys. */
  lemma KeySetsAgree()
    ensures BikeMap.Keys == SwitchMap.Keys == RendererMap.Keys == {"BMX", "MTB", "UNI"}
  {
  }

  /** The registry key under which BikeMap holds type `t`. */
  function Name(t: BikeType): (key: string)
    ensures key in BikeMap && BikeMap[key] == t
    ensures key in SwitchMap && key in RendererMap
  {
    match t
    case BMX => "BMX"
    case MTB => "MTB"
    case UNI => "UNI"
  }

  /** The type the player switches to from `t`: the SwitchMap entry for t's key. */
  function Successor(t: BikeType): (s: BikeType)
    ensures s != t
    ensures Name(s) in SwitchMap
  {
    SwitchMap[Name(t)]
  }

  /** The renderer registered for `t`. */
  function Renderer(t: BikeType): (r: RendererType)
    ensures (r == UNIRenderer) <==> (t == UNI)
    ensures (r == BMXRenderer) <==> (t == BMX)
  {
    RendererMap[Name(t)]
  }

  /** The type whose successor is `t`, defined independently of SwitchMap. */
  function Predecessor(t: BikeType): BikeType
  {
    match t
    case BMX => UNI
    case MTB => BMX
    case UNI => MTB
  }

  lemma SwitchTable()
    ensures Successor(BMX) == MTB && Successor(MTB) == UNI && Successor(UNI) == BMX
  {
  }

  /** Switching three times brings the player back to the starting type. */
  lemma SuccessorCycle(t: BikeType)
    ensures Successor(Successor(Successor(t))) == t
    ensures Successor(t) != t && Successor(Successor(t)) != t
  {
  }

  /** Successor is a bijection on the three types, with Predecessor as its inverse. */
  lemma SuccessorBijective()
    ensures forall s: BikeType, t: BikeType :: Successor(s) == Successor(t) ==> s == t
    ensures forall t: BikeType :: Successor(Predecessor(t)) == t && Predecessor(Successor(t)) == t
  {
  }

  /** Every value of SwitchMap is again a key of all three tables, so cycling never leaves the
      registry. */
  lemma SwitchStaysInRegistry(key: string)
    requires key in SwitchMap
    ensures Name(SwitchMap[key]) in BikeMap.Keys * SwitchMap.Keys * RendererMap.Keys
    ensures SwitchMap[key] == Successor(BikeMap[key])
  {
  }
}
