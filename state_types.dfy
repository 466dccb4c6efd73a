/** `StateType` of `src/keyscanning.rs`: the debounce state of one key. */
module StateTypes {
  import opened Types

  /** Tap = 0, Hold = 1, Idle = 2, Off = 3 (the Rust discriminants). */
  datatype StateType = Tap | Hold | Idle | Off

  /** The Rust discriminant of a state. */
  function Discriminant(s: StateType): (n: nat)
    ensures n < 4
  {
    match s
    case Tap => 0
    case Hold => 1
    case Idle => 2
    case Off => 3
  }

  /** The state with a given discriminant: exactly the numbers below 4 name one. */
  function FromDiscriminant(n: nat): (s: Option<StateType>)
    ensures s.Some? <==> n < 4
    ensures s.Some? ==> Discriminant(s.value) == n
  {
    if n == 0 then Some(Tap)
    else if n == 1 then Some(Hold)
    else if n == 2 then Some(Idle)
    else if n == 3 then Some(Off)
    else None
  }

  /** The discriminants are distinct: decoding a state's discriminant gives the state back. */
  lemma DiscriminantRoundTrip(s: StateType)
    ensures FromDiscriminant(Discriminant(s)) == Some(s)
  {
  }
}
