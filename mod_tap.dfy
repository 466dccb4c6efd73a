/**
 * The ModTap constructor of `src/mods/mod_tap.rs`: a code pair whose four handlers are the
 * identity on the pair, so scanning it only moves the debounce state.
 */
module ModTapKey {
  import opened Types
  import opened KeyCodes
  import opened StateTypes
  import opened Events
  import opened KeyRecord

  /** `ModTap::new`: the pair `[KC1, KC2 or ________]`, everything else at rest. */
  function New(kc1: KeyCode, kc2: Option<KeyCode>): (d: KeyData)
    ensures d.keycode == [Some(kc1), Some(if kc2.Some? then kc2.value else Emp), None, None]
    ensures d.state == Off && d.prevstate == Off && d.cycles == 0 && d.cyclesOff == 0 && !d.rawState
    ensures d.typ == ModTap
  {
    Released([Some(kc1), Some(match kc2 case Some(k) => k case None => Emp), None, None], ZeroBytes, "", ModTap)
  }

  /** Each of the `tap`, `hold`, `idle` and `off` closures: return the pair it is given. */
  function Identity(d: KeyData): Outcome
  {
    Outcome(d, d.keycode, [])
  }

  /** `get_keys` over the four identity closures. */
  function GetKeys(d: KeyData): (o: Outcome)
    ensures o == Outcome(d, d.keycode, [])
  {
    match d.state
    case Tap => Identity(d)
    case Hold => Identity(d)
    case Idle => Identity(d)
    case Off => Identity(d)
  }
}
