/**
 * The shared scan of `src/macros/key.rs` (`KeyImpl!`): one debounce step of a key followed by
 * the handler of the state it lands in. Every behaviour's `*scan` is this step with two
 * differences: which keys it skips, and whether a held key refreshes `prevstate` to Hold.
 */
module KeyMacro {
  import opened Types
  import opened KeyCodes
  import opened StateTypes
  import opened Events
  import opened KeyRecord
  import DefaultKey
  import TapComKey
  import ModComboKey
  import LayerHoldKey
  import RgbKey
  import SendStringKey
  import ModTapKey

  /**
   * The scan leaves the key untouched. The shared scan and `tpcscan` skip a key whose first
   * two slots are empty; `mcscan`, `rkscan` and `sstscan` skip one not shaped
   * `[Some, Some, None, None]` or holding two `________`; `lyhscan` skips nothing.
   */
  predicate Skips(d: KeyData): (b: bool)
    ensures d.typ == LayerHold ==> !b
    ensures d.keycode[0].None? && d.keycode[1].None? ==> (b <==> d.typ != LayerHold)
    ensures (d.typ == ModCombo || d.typ == Rgb || d.typ == SendStr) && !b ==> PairShaped(d.keycode)
  {
    match d.typ
    case LayerHold => false
    case ModCombo => !PairShaped(d.keycode) || (d.keycode[0] == Some(Emp) && d.keycode[1] == Some(Emp))
    case Rgb => !PairShaped(d.keycode) || (d.keycode[0] == Some(Emp) && d.keycode[1] == Some(Emp))
    case SendStr => !PairShaped(d.keycode) || (d.keycode[0] == Some(Emp) && d.keycode[1] == Some(Emp))
    case _ => d.keycode[0].None? && d.keycode[1].None?
  }

  /**
   * The scan has the explicit Hold branch that sets `prevstate` to Hold on further high
   * samples (`tpcscan`, `mcscan`, `lyhscan`, `sstscan`); the shared scan and `rkscan` lack it.
   */
  predicate RefreshesHold(t: Behaviour): (b: bool)
    ensures !b <==> t in {Default, ModTap, Rgb, Transparent}
  {
    t == TapCom || t == ModCombo || t == LayerHold || t == SendStr
  }

  /** The counter update: a high sample counts `cycles` up (saturating) and clears `cycles_off`; a low one the reverse. */
  function Count(d: KeyData, high: bool): (d': KeyData)
    ensures d' == d.(cycles := d'.cycles, cyclesOff := d'.cyclesOff, rawState := high)
    ensures high ==> d'.cycles == (if d.cycles < U16_MAX then d.cycles + 1 else U16_MAX) && d'.cyclesOff == 0
    ensures !high ==> d'.cyclesOff == (if d.cyclesOff < U16_MAX then d.cyclesOff + 1 else U16_MAX) && d'.cycles == 0
    ensures d'.cycles == 0 || d'.cyclesOff == 0
  {
    if high then
      d.(cycles := if d.cycles < U16_MAX then d.cycles + 1 else d.cycles, cyclesOff := 0, rawState := true)
    else
      d.(cyclesOff := if d.cyclesOff < U16_MAX then d.cyclesOff + 1 else d.cyclesOff, cycles := 0, rawState := false)
  }

  /**
   * The state change after counting: past the debounce count a Tap becomes a Hold at the hold
   * count, an Off or Tap becomes (or stays) a Tap, and a Hold stays (refreshing `prevstate` when
   * `refresh`); otherwise any low sample makes the key Off. Only `state` and `prevstate` change.
   */
  function Transition(d: KeyData, refresh: bool): (d': KeyData)
    ensures d' == d.(state := d'.state, prevstate := d'.prevstate)
  {
    if d.cycles >= DEBOUNCE_CYCLES then
      if d.state == Tap && d.cycles >= HOLD_CYCLES then d.(prevstate := d.state, state := Hold)
      else if d.state == Off || d.state == Tap then d.(prevstate := d.state, state := Tap)
      else if refresh && d.state == Hold then d.(prevstate := d.state, state := Hold)
      else d
    else if d.cyclesOff >= 1 then d.(prevstate := d.state, state := Off)
    else d
  }

  /** A Transparent cell has no handlers; the scan never reaches them, as it skips the cell. */
  function Inert(d: KeyData): Outcome
  {
    Outcome(d, NoCodes, [])
  }

  /** `get_keys` of the key's behaviour. */
  function Handle(d: KeyData, ctx: Context): (o: Outcome)
    ensures ScratchOnly(d, o.key)
  {
    match d.typ
    case Default => DefaultKey.GetKeys(d)
    case ModTap => ModTapKey.GetKeys(d)
    case TapCom => TapComKey.GetKeys(d, ctx)
    case ModCombo => ModComboKey.GetKeys(d)
    case LayerHold => LayerHoldKey.GetKeys(d)
    case Rgb => RgbKey.GetKeys(d)
    case SendStr => SendStringKey.GetKeys(d)
    case Transparent => Inert(d)
  }

  /**
   * One scan of a key with pin level `high`: nothing for a skipped key; otherwise the counter
   * update, the state change and the handler of the new state, which touches only the scratch
   * fields.
   */
  function ScanSpec(d: KeyData, high: bool, ctx: Context): (o: Outcome)
    ensures Skips(d) ==> o == Outcome(d, NoCodes, [])
    ensures !Skips(d) ==> ScratchOnly(Transition(Count(d, high), RefreshesHold(d.typ)), o.key)
  {
    if Skips(d) then Outcome(d, NoCodes, [])
    else Handle(Transition(Count(d, high), RefreshesHold(d.typ)), ctx)
  }

  /** The scan of one key at one pin level, as a value. */
  type Scanner = (KeyData, bool) -> Outcome

  /** The scanner of the firmware: `scan` on a key's behaviour in the context `ctx`. */
  function ScanIn(ctx: Context): Scanner
  {
    (d: KeyData, high: bool) => ScanSpec(d, high, ctx)
  }

  /** The key after scanning the samples in order with `scan`. */
  function Run(scan: Scanner, d: KeyData, samples: seq<bool>): KeyData
  {
    if samples == [] then d
    else scan(Run(scan, d, samples[..|samples| - 1]), samples[|samples| - 1]).key
  }

  /** The events emitted while scanning the samples in order with `scan`. */
  function RunEvents(scan: Scanner, d: KeyData, samples: seq<bool>): seq<Event>
  {
    if samples == [] then []
    else
      var before := Run(scan, d, samples[..|samples| - 1]);
      RunEvents(scan, d, samples[..|samples| - 1]) + scan(before, samples[|samples| - 1]).events
  }

  /** A key as the firmware stores it, scanned in place. */
  class Key {
    var cycles: u16
    var rawState: bool
    var cyclesOff: u16
    var state: StateType
    var prevstate: StateType
    var keycode: Codes
    var previnfo: Flags
    var stor: Bytes
    var strng: string
    var typ: Behaviour

    /** The key's fields as a value. */
    function Data(): KeyData
      reads this
    {
      KeyData(cycles, rawState, cyclesOff, state, prevstate, keycode, previnfo, stor, strng, typ)
    }

    /** A key holding the fields of the value one of the constructors built. */
    constructor (d: KeyData)
      ensures Data() == d
    {
      cycles, rawState, cyclesOff := d.cycles, d.rawState, d.cyclesOff;
      state, prevstate := d.state, d.prevstate;
      keycode, previnfo, stor, strng, typ := d.keycode, d.previnfo, d.stor, d.strng, d.typ;
    }

    /** `get_keys`: run the handler of the current state, which updates only the scratch fields. */
    method GetKeys(ctx: Context) returns (codes: Codes, events: seq<Event>)
      modifies this
      ensures Data() == Handle(old(Data()), ctx).key
      ensures codes == Handle(old(Data()), ctx).codes && events == Handle(old(Data()), ctx).events
    {
      var o := Handle(Data(), ctx);
      previnfo := o.key.previnfo;
      stor := o.key.stor;
      codes, events := o.codes, o.events;
    }

    /** `scan`: count, change state, then hand over to `get_keys`. */
    method Scan(high: bool, ctx: Context) returns (codes: Codes, events: seq<Event>)
      modifies this
      ensures Data() == ScanSpec(old(Data()), high, ctx).key
      ensures codes == ScanSpec(old(Data()), high, ctx).codes
      ensures events == ScanSpec(old(Data()), high, ctx).events
    {
      if Skips(Data()) {
        return NoCodes, [];
      }
      ghost var counted := Count(Data(), high);
      if high {
        if cycles < U16_MAX {
          cycles := cycles + 1;
        }
        cyclesOff := 0;
      } else {
        if cyclesOff < U16_MAX {
          cyclesOff := cyclesOff + 1;
        }
        cycles := 0;
      }
      rawState := high;
      assert Data() == counted;
      ghost var moved := Transition(counted, RefreshesHold(typ));
      if cycles >= DEBOUNCE_CYCLES {
        if state == Tap && cycles >= HOLD_CYCLES {
          prevstate := state;
          state := Hold;
        } else if state == Off || state == Tap {
          prevstate := state;
          state := Tap;
        } else if RefreshesHold(typ) && state == Hold {
          prevstate := state;
          state := Hold;
        }
        assert Data() == moved;
        codes, events := GetKeys(ctx);
        return;
      } else if cyclesOff >= 1 {
        prevstate := state;
        state := Off;
      }
      assert Data() == moved;
      codes, events := GetKeys(ctx);
    }
  }
}
