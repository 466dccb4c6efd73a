/**
 * The `Key` record of `src/key.rs` and its debounce constants.
 *
 * The repository's iterations give `Key` different shapes; this is the one record they all
 * fit in: the two saturating counters, the sampled pin level, the current and previous
 * state, four optional key codes, six scratch flags (`previnfo`), six scratch bytes
 * (`stor`), the text of a send-string key and the behaviour tag (`typ`).
 */
module KeyRecord {
  import opened Types
  import opened KeyCodes
  import opened StateTypes
  import opened Events

  /** Consecutive high samples needed before a press is trusted. */
  const DEBOUNCE_CYCLES: u16 := 3

  /** Consecutive high samples after which a tap becomes a hold. */
  const HOLD_CYCLES: u16 := 20

  type Codes = s: seq<Option<KeyCode>> | |s| == 4 witness [None, None, None, None]
  type Flags = s: seq<bool> | |s| == 6 witness [false, false, false, false, false, false]
  type Bytes = s: seq<u8> | |s| == 6 witness [0, 0, 0, 0, 0, 0]

  /** `[None; 4]`. */
  const NoCodes: Codes := [None, None, None, None]

  /** `[false; 6]`. */
  const NoFlags: Flags := [false, false, false, false, false, false]

  /** `[0; 6]`. */
  const ZeroBytes: Bytes := [0, 0, 0, 0, 0, 0]

  /** The behaviour a key cell was built with (the closed form of the `typ` string). */
  datatype Behaviour = Default | ModTap | TapCom | ModCombo | LayerHold | Rgb | SendStr | Transparent

  datatype KeyData = KeyData(
    cycles: u16,
    rawState: bool,
    cyclesOff: u16,
    state: StateType,
    prevstate: StateType,
    keycode: Codes,
    previnfo: Flags,
    stor: Bytes,
    strng: string,
    typ: Behaviour)

  /** What one handler call leaves behind: the key, the codes it returns and the events it emits. */
  datatype Outcome = Outcome(key: KeyData, codes: Codes, events: seq<Event>)

  /** The `typ` string each constructor stores (ModTap's struct literal has none; its tag is the trait name). */
  function TypeName(b: Behaviour): string
  {
    match b
    case Default => "Default"
    case ModTap => "ModTap"
    case TapCom => "TapCom"
    case ModCombo => "ModCombo"
    case LayerHold => "LayerHold"
    case Rgb => "RGBKey"
    case SendStr => "SendString"
    case Transparent => "Transparent"
  }

  /**
   * The record every constructor starts from: zero counters, pin low, state and previous
   * state Off, no scratch information.
   */
  function Released(keycode: Codes, stor: Bytes, strng: string, typ: Behaviour): KeyData
  {
    KeyData(0, false, 0, Off, Off, keycode, NoFlags, stor, strng, typ)
  }

  /** `d'` differs from `d` at most in the scratch fields `previnfo` and `stor`. */
  predicate ScratchOnly(d: KeyData, d': KeyData)
  {
    d' == d.(previnfo := d'.previnfo, stor := d'.stor)
  }

  /**
   * The part of the firmware's `Context` the handlers read: the queue of codes currently
   * held down, in the order they were pressed, with empty slots.
   */
  datatype Context = Context(keyQueue: seq<Option<KeyCode>>)

  /** The four slots hold `[Some, Some, None, None]`, the shape of ModCombo, RGB and send-string keys. */
  predicate PairShaped(k: Codes)
  {
    k[0].Some? && k[1].Some? && k[2].None? && k[3].None?
  }
}
