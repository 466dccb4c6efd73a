/**
 * The TapCom behaviour of `src/mods/mod_tapcom.rs`: a modifier `kc0` that, when tapped on its
 * own, types the pair `kc1`, `kc2` instead; when another key joins it (`exist_next` finds
 * one in the context's queue) or when it is held, it stays a plain modifier.
 */
module TapComKey {
  import opened Types
  import opened Text
  import opened KeyCodes
  import opened StateTypes
  import opened Events
  import opened KeyRecord

  /**
   * `tpcnew`: the text split on commas, each piece trimmed and decoded into a code with the
   * firmware's `From<&str> for KeyCode` (here the parameter `decode`). The pieces are
   * collected into a three-element `heapless::Vec` and indexed 0..2, so any other number of
   * pieces panics, which is `None` here.
   */
  function New(s: string, decode: string -> KeyCode): (r: Option<KeyData>)
    ensures r.Some? <==> Count(s, ',') == 2
    ensures r.Some? ==>
      var p := Split(s, ',');
      && r.value == Released([Some(decode(Trim(p[0]))), Some(decode(Trim(p[1]))),
                              Some(decode(Trim(p[2]))), None], ZeroBytes, "", TapCom)
      && Join([p[0], p[1], p[2]], ',') == s
  {
    var p := Split(s, ',');
    if |p| != 3 then None
    else
      assert p == [p[0], p[1], p[2]];
      Some(Released([Some(decode(Trim(p[0]))), Some(decode(Trim(p[1]))),
                     Some(decode(Trim(p[2]))), None], ZeroBytes, "", TapCom))
  }

  /** The shape the handlers destructure: `[Some(kc0), Some(kc1), Some(kc2), None]`. */
  predicate Shaped(k: Codes)
  {
    k[0].Some? && k[1].Some? && k[2].Some? && k[3].None?
  }

  /** `iter().position(...)`: the first index of the queue holding `key`. */
  function Position(q: seq<Option<KeyCode>>, key: KeyCode): (r: Option<nat>)
    ensures r.Some? ==> r.value < |q| && q[r.value] == Some(key)
    ensures r.Some? ==> forall i | 0 <= i < r.value :: q[i] != Some(key)
    ensures r.None? ==> forall i | 0 <= i < |q| :: q[i] != Some(key)
  {
    if q == [] then None
    else if q[0] == Some(key) then Some(0)
    else match Position(q[1..], key)
      case Some(i) => Some(i + 1)
      case None => None
  }

  /** Where the search of `exist_next` starts: the position of `key`, or 0 when it is absent. */
  function Start(q: seq<Option<KeyCode>>, key: KeyCode): nat
  {
    match Position(q, key)
    case Some(i) => i
    case None => 0
  }

  /**
   * Slot `j` decides `exist_next`: it is the first slot from the start that holds a code
   * other than `key`.
   */
  predicate Decides(q: seq<Option<KeyCode>>, key: KeyCode, j: int)
  {
    && Start(q, key) <= j < |q|
    && q[j].Some? && q[j].value != key
    && forall i | Start(q, key) <= i < j :: q[i].None? || q[i].value == key
  }

  /**
   * `exist_next`, stated declaratively: some slot decides the search, and its code is not a
   * modifier that `ignore_mods` discounts.
   */
  predicate ExistNext(q: seq<Option<KeyCode>>, key: KeyCode, ignoreMods: bool): (r: bool)
    ensures r ==> exists j | Start(q, key) <= j < |q| :: q[j].Some? && q[j].value != key
    ensures (forall i | Start(q, key) <= i < |q| :: q[i].None? || q[i].value == key) ==> !r
  {
    exists j | 0 <= j < |q| :: Decides(q, key, j) && !(ignoreMods && IsModifier(q[j].value))
  }

  /** At most one slot decides the search. */
  lemma DecidesUnique(q: seq<Option<KeyCode>>, key: KeyCode, i: int, j: int)
    requires Decides(q, key, i) && Decides(q, key, j)
    ensures i == j
  {
  }

  /** Once slot `i` decides the search, its code alone settles `exist_next`. */
  lemma ExistNextAt(q: seq<Option<KeyCode>>, key: KeyCode, ignoreMods: bool, i: int)
    requires Decides(q, key, i)
    ensures ExistNext(q, key, ignoreMods) <==> !(ignoreMods && IsModifier(q[i].value))
  {
    forall j | 0 <= j < |q| && Decides(q, key, j)
      ensures j == i
    {
      DecidesUnique(q, key, i, j);
    }
  }

  /**
   * `exist_next` as the loop the firmware runs: from the start index, skip empty slots and
   * copies of `key`, and stop at the first other code; the flag says whether it counts.
   */
  method ExistNextScan(q: seq<Option<KeyCode>>, key: KeyCode, ignoreMods: bool) returns (rtrn1: bool)
    ensures rtrn1 == ExistNext(q, key, ignoreMods)
  {
    rtrn1 := false;
    var ind1 := Position(q, key);
    var srt := 0;
    if ind1.Some? {
      srt := ind1.value;
    }
    var i := srt;
    while i < |q|
      invariant srt == Start(q, key) <= i <= |q|
      invariant forall k | srt <= k < i :: q[k].None? || q[k].value == key
    {
      if q[i].Some? && q[i].value != key {
        ExistNextAt(q, key, ignoreMods, i);
        if ignoreMods {
          if IsModifier(q[i].value) {
            break;
          } else {
            rtrn1 := true;
            break;
          }
        } else {
          rtrn1 := true;
          break;
        }
      }
      i := i + 1;
    }
  }

  /**
   * `tpctap`. Unless a combination was already recorded, a non-modifier `kc0` gives nothing;
   * a modifier records a combination when `exist_next` finds another key. `kc0` is pressed
   * and returned only on the edge from Off.
   */
  function OnTap(d: KeyData, ctx: Context): (o: Outcome)
    ensures ScratchOnly(d, o.key) && o.key.stor == d.stor && o.key.previnfo[1..] == d.previnfo[1..]
    ensures !Shaped(d.keycode) ==> o == Outcome(d, NoCodes, [])
    ensures Shaped(d.keycode) ==>
      var kc0 := d.keycode[0].value;
      && (o.events == [] || o.events == [Press(kc0)])
      && (o.events != [] <==> d.prevstate == Off && (d.previnfo[0] || IsModifier(kc0)))
      && o.codes == (if o.events == [] then NoCodes else [Some(kc0), None, None, None])
      && (o.key.previnfo[0] <==> d.previnfo[0] || (IsModifier(kc0) && ExistNext(ctx.keyQueue, kc0, true)))
  {
    if !Shaped(d.keycode) then Outcome(d, NoCodes, [])
    else
      var kc0 := d.keycode[0].value;
      if !d.previnfo[0] && !IsModifier(kc0) then Outcome(d, NoCodes, [])
      else
        var combo := !d.previnfo[0] && ExistNext(ctx.keyQueue, kc0, true);
        var d' := if combo then d.(previnfo := d.previnfo[0 := true]) else d;
        if d.prevstate == Off then Outcome(d', [Some(kc0), None, None, None], [Press(kc0)])
        else Outcome(d', NoCodes, [])
  }

  /** `tpchold`: records the key as used, presses `kc0` if it is a modifier and returns it. */
  function OnHold(d: KeyData): (o: Outcome)
    ensures ScratchOnly(d, o.key) && o.key.stor == d.stor
    ensures !Shaped(d.keycode) ==> o == Outcome(d, NoCodes, [])
    ensures Shaped(d.keycode) ==>
      var kc0 := d.keycode[0].value;
      && o.key.previnfo == d.previnfo[0 := true]
      && o.codes == [Some(kc0), None, None, None]
      && o.events == (if IsModifier(kc0) then [Press(kc0)] else [])
  {
    if !Shaped(d.keycode) then Outcome(d, NoCodes, [])
    else
      var kc0 := d.keycode[0].value;
      Outcome(d.(previnfo := d.previnfo[0 := true]), [Some(kc0), None, None, None],
              if IsModifier(kc0) then [Press(kc0)] else [])
  }

  /** `tpcidle`: nothing. */
  function OnIdle(d: KeyData): (o: Outcome)
    ensures o.key == d && o.events == [] && o.codes == NoCodes
  {
    Outcome(d, NoCodes, [])
  }

  /**
   * `tpcoff`. On the edge from Tap with no combination: release `kc0`, type `kc1` and
   * `kc2`, and start the countdown in `stor[4]`; with a combination: release `kc1` and forget
   * the combination. On the edge from Hold: release `kc0`. While Off with the countdown
   * running: count `stor[4]` up; the low sample that finds it at 3 releases `kc1` and `kc2`,
   * sets it to 4 and ends the countdown (the code's cap of 5 is never reached).
   */
  function OnOff(d: KeyData, ctx: Context): (o: Outcome)
    ensures ScratchOnly(d, o.key)
    ensures !Shaped(d.keycode) ==> o == Outcome(d, NoCodes, [])
    ensures Shaped(d.keycode) ==>
      var kc0, kc1, kc2 := d.keycode[0].value, d.keycode[1].value, d.keycode[2].value;
      match d.prevstate
      case Tap =>
        if !d.previnfo[0] && !ExistNext(ctx.keyQueue, kc0, true) then
          && o.events == [Release(kc0), Press(kc1), Press(kc2)]
          && o.codes == d.keycode
          && o.key.previnfo == d.previnfo[1 := true] && o.key.stor == d.stor[4 := 0]
        else
          && o.events == [Release(kc1)] && o.codes == [Some(kc1), None, None, None]
          && o.key.previnfo == d.previnfo[0 := false] && o.key.stor == d.stor
      case Hold =>
        && o.events == [Release(kc0)] && o.codes == [Some(kc0), None, None, None]
        && o.key.previnfo == d.previnfo[1 := false] && o.key.stor == d.stor
      case Off =>
        && o.codes == NoCodes
        && o.key.previnfo[0] == d.previnfo[0]
        && o.key.stor[..4] == d.stor[..4] && o.key.stor[5] == d.stor[5]
        && (o.events != [] <==> d.previnfo[1] && d.stor[4] == 3)
        && (o.events != [] ==> o.events == [Release(kc1), Release(kc2)])
        && (o.key.previnfo[1] <==> d.previnfo[1] && d.stor[4] != 3)
        && o.key.stor[4] == (if d.previnfo[1] && d.stor[4] < 5 then d.stor[4] + 1 else d.stor[4])
      case Idle => o == Outcome(d, NoCodes, [])
  {
    if !Shaped(d.keycode) then Outcome(d, NoCodes, [])
    else
      var kc0, kc1, kc2 := d.keycode[0].value, d.keycode[1].value, d.keycode[2].value;
      match d.prevstate
      case Tap =>
        if !d.previnfo[0] && !ExistNext(ctx.keyQueue, kc0, true) then
          Outcome(d.(previnfo := d.previnfo[1 := true], stor := d.stor[4 := 0]),
                  [Some(kc0), Some(kc1), Some(kc2), None], [Release(kc0), Press(kc1), Press(kc2)])
        else
          Outcome(d.(previnfo := d.previnfo[0 := false]), [Some(kc1), None, None, None], [Release(kc1)])
      case Hold =>
        Outcome(d.(previnfo := d.previnfo[1 := false]), [Some(kc0), None, None, None], [Release(kc0)])
      case Off =>
        if d.previnfo[1] && d.stor[4] == 3 then
          Outcome(d.(previnfo := d.previnfo[1 := false], stor := d.stor[4 := 4]), NoCodes,
                  [Release(kc1), Release(kc2)])
        else if d.previnfo[1] && d.stor[4] < 5 then
          Outcome(d.(stor := d.stor[4 := d.stor[4] + 1]), NoCodes, [])
        else
          Outcome(d, NoCodes, [])
      case Idle => Outcome(d, NoCodes, [])
  }

  /**
   * `get_keys`: the handler of the current state. Only the scratch fields change; Tap and
   * Hold press at most `kc0`, Idle emits nothing, and Off emits at most three events.
   */
  function GetKeys(d: KeyData, ctx: Context): (o: Outcome)
    ensures ScratchOnly(d, o.key)
    ensures d.state == Idle ==> o.events == []
    ensures d.state == Tap || d.state == Hold ==>
      o.events == [] || (Shaped(d.keycode) && o.events == [Press(d.keycode[0].value)])
    ensures |o.events| <= 3
    ensures forall i | 0 <= i < |o.events| :: o.events[i].Press? || o.events[i].Release?
  {
    match d.state
    case Tap => OnTap(d, ctx)
    case Hold => OnHold(d)
    case Idle => OnIdle(d)
    case Off => OnOff(d, ctx)
  }
}
