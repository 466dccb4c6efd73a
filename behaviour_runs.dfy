/**
 * What each behaviour emits over runs of samples: the release edge of the Default and
 * ModCombo keys, the TapCom countdown, the alternating layer switches of a LayerHold key,
 * and the keys whose scans change nothing or always carry the same payload.
 *
 * Each behaviour's one-scan facts are proved about the firmware's scan (`ScanSpec`) and
 * collected in a predicate on scanners that `ScanIn(ctx)` satisfies; the run lemmas hold
 * for every scanner that debounces and satisfies that predicate.
 */
module BehaviourRuns {
  import opened Types
  import opened KeyCodes
  import opened StateTypes
  import opened Events
  import opened KeyRecord
  import opened KeyMacro
  import opened Debounce
  import DefaultKey
  import TapComKey
  import LayerHoldKey
  import TransparentKey

  // Default

  /**
   * The events a Default key emits on landing in `k`'s state, given the push and the pull
   * event of its primary code.
   */
  function DefaultEvents(push: Event, pull: Event, k: KeyData): seq<Event>
  {
    if k.state == Tap || k.state == Hold then [push]
    else if k.state == Off && k.state != k.prevstate then [pull]
    else []
  }

  /** `DefaultEvents` for the primary code `code`. */
  function DefaultEventsOf(code: KeyCode, k: KeyData): seq<Event>
  {
    DefaultEvents(DefaultKey.Push(code), DefaultKey.Pull(code), k)
  }

  /**
   * The events of one scan of a Default key, read off the state it lands in: a push in Tap
   * and Hold, a pull in Off right after a state change, nothing otherwise.
   */
  lemma DefaultScanEvents(d: KeyData, high: bool, ctx: Context)
    requires d.typ == Default && d.keycode[0].Some?
    ensures ScanSpec(d, high, ctx).events == DefaultEventsOf(d.keycode[0].value, ScanSpec(d, high, ctx).key)
  {
  }

  /**
   * No Default handler changes the key: a scan of a Default key leaves exactly the counted
   * and transitioned key, without the Hold refresh (the shared macro has no such branch).
   */
  lemma DefaultStep(d: KeyData, high: bool, ctx: Context)
    requires d.typ == Default && !Skips(d)
    ensures ScanSpec(d, high, ctx).key == Transition(Count(d, high), false)
  {
  }

  /** Every scan of a Default key emits what `DefaultEvents` says. */
  ghost predicate DefaultEmits(scan: Scanner)
  {
    forall d: KeyData, high: bool | d.typ == Default && d.keycode[0].Some? ::
      scan(d, high).events == DefaultEventsOf(d.keycode[0].value, scan(d, high).key)
  }

  lemma ScanInDefaultEmits(ctx: Context)
    ensures DefaultEmits(ScanIn(ctx))
  {
    forall d: KeyData, high: bool | d.typ == Default && d.keycode[0].Some?
      ensures ScanIn(ctx)(d, high).events == DefaultEventsOf(d.keycode[0].value, ScanIn(ctx)(d, high).key)
    {
      DefaultScanEvents(d, high, ctx);
    }
  }

  /**
   * Releasing a pressed Default key: however many low samples follow, the primary code is
   * pulled exactly once, on the first.
   */
  lemma {:induction false} DefaultReleaseOnce(scan: Scanner, d: KeyData, n: nat)
    requires Debounces(scan) && DefaultEmits(scan)
    requires d.typ == Default && d.keycode[0].Some? && d.state != Off && n >= 1
    ensures RunEvents(scan, d, Repeat(false, n)) == [DefaultKey.Pull(d.keycode[0].value)]
    ensures Run(scan, d, Repeat(false, n)).state == Off
  {
    RepeatSnoc(scan, d, false, n);
    RunKeeps(scan, d, Repeat(false, n - 1));
    var before := Run(scan, d, Repeat(false, n - 1));
    var o := scan(before, false);
    assert Steps(before, false, o);
    LowReleases(before, o);
    assert o.events == DefaultEventsOf(d.keycode[0].value, o.key);
    if n > 1 {
      DefaultReleaseOnce(scan, d, n - 1);
    }
  }

  /**
   * Pressing a released Default key: nothing for the first two high samples, then one push
   * of the primary code on every further sample, in Tap and in Hold alike.
   */
  lemma {:induction false} DefaultPressPushes(scan: Scanner, d: KeyData, k: nat)
    requires Debounces(scan) && DefaultEmits(scan)
    requires d.typ == Default && d.keycode[0].Some?
    requires d.state == Off && d.prevstate == Off && d.cycles == 0
    ensures RunEvents(scan, d, Repeat(true, k)) ==
      Repeat(DefaultKey.Push(d.keycode[0].value), if k < DEBOUNCE_CYCLES as int then 0 else k - 2)
  {
    var c := d.keycode[0].value;
    forall e: KeyData, high: bool | e.typ == d.typ && e.keycode == d.keycode
      ensures scan(e, high).events == DefaultEvents(DefaultKey.Push(c), DefaultKey.Pull(c), scan(e, high).key)
    {
      assert scan(e, high).events == DefaultEventsOf(e.keycode[0].value, scan(e, high).key);
    }
    PressPushes(scan, d, k, DefaultKey.Push(c), DefaultKey.Pull(c));
  }

  /** The keys of behaviour `typ` with codes `keycode` emit what `DefaultEvents` says on every scan. */
  ghost predicate EmitsDefault(scan: Scanner, typ: Behaviour, keycode: Codes, push: Event, pull: Event)
  {
    forall e: KeyData, high: bool | e.typ == typ && e.keycode == keycode ::
      scan(e, high).events == DefaultEvents(push, pull, scan(e, high).key)
  }

  /** `DefaultPressPushes` for any push and pull events the key's scans emit as `DefaultEvents` says. */
  lemma {:induction false} PressPushes(scan: Scanner, d: KeyData, k: nat, push: Event, pull: Event)
    requires Debounces(scan) && !Skips(d)
    requires EmitsDefault(scan, d.typ, d.keycode, push, pull)
    requires d.state == Off && d.prevstate == Off && d.cycles == 0
    ensures RunEvents(scan, d, Repeat(true, k)) == Repeat(push, if k < DEBOUNCE_CYCLES as int then 0 else k - 2)
  {
    if k > 0 {
      PressPushes(scan, d, k - 1, push, pull);
      PressPushStep(scan, d, k, push, pull);
      PushCount(push, RunEvents(scan, d, Repeat(true, k - 1)), scan(Run(scan, d, Repeat(true, k - 1)), true).events, k);
    }
  }

  /** The `k`-th high sample from rest pushes once the debounce count is reached, and emits nothing before. */
  lemma PressPushStep(scan: Scanner, d: KeyData, k: nat, push: Event, pull: Event)
    requires Debounces(scan) && !Skips(d) && k > 0
    requires EmitsDefault(scan, d.typ, d.keycode, push, pull)
    requires d.state == Off && d.prevstate == Off && d.cycles == 0
    ensures RunEvents(scan, d, Repeat(true, k)) ==
      RunEvents(scan, d, Repeat(true, k - 1)) + scan(Run(scan, d, Repeat(true, k - 1)), true).events
    ensures scan(Run(scan, d, Repeat(true, k - 1)), true).events == if k < DEBOUNCE_CYCLES as int then [] else [push]
  {
    RunKeeps(scan, d, Repeat(true, k - 1));
    PressProfile(scan, d, k - 1);
    RepeatSnoc(scan, d, true, k);
    var before := Run(scan, d, Repeat(true, k - 1));
    var o := scan(before, true);
    assert Steps(before, true, o);
    assert o.events == DefaultEvents(push, pull, o.key);
    PressStep(before, o, d.prevstate, k);
    PressedEvents(o.key, d.typ, k, push, pull);
  }

  /** A key pressed for `k` samples from rest pushes once it has passed the debounce count, and never pulls. */
  lemma PressedEvents(e: KeyData, typ: Behaviour, k: nat, push: Event, pull: Event)
    requires Pressed(e, Off, typ, k)
    ensures DefaultEvents(push, pull, e) == if k < DEBOUNCE_CYCLES as int then [] else [push]
  {
  }

  /** The pushes after `k - 1` high samples and those of the `k`-th add up to the pushes after `k`. */
  lemma PushCount(push: Event, earlier: seq<Event>, ev: seq<Event>, k: nat)
    requires k > 0
    requires earlier == Repeat(push, if k - 1 < DEBOUNCE_CYCLES as int then 0 else k - 3)
    requires ev == (if k < DEBOUNCE_CYCLES as int then [] else [push])
    ensures earlier + ev == Repeat(push, if k < DEBOUNCE_CYCLES as int then 0 else k - 2)
  {
    if k < DEBOUNCE_CYCLES as int {
      assert earlier + ev == earlier;
    }
  }

  /**
   * A high sample below the debounce count right after a release leaves `prevstate` as it
   * was, so the Default key pulls its primary code a second time.
   */
  lemma DefaultBounceRepeatsPull(d: KeyData, ctx: Context)
    requires d.typ == Default && d.keycode[0].Some?
    requires d.state == Off && d.prevstate != Off && d.cycles < DEBOUNCE_CYCLES - 1
    ensures ScanSpec(d, true, ctx).events == [DefaultKey.Pull(d.keycode[0].value)]
  {
  }

  // ModCombo

  /** On a low sample a ModCombo key releases its pair, first code first, if it was down. */
  function ModComboLowEvents(d: KeyData): seq<Event>
    requires PairShaped(d.keycode)
  {
    if d.state != Off then [Release(d.keycode[0].value), Release(d.keycode[1].value)] else []
  }

  lemma ModComboLowStep(d: KeyData, ctx: Context)
    requires d.typ == ModCombo && !Skips(d)
    ensures ScanSpec(d, false, ctx).events == ModComboLowEvents(d)
  {
  }

  /** Every low-sample scan of a ModCombo key that is not skipped emits what `ModComboLowEvents` says. */
  ghost predicate ModComboEmits(scan: Scanner)
  {
    forall d: KeyData {:trigger scan(d, false)} | d.typ == ModCombo && !Skips(d) :: scan(d, false).events == ModComboLowEvents(d)
  }

  lemma ScanInModComboEmits(ctx: Context)
    ensures ModComboEmits(ScanIn(ctx))
  {
    forall d: KeyData | d.typ == ModCombo && !Skips(d)
      ensures ScanIn(ctx)(d, false).events == ModComboLowEvents(d)
    {
      ModComboLowStep(d, ctx);
    }
  }

  /**
   * Releasing a pressed ModCombo key: however many low samples follow, the pair is released
   * exactly once, first code first, on the first.
   */
  lemma {:induction false} ModComboReleaseOnce(scan: Scanner, d: KeyData, n: nat)
    requires Debounces(scan) && ModComboEmits(scan)
    requires d.typ == ModCombo && !Skips(d) && d.state != Off && n >= 1
    ensures RunEvents(scan, d, Repeat(false, n)) == [Release(d.keycode[0].value), Release(d.keycode[1].value)]
    ensures Run(scan, d, Repeat(false, n)).state == Off
  {
    RepeatSnoc(scan, d, false, n);
    RunKeeps(scan, d, Repeat(false, n - 1));
    var before := Run(scan, d, Repeat(false, n - 1));
    var o := scan(before, false);
    assert Steps(before, false, o);
    LowReleases(before, o);
    assert o.events == ModComboLowEvents(before);
    if n > 1 {
      ModComboReleaseOnce(scan, d, n - 1);
    }
  }

  // TapCom

  /**
   * A low sample of a released TapCom key with the countdown in `stor[4]`: while it runs
   * (`previnfo[1]`) the count goes up by one, below 5; reaching 4 releases `kc1` and `kc2`
   * and stops the countdown.
   */
  predicate TapComLowStepOf(d: KeyData, o: Outcome)
    requires TapComKey.Shaped(d.keycode)
  {
    && o.key.state == Off
    && o.events == (if d.previnfo[1] && d.stor[4] == 3 then [Release(d.keycode[1].value), Release(d.keycode[2].value)] else [])
    && o.key.stor[4] == (if d.previnfo[1] && d.stor[4] == 3 then 4
                         else if d.previnfo[1] && d.stor[4] < 5 then d.stor[4] + 1 else d.stor[4])
    && o.key.previnfo[1] == (d.previnfo[1] && d.stor[4] != 3)
    && o.key.typ == d.typ && o.key.keycode == d.keycode
  }

  lemma TapComLowStep(d: KeyData, ctx: Context)
    requires d.typ == TapCom && TapComKey.Shaped(d.keycode) && d.state == Off
    ensures TapComLowStepOf(d, ScanSpec(d, false, ctx))
  {
  }

  /** The countdown's bound: `stor[4]` is at most 4, and at most 3 while the countdown runs. */
  predicate CountdownBounded(d: KeyData)
  {
    d.stor[4] <= 4 && (d.previnfo[1] ==> d.stor[4] <= 3)
  }

  /** One scan of a TapCom key keeps the countdown's bound. */
  lemma TapComCountdownStep(d: KeyData, high: bool, ctx: Context)
    requires d.typ == TapCom && CountdownBounded(d)
    ensures CountdownBounded(ScanSpec(d, high, ctx).key)
  {
  }

  /** Every scan of a TapCom key keeps the countdown's bound and counts down on low samples as `TapComLowStepOf` says. */
  ghost predicate TapComCounts(scan: Scanner)
  {
    && (forall d: KeyData {:trigger scan(d, false)} | d.typ == TapCom && TapComKey.Shaped(d.keycode) && d.state == Off ::
          TapComLowStepOf(d, scan(d, false)))
    && (forall d: KeyData, high: bool | d.typ == TapCom && CountdownBounded(d) :: CountdownBounded(scan(d, high).key))
  }

  lemma TapComCountsLow(scan: Scanner, d: KeyData)
    requires TapComCounts(scan) && d.typ == TapCom && TapComKey.Shaped(d.keycode) && d.state == Off
    ensures TapComLowStepOf(d, scan(d, false))
  {
  }

  lemma TapComCountsBound(scan: Scanner, d: KeyData, high: bool)
    requires TapComCounts(scan) && d.typ == TapCom && CountdownBounded(d)
    ensures CountdownBounded(scan(d, high).key)
  {
  }

  lemma ScanInTapComCounts(ctx: Context)
    ensures TapComCounts(ScanIn(ctx))
  {
    forall d: KeyData | d.typ == TapCom && TapComKey.Shaped(d.keycode) && d.state == Off
      ensures TapComLowStepOf(d, ScanIn(ctx)(d, false))
    {
      TapComLowStep(d, ctx);
    }
    forall d: KeyData, high: bool | d.typ == TapCom && CountdownBounded(d)
      ensures CountdownBounded(ScanIn(ctx)(d, high).key)
    {
      TapComCountdownStep(d, high, ctx);
    }
  }

  /**
   * The TapCom countdown: a released key with the countdown running at `stor[4] <= 3`
   * releases `kc1` and `kc2` together, once, on the low sample that brings the count to 4,
   * and then stops counting.
   */
  lemma {:induction false} TapComCountdown(scan: Scanner, d: KeyData, n: nat)
    requires TapComCounts(scan)
    requires d.typ == TapCom && TapComKey.Shaped(d.keycode) && d.state == Off
    requires d.previnfo[1] && d.stor[4] <= 3
    ensures RunEvents(scan, d, Repeat(false, n)) ==
      (if d.stor[4] + n >= 4 then [Release(d.keycode[1].value), Release(d.keycode[2].value)] else [])
    ensures Run(scan, d, Repeat(false, n)).stor[4] == (if d.stor[4] + n >= 4 then 4 else d.stor[4] + n)
    ensures Run(scan, d, Repeat(false, n)).previnfo[1] == (d.stor[4] + n < 4)
    ensures Run(scan, d, Repeat(false, n)).state == Off
    ensures Run(scan, d, Repeat(false, n)).typ == d.typ && Run(scan, d, Repeat(false, n)).keycode == d.keycode
  {
    if n > 0 {
      TapComCountdown(scan, d, n - 1);
      var before := Run(scan, d, Repeat(false, n - 1));
      TapComCountsLow(scan, before);
      CountdownRunStep(scan, d, n);
    }
  }

  /** The countdown after `n - 1` low samples, and one more low sample, give the countdown after `n`. */
  lemma CountdownRunStep(scan: Scanner, d: KeyData, n: nat)
    requires TapComKey.Shaped(d.keycode) && n > 0 && d.stor[4] <= 3
    requires RunEvents(scan, d, Repeat(false, n - 1)) ==
      (if d.stor[4] + n - 1 >= 4 then [Release(d.keycode[1].value), Release(d.keycode[2].value)] else [])
    requires Run(scan, d, Repeat(false, n - 1)).stor[4] == (if d.stor[4] + n - 1 >= 4 then 4 else d.stor[4] + n - 1)
    requires Run(scan, d, Repeat(false, n - 1)).previnfo[1] == (d.stor[4] + n - 1 < 4)
    requires Run(scan, d, Repeat(false, n - 1)).state == Off
    requires Run(scan, d, Repeat(false, n - 1)).typ == d.typ && Run(scan, d, Repeat(false, n - 1)).keycode == d.keycode
    requires TapComLowStepOf(Run(scan, d, Repeat(false, n - 1)), scan(Run(scan, d, Repeat(false, n - 1)), false))
    ensures RunEvents(scan, d, Repeat(false, n)) ==
      (if d.stor[4] + n >= 4 then [Release(d.keycode[1].value), Release(d.keycode[2].value)] else [])
    ensures Run(scan, d, Repeat(false, n)).stor[4] == (if d.stor[4] + n >= 4 then 4 else d.stor[4] + n)
    ensures Run(scan, d, Repeat(false, n)).previnfo[1] == (d.stor[4] + n < 4)
    ensures Run(scan, d, Repeat(false, n)).state == Off
    ensures Run(scan, d, Repeat(false, n)).typ == d.typ && Run(scan, d, Repeat(false, n)).keycode == d.keycode
  {
    RepeatSnoc(scan, d, false, n);
    var before := Run(scan, d, Repeat(false, n - 1));
    var o := scan(before, false);
    CountdownNext(d, n, before, o);
    CountdownEvents(RunEvents(scan, d, Repeat(false, n - 1)), o.events, d.stor[4], n,
                    [Release(d.keycode[1].value), Release(d.keycode[2].value)]);
  }

  /** One low sample of the countdown, `n - 1` samples after it started at `d.stor[4]`. */
  lemma CountdownNext(d: KeyData, n: nat, before: KeyData, o: Outcome)
    requires TapComKey.Shaped(d.keycode) && n > 0 && d.stor[4] <= 3
    requires before.keycode == d.keycode && before.typ == d.typ && before.state == Off
    requires before.stor[4] == (if d.stor[4] + n - 1 >= 4 then 4 else d.stor[4] + n - 1)
    requires before.previnfo[1] == (d.stor[4] + n - 1 < 4)
    requires TapComLowStepOf(before, o)
    ensures o.events == (if d.stor[4] + n - 1 == 3 then [Release(d.keycode[1].value), Release(d.keycode[2].value)] else [])
    ensures o.key.stor[4] == (if d.stor[4] + n >= 4 then 4 else d.stor[4] + n)
    ensures o.key.previnfo[1] == (d.stor[4] + n < 4)
    ensures o.key.state == Off && o.key.typ == d.typ && o.key.keycode == d.keycode
  {
  }

  /** The countdown's releases so far and those of the next low sample add up to its releases after it. */
  lemma CountdownEvents(earlier: seq<Event>, ev: seq<Event>, start: nat, n: nat, pair: seq<Event>)
    requires n > 0 && start <= 3
    requires earlier == (if start + n - 1 >= 4 then pair else [])
    requires ev == (if start + n - 1 == 3 then pair else [])
    ensures earlier + ev == (if start + n >= 4 then pair else [])
  {
    if start + n - 1 != 3 {
      assert earlier + ev == earlier;
    }
  }

  /**
   * A fresh key satisfies the countdown's bound and every scan keeps it, so the `< 5` guard
   * of `tpcoff` never lets the count past 4.
   */
  lemma {:induction false} TapComCountdownNeverPastFour(scan: Scanner, d: KeyData, s: seq<bool>)
    requires Debounces(scan) && TapComCounts(scan)
    requires d.typ == TapCom && CountdownBounded(d)
    ensures CountdownBounded(Run(scan, d, s)) && Run(scan, d, s).stor[4] <= 5
  {
    if s != [] {
      var p := s[..|s| - 1];
      TapComCountdownNeverPastFour(scan, d, p);
      RunKeeps(scan, d, p);
      TapComCountsBound(scan, Run(scan, d, p), s[|s| - 1]);
    }
  }

  lemma TapComNewBounded(s: string, decode: string -> KeyCode)
    requires TapComKey.New(s, decode).Some?
    ensures CountdownBounded(TapComKey.New(s, decode).value)
  {
  }

  // LayerHold

  /**
   * What a LayerHold key keeps true: it is never Idle, `previnfo[0]` (layer 1 switched on by
   * this key) holds exactly while the key is down, and a key that is down has passed the
   * debounce count.
   */
  predicate LayerHeld(d: KeyData)
  {
    && d.state != Idle
    && (d.previnfo[0] <==> d.state != Off)
    && (d.state != Off ==> d.cycles >= DEBOUNCE_CYCLES)
  }

  /** `o` keeps `LayerHeld` and emits a layer switch exactly when `previnfo[0]` flips: 1 on, 0 off. */
  predicate LayerHoldStepOf(d: KeyData, o: Outcome)
  {
    && LayerHeld(o.key)
    && o.events == (if o.key.previnfo[0] == d.previnfo[0] then []
                    else [SetLayer(if o.key.previnfo[0] then 1 else 0)])
    && o.key.typ == d.typ
  }

  lemma LayerHoldStep(d: KeyData, high: bool, ctx: Context)
    requires d.typ == LayerHold && LayerHeld(d)
    ensures LayerHoldStepOf(d, ScanSpec(d, high, ctx))
  {
    if high {
      HighStep(d, ScanSpec(d, high, ctx));
    } else {
      LowReleases(d, ScanSpec(d, high, ctx));
    }
  }

  /** Every scan of a LayerHold key is a step as `LayerHoldStepOf` says. */
  ghost predicate LayerHoldSwitches(scan: Scanner)
  {
    forall d: KeyData, high: bool | d.typ == LayerHold && LayerHeld(d) :: LayerHoldStepOf(d, scan(d, high))
  }

  lemma ScanInLayerHoldSwitches(ctx: Context)
    ensures LayerHoldSwitches(ScanIn(ctx))
  {
    forall d: KeyData, high: bool | d.typ == LayerHold && LayerHeld(d)
      ensures LayerHoldStepOf(d, ScanIn(ctx)(d, high))
    {
      LayerHoldStep(d, high, ctx);
    }
  }

  /** The layer indices alternate 1, 0, 1, … when `on` is false, and 0, 1, … when it is true. */
  predicate Alternating(l: seq<u8>, on: bool)
  {
    forall i | 0 <= i < |l| :: l[i] == (if (i % 2 == 0) != on then 1 else 0)
  }

  /**
   * One scan's contribution to an alternating sequence: a scan that flips the flag from
   * `was` to `now` and emits the matching switch extends the sequence by the index that
   * comes next, and the flag still records the parity of the switches.
   */
  lemma AlternatingStep(l: seq<u8>, on: bool, was: bool, now: bool, ev: seq<Event>)
    requires Alternating(l, on) && was == (on != (|l| % 2 == 1))
    requires ev == (if now == was then [] else [SetLayer(if now then 1 else 0)])
    ensures Alternating(l + LayerChanges(ev), on)
    ensures now == (on != (|l + LayerChanges(ev)| % 2 == 1))
  {
    if ev != [] {
      assert ev[..0] == [];
      assert LayerChanges(ev) == [ev[0].layer];
    }
  }

  /**
   * Over any run, the layer switches of a LayerHold key alternate: 1, 0, 1, … from a
   * released key and 0, 1, … from a held one; `previnfo[0]` at the end records whether the
   * last one switched layer 1 on.
   */
  lemma {:induction false} LayerHoldAlternates(scan: Scanner, d: KeyData, s: seq<bool>)
    requires LayerHoldSwitches(scan)
    requires d.typ == LayerHold && LayerHeld(d)
    ensures Run(scan, d, s).typ == LayerHold && LayerHeld(Run(scan, d, s))
    ensures Alternating(LayerChanges(RunEvents(scan, d, s)), d.previnfo[0])
    ensures Run(scan, d, s).previnfo[0] == (d.previnfo[0] != (|LayerChanges(RunEvents(scan, d, s))| % 2 == 1))
  {
    if s != [] {
      var p := s[..|s| - 1];
      LayerHoldAlternates(scan, d, p);
      RunSnoc(scan, d, p, s[|s| - 1]);
      assert p + [s[|s| - 1]] == s;
      var before := Run(scan, d, p);
      var o := scan(before, s[|s| - 1]);
      assert LayerHoldStepOf(before, o);
      AlternatingNext(RunEvents(scan, d, p), d.previnfo[0], before, o);
    }
  }

  /** The switches so far, followed by one more LayerHold step, still alternate. */
  lemma AlternatingNext(earlier: seq<Event>, on: bool, before: KeyData, o: Outcome)
    requires Alternating(LayerChanges(earlier), on)
    requires before.previnfo[0] == (on != (|LayerChanges(earlier)| % 2 == 1))
    requires LayerHoldStepOf(before, o)
    ensures Alternating(LayerChanges(earlier + o.events), on)
    ensures o.key.previnfo[0] == (on != (|LayerChanges(earlier + o.events)| % 2 == 1))
  {
    LayerChangesAppend(earlier, o.events);
    AlternatingStep(LayerChanges(earlier), on, before.previnfo[0], o.key.previnfo[0], o.events);
  }

  /** A fresh LayerHold key is released with no layer switched on. */
  lemma LayerHoldNewHeld(s: string)
    requires LayerHoldKey.New(s).Some?
    ensures LayerHeld(LayerHoldKey.New(s).value) && !LayerHoldKey.New(s).value.previnfo[0]
  {
  }

  // RGB

  /**
   * `o` keeps the RGB key's colour and emits nothing or one RGBSet of that colour: a scanned
   * key emits it exactly when it lands in Tap (`rkhold`, `rkidle` and `rkoff` emit nothing),
   * and a skipped key emits nothing.
   */
  predicate RgbStepOf(d: KeyData, o: Outcome)
  {
    && o.key.typ == d.typ && o.key.stor == d.stor
    && (o.events == [] || o.events == [RgbSet(d.stor[0], d.stor[1], d.stor[2])])
    && (Skips(d) ==> o.events == [])
    && (!Skips(d) ==> (o.events != [] <==> o.key.state == Tap))
  }

  lemma RgbStep(d: KeyData, high: bool, ctx: Context)
    requires d.typ == Rgb
    ensures RgbStepOf(d, ScanSpec(d, high, ctx))
  {
  }

  ghost predicate RgbKeeps(scan: Scanner)
  {
    forall d: KeyData, high: bool | d.typ == Rgb :: RgbStepOf(d, scan(d, high))
  }

  lemma ScanInRgbKeeps(ctx: Context)
    ensures RgbKeeps(ScanIn(ctx))
  {
    forall d: KeyData, high: bool | d.typ == Rgb
      ensures RgbStepOf(d, ScanIn(ctx)(d, high))
    {
      RgbStep(d, high, ctx);
    }
  }

  /** An RGB key's colour never changes, and every event it emits sets exactly that colour. */
  lemma {:induction false} RgbKeepsColour(scan: Scanner, d: KeyData, s: seq<bool>)
    requires RgbKeeps(scan)
    requires d.typ == Rgb
    ensures Run(scan, d, s).typ == Rgb && Run(scan, d, s).stor == d.stor
    ensures var ev := RunEvents(scan, d, s);
      forall i | 0 <= i < |ev| :: ev[i] == RgbSet(d.stor[0], d.stor[1], d.stor[2])
  {
    if s != [] {
      var p := s[..|s| - 1];
      RgbKeepsColour(scan, d, p);
      RunSnoc(scan, d, p, s[|s| - 1]);
      assert p + [s[|s| - 1]] == s;
      var before := Run(scan, d, p);
      var o := scan(before, s[|s| - 1]);
      assert RgbStepOf(before, o);
      AllEqualAppend(RunEvents(scan, d, p), o.events, RgbSet(d.stor[0], d.stor[1], d.stor[2]));
    }
  }

  /** Two sequences whose events all equal `e` concatenate to one whose events all equal `e`. */
  lemma AllEqualAppend(a: seq<Event>, b: seq<Event>, e: Event)
    requires forall i | 0 <= i < |a| :: a[i] == e
    requires forall i | 0 <= i < |b| :: b[i] == e
    ensures forall i | 0 <= i < |a + b| :: (a + b)[i] == e
  {
    forall i | 0 <= i < |a + b|
      ensures (a + b)[i] == e
    {
      if i >= |a| {
        assert (a + b)[i] == b[i - |a|];
      }
    }
  }

  // Send-string

  /**
   * `o` emits nothing or one SendString of the key's text: a scanned key sends it exactly
   * when it lands in Tap (`ssthold`, `sstidle` and `sstoff` emit nothing), and a skipped key
   * sends nothing.
   */
  predicate SendStringStepOf(d: KeyData, o: Outcome)
  {
    && o.key.typ == d.typ && o.key.strng == d.strng
    && (o.events == [] || o.events == [SendString(d.strng)])
    && (Skips(d) ==> o.events == [])
    && (!Skips(d) ==> (o.events != [] <==> o.key.state == Tap))
  }

  lemma SendStringStep(d: KeyData, high: bool, ctx: Context)
    requires d.typ == SendStr
    ensures SendStringStepOf(d, ScanSpec(d, high, ctx))
  {
  }

  ghost predicate SendStringSends(scan: Scanner)
  {
    forall d: KeyData, high: bool | d.typ == SendStr :: SendStringStepOf(d, scan(d, high))
  }

  lemma ScanInSendStringSends(ctx: Context)
    ensures SendStringSends(ScanIn(ctx))
  {
    forall d: KeyData, high: bool | d.typ == SendStr
      ensures SendStringStepOf(d, ScanIn(ctx)(d, high))
    {
      SendStringStep(d, high, ctx);
    }
  }

  /** Every event a send-string key emits sends exactly its text. */
  lemma {:induction false} SendStringSendsText(scan: Scanner, d: KeyData, s: seq<bool>)
    requires SendStringSends(scan)
    requires d.typ == SendStr
    ensures Run(scan, d, s).typ == SendStr && Run(scan, d, s).strng == d.strng
    ensures var ev := RunEvents(scan, d, s);
      forall i | 0 <= i < |ev| :: ev[i] == SendString(d.strng)
  {
    if s != [] {
      var p := s[..|s| - 1];
      SendStringSendsText(scan, d, p);
      RunSnoc(scan, d, p, s[|s| - 1]);
      assert p + [s[|s| - 1]] == s;
      var before := Run(scan, d, p);
      var o := scan(before, s[|s| - 1]);
      assert SendStringStepOf(before, o);
      AllEqualAppend(RunEvents(scan, d, p), o.events, SendString(d.strng));
    }
  }

  // ModTap

  /** `o` emits nothing and leaves the scratch fields as they were. */
  predicate ModTapStepOf(d: KeyData, o: Outcome)
  {
    o.events == [] && o.key.typ == d.typ && o.key.previnfo == d.previnfo && o.key.stor == d.stor
  }

  lemma ModTapStep(d: KeyData, high: bool, ctx: Context)
    requires d.typ == ModTap
    ensures ModTapStepOf(d, ScanSpec(d, high, ctx))
  {
  }

  ghost predicate ModTapQuiet(scan: Scanner)
  {
    forall d: KeyData, high: bool | d.typ == ModTap :: ModTapStepOf(d, scan(d, high))
  }

  lemma ModTapQuietAt(scan: Scanner, d: KeyData, high: bool)
    requires ModTapQuiet(scan) && d.typ == ModTap
    ensures ModTapStepOf(d, scan(d, high))
  {
  }

  lemma ScanInModTapQuiet(ctx: Context)
    ensures ModTapQuiet(ScanIn(ctx))
  {
    forall d: KeyData, high: bool | d.typ == ModTap
      ensures ModTapStepOf(d, ScanIn(ctx)(d, high))
    {
      ModTapStep(d, high, ctx);
    }
  }

  /** A ModTap key emits nothing and keeps its scratch fields: only its debounce state moves. */
  lemma {:induction false} ModTapSilent(scan: Scanner, d: KeyData, s: seq<bool>)
    requires ModTapQuiet(scan)
    requires d.typ == ModTap
    ensures Run(scan, d, s).typ == ModTap
    ensures RunEvents(scan, d, s) == []
    ensures Run(scan, d, s).previnfo == d.previnfo && Run(scan, d, s).stor == d.stor
  {
    if s != [] {
      var p := s[..|s| - 1];
      ModTapSilent(scan, d, p);
      ModTapQuietAt(scan, Run(scan, d, p), s[|s| - 1]);
    }
  }

  // Transparent

  /** Scanning a transparent cell returns nothing and changes nothing, whatever the samples. */
  lemma {:induction false} TransparentInert(scan: Scanner, s: seq<bool>)
    requires Debounces(scan)
    ensures Run(scan, TransparentKey.New(), s) == TransparentKey.New()
    ensures RunEvents(scan, TransparentKey.New(), s) == []
  {
    if s != [] {
      TransparentInert(scan, s[..|s| - 1]);
      assert Steps(TransparentKey.New(), s[|s| - 1], scan(TransparentKey.New(), s[|s| - 1]));
    }
  }
}
