/**
 * What the shared scan of `src/macros/key.rs` promises, over one sample and over runs of
 * samples: saturating counters, an immediate release, a press after three high samples, a
 * hold after twenty, and no way into Idle.
 *
 * The run lemmas hold for every scanner that moves keys the way the shared scan does
 * (`Debounces`); the firmware's scanner `ScanIn(ctx)` is one (`ScanInDebounces`).
 */
module Debounce {
  import opened Types
  import opened KeyCodes
  import opened StateTypes
  import opened Events
  import opened KeyRecord
  import opened KeyMacro

  /**
   * `o` is a possible outcome of scanning `d` at level `high`: a skipped key is returned as
   * it was with nothing emitted; any other is counted and moved to its new state, and the
   * handler changes at most its scratch fields.
   */
  predicate Steps(d: KeyData, high: bool, o: Outcome)
  {
    if Skips(d) then o == Outcome(d, NoCodes, [])
    else ScratchOnly(Transition(Count(d, high), RefreshesHold(d.typ)), o.key)
  }

  /** Every scan `scan` performs is a step of the shared scan. */
  ghost predicate Debounces(scan: Scanner)
  {
    forall d, high {:trigger Steps(d, high, scan(d, high))} :: Steps(d, high, scan(d, high))
  }

  /** The firmware's scanner debounces. */
  lemma ScanInDebounces(ctx: Context)
    ensures Debounces(ScanIn(ctx))
  {
    forall d, high
      ensures Steps(d, high, ScanIn(ctx)(d, high))
    {
      var o := ScanSpec(d, high, ctx);
    }
  }

  /** Scanning one more sample extends the run by one step. */
  lemma RunSnoc(scan: Scanner, d: KeyData, s: seq<bool>, x: bool)
    ensures Run(scan, d, s + [x]) == scan(Run(scan, d, s), x).key
    ensures RunEvents(scan, d, s + [x]) == RunEvents(scan, d, s) + scan(Run(scan, d, s), x).events
  {
    assert (s + [x])[..|s|] == s;
  }

  /** Scanning `k` samples of one level is scanning `k - 1` of them and then one more. */
  lemma RepeatSnoc(scan: Scanner, d: KeyData, level: bool, k: nat)
    requires k > 0
    ensures Run(scan, d, Repeat(level, k)) == scan(Run(scan, d, Repeat(level, k - 1)), level).key
    ensures RunEvents(scan, d, Repeat(level, k)) ==
      RunEvents(scan, d, Repeat(level, k - 1)) + scan(Run(scan, d, Repeat(level, k - 1)), level).events
  {
    RunSnoc(scan, d, Repeat(level, k - 1), level);
  }

  /**
   * One step of a key that is not skipped: `raw_state` is the sample, the counter of the
   * sample's level counts up and saturates at `u16::MAX`, the other is cleared, so one of
   * them is always zero; codes, behaviour and text stay.
   */
  lemma ScanCounters(d: KeyData, high: bool, o: Outcome)
    requires !Skips(d) && Steps(d, high, o)
    ensures var k := o.key;
      && k.rawState == high
      && k.cycles == (if high then (if d.cycles < U16_MAX then d.cycles + 1 else U16_MAX) else 0)
      && k.cyclesOff == (if high then 0 else (if d.cyclesOff < U16_MAX then d.cyclesOff + 1 else U16_MAX))
      && (k.cycles == 0 || k.cyclesOff == 0)
      && k.keycode == d.keycode && k.typ == d.typ && k.strng == d.strng
  {
  }

  /** Any single low sample releases the key: there is no release debounce. */
  lemma LowReleases(d: KeyData, o: Outcome)
    requires !Skips(d) && Steps(d, false, o)
    ensures o.key.state == Off
    ensures o.key.prevstate == d.state
  {
  }

  /**
   * One high sample. Below the debounce count nothing moves; from there an Off key becomes a
   * Tap, a Tap becomes a Hold at the hold count, and a Hold stays, with `prevstate` refreshed
   * to Hold only by the scans that have that branch.
   */
  lemma HighStep(d: KeyData, o: Outcome)
    requires !Skips(d) && Steps(d, true, o)
    ensures var k := o.key;
      var c := if d.cycles < U16_MAX then d.cycles + 1 else U16_MAX;
      && (c < DEBOUNCE_CYCLES ==> k.state == d.state && k.prevstate == d.prevstate)
      && (c >= DEBOUNCE_CYCLES ==>
           match d.state
           case Off => k.state == Tap && k.prevstate == Off
           case Tap => k.state == (if c >= HOLD_CYCLES then Hold else Tap) && k.prevstate == Tap
           case Hold => k.state == Hold && k.prevstate == (if RefreshesHold(d.typ) then Hold else d.prevstate)
           case Idle => k.state == Idle && k.prevstate == d.prevstate)
  {
  }

  /** Scanning never changes a key's codes, behaviour or text, so it never changes whether the key is skipped. */
  lemma {:induction false} RunKeeps(scan: Scanner, d: KeyData, s: seq<bool>)
    requires Debounces(scan)
    ensures Run(scan, d, s).keycode == d.keycode
    ensures Run(scan, d, s).typ == d.typ
    ensures Run(scan, d, s).strng == d.strng
    ensures Skips(Run(scan, d, s)) == Skips(d)
  {
    if s != [] {
      var p := s[..|s| - 1];
      RunKeeps(scan, d, p);
      var before := Run(scan, d, p);
      assert Steps(before, s[|s| - 1], scan(before, s[|s| - 1]));
      if !Skips(before) {
        ScanCounters(before, s[|s| - 1], scan(before, s[|s| - 1]));
      }
    }
  }

  /** Idle is never assigned: a key that is not Idle never becomes Idle. */
  lemma {:induction false} NeverIdle(scan: Scanner, d: KeyData, s: seq<bool>)
    requires Debounces(scan) && d.state != Idle
    ensures Run(scan, d, s).state != Idle
  {
    if s != [] {
      var p := s[..|s| - 1];
      NeverIdle(scan, d, p);
      var before := Run(scan, d, p);
      var o := scan(before, s[|s| - 1]);
      assert Steps(before, s[|s| - 1], o);
      if !Skips(before) {
        if s[|s| - 1] {
          HighStep(before, o);
        } else {
          LowReleases(before, o);
        }
      }
    }
  }

  /**
   * The profile of a released key (with previous state `prev` and behaviour `typ`) after `k`
   * high samples: still Off while `k < 3`, a Tap from the third sample, and a Hold from the
   * twentieth on. `prevstate` is Off on the press edge and Tap after it; once held, the
   * refreshing scans make it Hold.
   */
  predicate Pressed(e: KeyData, prev: StateType, typ: Behaviour, k: nat)
  {
    && e.typ == typ
    && e.cycles == (if k < U16_MAX then k else U16_MAX)
    && e.state == (if k < DEBOUNCE_CYCLES as int then Off else if k < HOLD_CYCLES as int then Tap else Hold)
    && e.prevstate == (if k < DEBOUNCE_CYCLES as int then prev
                       else if k == DEBOUNCE_CYCLES as int then Off
                       else if k <= HOLD_CYCLES as int || !RefreshesHold(typ) then Tap
                       else Hold)
  }

  /** Holding a released key down for `k` samples gives the profile `Pressed` describes. */
  lemma {:induction false} PressProfile(scan: Scanner, d: KeyData, k: nat)
    requires Debounces(scan) && !Skips(d) && d.state == Off && d.cycles == 0
    ensures Pressed(Run(scan, d, Repeat(true, k)), d.prevstate, d.typ, k)
  {
    if k > 0 {
      PressProfile(scan, d, k - 1);
      RepeatSnoc(scan, d, true, k);
      var before := Run(scan, d, Repeat(true, k - 1));
      RunKeeps(scan, d, Repeat(true, k - 1));
      var o := scan(before, true);
      assert Run(scan, d, Repeat(true, k)) == o.key;
      PressStep(before, o, d.prevstate, k);
    }
  }

  /** The step of `PressProfile`: one more high sample moves the profile from `k - 1` to `k`. */
  lemma PressStep(before: KeyData, o: Outcome, prev: StateType, k: nat)
    requires k > 0 && !Skips(before) && Steps(before, true, o) && Pressed(before, prev, before.typ, k - 1)
    ensures Pressed(o.key, prev, before.typ, k)
  {
    HighStep(before, o);
    ScanCounters(before, true, o);
  }

  /** A held key stays held while the pin stays high; only the refreshing scans touch `prevstate`. */
  lemma {:induction false} HoldPersists(scan: Scanner, d: KeyData, k: nat)
    requires Debounces(scan) && !Skips(d) && d.state == Hold && d.cycles >= HOLD_CYCLES
    ensures Run(scan, d, Repeat(true, k)).state == Hold
    ensures Run(scan, d, Repeat(true, k)).cycles >= HOLD_CYCLES
    ensures Run(scan, d, Repeat(true, k)).prevstate ==
      (if k > 0 && RefreshesHold(d.typ) then Hold else d.prevstate)
  {
    if k > 0 {
      HoldPersists(scan, d, k - 1);
      RepeatSnoc(scan, d, true, k);
      var before := Run(scan, d, Repeat(true, k - 1));
      RunKeeps(scan, d, Repeat(true, k - 1));
      var o := scan(before, true);
      assert Steps(before, true, o);
      HighStep(before, o);
      ScanCounters(before, true, o);
    }
  }
}
