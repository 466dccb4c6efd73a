/**
 * The events the key handlers emit through the firmware's `action` callback (`CallbackActions`
 * with its `ARGS` payload), and the string-tagged pushes of the Default key (`action("mpush", ...)`).
 * The callback itself is not part of this model: each handler returns the events it emits, in
 * emission order, and the scanner concatenates them into a trace.
 */
module Events {
  import opened Types
  import opened KeyCodes

  datatype Event =
    | Press(code: KeyCode)
    | Release(code: KeyCode)
    | SetLayer(layer: u8)
    | RgbSet(r: u8, g: u8, b: u8)
    | SendString(text: string)
    | MPush(code: KeyCode)   // "mpush": a modifier went down
    | IPush(code: KeyCode)   // "ipush": an ordinary key went down
    | MPull(code: KeyCode)   // "mpull": a modifier went up
    | IPull(code: KeyCode)   // "ipull": an ordinary key went up

  /** The SetLayer events of a trace, in order. */
  function LayerChanges(trace: seq<Event>): (r: seq<u8>)
    ensures |r| <= |trace|
  {
    if trace == [] then []
    else LayerChanges(trace[..|trace| - 1])
         + (if trace[|trace| - 1].SetLayer? then [trace[|trace| - 1].layer] else [])
  }

  /** The SetLayer events of a concatenation are those of its parts, in order. */
  lemma {:induction false} LayerChangesAppend(a: seq<Event>, b: seq<Event>)
    ensures LayerChanges(a + b) == LayerChanges(a) + LayerChanges(b)
    decreases |b|
  {
    if b == [] {
      assert a + b == a;
    } else {
      var b' := b[..|b| - 1];
      assert (a + b)[..|a + b| - 1] == a + b';
      LayerChangesAppend(a, b');
    }
  }
}
