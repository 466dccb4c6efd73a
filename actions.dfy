/**
 * The action vocabulary of `src/actions.rs`: four action kinds, their text names, and an
 * `Action` value that remembers its kind and whose `execute` has no effect yet.
 */
module Actions {

  datatype ActionType = Enqueue | Dequeue | LedColor | LedAnim

  /** The four names `From<&str>` accepts; its `match` has no arm for anything else. */
  const Names: set<string> := {"enqueue", "dequeue", "ledcolor", "ledanim"}

  /** `From<ActionType> for &str`. */
  function Name(a: ActionType): (s: string)
    ensures s in Names
  {
    match a
    case Enqueue => "enqueue"
    case Dequeue => "dequeue"
    case LedColor => "ledcolor"
    case LedAnim => "ledanim"
  }

  /** `From<&str> for ActionType`, defined on the four names only. */
  function Parse(s: string): (a: ActionType)
    requires s in Names
    ensures Name(a) == s
  {
    if s == "enqueue" then Enqueue
    else if s == "dequeue" then Dequeue
    else if s == "ledcolor" then LedColor
    else LedAnim
  }

  /** Reading back the name of an action kind gives that kind. */
  lemma ParseName(a: ActionType)
    ensures Parse(Name(a)) == a
  {
  }

  /** The four names are pairwise distinct: `Name` is injective, so `Parse` is its inverse on `Names`. */
  lemma NameInjective(a: ActionType, b: ActionType)
    ensures Name(a) == Name(b) <==> a == b
  {
  }

  /** `Action`: the kind it was built for. */
  class Action {
    var typ: ActionType

    /** `new_enqueue`: the argument is ignored and the kind is `Enqueue`. */
    constructor NewEnqueue(ignored: ActionType)
      ensures typ == Enqueue
    {
      typ := Enqueue;
    }

    /** `new_dequeue`: the argument is ignored and the kind is `Dequeue`. */
    constructor NewDequeue(ignored: ActionType)
      ensures typ == Dequeue
    {
      typ := Dequeue;
    }

    /** `new_ledcolor`: the argument is ignored and the kind is `LedColor`. */
    constructor NewLedColor(ignored: ActionType)
      ensures typ == LedColor
    {
      typ := LedColor;
    }

    /** `new_ledanim`: the argument is ignored and the kind is `LedAnim`. */
    constructor NewLedAnim(ignored: ActionType)
      ensures typ == LedAnim
    {
      typ := LedAnim;
    }

    /** `execute`: every arm of its `match` is empty, so the action is left as it was. */
    method Execute()
      modifies this
      ensures typ == old(typ)
    {
      match typ
      case Enqueue =>
      case Dequeue =>
      case LedColor =>
      case LedAnim =>
    }
  }
}
