/**
 * The key table of the browser client's first-person camera: a table from
 * key code to "held", written by the scene's keyboard observable on every
 * key-down and key-up that is not an auto-repeat, and the table of key
 * codes the client binds to movement.
 *
 * The table is a map (the script uses a sparse array indexed by key code;
 * a code never written is absent). Logging is not modelled.
 */
module BrowserInput {
  import opened Wrappers

  /** The movement bindings, as browser key codes. */
  const Keys: map<string, int> := map["forward" := 87, "backward" := 83, "left" := 65, "right" := 68, "jump" := 32]

  /** Every binding has its own key code. */
  lemma KeysAreDistinct()
    ensures forall a, b :: a in Keys && b in Keys && a != b ==> Keys[a] != Keys[b]
    ensures Keys.Keys == {"forward", "backward", "left", "right", "jump"}
  {
  }

  /** The scene's keyboard event kinds; only the first two reach the table. */
  datatype KeyboardEventType = KeyDown | KeyUp | OtherType(code: int)

  /** The browser event: `key`, `keyCode` and the auto-repeat flag. */
  datatype KeyboardEvent = KeyboardEvent(key: string, keyCode: int, repeat: bool)

  /** What the observable delivers: the kind and the browser event. */
  datatype KeyboardInfo = KeyboardInfo(eventType: KeyboardEventType, event: KeyboardEvent)

  /** Whether the table records `code` as held. */
  predicate Held(table: map<int, bool>, code: int) {
    code in table && table[code]
  }

  /** The table after the handler sees one event. */
  function Apply(table: map<int, bool>, info: KeyboardInfo): (r: map<int, bool>)
    ensures forall c :: c != info.event.keyCode ==> (c in r <==> c in table)
    ensures forall c :: c != info.event.keyCode && c in table ==> r[c] == table[c]
    ensures !info.event.repeat && info.eventType == KeyDown ==> Held(r, info.event.keyCode)
    ensures !info.event.repeat && info.eventType == KeyUp ==>
              info.event.keyCode in r && !r[info.event.keyCode]
    ensures info.event.repeat || info.eventType.OtherType? ==> r == table
  {
    if info.event.repeat then table
    else match info.eventType
      case KeyDown => table[info.event.keyCode := true]
      case KeyUp => table[info.event.keyCode := false]
      case OtherType(_) => table
  }

  /** The camera's key table. */
  class FPSCamera {
    var keys: map<int, bool>

    /** A new camera has seen no key. */
    constructor ()
      ensures keys == map[]
    {
      keys := map[];
    }

    /** `processKeyDown`: the code is held from now on. */
    method ProcessKeyDown(key: string, code: int)
      modifies this`keys
      ensures keys == old(keys)[code := true]
    {
      keys := keys[code := true];
    }

    /** `processKeyUp`: the code is released from now on. */
    method ProcessKeyUp(key: string, code: int)
      modifies this`keys
      ensures keys == old(keys)[code := false]
    {
      keys := keys[code := false];
    }

    /** `keyboardEventHandler`: auto-repeats are dropped, then the kind picks the update. */
    method KeyboardEventHandler(info: KeyboardInfo)
      modifies this`keys
      ensures keys == Apply(old(keys), info)
    {
      var evt := info.event;
      if evt.repeat {
        return;
      }
      match info.eventType {
        case KeyDown => ProcessKeyDown(evt.key, evt.keyCode);
        case KeyUp => ProcessKeyUp(evt.key, evt.keyCode);
        case OtherType(_) =>
      }
    }
  }

  /** The table after the handler sees `infos` in order. */
  function ApplyAll(table: map<int, bool>, infos: seq<KeyboardInfo>): map<int, bool>
    decreases |infos|
  {
    if infos == [] then table else Apply(ApplyAll(table, infos[..|infos| - 1]), infos[|infos| - 1])
  }

  /** What one event says about `code`: held, released, or nothing. */
  function Edge(info: KeyboardInfo, code: int): Option<bool> {
    if info.event.repeat || info.event.keyCode != code then None
    else match info.eventType
      case KeyDown => Some(true)
      case KeyUp => Some(false)
      case OtherType(_) => None
  }

  /** The last thing the events say about `code` (a reference definition). */
  function LastEdge(infos: seq<KeyboardInfo>, code: int): Option<bool>
    decreases |infos|
  {
    if infos == [] then None
    else if Edge(infos[|infos| - 1], code).Some? then Edge(infos[|infos| - 1], code)
    else LastEdge(infos[..|infos| - 1], code)
  }

  /**
   * After any run of events, a code's entry is what its last key-down or
   * key-up (not an auto-repeat) said, and is untouched if there was none.
   */
  lemma {:induction false} TableRecordsLastEdge(table: map<int, bool>, infos: seq<KeyboardInfo>, code: int)
    ensures LastEdge(infos, code).Some? ==>
              code in ApplyAll(table, infos) && ApplyAll(table, infos)[code] == LastEdge(infos, code).value
    ensures LastEdge(infos, code).None? ==>
              && (code in ApplyAll(table, infos) <==> code in table)
              && (code in table ==> ApplyAll(table, infos)[code] == table[code])
    decreases |infos|
  {
    if infos != [] {
      TableRecordsLastEdge(table, infos[..|infos| - 1], code);
    }
  }

  /** A new camera holds exactly the codes whose last edge was a key-down. */
  lemma FreshTableHolds(infos: seq<KeyboardInfo>, code: int)
    ensures Held(ApplyAll(map[], infos), code) <==> LastEdge(infos, code) == Some(true)
  {
    TableRecordsLastEdge(map[], infos, code);
  }
}
