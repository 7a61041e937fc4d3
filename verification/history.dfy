/**
 * What the store holds after a run of calls, stated without the store: a
 * key reads as the value of the latest put to it, unless a delete of it
 * came later, and calls on different keys do not affect one another.
 * This is the single-key order every concurrent execution of the server
 * must be equivalent to.
 */
module History {
  import opened Optional
  import opened CommandParser
  import KeyValueStore
  import opened Dispatch

  /** The store after cmds are executed one after another. */
  function ApplyAll(s: Store, cmds: seq<Command>): Store
    decreases |cmds|
  {
    if |cmds| == 0 then s else ApplyAll(Execute(s, cmds[0]).store, cmds[1..])
  }

  /**
   * Reference: what key holds after cmds, read off the latest command that
   * writes key (a put sets it, a delete clears it, a get writes nothing),
   * and off the initial store if there is none.
   */
  function LastWrite(s: Store, cmds: seq<Command>, key: string): Option<string>
    decreases |cmds|
  {
    if |cmds| == 0 then KeyValueStore.Lookup(s, key)
    else
      var last, earlier := cmds[|cmds| - 1], cmds[..|cmds| - 1];
      if last.key != key then LastWrite(s, earlier, key)
      else
        match last
        case Put(_, value) => Some(value)
        case Delete(_) => None
        case Get(_) => LastWrite(s, earlier, key)
  }

  /** Executing one more command after a run extends the run. */
  lemma {:induction false} ApplyAllSnoc(s: Store, cmds: seq<Command>, c: Command)
    ensures ApplyAll(s, cmds + [c]) == Execute(ApplyAll(s, cmds), c).store
    decreases |cmds|
  {
    if |cmds| == 0 {
      assert cmds + [c] == [c];
    } else {
      assert (cmds + [c])[1..] == cmds[1..] + [c];
      ApplyAllSnoc(Execute(s, cmds[0]).store, cmds[1..], c);
    }
  }

  /** Every key of the store after a run holds exactly what the latest write to it says. */
  lemma {:induction false} ApplyAllIsLastWrite(s: Store, cmds: seq<Command>, key: string)
    ensures KeyValueStore.Lookup(ApplyAll(s, cmds), key) == LastWrite(s, cmds, key)
    decreases |cmds|
  {
    if |cmds| > 0 {
      var last, earlier := cmds[|cmds| - 1], cmds[..|cmds| - 1];
      assert cmds == earlier + [last];
      ApplyAllSnoc(s, earlier, last);
      ApplyAllIsLastWrite(s, earlier, key);
    }
  }

  /** The calls a script issues, in order: one per line that parses, none for a rejected line. */
  function Issued(lines: seq<string>): seq<Command>
    decreases |lines|
  {
    if |lines| == 0 then []
    else
      var head := match Parse(lines[0]) case Call(c) => [c] case Reject(_) => [];
      head + Issued(lines[1..])
  }

  /** A script leaves the store exactly as executing the calls it issues, in line order. */
  lemma {:induction false} ScriptStoreIsApplyAll(s: Store, lines: seq<string>)
    ensures RunScript(s, lines).store == ApplyAll(s, Issued(lines))
    decreases |lines|
  {
    if |lines| > 0 {
      var step := HandleRequest(s, lines[0]);
      ScriptStoreIsApplyAll(step.store, lines[1..]);
      assert RunScript(s, lines).store == RunScript(step.store, lines[1..]).store;
      match Parse(lines[0]) {
        case Call(c) =>
          var cmds := [c] + Issued(lines[1..]);
          assert cmds[0] == c && cmds[1..] == Issued(lines[1..]);
        case Reject(_) =>
          assert step.store == s;
          assert Issued(lines) == [] + Issued(lines[1..]) == Issued(lines[1..]);
      }
    }
  }

  /** After a script every key reads as the latest write the script issued to it. */
  lemma ScriptReadsLastWrite(s: Store, lines: seq<string>, key: string)
    ensures KeyValueStore.Lookup(RunScript(s, lines).store, key) == LastWrite(s, Issued(lines), key)
  {
    ScriptStoreIsApplyAll(s, lines);
    ApplyAllIsLastWrite(s, Issued(lines), key);
  }

  /**
   * Calls on different keys commute, and each answers as it would have
   * with the other not made at all.
   */
  lemma CrossKeyIndependence(s: Store, a: Command, b: Command)
    requires a.key != b.key
    ensures Execute(Execute(s, a).store, b).store == Execute(Execute(s, b).store, a).store
    ensures Execute(Execute(s, a).store, b).response == Execute(s, b).response
  {
  }
}
