/**
 * The client's dispatch (the second half of Client.handleRequest) and its
 * sequential script runner (Client.processScript): each line is parsed and
 * either issues exactly one call to the server or is rejected locally,
 * and a script is applied line after line, in order, to the server's store.
 * The remote transport is modelled as a direct, always-delivered call.
 */
module Dispatch {
  import opened Optional
  import opened Text
  import opened CommandParser
  import KeyValueStore

  type Store = KeyValueStore.Store

  /**
   * The server operation a command names (the switch in handleRequest): a
   * command touches only its own key, a put sets it, a delete clears it and
   * a get leaves the whole store alone.
   */
  function Execute(s: Store, c: Command): (r: KeyValueStore.Reply)
    ensures forall k :: k != c.key ==> KeyValueStore.Lookup(r.store, k) == KeyValueStore.Lookup(s, k)
    ensures c.Put? ==> KeyValueStore.Lookup(r.store, c.key) == Some(c.value)
    ensures c.Put? ==> r.response == KeyValueStore.StoredMessage(c.key, c.value)
    ensures c.Delete? ==> KeyValueStore.Lookup(r.store, c.key) == None
    ensures c.Delete? ==> r.response == (if c.key in s then KeyValueStore.DeletedMessage(c.key) else KeyValueStore.NotFound)
    ensures c.Get? ==> r.store == s && r.response == (if c.key in s then s[c.key] else KeyValueStore.NotFound)
  {
    match c
    case Put(key, value) => KeyValueStore.Put(s, key, value)
    case Get(key) => KeyValueStore.Get(s, key)
    case Delete(key) => KeyValueStore.Delete(s, key)
  }

  /** What handling one line came to: a local rejection, or the one call made and its response. */
  datatype Outcome = Rejected(reason: Rejection) | Called(cmd: Command, response: string)

  datatype Step = Step(store: Store, outcome: Outcome)

  /** handleRequest against a store held by the server. */
  function HandleRequest(s: Store, line: string): (r: Step)
    ensures r.outcome.Rejected? <==> Parse(line).Reject?
    ensures r.outcome.Rejected? ==> r.store == s && r.outcome.reason == Parse(line).reason
    ensures r.outcome.Called? ==> r.outcome.cmd == Parse(line).cmd
  {
    match Parse(line)
    case Reject(why) => Step(s, Rejected(why))
    case Call(c) =>
      var reply := Execute(s, c);
      Step(reply.store, Called(c, reply.response))
  }

  /** The store after a script, and one outcome per line. */
  datatype Run = Run(store: Store, outcomes: seq<Outcome>)

  /** processScript: handleRequest on every line, in order, each on the store the previous left. */
  function RunScript(s: Store, lines: seq<string>): (r: Run)
    ensures |r.outcomes| == |lines|
    decreases |lines|
  {
    if |lines| == 0 then Run(s, [])
    else
      var step := HandleRequest(s, lines[0]);
      var rest := RunScript(step.store, lines[1..]);
      Run(rest.store, [step.outcome] + rest.outcomes)
  }

  /** Running two scripts one after the other is running them joined. */
  lemma {:induction false} RunScriptAppend(s: Store, first: seq<string>, second: seq<string>)
    ensures var mid := RunScript(s, first);
            var last := RunScript(mid.store, second);
            RunScript(s, first + second) == Run(last.store, mid.outcomes + last.outcomes)
    decreases |first|
  {
    if |first| > 0 {
      var step := HandleRequest(s, first[0]);
      assert (first + second)[0] == first[0];
      assert (first + second)[1..] == first[1..] + second;
      RunScriptAppend(step.store, first[1..], second);
      var mid := RunScript(step.store, first[1..]);
      var last := RunScript(mid.store, second);
      assert [step.outcome] + (mid.outcomes + last.outcomes) == ([step.outcome] + mid.outcomes) + last.outcomes;
    } else {
      assert first + second == second;
    }
  }

  /** The loop of processScript over lines already read from the script. */
  method ProcessScript(s: Store, lines: seq<string>) returns (store: Store, outcomes: seq<Outcome>)
    ensures Run(store, outcomes) == RunScript(s, lines)
  {
    store, outcomes := s, [];
    var i := 0;
    while i < |lines|
      invariant 0 <= i <= |lines|
      invariant Run(store, outcomes) == RunScript(s, lines[..i])
    {
      var step := HandleRequest(store, lines[i]);
      RunScriptAppend(s, lines[..i], [lines[i]]);
      assert lines[..i + 1] == lines[..i] + [lines[i]];
      store, outcomes := step.store, outcomes + [step.outcome];
      i := i + 1;
    }
    assert lines[..i] == lines;
  }

  /** A line without two pieces is rejected as malformed, with no call and the store untouched. */
  lemma ShortLineMakesNoCall(s: Store, line: string)
    requires Space !in line
    ensures HandleRequest(s, line) == Step(s, Rejected(Malformed))
  {
  }

  /** An unsupported operation is rejected with no call and the store untouched. */
  lemma UnsupportedMakesNoCall(s: Store, line: string, w: string)
    requires Space !in w && w + [Space] <= line && ToUpper(w) !in {"PUT", "GET", "DELETE"}
    ensures HandleRequest(s, line) == Step(s, Rejected(UnsupportedOp))
  {
    ParseUnsupported(line);
  }

  /** A PUT line with a key and no value is rejected with no call and the store untouched. */
  lemma MissingValueMakesNoCall(s: Store, line: string, w: string)
    requires Spells(w, "PUT") && w + [Space] <= line && Space !in line[|w| + 1..]
    ensures HandleRequest(s, line) == Step(s, Rejected(PutMissingValue))
  {
    ParseMissingValue(line);
  }

  /** A line of a command makes exactly that one call and nothing else. */
  lemma CommandLineMakesOneCall(s: Store, line: string, c: Command)
    requires Denotes(line, c)
    ensures HandleRequest(s, line) == Step(Execute(s, c).store, Called(c, Execute(s, c).response))
  {
    ParseComplete(line, c);
  }

  /** A put and then a get of the same key: the get answers with the value put. */
  lemma ScenarioPutThenGet(key: string, value: string)
    requires Space !in key
    ensures RunScript(map[], [Format(Put(key, value)), Format(Get(key))]).outcomes
         == [Called(Put(key, value), KeyValueStore.StoredMessage(key, value)), Called(Get(key), value)]
  {
    ParseFormat(Put(key, value));
    ParseFormat(Get(key));
  }

  /** `GET missing` on an empty store answers with the miss response. */
  lemma ScenarioMiss()
    ensures RunScript(map[], ["GET missing"]).outcomes == [Called(Get("missing"), KeyValueStore.NotFound)]
  {
    ParseFormat(Get("missing"));
    assert Format(Get("missing")) == "GET missing";
  }

  /** A put, a delete and a get of one key: the delete succeeds, the get misses, the store is empty again. */
  lemma ScenarioDeleteThenMiss(key: string, value: string)
    requires Space !in key
    ensures var run := RunScript(map[], [Format(Put(key, value)), Format(Delete(key)), Format(Get(key))]);
            && run.store == map[]
            && run.outcomes[1] == Called(Delete(key), KeyValueStore.DeletedMessage(key))
            && run.outcomes[2] == Called(Get(key), KeyValueStore.NotFound)
  {
    ParseFormat(Put(key, value));
    ParseFormat(Delete(key));
    ParseFormat(Get(key));
    var lines := [Format(Put(key, value)), Format(Delete(key)), Format(Get(key))];
    var empty: Store := map[];
    var afterPut := HandleRequest(empty, lines[0]).store;
    assert afterPut == empty[key := value];
    assert HandleRequest(afterPut, lines[1]).store == empty;
    assert lines[1..][1..] == [lines[2]];
    assert RunScript(empty, lines).store == RunScript(afterPut, lines[1..]).store;
    assert RunScript(afterPut, lines[1..]).store == RunScript(empty, [lines[2]]).store;
    assert RunScript(empty, [lines[2]]).store == RunScript(empty, []).store;
  }

  /** `PUT onlykey` is rejected locally: no call, store unchanged. */
  lemma ScenarioMissingValue(s: Store)
    ensures HandleRequest(s, "PUT onlykey") == Step(s, Rejected(PutMissingValue))
  {
    var line := "PUT onlykey";
    assert Spells("PUT", "PUT");
    assert "PUT" + [Space] <= line;
    assert line[4..] == "onlykey";
    MissingValueMakesNoCall(s, line, "PUT");
  }

  /** `put`, `Put` and `PUT` name the same operation. */
  lemma ScenarioOperationCase(key: string, value: string)
    requires Space !in key
    ensures Parse("put " + key + " " + value) == Parse("Put " + key + " " + value)
         == Parse("PUT " + key + " " + value) == Call(Put(key, value))
  {
    var rest := key + " " + value;
    assert ToUpper("put") == "PUT";
    assert ToUpper("Put") == "PUT";
    assert "put " + key + " " + value == "put" + [Space] + rest;
    assert "Put " + key + " " + value == "Put" + [Space] + rest;
    assert "PUT " + key + " " + value == "PUT" + [Space] + rest;
    ParseIgnoresOperationCase("put", "PUT", rest);
    ParseIgnoresOperationCase("Put", "PUT", rest);
    ParseFormat(Put(key, value));
  }
}
