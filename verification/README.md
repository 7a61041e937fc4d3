# Key-value store over RMI: store semantics and client command handling

This project models the two pure cores of a small Java RMI key-value store
and proves properties about them in Dafny.

- **The server's store** (`ServerImpl.put`, `get`, `delete`). The server keeps
  a `ConcurrentHashMap<String, String>`. Each remote operation returns a
  human-readable string. A missing key is an ordinary result,
  `"Error: Key not found"`, not an exception. Here the map is an immutable
  `map<string, string>`. Each operation is a function from the store and its
  arguments to the new store and the response (`KeyValueStore`, `store.dfy`).
  This is the sequential meaning that every concurrent call must linearise to.
- **The client's command handling** (`Client.handleRequest` and the loop in
  `Client.processScript`). A line is cut with Java's `split(" ", 3)`. The first
  piece is upper-cased to find the operation, and the arity is checked. The
  line then either makes exactly one store call or is rejected locally with
  no call. The string primitives (`split` with a single-space separator and
  a positive limit, and upper-casing) are in `Text` (`text.dfy`). Parsing is
  in `CommandParser` (`command.dfy`). Dispatch and the in-order script fold
  are in `Dispatch` (`client.dfy`).
- **History** (`history.dfy`) states what the store holds after any run of
  calls without mentioning the store. A key reads as the latest put to it,
  unless a later delete removed it. Calls on different keys commute. This
  links the store operations to scripts: the final store of a script is the
  left fold of the calls its lines issue.

`Optional` (`optional.dfy`) holds the `Option` type. `None` stands for a Java
`null` from `Map.get`.

The model follows the code, including where it is easy to misread:

- Lines are cut at single space characters only. A tab is part of a piece.
  Two spaces between the operation and the key produce an empty key:
  `PUT  k v` puts `k v` under the empty key. Two spaces after a non-empty
  key leave the value starting with a space: `PUT k  v` puts ` v`. A space
  right after the key with nothing following it produces an empty value:
  `PUT k ` is a valid put of the empty string.
- Once the key is cut, the rest of the line is the value exactly as it
  stands: `PUT k v ` puts `v ` with its trailing space, and `PUT k a  b` puts
  `a  b` with both spaces.
- Keys may be empty. The code never checks for this.
- `delete` answers with a string in both cases: a success message when the
  key had an entry, `Error: Key not found` when it had none.
- A PUT with a key and no value is rejected with its own message. It is
  modelled as its own rejection, `PutMissingValue`, apart from a line with
  fewer than two pieces.

## Model

| member | source | states |
|---|---|---|
| KeyValueStore.Put | src/server/ServerImpl.java:44-48 | after a put the key maps to the new value, overwriting any old one; every other key reads as before; the key set gains at most that key; the response is always `Success: Key=<k>, Value=<v> stored.` |
| KeyValueStore.Get | src/server/ServerImpl.java:51-60 | get never changes the store; a present key answers with its stored value; an absent key answers `Error: Key not found` |
| KeyValueStore.Delete | src/server/ServerImpl.java:63-72 | afterwards the key is absent and every other key reads as before; a present key is removed, and the response is `Success: Key=<k> deleted.`; an absent key gives `Error: Key not found` and an identical store |
| KeyValueStore.SuccessIsNotAMiss | src/server/ServerImpl.java:47-70 | a put's response and a successful delete's response never equal the not-found response |
| KeyValueStore.PutThenGet | src/server/ServerImpl.java:44-60 | a get right after a put of the same key returns the value that was put |
| KeyValueStore.PutOverwrites | src/server/ServerImpl.java:45 | of two puts to one key the later wins, whatever the key held before |
| KeyValueStore.DeleteSucceedsIffPresent | src/server/ServerImpl.java:63-72 | delete answers with success exactly when the key had an entry, and with not-found exactly when it had none |
| KeyValueStore.DeleteThenMiss | src/server/ServerImpl.java:51-72 | after a delete, a get of the key misses and a second delete is a not-found that leaves the store as it was |
| KeyValueStore.MissIsIndistinguishable | src/server/ServerImpl.java:52-58 | a stored value that reads `Error: Key not found` produces the same get response as a missing key |
| Text.Split | src/client/Client.java:133 | splitting with a positive limit yields at least one and at most limit pieces |
| Text.SplitIsSplitOf | src/client/Client.java:133 | the pieces join back, with single spaces, to the original line; no piece but the last contains a space; the last contains none unless the limit stopped the cutting |
| Text.ToUpper | src/client/Client.java:139 | upper-casing keeps the length, leaves no lower-case ASCII letter, turns each lower-case letter into its capital and keeps every other character |
| Text.ToUpperIdempotent | src/client/Client.java:139 | upper-casing an already upper-cased word changes nothing |
| Text.ToUpperKeepsSpaces | src/client/Client.java:133-139 | upper-casing neither adds nor removes a space, so the upper-cased operation is still a single piece |
| Text.SplitOfIsSplit | src/client/Client.java:133 | any sequence of pieces with that shape that joins back to the line is exactly what split returns, so the description above determines the split |
| CommandParser.Parse | src/client/Client.java:132-161 | a line is rejected as malformed exactly when it contains no space; a parsed command's key never contains a space |
| CommandParser.ParseSound | src/client/Client.java:133-158 | every line that parses to a command spells the operation in some letter case, then one space and the key; a PUT then has one more space and its value verbatim; a GET or DELETE may carry anything after a further space |
| CommandParser.ParseComplete | src/client/Client.java:133-158 | every line of that form parses to that command: a PUT value is everything after the second space, spaces included, and GET and DELETE ignore a third piece |
| CommandParser.ParseMissingValue | src/client/Client.java:145-149 | a line is rejected for a missing PUT value exactly when its first word spells PUT and nothing after the first space contains another space |
| CommandParser.ParseUnsupported | src/client/Client.java:159-161 | a line is rejected as unsupported exactly when it has a first word followed by a space and that word, upper-cased, is not PUT, GET or DELETE |
| CommandParser.ParseIgnoresOperationCase | src/client/Client.java:139 | two lines that differ only in the letter case of the operation word parse to the same result |
| CommandParser.ParseFormat | src/client/Client.java:133-158 | the canonical line of a command whose key has no space parses back to that command |
| CommandParser.ScenarioDoubleSpace | src/client/Client.java:133 | `PUT  k v` splits to `PUT`, the empty key and `k v`, and puts `k v` under the empty key |
| CommandParser.ScenarioTrailingSpace | src/client/Client.java:133 | `PUT k ` splits to `PUT`, `k` and the empty string, and is a put of the empty value |
| CommandParser.ScenarioTrailingSpaceInValue | src/client/Client.java:133-150 | `PUT k v ` splits to `PUT`, `k` and `v `, and puts `v ` with its trailing space |
| CommandParser.ScenarioDoubleSpaceInValue | src/client/Client.java:133-150 | `PUT k a  b` splits to `PUT`, `k` and `a  b`, with no empty piece, and puts `a  b` |
| CommandParser.ScenarioSpaceBeforeValue | src/client/Client.java:133-150 | `PUT k  v` splits to `PUT`, `k` and ` v`, with no empty piece, and puts ` v` under `k` |
| Dispatch.Execute | src/client/Client.java:144-158 | a command touches only its own key; a put sets it and answers the stored message; a delete clears it and answers success or not-found as the key was present or absent; a get leaves the store alone and answers the value or not-found |
| Dispatch.HandleRequest | src/client/Client.java:132-168 | a line makes a call exactly when it parses; a rejected line leaves the store untouched and reports the parse's reason; a call is exactly the parsed command |
| Dispatch.ShortLineMakesNoCall | src/client/Client.java:133-137 | a line with fewer than two pieces is rejected as malformed, makes no call and leaves the store unchanged |
| Dispatch.MissingValueMakesNoCall | src/client/Client.java:145-149 | a PUT line with a key and no value makes no call and leaves the store unchanged |
| Dispatch.UnsupportedMakesNoCall | src/client/Client.java:159-161 | a line with an unknown operation makes no call and leaves the store unchanged |
| Dispatch.CommandLineMakesOneCall | src/client/Client.java:144-158 | a line of a command makes exactly that one server call, and the store and response are that call's |
| Dispatch.RunScript | src/client/Client.java:114-119 | a script yields exactly one outcome per line |
| Dispatch.RunScriptAppend | src/client/Client.java:114-119 | running two scripts one after the other equals running them joined: lines apply strictly in order, each on the store the previous one left |
| Dispatch.ProcessScript | src/client/Client.java:114-119 | the line-by-line loop ends with the store and outcomes of the left fold of handleRequest over the lines |
| Dispatch.ScenarioPutThenGet | src/client/Client.java:114-119 | from an empty store, `PUT k v` then `GET k` answers `Success: Key=k, Value=v stored.` and then `v` |
| Dispatch.ScenarioMiss | src/client/Client.java:114-119 | `GET missing` on an empty store answers `Error: Key not found` |
| Dispatch.ScenarioDeleteThenMiss | src/client/Client.java:114-119 | from an empty store, `PUT k v`, `DELETE k`, `GET k` gives `Success: Key=k deleted.` and then `Error: Key not found`, and leaves the store empty |
| Dispatch.ScenarioMissingValue | src/client/Client.java:145-149 | `PUT onlykey` is rejected for its missing value, with no call and the store unchanged |
| Dispatch.ScenarioOperationCase | src/client/Client.java:139 | `put k v`, `Put k v` and `PUT k v` all parse to the same put of `v` under `k` |
| History.ApplyAllIsLastWrite | src/server/ServerImpl.java:44-72 | after any sequence of calls, every key holds the value of the latest put to it, is absent if a delete of it came later, and otherwise reads as it did at the start |
| History.ScriptStoreIsApplyAll | src/client/Client.java:114-119 | a script leaves the store exactly as the calls its lines issue would, executed in line order; rejected lines contribute nothing |
| History.ScriptReadsLastWrite | src/client/Client.java:114-119 | after a script, every key reads as the latest write the script issued to it |
| History.CrossKeyIndependence | src/server/ServerImpl.java:44-72 | calls on different keys commute, and the second answers as it would have if the first had not been made |

## Left out

- RMI plumbing (registry lookup and binding, `UnicastRemoteObject`, `RemoteException`): every call is modelled as delivered and answered. Transport failures and their log line are not modelled because they come from a foreign library.
- Logging on both sides, with its timestamps, log files and the `clientName` argument. That argument is used only in log lines. Logging is I/O and clock access, and logged text changes no state.
- Concurrency: the client's fixed thread pool (`runConcurrentCommands`) and the thread safety of `ConcurrentHashMap`. The model gives the sequential semantics that each call linearises to. The `containsKey`-then-`remove` in `delete` is not atomic, so under concurrency two deletes could both report success. That case only arises under concurrency and is not modelled. The store is one map shared by every client, and `runConcurrentCommands` returns without waiting for its tasks. So the script lemmas (`History.ScriptStoreIsApplyAll`, `History.ScriptReadsLastWrite`) hold only while the script is the store's sole writer.
- Reading scripts from files (`BufferedReader`, a missing or unreadable file). A script is a sequence of lines already read.
- The interactive directive menu and console loop, and the argument and port parsing in both `main` methods. These are console and process plumbing.
- Text.ToUpper: only upper-cases the ASCII letters `a` to `z`. Java's locale-dependent Unicode case mapping of other characters is not modelled. A first word with non-ASCII letters that Java would upper-case to one of the letters of PUT, GET or DELETE is outside the model. Java upper-cases in the default locale, so under a Turkish locale even ASCII `i` becomes dotted capital `İ`. This cannot change the parse, because none of PUT, GET or DELETE contains an I.
- Text.Split: models `String.split` only for a single-space separator and a positive limit, the only form the client uses. Zero and negative limits, which drop trailing empty pieces or lift the bound, are not modelled.
