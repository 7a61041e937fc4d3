/**
 * The client's reading of one command line (the first half of
 * Client.handleRequest): split on single spaces into at most three pieces,
 * upper-case the first piece to find the operation, and either build the
 * one store operation to issue or reject the line locally.
 */
module CommandParser {
  import opened Text

  /** One call to the server, with the key and value exactly as they were cut from the line. */
  datatype Command = Put(key: string, value: string) | Get(key: string) | Delete(key: string)

  /** Why a line was rejected without calling the server. */
  datatype Rejection =
    | Malformed        // fewer than two pieces
    | PutMissingValue  // PUT with a key but no value piece
    | UnsupportedOp    // an operation other than PUT, GET or DELETE

  datatype Parsed = Call(cmd: Command) | Reject(reason: Rejection)

  /** command.split(" ", 3) */
  function Tokens(line: string): seq<string>
  {
    Split(line, 3)
  }

  /** The operation, key and value handleRequest reads off a line. */
  function Parse(line: string): (p: Parsed)
    ensures p == Reject(Malformed) <==> Space !in line
    ensures p.Call? ==> Space !in p.cmd.key
  {
    SplitIsSplitOf(line, 3);
    var parts := Tokens(line);
    if |parts| < 2 then
      Reject(Malformed)
    else
      var operation := ToUpper(parts[0]);
      var key := parts[1];
      if operation == "PUT" then
        if |parts| != 3 then Reject(PutMissingValue) else Call(Put(key, parts[2]))
      else if operation == "GET" then
        Call(Get(key))
      else if operation == "DELETE" then
        Call(Delete(key))
      else
        Reject(UnsupportedOp)
  }

  /** word is a spelling of the operation name, in any letter case. */
  predicate Spells(word: string, name: string)
  {
    Space !in word && ToUpper(word) == name
  }

  /** line is `word key`, or `word key` followed by a space and anything at all. */
  ghost predicate StartsWithKey(line: string, word: string, key: string)
  {
    line == word + [Space] + key || word + [Space] + key + [Space] <= line
  }

  /**
   * An independent description of the lines that issue command c: the
   * operation in any case, one space, a space-free key, and for PUT one
   * more space and the value verbatim; GET and DELETE ignore a third piece.
   */
  ghost predicate Denotes(line: string, c: Command)
  {
    && Space !in c.key
    && match c
       case Put(key, value) => exists w :: Spells(w, "PUT") && line == w + [Space] + key + [Space] + value
       case Get(key) => exists w :: Spells(w, "GET") && StartsWithKey(line, w, key)
       case Delete(key) => exists w :: Spells(w, "DELETE") && StartsWithKey(line, w, key)
  }

  /** The canonical line for a command, with the operation in upper case. */
  function Format(c: Command): string
  {
    match c
    case Put(key, value) => "PUT " + key + " " + value
    case Get(key) => "GET " + key
    case Delete(key) => "DELETE " + key
  }

  /** A line opening with a space-free word and a space has that word as its first piece. */
  lemma FirstPiece(line: string, word: string)
    requires Space !in word && word + [Space] <= line
    ensures |Tokens(line)| >= 2 && Tokens(line)[0] == word
  {
    var rest := line[|word| + 1..];
    assert line == word + [Space] + rest;
    SplitAfterWord(line, word, rest, 3, Split(rest, 2));
  }

  /** Two pieces join with one space between them. */
  lemma JoinOfTwo(parts: seq<string>)
    requires |parts| == 2
    ensures Join(parts) == parts[0] + [Space] + parts[1]
  {
    assert parts == [parts[0]] + [parts[1]];
    JoinCons(parts[0], [parts[1]]);
  }

  /** Three pieces join with one space between neighbours. */
  lemma JoinOfThree(parts: seq<string>)
    requires |parts| == 3
    ensures Join(parts) == parts[0] + [Space] + parts[1] + [Space] + parts[2]
  {
    assert parts == [parts[0]] + parts[1..];
    JoinCons(parts[0], parts[1..]);
    JoinOfTwo(parts[1..]);
  }

  /** How a line with two or three pieces is made of them. */
  lemma PiecesOfLine(line: string)
    requires |Tokens(line)| >= 2
    ensures var parts := Tokens(line);
            && Space !in parts[0] && Space !in parts[1]
            && (|parts| == 2 ==> line == parts[0] + [Space] + parts[1])
            && (|parts| == 3 ==> line == parts[0] + [Space] + parts[1] + [Space] + parts[2])
  {
    SplitIsSplitOf(line, 3);
    var parts := Tokens(line);
    if |parts| == 2 {
      JoinOfTwo(parts);
    } else {
      JoinOfThree(parts);
    }
  }

  /** Every line that parses to a call is a line of that command. */
  lemma ParseSound(line: string)
    requires Parse(line).Call?
    ensures Denotes(line, Parse(line).cmd)
  {
    PiecesOfLine(line);
    var w := Tokens(line)[0];
    match Parse(line).cmd
    case Put(_, _) =>
      assert Spells(w, "PUT");
    case Get(_) =>
      assert Spells(w, "GET");
    case Delete(_) =>
      assert Spells(w, "DELETE");
  }

  /** The pieces of `word key value`, for space-free word and key. */
  lemma TokensOfThree(line: string, word: string, key: string, value: string)
    requires Space !in word && Space !in key
    requires line == word + [Space] + key + [Space] + value
    ensures Tokens(line) == [word, key, value]
  {
    JoinCons(key, [value]);
    JoinCons(word, [key, value]);
    assert [word] + [key, value] == [word, key, value];
    assert Join([word, key, value]) == line;
    SplitOfIsSplit(line, 3, [word, key, value]);
  }

  /** The pieces of `word key`, for space-free word and key. */
  lemma TokensOfTwo(line: string, word: string, key: string)
    requires Space !in word && Space !in key
    requires line == word + [Space] + key
    ensures Tokens(line) == [word, key]
  {
    JoinCons(word, [key]);
    assert [word] + [key] == [word, key];
    SplitOfIsSplit(line, 3, [word, key]);
  }

  /** The pieces of a line that starts with `word key`. */
  lemma TokensWithKey(line: string, word: string, key: string)
    requires Space !in word && Space !in key
    requires StartsWithKey(line, word, key)
    ensures |Tokens(line)| >= 2 && Tokens(line)[0] == word && Tokens(line)[1] == key
  {
    if line == word + [Space] + key {
      TokensOfTwo(line, word, key);
    } else {
      var n := |word + [Space] + key + [Space]|;
      var value := line[n..];
      assert line == word + [Space] + key + [Space] + value;
      TokensOfThree(line, word, key, value);
    }
  }

  /** Every line of a command parses to that command. */
  lemma ParseComplete(line: string, c: Command)
    requires Denotes(line, c)
    ensures Parse(line) == Call(c)
  {
    match c
    case Put(key, value) =>
      var w :| Spells(w, "PUT") && line == w + [Space] + key + [Space] + value;
      TokensOfThree(line, w, key, value);
    case Get(key) =>
      var w :| Spells(w, "GET") && StartsWithKey(line, w, key);
      TokensWithKey(line, w, key);
    case Delete(key) =>
      var w :| Spells(w, "DELETE") && StartsWithKey(line, w, key);
      TokensWithKey(line, w, key);
  }

  /** A PUT whose line has a key but no second space is rejected for its missing value. */
  lemma ParseMissingValue(line: string)
    ensures Parse(line) == Reject(PutMissingValue) <==>
      exists w :: Spells(w, "PUT") && w + [Space] <= line && Space !in line[|w| + 1..]
  {
    if Parse(line) == Reject(PutMissingValue) {
      SplitIsSplitOf(line, 3);
      var parts := Tokens(line);
      var w, key := parts[0], parts[1];
      JoinCons(w, [key]);
      assert line == w + [Space] + key;
      assert line[|w| + 1..] == key;
      assert Spells(w, "PUT");
    }
    if exists w :: Spells(w, "PUT") && w + [Space] <= line && Space !in line[|w| + 1..] {
      var w :| Spells(w, "PUT") && w + [Space] <= line && Space !in line[|w| + 1..];
      var key := line[|w| + 1..];
      assert line == w + [Space] + key;
      TokensOfTwo(line, w, key);
    }
  }

  /** A line whose first word is not PUT, GET or DELETE in any case is rejected as unsupported. */
  lemma ParseUnsupported(line: string)
    ensures Parse(line) == Reject(UnsupportedOp) <==>
      exists w :: Space !in w && w + [Space] <= line && ToUpper(w) !in {"PUT", "GET", "DELETE"}
  {
    if Parse(line) == Reject(UnsupportedOp) {
      SplitIsSplitOf(line, 3);
      var w := Tokens(line)[0];
      JoinCons(w, Tokens(line)[1..]);
      assert line == w + [Space] + Join(Tokens(line)[1..]);
      assert ToUpper(w) !in {"PUT", "GET", "DELETE"};
    }
    if exists w :: Space !in w && w + [Space] <= line && ToUpper(w) !in {"PUT", "GET", "DELETE"} {
      var w :| Space !in w && w + [Space] <= line && ToUpper(w) !in {"PUT", "GET", "DELETE"};
      FirstPiece(line, w);
    }
  }

  /** The operation is matched case-insensitively: only its upper-cased spelling matters. */
  lemma ParseIgnoresOperationCase(a: string, b: string, rest: string)
    requires Space !in a && Space !in b && ToUpper(a) == ToUpper(b)
    ensures Parse(a + [Space] + rest) == Parse(b + [Space] + rest)
  {
    SplitAfterWord(a + [Space] + rest, a, rest, 3, Split(rest, 2));
    SplitAfterWord(b + [Space] + rest, b, rest, 3, Split(rest, 2));
  }

  /** The canonical line of a command parses back to it, the value verbatim. */
  lemma ParseFormat(c: Command)
    requires Space !in c.key
    ensures Parse(Format(c)) == Call(c)
  {
    match c {
      case Put(key, value) =>
        assert Spells("PUT", "PUT");
        assert Format(c) == "PUT" + [Space] + key + [Space] + value;
      case Get(key) =>
        assert Spells("GET", "GET");
        assert Format(c) == "GET" + [Space] + key;
      case Delete(key) =>
        assert Spells("DELETE", "DELETE");
        assert Format(c) == "DELETE" + [Space] + key;
    }
    ParseComplete(Format(c), c);
  }

  /** Two spaces in a row cut an empty key: `PUT  k v` puts the value `k v` under the empty key. */
  lemma ScenarioDoubleSpace()
    ensures Tokens("PUT  k v") == ["PUT", "", "k v"]
    ensures Parse("PUT  k v") == Call(Put("", "k v"))
  {
    var put, key, value := "PUT", "", "k v";
    assert Spells(put, "PUT");
    assert "PUT  k v" == put + [Space] + key + [Space] + value;
    TokensOfThree("PUT  k v", put, key, value);
  }

  /** A trailing space cuts an empty value: `PUT k ` puts the empty value under `k`. */
  lemma ScenarioTrailingSpace()
    ensures Tokens("PUT k ") == ["PUT", "k", ""]
    ensures Parse("PUT k ") == Call(Put("k", ""))
  {
    var put, key, value := "PUT", "k", "";
    assert Spells(put, "PUT");
    assert "PUT k " == put + [Space] + key + [Space] + value;
    TokensOfThree("PUT k ", put, key, value);
  }

  /** Once the key is cut, the rest is the value as it stands: `PUT k v ` keeps its trailing space. */
  lemma ScenarioTrailingSpaceInValue()
    ensures Tokens("PUT k v ") == ["PUT", "k", "v "]
    ensures Parse("PUT k v ") == Call(Put("k", "v "))
  {
    var put, key, value := "PUT", "k", "v ";
    assert Spells(put, "PUT");
    assert "PUT k v " == put + [Space] + key + [Space] + value;
    TokensOfThree("PUT k v ", put, key, value);
  }

  /** Two spaces in a row after the key stay inside the value: `PUT k a  b` puts `a  b`. */
  lemma ScenarioDoubleSpaceInValue()
    ensures Tokens("PUT k a  b") == ["PUT", "k", "a  b"]
    ensures Parse("PUT k a  b") == Call(Put("k", "a  b"))
  {
    var put, key, value := "PUT", "k", "a  b";
    assert Spells(put, "PUT");
    assert "PUT k a  b" == put + [Space] + key + [Space] + value;
    TokensOfThree("PUT k a  b", put, key, value);
  }

  /** Two spaces after a non-empty key: the second starts the value, so `PUT k  v` puts ` v`. */
  lemma ScenarioSpaceBeforeValue()
    ensures Tokens("PUT k  v") == ["PUT", "k", " v"]
    ensures Parse("PUT k  v") == Call(Put("k", " v"))
  {
    var put, key, value := "PUT", "k", " v";
    assert Spells(put, "PUT");
    assert "PUT k  v" == put + [Space] + key + [Space] + value;
    TokensOfThree("PUT k  v", put, key, value);
  }
}
