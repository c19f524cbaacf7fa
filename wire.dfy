/**
 * The remote-control wire codec of the timer view: a message is one text
 * line, the command name followed by its positional arguments, separated
 * by single spaces, with no quoting or escaping.
 */
module Wire {

  const Delimiter: char := ' '

  /** A token the codec can carry unchanged: it holds no delimiter. */
  predicate IsToken(t: string) {
    Delimiter !in t
  }

  /** A decoded message: the command name and its positional arguments. */
  datatype Message = Message(command: string, args: seq<string>)

  /** A message whose every token can be carried by the wire format. */
  predicate WellFormed(m: Message) {
    IsToken(m.command) && forall a :: a in m.args ==> IsToken(a)
  }

  /**
   * JavaScript's `tokens.join(" ")`: the line starts with the first token
   * and an empty list joins to the empty line. `SplitJoin` shows it is
   * undone by `Split` on delimiter-free tokens.
   */
  function Join(tokens: seq<string>): (line: string)
    ensures |tokens| == 0 ==> line == ""
    ensures |tokens| >= 1 ==> tokens[0] <= line
  {
    if |tokens| == 0 then ""
    else if |tokens| == 1 then tokens[0]
    else tokens[0] + [Delimiter] + Join(tokens[1..])
  }

  /**
   * JavaScript's `s.split(" ")`: every maximal delimiter-free run between
   * delimiters, so there is always at least one (possibly empty) token and
   * two adjacent delimiters yield an empty token between them.
   */
  function Split(s: string): (tokens: seq<string>)
    ensures |tokens| >= 1
    ensures forall i :: 0 <= i < |tokens| ==> IsToken(tokens[i])
  {
    if |s| == 0 then [""]
    else if s[0] == Delimiter then [""] + Split(s[1..])
    else
      var rest := Split(s[1..]);
      var first := [s[0]] + rest[0];
      assert IsToken(first) by {
        assert IsToken(rest[0]);
        assert forall k :: 0 <= k < |first| ==> first[k] == s[0] || first[k] in rest[0];
      }
      [first] + rest[1..]
  }

  /**
   * The sending side: `[action, ...args].join(" ")`. The line starts with
   * the command name and is nothing more when there are no arguments;
   * `DecodeEncode` shows the receiving side recovers the message.
   */
  function Encode(m: Message): (line: string)
    ensures m.command <= line
    ensures m.args == [] ==> line == m.command
  {
    Join([m.command] + m.args)
  }

  /** The receiving side: `const [command, ...args] = data.split(" ")`. */
  function Decode(data: string): (m: Message)
    ensures WellFormed(m)
  {
    var tokens := Split(data);
    assert forall a :: a in tokens[1..] ==> exists i :: 0 <= i < |tokens| && tokens[i] == a;
    Message(tokens[0], tokens[1..])
  }

  /** Joining the tokens of a split gives back the string that was split. */
  lemma {:induction false} JoinSplit(s: string)
    ensures Join(Split(s)) == s
  {
    if |s| == 0 {
    } else if s[0] == Delimiter {
      JoinSplit(s[1..]);
      var rest := Split(s[1..]);
      assert Split(s) == [""] + rest;
      assert s == [Delimiter] + s[1..];
    } else {
      JoinSplit(s[1..]);
      var rest := Split(s[1..]);
      var tokens := [[s[0]] + rest[0]] + rest[1..];
      assert Split(s) == tokens;
      if |rest| == 1 {
        assert Join(rest) == rest[0];
      } else {
        assert Join(rest) == rest[0] + [Delimiter] + Join(rest[1..]);
        assert tokens[1..] == rest[1..];
      }
      assert s == [s[0]] + s[1..];
    }
  }

  /** Splitting a delimiter-free prefix glues it onto the first token of the rest. */
  lemma {:induction false} SplitAfterToken(t: string, rest: string)
    requires IsToken(t)
    ensures Split(t + rest) == [t + Split(rest)[0]] + Split(rest)[1..]
  {
    if |t| == 0 {
      assert t + rest == rest;
      assert t + Split(rest)[0] == Split(rest)[0];
      assert Split(rest) == [Split(rest)[0]] + Split(rest)[1..];
    } else {
      var s := t + rest;
      assert s[0] == t[0] && s[0] != Delimiter;
      assert s[1..] == t[1..] + rest;
      SplitAfterToken(t[1..], rest);
      assert [t[0]] + (t[1..] + Split(rest)[0]) == t + Split(rest)[0];
    }
  }

  /** A leading delimiter splits off an empty first token. */
  lemma SplitLeadingDelimiter(rest: string)
    ensures Split([Delimiter] + rest) == [""] + Split(rest)
  {
  }

  /** The join of two or more tokens: the first, a delimiter, then the join of the rest. */
  lemma JoinCons(tokens: seq<string>)
    requires |tokens| >= 2
    ensures Join(tokens) == tokens[0] + ([Delimiter] + Join(tokens[1..]))
  {
  }

  /** Splitting the join of delimiter-free tokens gives back those tokens. */
  lemma {:induction false} SplitJoin(tokens: seq<string>)
    requires |tokens| >= 1
    requires forall t :: t in tokens ==> IsToken(t)
    ensures Split(Join(tokens)) == tokens
  {
    var head := tokens[0];
    assert IsToken(head);
    if |tokens| == 1 {
      SplitAfterToken(head, "");
      assert head + "" == head;
    } else {
      var tail := tokens[1..];
      assert forall t :: t in tail ==> t in tokens;
      SplitJoin(tail);
      var rest := [Delimiter] + Join(tail);
      JoinCons(tokens);
      SplitAfterToken(head, rest);
      SplitLeadingDelimiter(Join(tail));
      assert head + "" == head;
      assert [head] + tail == tokens;
    }
  }

  /** Round trip: a well-formed message survives encoding and decoding. */
  lemma DecodeEncode(m: Message)
    requires WellFormed(m)
    ensures Decode(Encode(m)) == m
  {
    var tokens := [m.command] + m.args;
    assert forall t :: t in tokens ==> t == m.command || t in m.args;
    SplitJoin(tokens);
    assert tokens[1..] == m.args;
  }

  /** Round trip the other way: re-encoding a decoded line gives back the line. */
  lemma EncodeDecode(data: string)
    ensures Encode(Decode(data)) == data
  {
    var tokens := Split(data);
    assert [tokens[0]] + tokens[1..] == tokens;
    JoinSplit(data);
  }

  /**
   * The delimiter restriction is exactly what the round trip needs: a
   * message survives encoding and decoding if and only if none of its
   * tokens holds a space.
   */
  lemma RoundTripIffWellFormed(m: Message)
    ensures Decode(Encode(m)) == m <==> WellFormed(m)
  {
    if WellFormed(m) {
      DecodeEncode(m);
    }
  }
}
