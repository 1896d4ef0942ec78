/** The context builder: one line `user_name: message` per message, joined
    with newlines, in aggregation order. */
module Context {
  import opened Messages

  /** The line a message becomes in the context. */
  function Line(m: Message): string {
    m.userName + ": " + m.message
  }

  /** The list comprehension over the aggregated messages. */
  function Lines(ms: seq<Message>): seq<string> {
    seq(|ms|, i requires 0 <= i < |ms| => Line(ms[i]))
  }

  /** Python's `sep.join(parts)`: `sep` between consecutive parts, none at the ends. */
  function Join(sep: string, parts: seq<string>): string {
    if |parts| == 0 then ""
    else if |parts| == 1 then parts[0]
    else parts[0] + sep + Join(sep, parts[1..])
  }

  /** The context handed to the answer service by both question endpoints. */
  function BuildContext(ms: seq<Message>): string {
    Join("\n", Lines(ms))
  }

  /** Python's `s.split("\n")`: the maximal newline-free pieces of `s`; the
      empty string gives one empty piece. */
  function Split(s: string): (parts: seq<string>)
    ensures |parts| >= 1
  {
    if s == [] then [[]]
    else
      var rest := Split(s[1..]);
      if s[0] == '\n' then [[]] + rest
      else [[s[0]] + rest[0]] + rest[1..]
  }

  /** A newline-free prefix is glued onto the first piece. */
  lemma {:induction false} SplitPrefix(a: string, t: string)
    requires '\n' !in a
    ensures Split(a + t) == [a + Split(t)[0]] + Split(t)[1..]
  {
    if a != [] {
      assert (a + t)[1..] == a[1..] + t;
      SplitPrefix(a[1..], t);
      assert [a[0]] + (a[1..] + Split(t)[0]) == a + Split(t)[0];
    } else {
      var parts := Split(t);
      assert a + t == t;
      assert a + parts[0] == parts[0];
      assert parts == [parts[0]] + parts[1..];
    }
  }

  /** Splitting undoes joining with a newline, as long as no part holds one. */
  lemma {:induction false} SplitJoin(parts: seq<string>)
    requires |parts| >= 1
    requires forall i :: 0 <= i < |parts| ==> '\n' !in parts[i]
    ensures Split(Join("\n", parts)) == parts
  {
    if |parts| == 1 {
      SplitPrefix(parts[0], "");
      assert parts[0] + "" == parts[0];
    } else {
      var rest := Join("\n", parts[1..]);
      SplitJoin(parts[1..]);
      assert parts[0] + "\n" + rest == parts[0] + ("\n" + rest);
      SplitPrefix(parts[0], "\n" + rest);
      assert ("\n" + rest)[1..] == rest;
      assert Split("\n" + rest) == [[]] + parts[1..];
      assert parts[0] + [] == parts[0];
    }
  }

  /** When no user name or message contains a newline, the lines of the
      context are exactly the formatted messages, one per message, in order. */
  lemma ContextLines(ms: seq<Message>)
    requires |ms| >= 1
    requires forall i :: 0 <= i < |ms| ==> '\n' !in ms[i].userName && '\n' !in ms[i].message
    ensures Split(BuildContext(ms)) == Lines(ms)
    ensures forall i :: 0 <= i < |ms| ==> Split(BuildContext(ms))[i] == ms[i].userName + ": " + ms[i].message
  {
    forall i | 0 <= i < |ms|
      ensures '\n' !in Lines(ms)[i]
    {
      assert Lines(ms)[i] == ms[i].userName + ": " + ms[i].message;
    }
    SplitJoin(Lines(ms));
  }

  /** With no messages the context is empty, and it splits into one empty
      piece, not into the (empty) list of lines. */
  lemma EmptyContextSplit()
    ensures BuildContext([]) == ""
    ensures Split(BuildContext([])) == [""] && Split(BuildContext([])) != Lines([])
  {
  }

  /** Appending a part adds a separator only when there already is a part. */
  lemma {:induction false} JoinAppend(sep: string, parts: seq<string>, p: string)
    ensures Join(sep, parts + [p]) == if parts == [] then p else Join(sep, parts) + sep + p
  {
    if |parts| == 1 {
      assert parts + [p] == [parts[0], p];
    } else if |parts| > 1 {
      assert (parts + [p])[1..] == parts[1..] + [p];
      JoinAppend(sep, parts[1..], p);
    }
  }

  /** The context grows line by line: a later message's line follows a
      single newline, and there is no trailing newline. */
  lemma ContextAppend(ms: seq<Message>, m: Message)
    ensures BuildContext(ms + [m]) == if ms == [] then Line(m) else BuildContext(ms) + "\n" + Line(m)
  {
    assert Lines(ms + [m]) == Lines(ms) + [Line(m)];
    JoinAppend("\n", Lines(ms), Line(m));
  }

  /** No messages give an empty context; one message gives its line alone. */
  lemma ContextSmall(m: Message)
    ensures BuildContext([]) == ""
    ensures BuildContext([m]) == m.userName + ": " + m.message
  {
    assert Lines([m]) == [Line(m)];
  }

  /** Two messages A/"hi" and B/"yo" give "A: hi\nB: yo". */
  lemma ContextExample()
    ensures BuildContext([Message("A", "hi"), Message("B", "yo")]) == "A: hi\nB: yo"
  {
    var ms := [Message("A", "hi"), Message("B", "yo")];
    assert Line(ms[0]) == "A: hi" && Line(ms[1]) == "B: yo";
    assert Lines(ms) == ["A: hi", "B: yo"];
  }
}
