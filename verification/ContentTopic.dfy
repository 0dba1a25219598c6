/** Content topics `/{conversation}/{version}/{subtopic}/proto`, and what a peer reads back from one. */
module ContentTopic {
  import opened Packets
  import opened Wrappers

  // ── Splitting ───────────────────────────────────────────────────────────

  /** The pieces of `s` between separators; a string without one is a single piece. */
  function Split(s: string, sep: char): (parts: seq<string>)
    ensures parts != []
  {
    if s == "" then [""]
    else
      var rest := Split(s[1..], sep);
      if s[0] == sep then [""] + rest else [[s[0]] + rest[0]] + rest[1..]
  }

  function Join(parts: seq<string>, sep: char): string
    requires parts != []
  {
    if |parts| == 1 then parts[0] else parts[0] + ([sep] + Join(parts[1..], sep))
  }

  lemma SplitFirst(s: string, head: char, tail: string, sep: char)
    requires s == [head] + tail
    ensures Split(s, sep) == if head == sep then [""] + Split(tail, sep)
                             else [[head] + Split(tail, sep)[0]] + Split(tail, sep)[1..]
  {
    assert s[1..] == tail;
  }

  lemma {:induction false} SplitConcat(a: string, sep: char, b: string)
    ensures Split(a + ([sep] + b), sep) == Split(a, sep) + Split(b, sep)
  {
    if a == "" {
      assert a + ([sep] + b) == [sep] + b;
      SplitFirst(a + ([sep] + b), sep, b, sep);
    } else {
      var tail := a[1..] + ([sep] + b);
      assert a + ([sep] + b) == [a[0]] + tail;
      SplitFirst(a + ([sep] + b), a[0], tail, sep);
      SplitConcat(a[1..], sep, b);
    }
  }

  lemma {:induction false} SplitWhole(s: string, sep: char)
    requires sep !in s
    ensures Split(s, sep) == [s]
  {
    if s != "" {
      SplitWhole(s[1..], sep);
      assert [s[0]] + s[1..] == s;
    }
  }

  /** No piece holds a separator, and joining the pieces gives the string back. */
  lemma {:induction false} JoinSplit(s: string, sep: char)
    ensures Join(Split(s, sep), sep) == s
    ensures forall p :: p in Split(s, sep) ==> sep !in p
  {
    if s != "" {
      var rest := Split(s[1..], sep);
      var parts := Split(s, sep);
      JoinSplit(s[1..], sep);
      assert parts[1..] == if s[0] == sep then rest else rest[1..];
      assert forall p :: p in rest[1..] ==> p in rest;
      assert rest[0] in rest;
    }
  }

  /** Splitting is the one inverse of joining separator-free pieces. */
  lemma {:induction false} SplitJoin(parts: seq<string>, sep: char)
    requires parts != [] && forall p :: p in parts ==> sep !in p
    ensures Split(Join(parts, sep), sep) == parts
  {
    SplitWhole(parts[0], sep);
    if |parts| > 1 {
      SplitConcat(parts[0], sep, Join(parts[1..], sep));
      SplitJoin(parts[1..], sep);
    }
  }

  // ── Topics ──────────────────────────────────────────────────────────────

  function Build(id: string, version: string, subtopic: string): string {
    "/" + (id + ("/" + (version + ("/" + (subtopic + ("/" + "proto"))))))
  }

  /** The five pieces of the topic of clean names. */
  lemma TopicPieces(id: string, version: string, subtopic: string)
    requires '/' !in id && '/' !in version && '/' !in subtopic
    ensures Split(Build(id, version, subtopic), '/') == ["", id, version, subtopic, "proto"]
  {
    var pieces := ["", id, version, subtopic, "proto"];
    SplitJoin(pieces, '/');
    TopicIsJoin(id, version, subtopic);
  }

  lemma TopicIsJoin(id: string, version: string, subtopic: string)
    ensures Join(["", id, version, subtopic, "proto"], '/') == Build(id, version, subtopic)
  {
    JoinTwo(subtopic, "proto", []);
    JoinTwo(version, subtopic, ["proto"]);
    JoinTwo(id, version, [subtopic, "proto"]);
    JoinTwo("", id, [version, subtopic, "proto"]);
  }

  lemma JoinTwo(a: string, b: string, rest: seq<string>)
    ensures Join([a, b] + rest, '/') == a + ("/" + Join([b] + rest, '/'))
  {
    assert ([a, b] + rest)[1..] == [b] + rest;
  }

  /** `(conversation, subtopic)`; neither the version nor the rest is looked at. */
  function Parse(topic: string): Option<(string, string)> {
    var parts := Split(topic, '/');
    if |parts| < 4 || parts[1] == "" || parts[3] == "" then None else Some((parts[1], parts[3]))
  }

  predicate Clean(name: string) {
    name != "" && '/' !in name
  }

  lemma TopicParts(id: string, version: string, subtopic: string)
    ensures Split(Build(id, version, subtopic), '/')
            == [""] + (Split(id, '/') + (Split(version, '/') + (Split(subtopic, '/') + ["proto"])))
  {
    SplitConcat("", '/', id + ("/" + (version + ("/" + (subtopic + ("/" + "proto"))))));
    assert "" + Build(id, version, subtopic) == Build(id, version, subtopic);
    SplitConcat(id, '/', version + ("/" + (subtopic + ("/" + "proto"))));
    SplitConcat(version, '/', subtopic + ("/" + "proto"));
    SplitConcat(subtopic, '/', "proto");
    SplitWhole("proto", '/');
  }

  /** The first piece is the whole string only when there is nothing to split at. */
  lemma FirstPiece(s: string)
    ensures Split(s, '/')[0] == s <==> '/' !in s
  {
    JoinSplit(s, '/');
    assert Split(s, '/')[0] in Split(s, '/');
    if '/' !in s {
      SplitWhole(s, '/');
    }
  }

  /** A topic reads back as the pair it was built from exactly when both names are clean. */
  lemma TopicRoundTrip(id: string, version: string, subtopic: string)
    requires '/' !in version
    ensures Parse(Build(id, version, subtopic)) == Some((id, subtopic)) <==> Clean(id) && Clean(subtopic)
  {
    TopicParts(id, version, subtopic);
    FirstPiece(id);
    FirstPiece(subtopic);
    SplitWhole(version, '/');
    if '/' !in id {
      SplitWhole(id, '/');
    }
  }

  /** On the repository's own subtopics only the conversation id matters. */
  lemma OwnTopicRoundTrip(id: string, subtopic: string)
    requires subtopic in SUBTOPICS
    ensures Parse(Build(id, CONVERSATION_VERSION, subtopic)) == Some((id, subtopic)) <==> Clean(id)
  {
    TopicRoundTrip(id, CONVERSATION_VERSION, subtopic);
  }

  /** Distinct pairs of clean names have distinct topics. */
  lemma TopicsDistinct(a: string, s: string, b: string, t: string, version: string)
    requires Clean(a) && Clean(s) && Clean(b) && Clean(t) && '/' !in version
    ensures Build(a, version, s) == Build(b, version, t) ==> a == b && s == t
  {
    TopicRoundTrip(a, version, s);
    TopicRoundTrip(b, version, t);
  }

  /** Where the id and the subtopic's first letter are in a topic of the repository's own. */
  lemma OwnTopicShape(id: string, subtopic: string)
    requires subtopic in SUBTOPICS
    ensures var topic := Build(id, CONVERSATION_VERSION, subtopic);
            |topic| == |id| + 17 && topic[1..|id| + 1] == id && topic[|id| + 4] == subtopic[0]
  {
    var tail := "/" + (CONVERSATION_VERSION + ("/" + (subtopic + ("/" + "proto"))));
    assert |subtopic| == 7;
    assert ("/" + (id + tail))[1..] == id + tail;
    assert tail[3] == subtopic[0];
  }

  /** On the repository's own subtopics that needs nothing of the ids: not even odd ones share a topic. */
  lemma OwnTopicsDistinct(a: string, s: string, b: string, t: string)
    requires s in SUBTOPICS && t in SUBTOPICS
    ensures Build(a, CONVERSATION_VERSION, s) == Build(b, CONVERSATION_VERSION, t) ==> a == b && s == t
  {
    OwnTopicShape(a, s);
    OwnTopicShape(b, t);
    assert APP_MSG_SUBTOPIC[0] == 'a' && WELCOME_SUBTOPIC[0] == 'w';
  }

  lemma SeveralPieces(s: string)
    requires '/' in s
    ensures |Split(s, '/')| >= 2 && Split(s, '/')[0] != s
  {
    FirstPiece(s);
    JoinSplit(s, '/');
  }

  /**
   What a peer reads from the topic of an id with a slash in it: the first piece of the id as the
   conversation, and the third as the subtopic (the version, where the id has two pieces).
   */
  lemma SlashIdReadsAs(id: string, subtopic: string)
    requires '/' in id && subtopic in SUBTOPICS
    ensures var parts := Split(id, '/');
            && |parts| >= 2
            && parts[0] != id
            && var third := if |parts| == 2 then CONVERSATION_VERSION else parts[2];
               Parse(Build(id, CONVERSATION_VERSION, subtopic))
               == if parts[0] == "" || third == "" then None else Some((parts[0], third))
  {
    SeveralPieces(id);
    TopicParts(id, CONVERSATION_VERSION, subtopic);
    SplitWhole(CONVERSATION_VERSION, '/');
    ReadAt(Split(id, '/'), CONVERSATION_VERSION, Split(subtopic, '/') + ["proto"]);
  }

  lemma ReadAt(parts: seq<string>, version: string, rest: seq<string>)
    requires |parts| >= 2 && rest != []
    ensures var all := [""] + (parts + ([version] + rest));
            |all| >= 5 && all[1] == parts[0] && all[3] == if |parts| == 2 then version else parts[2]
  {
  }

  /** Such a packet lands in a live subtopic of another conversation exactly when its id spells one out. */
  lemma Crosstalk(id: string, subtopic: string, other: string, landed: string)
    requires '/' in id && subtopic in SUBTOPICS && landed in SUBTOPICS
    ensures Parse(Build(id, CONVERSATION_VERSION, subtopic)) == Some((other, landed))
            <==> other != "" && |Split(id, '/')| >= 3 && Split(id, '/')[0] == other && Split(id, '/')[2] == landed
    ensures Parse(Build(id, CONVERSATION_VERSION, subtopic)) == Some((other, landed)) ==> other != id
  {
    SlashIdReadsAs(id, subtopic);
  }

  /** So every clean conversation has ids whose packets land in it. */
  lemma CrosstalkHappens(other: string, version: string, landed: string, subtopic: string)
    requires Clean(other) && '/' !in version && landed in SUBTOPICS && subtopic in SUBTOPICS
    ensures var id := other + ("/" + (version + ("/" + landed)));
            id != other && Parse(Build(id, CONVERSATION_VERSION, subtopic)) == Some((other, landed))
  {
    var id := other + ("/" + (version + ("/" + landed)));
    ThreePieces(other, version, landed);
    assert id[|other|] == '/';
    Crosstalk(id, subtopic, other, landed);
  }

  lemma ThreePieces(a: string, b: string, c: string)
    requires '/' !in a && '/' !in b && '/' !in c
    ensures Split(a + ("/" + (b + ("/" + c))), '/') == [a, b, c]
  {
    SplitConcat(a, '/', b + ("/" + c));
    SplitConcat(b, '/', c);
    SplitWhole(a, '/');
    SplitWhole(b, '/');
    SplitWhole(c, '/');
  }
}
