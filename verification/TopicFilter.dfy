/** The allowlist a peer filters inbound packets with. */
module TopicFilter {
  import opened Packets
  import opened Wrappers
  import opened ContentTopic

  datatype TopicKey = TopicKey(conversationId: string, subtopic: string)

  function KeysOf(id: string): set<TopicKey> {
    set s | s in SUBTOPICS :: TopicKey(id, s)
  }

  function Without(keys: set<TopicKey>, id: string): set<TopicKey> {
    set x | x in keys && x.conversationId != id
  }

  class Filter {
    var keys: set<TopicKey>

    constructor ()
      ensures keys == {}
    {
      keys := {};
    }

    method AddMany(id: string)
      modifies this
      ensures keys == old(keys) + KeysOf(id)
    {
      var k := 0;
      while k < |SUBTOPICS|
        invariant 0 <= k <= |SUBTOPICS|
        invariant keys == old(keys) + set s | s in SUBTOPICS[..k] :: TopicKey(id, s)
      {
        assert SUBTOPICS[..k + 1] == SUBTOPICS[..k] + [SUBTOPICS[k]];
        keys := keys + {TopicKey(id, SUBTOPICS[k])};
        k := k + 1;
      }
      assert SUBTOPICS[..k] == SUBTOPICS;
    }

    method RemoveMany(id: string)
      modifies this
      ensures keys == Without(old(keys), id)
    {
      var left := keys;
      while left != {}
        invariant left <= old(keys)
        invariant keys == left + Without(old(keys) - left, id)
        decreases |left|
      {
        var x :| x in left;
        if x.conversationId == id {
          keys := keys - {x};
        }
        left := left - {x};
      }
    }

    method Contains(id: string, subtopic: string) returns (allowed: bool)
      ensures allowed <==> TopicKey(id, subtopic) in keys
    {
      allowed := TopicKey(id, subtopic) in keys;
    }
  }

  // ── Over every history of joins and leaves ──────────────────────────────

  datatype Op = Add(id: string) | Remove(id: string)

  function Contents(ops: seq<Op>): set<TopicKey> {
    if ops == [] then {}
    else
      var before := Contents(ops[..|ops| - 1]);
      match ops[|ops| - 1]
      case Add(id) => before + KeysOf(id)
      case Remove(id) => Without(before, id)
  }

  /** Added, and not removed since. */
  ghost predicate Holds(ops: seq<Op>, id: string) {
    exists k :: 0 <= k < |ops| && ops[k] == Add(id) && Remove(id) !in ops[k + 1..]
  }

  lemma HoldsAfter(front: seq<Op>, last: Op, id: string)
    requires last == Add(id) || (last != Remove(id) && Holds(front, id))
    ensures Holds(front + [last], id)
  {
    var ops := front + [last];
    if last == Add(id) {
      assert ops[|front|] == Add(id) && ops[|front| + 1..] == [];
    } else {
      var k :| 0 <= k < |front| && front[k] == Add(id) && Remove(id) !in front[k + 1..];
      assert ops[k] == Add(id) && ops[k + 1..] == front[k + 1..] + [last];
    }
  }

  lemma HeldBefore(front: seq<Op>, last: Op, id: string)
    requires Holds(front + [last], id) && last != Add(id)
    ensures last != Remove(id) && Holds(front, id)
  {
    var ops := front + [last];
    var k :| 0 <= k < |ops| && ops[k] == Add(id) && Remove(id) !in ops[k + 1..];
    assert ops[k + 1..] == front[k + 1..] + [last];
    assert last in ops[k + 1..];
    assert front[k] == Add(id);
  }

  /** The filter is the held conversations times the subtopics, whatever the history. */
  lemma {:induction false} FilterRefines(ops: seq<Op>, id: string, subtopic: string)
    ensures TopicKey(id, subtopic) in Contents(ops) <==> Holds(ops, id) && subtopic in SUBTOPICS
  {
    if ops != [] {
      FilterRefines(ops[..|ops| - 1], id, subtopic);
      var front, last := ops[..|ops| - 1], ops[|ops| - 1];
      assert front + [last] == ops;
      if last == Add(id) || (last != Remove(id) && Holds(front, id)) {
        HoldsAfter(front, last, id);
      } else if Holds(ops, id) {
        HeldBefore(front, last, id);
      }
    }
  }

  /** What the delivery forwarder checks of a packet that came in on `topic`. */
  predicate Admitted(keys: set<TopicKey>, topic: string) {
    match Parse(topic)
    case None => false
    case Some((id, subtopic)) => TopicKey(id, subtopic) in keys
  }

  /** A peer admits a packet published for a clean conversation exactly while it holds that conversation. */
  lemma AdmittedExactly(ops: seq<Op>, id: string, subtopic: string)
    requires Clean(id) && subtopic in SUBTOPICS
    ensures Admitted(Contents(ops), Build(id, CONVERSATION_VERSION, subtopic)) <==> Holds(ops, id)
  {
    OwnTopicRoundTrip(id, subtopic);
    FilterRefines(ops, id, subtopic);
  }

  /** A packet of an id with a slash is admitted exactly when the id spells out a held conversation. */
  lemma AdmittedAcross(ops: seq<Op>, id: string, subtopic: string)
    requires '/' in id && subtopic in SUBTOPICS
    ensures var parts := Split(id, '/');
            Admitted(Contents(ops), Build(id, CONVERSATION_VERSION, subtopic))
            <==> |parts| >= 3 && parts[0] != "" && parts[2] in SUBTOPICS && Holds(ops, parts[0])
  {
    var parts := Split(id, '/');
    SlashIdReadsAs(id, subtopic);
    FilterRefines(ops, parts[0], if |parts| == 2 then CONVERSATION_VERSION else parts[2]);
  }
}
