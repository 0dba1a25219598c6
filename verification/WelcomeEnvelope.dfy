/**
 The envelope that tells a welcome from a bare key-package announcement on the welcome subtopic.
 The welcome's own message type is not part of this model: `Codec` stands for it.
 */
module WelcomeEnvelope {
  import opened Packets
  import opened Wrappers
  import opened Protobuf

  const WELCOME_FIELD := 2

  /** `merge` reads a length-delimited value into a message that starts out as `empty`. */
  datatype Codec<!W> = Codec(empty: W, encode: W -> Bytes, merge: (W, Bytes) -> Option<W>)

  ghost predicate RoundTrips<W>(c: Codec<W>, w: W) {
    c.merge(c.empty, c.encode(w)) == Some(w) && |c.encode(w)| < TWO_64
  }

  function EncodeWelcome<W>(c: Codec<W>, w: W): Bytes {
    WriteField(Delimited(WELCOME_FIELD, c.encode(w)))
  }

  /** The envelope's one field after some records: repeated occurrences merge, other fields are skipped. */
  function Merge<W>(c: Codec<W>, fields: seq<Field>): Result<Option<W>, ()> {
    if fields == [] then Ok(None)
    else
      var before := Merge(c, fields[..|fields| - 1]);
      var f := fields[|fields| - 1];
      if before.Err? || f.number != WELCOME_FIELD then before
      else if !f.Delimited? then Err(())
      else
        var start := if before.value.None? then c.empty else before.value.value;
        match c.merge(start, f.data)
        case None => Err(())
        case Some(w) => Ok(Some(w))
  }

  function Decode<W>(c: Codec<W>, b: Bytes): Option<W> {
    match Read(b)
    case None => None
    case Some(fields) => (
      match Merge(c, fields)
      case Err(_) => None
      case Ok(welcome) => welcome
    )
  }

  lemma {:induction false} MergeSkips<W>(c: Codec<W>, before: seq<Field>, after: seq<Field>)
    requires forall f :: f in after ==> f.number != WELCOME_FIELD
    ensures Merge(c, before + after) == Merge(c, before)
  {
    if after == [] {
      assert before + after == before;
    } else {
      var last := |after| - 1;
      MergeSkips(c, before, after[..last]);
      assert (before + after)[..|before + after| - 1] == before + after[..last];
    }
  }

  /** A message without field 2 decodes to nothing, whatever its bytes. */
  lemma NoWelcomeField<W>(c: Codec<W>, b: Bytes)
    requires Read(b).Some? && forall f :: f in Read(b).value ==> f.number != WELCOME_FIELD
    ensures Decode(c, b) == None
  {
    var fields := Read(b).value;
    MergeSkips(c, [], fields);
    assert [] + fields == fields;
  }

  /** The data of the welcome field's occurrences, in order. */
  function Parts(fields: seq<Field>): seq<Bytes> {
    if fields == [] then []
    else
      var f, before := fields[|fields| - 1], Parts(fields[..|fields| - 1]);
      if f.number == WELCOME_FIELD && f.Delimited? then before + [f.data] else before
  }

  /** `merge` over them all, from the empty welcome on. */
  function Folded<W>(c: Codec<W>, parts: seq<Bytes>): Option<W> {
    if parts == [] then Some(c.empty)
    else
      match Folded(c, parts[..|parts| - 1])
      case None => None
      case Some(w) => c.merge(w, parts[|parts| - 1])
  }

  ghost predicate WelcomesDelimited(fields: seq<Field>) {
    forall f :: f in fields && f.number == WELCOME_FIELD ==> f.Delimited?
  }

  lemma FoldedSnoc<W>(c: Codec<W>, parts: seq<Bytes>, x: Bytes)
    ensures Folded(c, parts + [x])
            == match Folded(c, parts) { case None => None case Some(w) => c.merge(w, x) }
  {
    assert (parts + [x])[..|parts|] == parts;
  }

  lemma DelimitedSnoc(fields: seq<Field>)
    requires fields != []
    ensures var front, f := fields[..|fields| - 1], fields[|fields| - 1];
            WelcomesDelimited(fields)
            <==> WelcomesDelimited(front) && (f.number == WELCOME_FIELD ==> f.Delimited?)
  {
    assert forall f :: f in fields <==> f in fields[..|fields| - 1] || f == fields[|fields| - 1];
  }

  /** `Merge` goes through exactly if the records fold, and then to the same welcome. */
  ghost predicate IsFold<W>(c: Codec<W>, fields: seq<Field>) {
    match Merge(c, fields)
    case Err(_) => !WelcomesDelimited(fields) || Folded(c, Parts(fields)).None?
    case Ok(None) => WelcomesDelimited(fields) && Parts(fields) == []
    case Ok(Some(w)) => WelcomesDelimited(fields) && Parts(fields) != [] && Folded(c, Parts(fields)) == Some(w)
  }

  lemma SkippedField<W>(c: Codec<W>, fields: seq<Field>)
    requires fields != [] && fields[|fields| - 1].number != WELCOME_FIELD && IsFold(c, fields[..|fields| - 1])
    ensures IsFold(c, fields)
  {
    DelimitedSnoc(fields);
  }

  lemma WrongWireType<W>(c: Codec<W>, fields: seq<Field>)
    requires fields != [] && IsFold(c, fields[..|fields| - 1])
    requires fields[|fields| - 1].number == WELCOME_FIELD && !fields[|fields| - 1].Delimited?
    ensures IsFold(c, fields)
  {
    assert Merge(c, fields).Err?;
    assert fields[|fields| - 1] in fields;
  }

  lemma MergedField<W>(c: Codec<W>, fields: seq<Field>)
    requires fields != [] && IsFold(c, fields[..|fields| - 1])
    requires fields[|fields| - 1].number == WELCOME_FIELD && fields[|fields| - 1].Delimited?
    ensures IsFold(c, fields)
  {
    var front, f := fields[..|fields| - 1], fields[|fields| - 1];
    DelimitedSnoc(fields);
    FoldedSnoc(c, Parts(front), f.data);
    assert Parts(fields) == Parts(front) + [f.data];
  }

  lemma {:induction false} MergeIsFold<W>(c: Codec<W>, fields: seq<Field>)
    ensures IsFold(c, fields)
  {
    if fields != [] {
      var f := fields[|fields| - 1];
      MergeIsFold(c, fields[..|fields| - 1]);
      if f.number != WELCOME_FIELD {
        SkippedField(c, fields);
      } else if f.Delimited? {
        MergedField(c, fields);
      } else {
        WrongWireType(c, fields);
      }
    }
  }

  /**
   Exactly which bytes decode, and to what: those that read as records, with a field 2 and none of
   another wire type, and the welcome is what merging them all in order makes of the empty one. So
   what a bare announcement needs in order to fall through is to have no such field.
   */
  lemma DecodesExactly<W>(c: Codec<W>, b: Bytes, w: W)
    ensures Decode(c, b) == Some(w) <==>
              && Read(b).Some?
              && WelcomesDelimited(Read(b).value)
              && (exists f :: f in Read(b).value && f.number == WELCOME_FIELD)
              && Folded(c, Parts(Read(b).value)) == Some(w)
  {
    if Read(b).Some? {
      MergeIsFold(c, Read(b).value);
      if WelcomesDelimited(Read(b).value) {
        PartsFind(Read(b).value);
      }
    }
  }

  lemma {:induction false} PartsFind(fields: seq<Field>)
    requires WelcomesDelimited(fields)
    ensures Parts(fields) != [] <==> exists f :: f in fields && f.number == WELCOME_FIELD
  {
    if fields != [] {
      var front, last := fields[..|fields| - 1], fields[|fields| - 1];
      PartsFind(front);
      assert forall f :: f in fields <==> f in front || f == last;
    }
  }

  /** In particular every well-formed message whose field numbers are all different from 2. */
  lemma OtherMessages<W>(c: Codec<W>, fields: seq<Field>)
    requires AllWellFormed(fields) && forall f :: f in fields ==> f.number != WELCOME_FIELD
    ensures Decode(c, Write(fields)) == None
  {
    ReadsBack(fields);
    if DepthAll(fields) <= RECURSION_LIMIT {
      NoWelcomeField(c, Write(fields));
    }
  }

  /**
   A welcome is found among any other well-formed fields, groups included, exactly when none of
   them nests past the decoder's limit.
   */
  lemma WelcomeAmongOthers<W>(c: Codec<W>, before: seq<Field>, w: W, after: seq<Field>)
    requires RoundTrips(c, w) && AllWellFormed(before) && AllWellFormed(after)
    requires forall f :: f in before || f in after ==> f.number != WELCOME_FIELD
    ensures Decode(c, Write(before + [Delimited(WELCOME_FIELD, c.encode(w))] + after))
            == if DepthAll(before) <= RECURSION_LIMIT && DepthAll(after) <= RECURSION_LIMIT then Some(w) else None
  {
    var field := Delimited(WELCOME_FIELD, c.encode(w));
    var middle := before + [field];
    ReadsBack(middle + after);
    DepthConcat(middle, after);
    DepthConcat(before, [field]);
    MergeSkips(c, middle, after);
    MergeSkips(c, [], before);
    assert [] + before == before;
    assert middle[..|middle| - 1] == before;
    assert Merge(c, before) == Ok(None);
    assert Merge(c, middle) == Ok(Some(w));
  }

  lemma {:induction false} DepthConcat(a: seq<Field>, b: seq<Field>)
    ensures DepthAll(a + b) == if DepthAll(a) >= DepthAll(b) then DepthAll(a) else DepthAll(b)
  {
    if a == [] {
      assert a + b == b;
    } else {
      DepthConcat(a[1..], b);
      assert (a + b)[1..] == a[1..] + b;
    }
  }

  /** An unknown group, here an empty one, is skipped like any other field. */
  lemma GroupIsSkipped<W>(c: Codec<W>, number: nat, w: W)
    requires RoundTrips(c, w) && 1 <= number <= MAX_KEY / 8 && number != WELCOME_FIELD
    ensures Decode(c, WriteKey(number, GROUP_START) + WriteKey(number, GROUP_END) + EncodeWelcome(c, w)) == Some(w)
  {
    var group, field := Group(number, []), Delimited(WELCOME_FIELD, c.encode(w));
    WelcomeAmongOthers(c, [group], w, []);
    assert [group] + [field] + [] == [group, field];
    assert [group, field][1..] == [field] && [field][1..] == [];
    assert Write([field]) == WriteField(field) + [] == EncodeWelcome(c, w);
    assert WriteValue(group) == [] + WriteKey(number, GROUP_END) == WriteKey(number, GROUP_END);
  }

  /** The envelope round-trips every welcome, of any length, that its own codec round-trips. */
  lemma WelcomeRoundTrip<W>(c: Codec<W>, w: W)
    requires RoundTrips(c, w)
    ensures Decode(c, EncodeWelcome(c, w)) == Some(w)
  {
    var field := Delimited(WELCOME_FIELD, c.encode(w));
    WelcomeAmongOthers(c, [], w, []);
    assert [] + [field] + [] == [field];
    assert [field][1..] == [];
    assert Write([field]) == WriteField(field) + [] == EncodeWelcome(c, w);
  }

  /** An envelope is the key of field 2, length-delimited, then the length and the welcome. */
  lemma EnvelopeBytes<W>(c: Codec<W>, w: W)
    ensures EncodeWelcome(c, w) == [0x12] + WriteVarint(|c.encode(w)|) + c.encode(w)
  {
    assert WriteKey(2, 2) == [0x12];
    var data := c.encode(w);
    assert WriteField(Delimited(WELCOME_FIELD, data)) == WriteKey(2, 2) + (WriteVarint(|data|) + data);
    assert [0x12] + (WriteVarint(|data|) + data) == [0x12] + WriteVarint(|data|) + data;
  }

  /** Two envelopes of one welcome are read as one message merged twice. */
  lemma SecondWelcomeMerges<W>(c: Codec<W>, w: W, v: W)
    requires RoundTrips(c, w) && RoundTrips(c, v)
    ensures Decode(c, EncodeWelcome(c, w) + EncodeWelcome(c, v)) == c.merge(w, c.encode(v))
  {
    var f, g := Delimited(WELCOME_FIELD, c.encode(w)), Delimited(WELCOME_FIELD, c.encode(v));
    assert [f, g][1..] == [g] && Write([g]) == WriteField(g) + [];
    assert WriteField(g) + [] == WriteField(g);
    assert Write([f, g]) == WriteField(f) + Write([g]);
    assert [g][1..] == [] && Depth(f) == 1 && Depth(g) == 1;
    assert DepthAll([g]) == 1;
    assert DepthAll([f, g]) == 1;
    ReadsBack([f, g]);
    assert [f, g][..1] == [f] && [f][..0] == [];
    assert Merge(c, [f]) == Ok(Some(w));
    assert Merge(c, [f, g]) == (match c.merge(w, c.encode(v)) case None => Err(()) case Some(x) => Ok(Some(x)));
  }
}
