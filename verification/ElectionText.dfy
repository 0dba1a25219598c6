/** The target text of a conversation request, and what the vote banner reads from an election's. */
module ElectionText {
  import opened Packets
  import opened Wrappers
  import opened Text

  datatype Payload =
    | MemberInvite(memberId: Bytes)
    | RemoveMember(memberId: Bytes)
    | EmergencyCriteria(evidence: Option<Bytes>)
    | StewardElection(epoch: nat, retryRound: nat, stewards: seq<Bytes>)
    | OtherPayload

  const COMMA := ", "
  const BAR := " | "
  const DOT: string := " \U{B7} "

  function Hexes(ids: seq<Bytes>): (r: seq<string>)
    ensures |r| == |ids| && forall k :: 0 <= k < |ids| ==> r[k] == Hex(ids[k])
  {
    seq(|ids|, k requires 0 <= k < |ids| => Hex(ids[k]))
  }

  function FormatMeta(epoch: nat, retry: nat): string {
    if retry == 0 then "epoch " + Decimal(epoch)
    else "epoch " + (Decimal(epoch) + (COMMA + ("retry " + Decimal(retry))))
  }

  function FormatTarget(payload: Option<Payload>): string {
    match payload
    case Some(MemberInvite(id)) => Hex(id)
    case Some(RemoveMember(id)) => Hex(id)
    case Some(EmergencyCriteria(Some(target))) => Hex(target)
    case Some(StewardElection(epoch, retry, stewards)) =>
      FormatMeta(epoch, retry) + (BAR + Join(Hexes(stewards), COMMA))
    case _ => "unknown"
  }

  /** The banner's first line, and the stewards it lists. */
  function ParseElection(raw: string): (string, seq<string>) {
    var (meta, list) := match SplitOnce(raw, BAR) case None => (raw, "") case Some(halves) => halves;
    (Replace(Replace(Replace(meta, "epoch ", "Epoch "), "retry ", "Retry "), COMMA, DOT),
     if list == "" then [] else SplitAll(list, COMMA))
  }

  function Banner(epoch: nat, retry: nat): string {
    if retry == 0 then "Epoch " + Decimal(epoch)
    else "Epoch " + (Decimal(epoch) + (DOT + ("Retry " + Decimal(retry))))
  }

  // ── The banner ──────────────────────────────────────────────────────────

  lemma DecimalPlain(n: nat)
    ensures 'e' !in Decimal(n) && 'r' !in Decimal(n) && ',' !in Decimal(n) && '|' !in Decimal(n)
  {
    if c :| c in Decimal(n) && !IsDigit(c) {
      assert false;
    }
  }

  /** No part of the tail of a retry is taken for another "epoch ". */
  lemma EpochReplaced(epoch: nat, tail: string)
    requires Replace(tail, "epoch ", "Epoch ") == tail
    ensures Replace("epoch " + (Decimal(epoch) + tail), "epoch ", "Epoch ") == "Epoch " + (Decimal(epoch) + tail)
  {
    DecimalPlain(epoch);
    ReplaceAt("epoch ", "Epoch ", Decimal(epoch) + tail);
    ReplaceSkip(Decimal(epoch), tail, "epoch ", "Epoch ");
  }

  lemma RetryIsNoEpoch(retry: nat)
    ensures Replace(COMMA + ("retry " + Decimal(retry)), "epoch ", "Epoch ") == COMMA + ("retry " + Decimal(retry))
  {
    var digits := Decimal(retry);
    var tail := "etry " + digits;
    DecimalPlain(retry);
    assert COMMA + ("retry " + digits) == ", r" + tail;
    ReplaceSkip(", r", tail, "epoch ", "Epoch ");
    assert tail[1] == 't';
    assert tail[1..] == "try " + digits;
    ReplaceNothing("try " + digits, "epoch ", "Epoch ");
    assert ['e'] + ("try " + digits) == tail;
  }

  lemma RetryReplaced(epoch: nat, retry: nat)
    ensures Replace("Epoch " + (Decimal(epoch) + (COMMA + ("retry " + Decimal(retry)))), "retry ", "Retry ")
            == "Epoch " + (Decimal(epoch) + (COMMA + ("Retry " + Decimal(retry))))
  {
    DecimalPlain(epoch);
    DecimalPlain(retry);
    ReplaceSkip("Epoch ", Decimal(epoch) + (COMMA + ("retry " + Decimal(retry))), "retry ", "Retry ");
    ReplaceSkip(Decimal(epoch), COMMA + ("retry " + Decimal(retry)), "retry ", "Retry ");
    ReplaceSkip(COMMA, "retry " + Decimal(retry), "retry ", "Retry ");
    ReplaceAt("retry ", "Retry ", Decimal(retry));
    ReplaceNothing(Decimal(retry), "retry ", "Retry ");
  }

  lemma CommaReplaced(epoch: nat, retry: nat)
    ensures Replace("Epoch " + (Decimal(epoch) + (COMMA + ("Retry " + Decimal(retry)))), COMMA, DOT)
            == "Epoch " + (Decimal(epoch) + (DOT + ("Retry " + Decimal(retry))))
  {
    DecimalPlain(epoch);
    DecimalPlain(retry);
    ReplaceSkip("Epoch ", Decimal(epoch) + (COMMA + ("Retry " + Decimal(retry))), COMMA, DOT);
    ReplaceSkip(Decimal(epoch), COMMA + ("Retry " + Decimal(retry)), COMMA, DOT);
    ReplaceAt(COMMA, DOT, "Retry " + Decimal(retry));
    ReplaceNothing("Retry " + Decimal(retry), COMMA, DOT);
  }

  lemma BannerOf(epoch: nat, retry: nat)
    ensures Replace(Replace(Replace(FormatMeta(epoch, retry), "epoch ", "Epoch "), "retry ", "Retry "), COMMA, DOT)
            == Banner(epoch, retry)
  {
    if retry == 0 {
      DecimalPlain(epoch);
      ReplaceNothing("", "epoch ", "Epoch ");
      EpochReplaced(epoch, "");
      assert Decimal(epoch) + "" == Decimal(epoch);
      ReplaceNothing("Epoch " + Decimal(epoch), "retry ", "Retry ");
      ReplaceNothing("Epoch " + Decimal(epoch), COMMA, DOT);
    } else {
      RetryIsNoEpoch(retry);
      EpochReplaced(epoch, COMMA + ("retry " + Decimal(retry)));
      RetryReplaced(epoch, retry);
      CommaReplaced(epoch, retry);
    }
  }

  // ── The list ────────────────────────────────────────────────────────────

  lemma HexesPlain(ids: seq<Bytes>)
    ensures forall p :: p in Hexes(ids) ==> ',' !in p
    ensures Hexes(ids) == [""] <==> ids == [[]]
  {
    forall p | p in Hexes(ids) ensures ',' !in p {
      var k :| 0 <= k < |ids| && p == Hex(ids[k]);
      HexInjective(ids[k], []);
    }
    if Hexes(ids) == [""] {
      HexInjective(ids[0], []);
    }
  }

  lemma ListOf(ids: seq<Bytes>)
    ensures var list := Join(Hexes(ids), COMMA);
            (if list == "" then [] else SplitAll(list, COMMA)) == if ids == [[]] then [] else Hexes(ids)
  {
    HexesPlain(ids);
    JoinEmpty(Hexes(ids), COMMA);
    if ids != [] && ids != [[]] {
      SplitJoin(Hexes(ids), COMMA, ',');
    }
  }

  lemma MetaHasNoBar(epoch: nat, retry: nat)
    ensures '|' !in FormatMeta(epoch, retry)
  {
    DecimalPlain(epoch);
    DecimalPlain(retry);
  }

  lemma HalvesOf(epoch: nat, retry: nat, ids: seq<Bytes>)
    ensures SplitOnce(FormatTarget(Some(StewardElection(epoch, retry, ids))), BAR)
            == Some((FormatMeta(epoch, retry), Join(Hexes(ids), COMMA)))
  {
    MetaHasNoBar(epoch, retry);
    SplitOnceAt(FormatMeta(epoch, retry), BAR, Join(Hexes(ids), COMMA), '|', 1);
  }

  /**
   The banner of every election shows its epoch, its retry round when there is one, and exactly its
   stewards; the one exception is a single empty id, which reads as no steward.
   */
  lemma ElectionReadsBack(epoch: nat, retry: nat, ids: seq<Bytes>)
    ensures ParseElection(FormatTarget(Some(StewardElection(epoch, retry, ids))))
            == (Banner(epoch, retry), if ids == [[]] then [] else Hexes(ids))
  {
    HalvesOf(epoch, retry, ids);
    BannerOf(epoch, retry);
    ListOf(ids);
  }

  /** So the stewards read back exactly unless there is the one empty id. */
  lemma StewardsReadBackExactly(epoch: nat, retry: nat, ids: seq<Bytes>)
    ensures ParseElection(FormatTarget(Some(StewardElection(epoch, retry, ids)))).1 == Hexes(ids) <==> ids != [[]]
  {
    ElectionReadsBack(epoch, retry, ids);
  }

  // ── Injectivity ─────────────────────────────────────────────────────────

  lemma MetaInjective(epoch: nat, retry: nat, epoch': nat, retry': nat)
    requires FormatMeta(epoch, retry) == FormatMeta(epoch', retry')
    ensures epoch == epoch' && retry == retry'
  {
    MetaReads(epoch, retry);
    MetaReads(epoch', retry');
    var front, front' := "epoch " + Decimal(epoch), "epoch " + Decimal(epoch');
    assert front[6..] == Decimal(epoch) && front'[6..] == Decimal(epoch');
    DecimalInjective(epoch, epoch');
    if retry > 0 && retry' > 0 {
      assert ("retry " + Decimal(retry))[6..] == Decimal(retry);
      assert ("retry " + Decimal(retry'))[6..] == Decimal(retry');
      DecimalInjective(retry, retry');
    }
  }

  lemma MetaReads(epoch: nat, retry: nat)
    ensures SplitOnce(FormatMeta(epoch, retry), COMMA)
            == if retry == 0 then None else Some(("epoch " + Decimal(epoch), "retry " + Decimal(retry)))
  {
    DecimalPlain(epoch);
    if retry == 0 {
      SplitOnceNone(FormatMeta(epoch, retry), COMMA, 0);
    } else {
      assert FormatMeta(epoch, retry) == ("epoch " + Decimal(epoch)) + (COMMA + ("retry " + Decimal(retry)));
      SplitOnceAt("epoch " + Decimal(epoch), COMMA, "retry " + Decimal(retry), ',', 0);
    }
  }

  predicate SameStewards(ids: seq<Bytes>, ids': seq<Bytes>) {
    ids == ids' || (ids in [[], [[]]] && ids' in [[], [[]]])
  }

  lemma ListInjective(ids: seq<Bytes>, ids': seq<Bytes>)
    ensures Join(Hexes(ids), COMMA) == Join(Hexes(ids'), COMMA) <==> SameStewards(ids, ids')
  {
    if Join(Hexes(ids), COMMA) == Join(Hexes(ids'), COMMA) {
      ListDecides(ids, ids');
    } else if SameStewards(ids, ids') {
      NoStewardText(ids);
      NoStewardText(ids');
    }
  }

  lemma ListDecides(ids: seq<Bytes>, ids': seq<Bytes>)
    requires Join(Hexes(ids), COMMA) == Join(Hexes(ids'), COMMA)
    ensures SameStewards(ids, ids')
  {
    ListOf(ids);
    ListOf(ids');
    HexesInjective(ids, ids');
    if ids in [[], [[]]] || ids' in [[], [[]]] {
      NoSteward(ids);
      NoSteward(ids');
    }
  }

  /** Only the empty text lists nobody. */
  lemma NoSteward(ids: seq<Bytes>)
    ensures ids in [[], [[]]] <==> Join(Hexes(ids), COMMA) == ""
  {
    HexesPlain(ids);
    JoinEmpty(Hexes(ids), COMMA);
  }

  lemma NoStewardText(ids: seq<Bytes>)
    ensures ids in [[], [[]]] ==> Join(Hexes(ids), COMMA) == ""
  {
    NoSteward(ids);
  }

  lemma HexesInjective(ids: seq<Bytes>, ids': seq<Bytes>)
    ensures Hexes(ids) == Hexes(ids') ==> ids == ids'
  {
    if Hexes(ids) == Hexes(ids') {
      assert |ids| == |ids'|;
      forall k | 0 <= k < |ids| ensures ids[k] == ids'[k] {
        assert Hexes(ids)[k] == Hexes(ids')[k];
        HexInjective(ids[k], ids'[k]);
      }
    }
  }

  /** Two elections print the same exactly when they are the same, up to no steward against one empty id. */
  lemma ElectionsDistinct(epoch: nat, retry: nat, ids: seq<Bytes>, epoch': nat, retry': nat, ids': seq<Bytes>)
    ensures FormatTarget(Some(StewardElection(epoch, retry, ids)))
            == FormatTarget(Some(StewardElection(epoch', retry', ids')))
            <==> epoch == epoch' && retry == retry' && SameStewards(ids, ids')
  {
    HalvesOf(epoch, retry, ids);
    HalvesOf(epoch', retry', ids');
    ListInjective(ids, ids');
    if FormatMeta(epoch, retry) == FormatMeta(epoch', retry') {
      MetaInjective(epoch, retry, epoch', retry');
    }
  }

  /** No other request prints like an election. */
  lemma OnlyElectionsLookLikeOne(epoch: nat, retry: nat, ids: seq<Bytes>, other: Option<Payload>)
    requires other.Some? ==> !other.value.StewardElection?
    ensures FormatTarget(other) != FormatTarget(Some(StewardElection(epoch, retry, ids)))
  {
    assert FormatTarget(Some(StewardElection(epoch, retry, ids)))[0] == 'e';
  }

  // ── The other requests ──────────────────────────────────────────────────

  /** The member a request is about, if it names one. */
  function Subject(payload: Option<Payload>): Option<Bytes> {
    match payload
    case Some(MemberInvite(id)) => Some(id)
    case Some(RemoveMember(id)) => Some(id)
    case Some(EmergencyCriteria(target)) => target
    case _ => None
  }

  /** Any other request prints the one member it is about: distinct members differ, and no member is "unknown". */
  lemma SubjectsDistinct(a: Option<Payload>, b: Option<Payload>)
    requires a.Some? ==> !a.value.StewardElection?
    requires b.Some? ==> !b.value.StewardElection?
    ensures FormatTarget(a) == FormatTarget(b) <==> Subject(a) == Subject(b)
  {
    SubjectText(a);
    SubjectText(b);
    if Subject(a).Some? && Subject(b).Some? {
      HexInjective(Subject(a).value, Subject(b).value);
    }
  }

  lemma SubjectText(a: Option<Payload>)
    requires a.Some? ==> !a.value.StewardElection?
    ensures Subject(a).None? <==> FormatTarget(a) == "unknown"
    ensures Subject(a).Some? ==> FormatTarget(a) == Hex(Subject(a).value)
  {
    if Subject(a).Some? && Subject(a).value != [] {
      assert Hex(Subject(a).value)[0] == '0';
    }
  }
}
