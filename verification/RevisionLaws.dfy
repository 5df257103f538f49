/** What every run of sync, approval and markup change keeps, and what it never does. */
module RevisionLaws {
  import opened PriceCatalog
  import opened GatewayPricing
  import opened PriceRevisions

  datatype Event =
    | SyncEvent(configured: seq<string>, publicIds: seq<string>, offers: map<string, Offer>)
    | ApproveEvent(id: nat)
    | MarkupEvent(markupBps: int)

  function Step(b: Book, event: Event): Book {
    match event
    case SyncEvent(configured, publicIds, offers) => AfterSync(b, configured, publicIds, offers)
    case ApproveEvent(id) => AfterApprove(b, id)
    case MarkupEvent(markupBps) => AfterSetMarkup(b, markupBps)
  }

  function Run(b: Book, events: seq<Event>): Book {
    if events == [] then b else Step(Run(b, events[..|events| - 1]), events[|events| - 1])
  }

  // --------------------------------------------------------------------- invariants

  /** A revision belongs to a model, and sells its official prices at its own markup. */
  predicate WellPriced(b: Book, r: Revision) {
    && r.model < |b.models|
    && ValidMarkup(r.markupBps)
    && Normal(r.official)
    && r.final == MarkUpAll(r.official, r.markupBps)
  }

  /** A synced revision's hash names its model, prices and source; a recalculated one's names
      the earlier revision of that model whose official prices it copies. */
  predicate WellSourced(b: Book, i: nat)
    requires i < |b.revisions| && b.revisions[i].model < |b.models|
  {
    var r := b.revisions[i];
    match r.digest
    case SyncDigest(publicId, official, source) =>
      publicId == b.models[r.model].publicId && official == r.official && source == r.source
    case MarkupDigest(previous, markupBps) =>
      && markupBps == r.markupBps && previous < i
      && b.revisions[previous].model == r.model && b.revisions[previous].status == Superseded
      && b.revisions[previous].official == r.official && b.revisions[previous].source == r.source
  }

  /** A revision is active exactly when its model points to it. */
  predicate ActiveIffPointed(b: Book) {
    forall i :: 0 <= i < |b.revisions| ==>
      && b.revisions[i].model < |b.models|
      && (b.revisions[i].status == Active <==> b.models[b.revisions[i].model].active == To(i))
  }

  predicate PointersLand(b: Book) {
    forall k :: 0 <= k < |b.models| ==>
      && (b.models[k].active.To? ==>
            b.models[k].active.id < |b.revisions| && b.revisions[b.models[k].active.id].model == k)
      && (b.models[k].live <==> b.models[k].active.To?)
  }

  predicate DistinctModels(b: Book) {
    forall j, k :: 0 <= j < k < |b.models| ==> b.models[j].publicId != b.models[k].publicId
  }

  /** No price list is proposed twice. */
  predicate DistinctProposals(b: Book) {
    forall i, j :: 0 <= i < j < |b.revisions| && b.revisions[i].digest.SyncDigest? ==>
      b.revisions[i].digest != b.revisions[j].digest
  }

  predicate Priced(b: Book) {
    ValidMarkup(b.markupBps) && forall i :: 0 <= i < |b.revisions| ==> WellPriced(b, b.revisions[i])
  }

  predicate Sourced(b: Book) {
    forall i :: 0 <= i < |b.revisions| ==> b.revisions[i].model < |b.models| && WellSourced(b, i)
  }

  predicate Consistent(b: Book) {
    && Priced(b) && Sourced(b)
    && ActiveIffPointed(b) && PointersLand(b)
    && DistinctModels(b) && DistinctProposals(b)
  }

  /** Everything of a revision but its status. */
  predicate SameTerms(r: Revision, s: Revision) { s == r.(status := s.status) }

  predicate Forward(s: Status, t: Status) {
    s == t || s == Pending || (s == Active && t == Superseded)
  }

  /** Tables only grow; a revision changes in nothing but its status, and that only forward. */
  predicate Evolves(b: Book, c: Book) {
    && |b.revisions| <= |c.revisions| && |b.models| <= |c.models|
    && (forall i :: 0 <= i < |b.revisions| ==>
          && SameTerms(b.revisions[i], c.revisions[i])
          && Forward(b.revisions[i].status, c.revisions[i].status))
    && forall k :: 0 <= k < |b.models| ==> b.models[k].publicId == c.models[k].publicId
  }

  lemma EvolvesOn(b: Book, c: Book, d: Book)
    requires Evolves(b, c) && Evolves(c, d)
    ensures Evolves(b, d)
  {
  }

  // ------------------------------------------------------------------ single changes

  lemma RegisterKeeps(b: Book, publicId: string)
    requires Consistent(b)
    ensures Consistent(Register(b, publicId)) && Evolves(b, Register(b, publicId))
  {
    hide MarkUpAll, Normal;
  }

  lemma ProposeKeeps(b: Book, row: nat, publicId: string, official: Prices, source: string)
    requires Consistent(b) && row < |b.models| && b.models[row].publicId == publicId && Normal(official)
    ensures Consistent(Propose(b, row, publicId, official, source))
    ensures Evolves(b, Propose(b, row, publicId, official, source))
  {
    hide MarkUpAll, Normal;
    var digest := SyncDigest(publicId, official, source);
    if !Seen(b, row, digest) {
      forall i | 0 <= i < |b.revisions|
        ensures b.revisions[i].digest != digest
      {
        assert b.revisions[i] in b.revisions && WellSourced(b, i);
      }
    }
  }

  lemma ApproveKeepsPrices(b: Book, id: nat)
    requires Consistent(b)
    ensures Priced(AfterApprove(b, id))
  {
    hide MarkUpAll, Normal, Sourced, ActiveIffPointed, PointersLand, DistinctModels, DistinctProposals, WellSourced;
  }

  lemma ApproveKeepsSources(b: Book, id: nat)
    requires Consistent(b)
    ensures Sourced(AfterApprove(b, id))
  {
    hide MarkUpAll, Normal, Priced, WellPriced, DistinctModels, DistinctProposals;
  }

  lemma ApproveKeepsPointers(b: Book, id: nat)
    requires Consistent(b)
    ensures ActiveIffPointed(AfterApprove(b, id)) && PointersLand(AfterApprove(b, id))
  {
    hide MarkUpAll, Normal, Priced, WellPriced, Sourced, WellSourced, DistinctModels, DistinctProposals;
  }

  lemma ApproveKeepsDistinctness(b: Book, id: nat)
    requires Consistent(b)
    ensures DistinctModels(AfterApprove(b, id)) && DistinctProposals(AfterApprove(b, id))
  {
    hide MarkUpAll, Normal, Priced, WellPriced, ActiveIffPointed, WellSourced;
  }

  lemma ApproveKeepsHistory(b: Book, id: nat)
    requires Consistent(b)
    ensures Evolves(b, AfterApprove(b, id))
  {
    hide MarkUpAll, Normal, Priced, WellPriced, Sourced, WellSourced, DistinctModels, DistinctProposals;
  }

  lemma ApproveKeeps(b: Book, id: nat)
    requires Consistent(b)
    ensures Consistent(AfterApprove(b, id)) && Evolves(b, AfterApprove(b, id))
  {
    ApproveKeepsPrices(b, id);
    ApproveKeepsSources(b, id);
    ApproveKeepsPointers(b, id);
    ApproveKeepsDistinctness(b, id);
    ApproveKeepsHistory(b, id);
    hide Priced, Sourced, ActiveIffPointed, PointersLand;
    hide DistinctModels, DistinctProposals, Evolves, AfterApprove, Renew;
  }

  lemma RenewKeepsPrices(b: Book, row: nat)
    requires Consistent(b) && row < |b.models|
    ensures Priced(Renew(b, row))
  {
    hide MarkUpAll, Normal, Sourced, ActiveIffPointed, PointersLand, DistinctModels, DistinctProposals, WellSourced;
  }

  lemma RenewKeepsSources(b: Book, row: nat)
    requires Consistent(b) && row < |b.models|
    ensures Sourced(Renew(b, row))
  {
    hide MarkUpAll, Normal, Priced, WellPriced, DistinctModels, DistinctProposals;
  }

  lemma RenewKeepsPointers(b: Book, row: nat)
    requires Consistent(b) && row < |b.models|
    ensures ActiveIffPointed(Renew(b, row)) && PointersLand(Renew(b, row))
  {
    hide MarkUpAll, Normal, Priced, WellPriced, Sourced, WellSourced, DistinctModels, DistinctProposals;
  }

  lemma RenewKeepsDistinctness(b: Book, row: nat)
    requires Consistent(b) && row < |b.models|
    ensures DistinctModels(Renew(b, row)) && DistinctProposals(Renew(b, row))
  {
    hide MarkUpAll, Normal, Priced, WellPriced, ActiveIffPointed, WellSourced;
  }

  lemma RenewKeepsHistory(b: Book, row: nat)
    requires Consistent(b) && row < |b.models|
    ensures Evolves(b, Renew(b, row))
  {
    hide MarkUpAll, Normal, Priced, WellPriced, Sourced, WellSourced, DistinctModels, DistinctProposals;
  }

  lemma RenewKeeps(b: Book, row: nat)
    requires Consistent(b) && row < |b.models|
    ensures Consistent(Renew(b, row)) && Evolves(b, Renew(b, row))
  {
    RenewKeepsPrices(b, row);
    RenewKeepsSources(b, row);
    RenewKeepsPointers(b, row);
    RenewKeepsDistinctness(b, row);
    RenewKeepsHistory(b, row);
    hide Priced, Sourced, ActiveIffPointed, PointersLand;
    hide DistinctModels, DistinctProposals, Evolves, AfterApprove, Renew;
  }

  // --------------------------------------------------------------------- whole runs

  lemma {:induction false} RegisterAllKeeps(b: Book, publicIds: seq<string>)
    requires Consistent(b)
    ensures Consistent(RegisterAll(b, publicIds)) && Evolves(b, RegisterAll(b, publicIds))
  {
    hide Consistent, Register;
    if publicIds == [] {
      EvolvesFromItself(b);
    } else {
      var earlier := RegisterAll(b, publicIds[..|publicIds| - 1]);
      RegisterAllKeeps(b, publicIds[..|publicIds| - 1]);
      RegisterKeeps(earlier, publicIds[|publicIds| - 1]);
      EvolvesOn(b, earlier, RegisterAll(b, publicIds));
    }
  }

  lemma EvolvesFromItself(b: Book)
    ensures Evolves(b, b)
  {
  }

  lemma EnsuredRow(b: Book, publicId: string)
    ensures RowOf(Register(b, publicId).models, publicId) < |Register(b, publicId).models|
  {
  }

  lemma SyncItemKeeps(b: Book, publicId: string, offers: map<string, Offer>)
    requires Consistent(b)
    ensures var c := SyncItem(b, publicId, offers); c.Ok? ==> Consistent(c.value) && Evolves(b, c.value)
  {
    hide Consistent, Evolves, Propose, Normalize, Register;
    var registered := Register(b, publicId);
    RegisterKeeps(b, publicId);
    EnsuredRow(b, publicId);
    if Offers(offers, publicId) && Normalize(offers[publicId].entries).Ok? {
      var official := Normalize(offers[publicId].entries).value;
      NormalizeIsNormal(offers[publicId].entries);
      ProposeKeeps(registered, RowOf(registered.models, publicId), publicId, official, offers[publicId].source);
      EvolvesOn(b, registered, SyncItem(b, publicId, offers).value);
    }
  }

  lemma {:induction false} SyncItemsKeep(b: Book, publicIds: seq<string>, offers: map<string, Offer>)
    requires Consistent(b)
    ensures var c := SyncItems(b, publicIds, offers); c.Ok? ==> Consistent(c.value) && Evolves(b, c.value)
  {
    hide Consistent, Evolves, SyncItem;
    if publicIds == [] {
      EvolvesFromItself(b);
    } else {
      var earlier := SyncItems(b, publicIds[..|publicIds| - 1], offers);
      SyncItemsKeep(b, publicIds[..|publicIds| - 1], offers);
      if earlier.Ok? {
        SyncItemKeeps(earlier.value, publicIds[|publicIds| - 1], offers);
        if SyncItems(b, publicIds, offers).Ok? {
          EvolvesOn(b, earlier.value, SyncItems(b, publicIds, offers).value);
        }
      }
    }
  }

  lemma {:induction false} RenewUpToKeeps(b: Book, rows: nat)
    requires Consistent(b) && rows <= |b.models|
    ensures Consistent(RenewUpTo(b, rows)) && Evolves(b, RenewUpTo(b, rows))
  {
    hide Consistent, Evolves, Renew;
    if rows == 0 {
      EvolvesFromItself(b);
    } else {
      RenewUpToKeeps(b, rows - 1);
      RenewKeeps(RenewUpTo(b, rows - 1), rows - 1);
      EvolvesOn(b, RenewUpTo(b, rows - 1), RenewUpTo(b, rows));
    }
  }

  lemma PolicyKeeps(b: Book, markupBps: int)
    requires Consistent(b) && ValidMarkup(markupBps)
    ensures Consistent(b.(markupBps := markupBps)) && Evolves(b, b.(markupBps := markupBps))
  {
    hide MarkUpAll, Normal;
  }

  lemma StepKeeps(b: Book, event: Event)
    requires Consistent(b)
    ensures Consistent(Step(b, event)) && Evolves(b, Step(b, event))
  {
    hide Consistent, Evolves, RenewUpTo, SyncItems, RegisterAll, AfterApprove;
    EvolvesFromItself(b);
    match event
    case SyncEvent(configured, publicIds, offers) =>
      var start := RegisterAll(b, configured);
      RegisterAllKeeps(b, configured);
      SyncItemsKeep(start, publicIds, offers);
      if SyncItems(start, publicIds, offers).Ok? {
        EvolvesOn(b, start, Step(b, event));
      }
    case ApproveEvent(id) =>
      ApproveKeeps(b, id);
    case MarkupEvent(markupBps) =>
      if ValidMarkup(markupBps) {
        var start := b.(markupBps := markupBps);
        PolicyKeeps(b, markupBps);
        RenewUpToKeeps(start, |b.models|);
        EvolvesOn(b, start, Step(b, event));
      }
  }

  /** From any consistent tables, every run keeps them consistent and only ever moves a
      revision's status forward. */
  lemma {:induction false} RunKeeps(b: Book, events: seq<Event>)
    requires Consistent(b)
    ensures Consistent(Run(b, events)) && Evolves(b, Run(b, events))
  {
    hide Consistent, Evolves, Step;
    if events == [] {
      EvolvesFromItself(b);
    } else {
      RunKeeps(b, events[..|events| - 1]);
      StepKeeps(Run(b, events[..|events| - 1]), events[|events| - 1]);
      EvolvesOn(b, Run(b, events[..|events| - 1]), Run(b, events));
    }
  }

  /** Every reachable state is consistent. */
  lemma EveryRunIsConsistent(events: seq<Event>)
    ensures Consistent(Run(EMPTY_BOOK, events))
  {
    hide Run;
    assert Consistent(EMPTY_BOOK);
    RunKeeps(EMPTY_BOOK, events);
  }

  // -------------------------------------------------------------- markups, one at a time

  /** Some proposal of the same model from which a revision's official prices come: recalculated
      prices never feed another markup. */
  lemma {:induction false} PricesComeFromAProposal(b: Book, i: nat) returns (origin: nat)
    requires Consistent(b) && i < |b.revisions|
    ensures origin <= i && b.revisions[origin].model == b.revisions[i].model
    ensures b.revisions[origin].digest.SyncDigest?
    ensures b.revisions[origin].digest.official == b.revisions[i].official
    ensures b.revisions[i].final == MarkUpAll(b.revisions[origin].official, b.revisions[i].markupBps)
  {
    hide MarkUpAll, Normal, ActiveIffPointed, PointersLand, DistinctModels, DistinctProposals;
    assert WellPriced(b, b.revisions[i]) && WellSourced(b, i);
    match b.revisions[i].digest {
      case SyncDigest(_, _, _) => origin := i;
      case MarkupDigest(previous, _) => origin := PricesComeFromAProposal(b, previous);
    }
  }

  /** The revision a model sells at. */
  function Current(b: Book, row: nat): Revision
    requires row < |b.models| && b.models[row].active.To? && b.models[row].active.id < |b.revisions|
  {
    b.revisions[b.models[row].active.id]
  }

  /** Same models on sale, each at the same official prices. */
  predicate SameOffers(b: Book, c: Book)
    requires PointersLand(b) && PointersLand(c)
  {
    && |c.models| == |b.models|
    && forall k :: 0 <= k < |b.models| ==>
         && (c.models[k].active.To? <==> b.models[k].active.To?)
         && (b.models[k].active.To? ==> Current(c, k).official == Current(b, k).official)
  }

  /** The first rows sell at the policy's markup. */
  predicate UniformUpTo(b: Book, rows: nat)
    requires PointersLand(b) && rows <= |b.models|
  {
    forall k :: 0 <= k < rows && b.models[k].active.To? ==> Current(b, k).markupBps == b.markupBps
  }

  predicate Uniform(b: Book)
    requires PointersLand(b)
  {
    UniformUpTo(b, |b.models|)
  }

  lemma RenewOne(b: Book, row: nat)
    requires Consistent(b) && row < |b.models| && Consistent(Renew(b, row))
    ensures SameOffers(b, Renew(b, row))
    ensures UniformUpTo(b, row) ==> UniformUpTo(Renew(b, row), row + 1)
  {
    hide MarkUpAll, Normal, Priced, Sourced;
    hide DistinctModels, DistinctProposals, WellPriced, WellSourced, ActiveIffPointed;
  }

  lemma SameOffersOn(b: Book, c: Book, d: Book)
    requires PointersLand(b) && PointersLand(c) && PointersLand(d) && SameOffers(b, c) && SameOffers(c, d)
    ensures SameOffers(b, d)
  {
  }

  lemma {:induction false} RenewedRows(b: Book, rows: nat)
    requires Consistent(b) && rows <= |b.models|
    ensures Consistent(RenewUpTo(b, rows))
    ensures SameOffers(b, RenewUpTo(b, rows)) && UniformUpTo(RenewUpTo(b, rows), rows)
  {
    hide Priced, Sourced, DistinctModels, DistinctProposals, ActiveIffPointed, PointersLand, Renew;
    RenewUpToKeeps(b, rows);
    if rows > 0 {
      var earlier := RenewUpTo(b, rows - 1);
      RenewedRows(b, rows - 1);
      RenewKeeps(earlier, rows - 1);
      RenewOne(earlier, rows - 1);
      SameOffersOn(b, earlier, RenewUpTo(b, rows));
    }
  }

  /** A change of markup reprices every model on sale, from its official prices, once. */
  lemma MarkupReprices(b: Book, markupBps: int)
    requires Consistent(b) && ValidMarkup(markupBps)
    ensures var c := AfterSetMarkup(b, markupBps);
            && Consistent(c) && c.markupBps == markupBps
            && SameOffers(b, c) && Uniform(c)
  {
    hide Priced, Sourced, DistinctModels, DistinctProposals, ActiveIffPointed, RenewUpTo;
    var start := b.(markupBps := markupBps);
    PolicyKeeps(b, markupBps);
    RenewedRows(start, |b.models|);
    assert SameOffers(b, start);
    SameOffersOn(b, start, AfterSetMarkup(b, markupBps));
  }

  predicate OnlyMarkups(events: seq<Event>) {
    forall e :: e in events ==> e.MarkupEvent? && ValidMarkup(e.markupBps)
  }

  lemma {:induction false} MarkupsKeepOffers(b: Book, events: seq<Event>)
    requires Consistent(b) && OnlyMarkups(events)
    ensures Consistent(Run(b, events)) && SameOffers(b, Run(b, events))
    ensures events != [] ==> Uniform(Run(b, events)) && Run(b, events).markupBps == events[|events| - 1].markupBps
  {
    hide Priced, Sourced, DistinctModels, DistinctProposals, ActiveIffPointed, PointersLand, AfterSetMarkup;
    if events != [] {
      var earlier := Run(b, events[..|events| - 1]);
      MarkupsKeepOffers(b, events[..|events| - 1]);
      assert events[|events| - 1] in events;
      MarkupReprices(earlier, events[|events| - 1].markupBps);
      SameOffersOn(b, earlier, Run(b, events));
    }
  }

  /** Markup changes never compound: after any chain of them a model sells at the official prices
      it had before, marked up once, by the last value. */
  lemma MarkupsNeverCompound(b: Book, events: seq<Event>, row: nat)
    requires Consistent(b) && OnlyMarkups(events) && events != []
    requires row < |b.models| && b.models[row].active.To?
    ensures PointersLand(b) && PointersLand(Run(b, events)) && row < |Run(b, events).models|
    ensures var c := Run(b, events);
            && c.models[row].active.To?
            && Current(c, row).status == Active
            && Current(c, row).final == MarkUpAll(Current(b, row).official, events[|events| - 1].markupBps)
  {
    hide Run, MarkUpAll, Normal, Sourced, DistinctModels, DistinctProposals;
    MarkupsKeepOffers(b, events);
  }

  /** Approving keeps "every model on sale sells at the policy's markup" exactly when the revision
      was proposed under the markup still in force. */
  lemma ApprovalKeepsUniformIff(b: Book, id: nat)
    requires Consistent(b) && Uniform(b) && Approvable(b, id)
    ensures Consistent(AfterApprove(b, id))
    ensures Uniform(AfterApprove(b, id)) <==> b.revisions[id].markupBps == b.markupBps
  {
    hide MarkUpAll, Normal, Priced, Sourced, DistinctModels, DistinctProposals;
    ApproveKeeps(b, id);
    var c := AfterApprove(b, id);
    var row := b.revisions[id].model;
    assert c.models[row].active == To(id) && Current(c, row).markupBps == b.revisions[id].markupBps;
    forall k | 0 <= k < |b.models| && k != row && b.models[k].active.To?
      ensures c.models[k] == b.models[k] && Current(c, k).markupBps == Current(b, k).markupBps
    {
    }
  }

  // ---------------------------------------------------------------- what a sync proposes

  /** Every price list ever proposed. */
  function Proposals(b: Book): set<Digest> {
    set r | r in b.revisions && r.digest.SyncDigest? :: r.digest
  }

  /** The price lists a catalogue offers for the given models. */
  function Offered(publicIds: seq<string>, offers: map<string, Offer>): set<Digest> {
    set publicId | publicId in publicIds && Offers(offers, publicId) && Normalize(offers[publicId].entries).Ok? ::
      SyncDigest(publicId, Normalize(offers[publicId].entries).value, offers[publicId].source)
  }

  lemma SeenIffProposed(b: Book, row: nat, publicId: string, official: Prices, source: string)
    requires Consistent(b) && row < |b.models| && b.models[row].publicId == publicId
    ensures var digest := SyncDigest(publicId, official, source);
            Seen(b, row, digest) <==> digest in Proposals(b)
  {
    hide MarkUpAll, Normal, Priced, WellPriced, DistinctProposals, ActiveIffPointed, PointersLand;
    var digest := SyncDigest(publicId, official, source);
    if digest in Proposals(b) {
      var r :| r in b.revisions && r.digest == digest;
      var i :| 0 <= i < |b.revisions| && b.revisions[i] == r;
      assert WellSourced(b, i);
    }
  }

  lemma ProposeAdds(b: Book, row: nat, publicId: string, official: Prices, source: string)
    requires Consistent(b) && row < |b.models| && b.models[row].publicId == publicId
    ensures var c, digest := Propose(b, row, publicId, official, source), SyncDigest(publicId, official, source);
            && Proposals(c) == Proposals(b) + {digest}
            && |c.revisions| == |b.revisions| + |{digest} - Proposals(b)|
  {
    hide MarkUpAll, Normal, Consistent;
    SeenIffProposed(b, row, publicId, official, source);
    var c, digest := Propose(b, row, publicId, official, source), SyncDigest(publicId, official, source);
    if digest in Proposals(b) {
      assert {digest} - Proposals(b) == {};
    } else {
      assert {digest} - Proposals(b) == {digest};
      assert c.revisions[|b.revisions|].digest == digest;
      assert forall r :: r in b.revisions ==> r in c.revisions;
    }
  }

  lemma OfferedSnoc(publicIds: seq<string>, last: string, offers: map<string, Offer>)
    ensures Offered(publicIds + [last], offers) == Offered(publicIds, offers) + Offered([last], offers)
  {
    hide Normalize;
  }

  lemma RegisterProposesNothing(b: Book, publicId: string)
    ensures Proposals(Register(b, publicId)) == Proposals(b)
    ensures Register(b, publicId).revisions == b.revisions
  {
  }

  lemma OfferedOne(publicId: string, offers: map<string, Offer>)
    ensures Offered([publicId], offers) ==
      if Offers(offers, publicId) && Normalize(offers[publicId].entries).Ok?
      then {SyncDigest(publicId, Normalize(offers[publicId].entries).value, offers[publicId].source)}
      else {}
  {
    hide Normalize;
  }

  lemma SyncItemAdds(b: Book, publicId: string, offers: map<string, Offer>)
    requires Consistent(b) && SyncItem(b, publicId, offers).Ok?
    ensures var c, offered := SyncItem(b, publicId, offers).value, Offered([publicId], offers);
            && Proposals(c) == Proposals(b) + offered
            && |c.revisions| == |b.revisions| + |offered - Proposals(b)|
  {
    hide Normalize, Consistent, Evolves, Propose, Proposals, Offered, Register;
    var registered := Register(b, publicId);
    RegisterKeeps(b, publicId);
    RegisterProposesNothing(b, publicId);
    OfferedOne(publicId, offers);
    if Offers(offers, publicId) {
      var official := Normalize(offers[publicId].entries).value;
      EnsuredRow(b, publicId);
      ProposeAdds(registered, RowOf(registered.models, publicId), publicId, official, offers[publicId].source);
    }
  }

  lemma Disjoint(a: set<Digest>, b: set<Digest>, known: set<Digest>)
    ensures |(a + b) - known| == |a - known| + |b - (known + a)|
  {
    assert (a + b) - known == (a - known) + (b - (known + a));
    assert (a - known) !! (b - (known + a));
  }

  /** A sync that is not refused proposes exactly the price lists never proposed before, once. */
  lemma {:induction false} SyncProposesOnlyNews(b: Book, publicIds: seq<string>, offers: map<string, Offer>)
    requires Consistent(b) && SyncItems(b, publicIds, offers).Ok?
    ensures var c, offered := SyncItems(b, publicIds, offers).value, Offered(publicIds, offers);
            && Proposals(c) == Proposals(b) + offered
            && |c.revisions| == |b.revisions| + |offered - Proposals(b)|
  {
    hide Normalize, Consistent, SyncItem, Proposals;
    if publicIds == [] {
      assert Offered([], offers) == {};
    } else {
      var init, last := publicIds[..|publicIds| - 1], publicIds[|publicIds| - 1];
      assert publicIds == init + [last];
      var earlier := SyncItems(b, init, offers).value;
      SyncProposesOnlyNews(b, init, offers);
      SyncItemsKeep(b, init, offers);
      SyncItemAdds(earlier, last, offers);
      OfferedSnoc(init, last, offers);
      hide Offered;
      Disjoint(Offered(init, offers), Offered([last], offers), Proposals(b));
    }
  }

  // -------------------------------------------------------------- repeating a sync

  predicate Known(b: Book, publicId: string) { RowOf(b.models, publicId) < |b.models| }

  lemma KnownStays(b: Book, c: Book, publicId: string)
    requires Evolves(b, c) && Known(b, publicId)
    ensures Known(c, publicId)
  {
  }

  lemma {:induction false} RegisteredAreKnown(b: Book, publicIds: seq<string>, publicId: string)
    requires Consistent(b) && publicId in publicIds
    ensures Known(RegisterAll(b, publicIds), publicId)
  {
    hide Consistent, Evolves;
    var init, last := publicIds[..|publicIds| - 1], publicIds[|publicIds| - 1];
    assert publicIds == init + [last];
    RegisterAllKeeps(b, init);
    RegisterKeeps(RegisterAll(b, init), last);
    if publicId != last {
      RegisteredAreKnown(b, init, publicId);
      KnownStays(RegisterAll(b, init), RegisterAll(b, publicIds), publicId);
    }
  }

  lemma {:induction false} RegisterKnown(b: Book, publicIds: seq<string>)
    requires forall publicId :: publicId in publicIds ==> Known(b, publicId)
    ensures RegisterAll(b, publicIds) == b
  {
    if publicIds != [] {
      RegisterKnown(b, publicIds[..|publicIds| - 1]);
      assert publicIds[|publicIds| - 1] in publicIds;
    }
  }

  lemma {:induction false} SyncedAreKnown(b: Book, publicIds: seq<string>, offers: map<string, Offer>, publicId: string)
    requires Consistent(b) && publicId in publicIds && SyncItems(b, publicIds, offers).Ok?
    ensures Known(SyncItems(b, publicIds, offers).value, publicId)
  {
    hide Consistent, Evolves, Normalize;
    var init, last := publicIds[..|publicIds| - 1], publicIds[|publicIds| - 1];
    assert publicIds == init + [last];
    var earlier := SyncItems(b, init, offers).value;
    SyncItemsKeep(b, init, offers);
    SyncItemKeeps(earlier, last, offers);
    if publicId != last {
      SyncedAreKnown(b, init, offers, publicId);
      hide SyncItem;
      KnownStays(earlier, SyncItems(b, publicIds, offers).value, publicId);
    }
  }

  /** A sync is refused exactly when it offers a price list that is; nothing of it is kept then
      but the bootstrap. */
  lemma {:induction false} SyncRefusedIff(b: Book, publicIds: seq<string>, offers: map<string, Offer>)
    ensures SyncItems(b, publicIds, offers) == Rejected <==>
            exists publicId :: publicId in publicIds && Offers(offers, publicId)
                               && Normalize(offers[publicId].entries) == Rejected
  {
    hide Normalize, Propose, Register;
    if publicIds != [] {
      var init, last := publicIds[..|publicIds| - 1], publicIds[|publicIds| - 1];
      assert publicIds == init + [last];
      SyncRefusedIff(b, init, offers);
    }
  }

  lemma {:induction false} SettledSync(b: Book, publicIds: seq<string>, offers: map<string, Offer>)
    requires Consistent(b) && Offered(publicIds, offers) <= Proposals(b)
    requires forall publicId :: publicId in publicIds ==> Known(b, publicId)
    requires forall publicId :: publicId in publicIds && Offers(offers, publicId) ==>
                                  Normalize(offers[publicId].entries).Ok?
    ensures SyncItems(b, publicIds, offers) == Ok(b)
  {
    hide Normalize, Consistent, Seen, Proposals;
    if publicIds != [] {
      var init, last := publicIds[..|publicIds| - 1], publicIds[|publicIds| - 1];
      assert publicIds == init + [last];
      SettledSync(b, init, offers);
      assert last in publicIds;
      if Offers(offers, last) {
        var official := Normalize(offers[last].entries).value;
        assert SyncDigest(last, official, offers[last].source) in Offered(publicIds, offers);
        SeenIffProposed(b, RowOf(b.models, last), last, official, offers[last].source);
      }
    }
  }

  /** Repeating a sync of an unchanged catalogue changes nothing at all. */
  lemma ResyncChangesNothing(b: Book, configured: seq<string>, publicIds: seq<string>, offers: map<string, Offer>)
    requires Consistent(b)
    ensures var c := AfterSync(b, configured, publicIds, offers);
            AfterSync(c, configured, publicIds, offers) == c
  {
    hide Consistent, Evolves, RegisterAll, SyncItems, Normalize, Proposals, Offered, Known;
    var start := RegisterAll(b, configured);
    var c := AfterSync(b, configured, publicIds, offers);
    RegisterAllKeeps(b, configured);
    SyncItemsKeep(start, publicIds, offers);
    SyncRefusedIff(start, publicIds, offers);
    SyncRefusedIff(c, publicIds, offers);
    forall publicId | publicId in configured
      ensures Known(c, publicId)
    {
      RegisteredAreKnown(b, configured, publicId);
      if SyncItems(start, publicIds, offers).Ok? {
        KnownStays(start, c, publicId);
      }
    }
    RegisterKnown(c, configured);
    if SyncItems(start, publicIds, offers).Ok? {
      SyncProposesOnlyNews(start, publicIds, offers);
      forall publicId | publicId in publicIds
        ensures Known(c, publicId)
      {
        SyncedAreKnown(start, publicIds, offers, publicId);
      }
      SettledSync(c, publicIds, offers);
    }
  }

  /** Once a proposed price list is superseded, no later run brings it back: nothing with its hash
      is proposed again, even when the provider returns to exactly that price list. */
  lemma RevertedPricesAreNotProposedAgain(b: Book, events: seq<Event>, i: nat, j: nat)
    requires Consistent(b) && i < |b.revisions| && b.revisions[i].digest.SyncDigest?
    requires b.revisions[i].status == Superseded
    requires j < |Run(b, events).revisions| && Run(b, events).revisions[j].digest == b.revisions[i].digest
    ensures j == i && Run(b, events).revisions[j].status == Superseded
  {
    hide Run, Normal, MarkUpAll, Priced, Sourced, ActiveIffPointed, PointersLand, DistinctModels;
    RunKeeps(b, events);
  }
}
