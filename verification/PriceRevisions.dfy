/** The append-only price revisions of the gateway: provider sync, approval and change of markup
    (metadata.py).  A hash is its own preimage, so equal hashes mean equal content. */
module PriceRevisions {
  import opened PriceCatalog
  import opened GatewayPricing

  datatype Status = Pending | Active | Superseded

  datatype Pointer = Nothing | To(id: nat)

  /** What a revision's source hash was computed from. */
  datatype Digest =
    | SyncDigest(publicId: string, official: Prices, source: string)
    | MarkupDigest(previous: nat, markupBps: int)

  /** A price revision; its id is its place in the table, its model a place in the model table. */
  datatype Revision = Revision(
    model: nat,
    status: Status,
    markupBps: int,
    official: Prices,
    final: Prices,
    source: string,
    digest: Digest)

  datatype Model = Model(publicId: string, live: bool, active: Pointer)

  /** The tables, with the default policy's markup. */
  datatype Book = Book(markupBps: int, models: seq<Model>, revisions: seq<Revision>)

  datatype Error = NotPending | ModelNotFound | MarkupInvalid | PriceRefused

  datatype Outcome = Done(created: int) | Failed(error: Error)

  /** A provider's price list for one model. */
  datatype Offer = Offer(entries: seq<(string, RawPrice)>, source: string)

  const EMPTY_BOOK := Book(3000, [], [])

  // --------------------------------------------------------------------- operations

  /** The row of a public id, or the number of rows when there is none. */
  function RowOf(models: seq<Model>, publicId: string): (row: nat)
    ensures row <= |models|
    ensures row < |models| ==> models[row].publicId == publicId
    ensures forall k :: 0 <= k < row ==> models[k].publicId != publicId
  {
    if models == [] then 0
    else
      var earlier := RowOf(models[..|models| - 1], publicId);
      if earlier < |models| - 1 then earlier
      else if models[|models| - 1].publicId == publicId then |models| - 1
      else |models|
  }

  function Register(b: Book, publicId: string): Book {
    if RowOf(b.models, publicId) < |b.models| then b
    else b.(models := b.models + [Model(publicId, false, Nothing)])
  }

  function RegisterAll(b: Book, publicIds: seq<string>): Book {
    if publicIds == [] then b
    else Register(RegisterAll(b, publicIds[..|publicIds| - 1]), publicIds[|publicIds| - 1])
  }

  predicate Seen(b: Book, row: nat, digest: Digest) {
    exists r :: r in b.revisions && r.model == row && r.digest == digest
  }

  /** A pending revision for a price list not seen before. */
  function Propose(b: Book, row: nat, publicId: string, official: Prices, source: string): Book {
    var digest := SyncDigest(publicId, official, source);
    if Seen(b, row, digest) then b
    else b.(revisions := b.revisions +
      [Revision(row, Pending, b.markupBps, official, MarkUpAll(official, b.markupBps), source, digest)])
  }

  /** The price list to propose for a model, if it offers one. */
  predicate Offers(offers: map<string, Offer>, publicId: string) {
    publicId in offers && offers[publicId].entries != []
  }

  function SyncItem(b: Book, publicId: string, offers: map<string, Offer>): Result<Book> {
    var registered := Register(b, publicId);
    if !Offers(offers, publicId) then Ok(registered)
    else match Normalize(offers[publicId].entries)
      case Rejected => Rejected
      case Ok(official) =>
        Ok(Propose(registered, RowOf(registered.models, publicId), publicId, official, offers[publicId].source))
  }

  function SyncItems(b: Book, publicIds: seq<string>, offers: map<string, Offer>): Result<Book> {
    if publicIds == [] then Ok(b)
    else match SyncItems(b, publicIds[..|publicIds| - 1], offers)
      case Rejected => Rejected
      case Ok(synced) => SyncItem(synced, publicIds[|publicIds| - 1], offers)
  }

  /** A whole sync: the bootstrap is committed first, then either every item or none. */
  function AfterSync(b: Book, configured: seq<string>, publicIds: seq<string>, offers: map<string, Offer>): Book {
    var start := RegisterAll(b, configured);
    match SyncItems(start, publicIds, offers)
    case Rejected => start
    case Ok(synced) => synced
  }

  function Superseding(revisions: seq<Revision>, active: Pointer): seq<Revision> {
    if active.To? && active.id < |revisions| && revisions[active.id].status == Active
    then revisions[active.id := revisions[active.id].(status := Superseded)]
    else revisions
  }

  predicate Approvable(b: Book, id: nat) {
    id < |b.revisions| && b.revisions[id].status == Pending && b.revisions[id].model < |b.models|
  }

  function AfterApprove(b: Book, id: nat): Book {
    if !Approvable(b, id) then b
    else
      var row := b.revisions[id].model;
      var revisions := Superseding(b.revisions, b.models[row].active);
      Book(
        b.markupBps,
        b.models[row := b.models[row].(live := true, active := To(id))],
        revisions[id := revisions[id].(status := Active)])
  }

  /** Replaces one model's current revision by one with the policy's markup. */
  function Renew(b: Book, row: nat): Book
    requires row < |b.models|
  {
    var active := b.models[row].active;
    if active == Nothing || active.id >= |b.revisions| then b
    else
      var current := b.revisions[active.id];
      var replacement := Revision(
        row, Active, b.markupBps, current.official, MarkUpAll(current.official, b.markupBps),
        current.source, MarkupDigest(active.id, b.markupBps));
      Book(
        b.markupBps,
        b.models[row := b.models[row].(active := To(|b.revisions|))],
        b.revisions[active.id := current.(status := Superseded)] + [replacement])
  }

  function RenewUpTo(b: Book, rows: nat): (r: Book)
    requires rows <= |b.models|
    ensures |r.models| == |b.models| && r.markupBps == b.markupBps
  {
    if rows == 0 then b else Renew(RenewUpTo(b, rows - 1), rows - 1)
  }

  function AfterSetMarkup(b: Book, markupBps: int): Book {
    if !ValidMarkup(markupBps) then b else RenewUpTo(b.(markupBps := markupBps), |b.models|)
  }

  // ---------------------------------------------------------------------- the class

  /** Some listing of a stored price map, as iterating over it gives. */
  method Listing(prices: Prices) returns (entries: seq<(string, RawPrice)>)
    ensures Lists(entries, prices)
  {
    entries := [];
    var rest := prices.Keys;
    while rest != {}
      invariant rest <= prices.Keys
      invariant forall i, j :: 0 <= i < j < |entries| ==> entries[i].0 != entries[j].0
      invariant forall e :: e in entries ==> e.0 in prices && e.0 !in rest && e.1 == Render(prices[e.0])
      invariant forall key :: key in prices ==> key in rest || exists e :: e in entries && e.0 == key
      decreases rest
    {
      var key :| key in rest;
      ghost var before := entries;
      entries := entries + [(key, Render(prices[key]))];
      rest := rest - {key};
      forall k | k in prices && k !in rest
        ensures exists e :: e in entries && e.0 == k
      {
        if k == key {
          assert entries[|before|].0 == k;
        } else {
          var e :| e in before && e.0 == k;
          assert e in entries;
        }
      }
    }
  }

  class Gateway {
    var markupBps: int
    var models: seq<Model>
    var revisions: seq<Revision>

    function Tables(): Book
      reads this
    {
      Book(markupBps, models, revisions)
    }

    /** Stored official prices are normal and the policy's markup is in range. */
    predicate Sound()
      reads this
    {
      ValidMarkup(markupBps) && forall r :: r in revisions ==> Normal(r.official)
    }

    constructor ()
      ensures Tables() == EMPTY_BOOK && Sound()
    {
      markupBps, models, revisions := 3000, [], [];
    }

    method FindModel(publicId: string) returns (row: nat)
      ensures row == RowOf(models, publicId)
    {
      row := 0;
      while row < |models| && models[row].publicId != publicId
        invariant row <= |models|
        invariant forall k :: 0 <= k < row ==> models[k].publicId != publicId
      {
        row := row + 1;
      }
    }

    method EnsureModel(publicId: string) returns (row: nat)
      modifies this`models
      ensures Tables() == old(Register(Tables(), publicId))
      ensures row == RowOf(models, publicId) < |models|
    {
      row := FindModel(publicId);
      if row == |models| {
        models := models + [Model(publicId, false, Nothing)];
      }
    }

    method Bootstrap(publicIds: seq<string>)
      modifies this`models
      ensures Tables() == old(RegisterAll(Tables(), publicIds))
    {
      for index := 0 to |publicIds|
        invariant Tables() == old(RegisterAll(Tables(), publicIds[..index]))
      {
        assert publicIds[..index + 1][..index] == publicIds[..index];
        var row := EnsureModel(publicIds[index]);
      }
      assert publicIds[..|publicIds|] == publicIds;
    }

    /** `final_prices` over a stored price map. */
    method FinalPricesOfStored(official: Prices) returns (final: Prices)
      requires ValidMarkup(markupBps) && Normal(official)
      ensures final == MarkUpAll(official, markupBps)
    {
      var entries := Listing(official);
      NormalizeIsIdempotent(entries, official);
      var result := FinalPricesOf(entries, markupBps);
      final := result.value;
    }

    method SyncModel(publicId: string, offers: map<string, Offer>) returns (accepted: bool)
      requires Sound()
      modifies this`models, this`revisions
      ensures Sound()
      ensures accepted == old(SyncItem(Tables(), publicId, offers)).Ok?
      ensures accepted ==> old(SyncItem(Tables(), publicId, offers)) == Ok(Tables())
    {
      hide Normalize, MarkUpAll, Normal;
      var row := EnsureModel(publicId);
      if publicId !in offers || offers[publicId].entries == [] {
        return true;
      }
      var official := NormalizeOfficialPrices(offers[publicId].entries);
      if official == Rejected {
        return false;
      }
      NormalizeIsNormal(offers[publicId].entries);
      var source := offers[publicId].source;
      var digest := SyncDigest(publicId, official.value, source);
      if exists r :: r in revisions && r.model == row && r.digest == digest {
        return true;
      }
      var final := FinalPricesOfStored(official.value);
      revisions := revisions + [Revision(row, Pending, markupBps, official.value, final, source, digest)];
      accepted := true;
    }

    /** sync_provider_metadata: a refused price list rolls back to the committed bootstrap. */
    method Sync(configured: seq<string>, publicIds: seq<string>, offers: map<string, Offer>) returns (outcome: Outcome)
      requires Sound()
      modifies this`models, this`revisions
      ensures Sound()
      ensures Tables() == old(AfterSync(Tables(), configured, publicIds, offers))
      ensures outcome ==
        if old(SyncItems(RegisterAll(Tables(), configured), publicIds, offers)).Ok?
        then Done(|revisions| - |old(revisions)|) else Failed(PriceRefused)
    {
      hide SyncItem, Normal;
      Bootstrap(configured);
      label Committed:
      ghost var start := Tables();
      RegisteringKeepsRevisions(old(Tables()), configured);
      var savedModels, savedRevisions := models, revisions;
      for index := 0 to |publicIds|
        invariant Sound()
        invariant SyncItems(start, publicIds[..index], offers) == Ok(Tables())
      {
        assert publicIds[..index + 1][..index] == publicIds[..index];
        var accepted := SyncModel(publicIds[index], offers);
        if !accepted {
          RefusalPersists(start, publicIds, index + 1, offers);
          models, revisions := savedModels, savedRevisions;
          return Failed(PriceRefused);
        }
      }
      assert publicIds[..|publicIds|] == publicIds;
      SyncOnlyAppends(start, publicIds, offers);
      outcome := Done(|revisions| - |savedRevisions|);
    }

    /** approve_price_revision. */
    method Approve(id: nat) returns (outcome: Outcome)
      requires Sound()
      modifies this`models, this`revisions
      ensures Sound()
      ensures Tables() == old(AfterApprove(Tables(), id))
      ensures outcome ==
        if old(id >= |revisions| || revisions[id].status != Pending) then Failed(NotPending)
        else if old(revisions[id].model >= |models|) then Failed(ModelNotFound)
        else Done(0)
    {
      hide Normal;
      if id >= |revisions| || revisions[id].status != Pending {
        return Failed(NotPending);
      }
      var row := revisions[id].model;
      if row >= |models| {
        return Failed(ModelNotFound);
      }
      var active := models[row].active;
      if active.To? && active.id < |revisions| {
        var previous := revisions[active.id];
        if previous.status == Active {
          revisions := revisions[active.id := previous.(status := Superseded)];
        }
      }
      revisions := revisions[id := revisions[id].(status := Active)];
      models := models[row := models[row].(live := true, active := To(id))];
      outcome := Done(0);
    }

    /** set_default_markup. */
    method SetDefaultMarkup(newMarkupBps: int) returns (outcome: Outcome)
      requires Sound()
      modifies this
      ensures Sound()
      ensures Tables() == old(AfterSetMarkup(Tables(), newMarkupBps))
      ensures outcome == if ValidMarkup(newMarkupBps) then Done(0) else Failed(MarkupInvalid)
    {
      hide MarkUpAll, Normal;
      if newMarkupBps < 0 || newMarkupBps > 100_000 {
        return Failed(MarkupInvalid);
      }
      markupBps := newMarkupBps;
      ghost var start := Tables();
      var row := 0;
      while row < |models|
        invariant row <= |models| == |start.models| && markupBps == newMarkupBps && Sound()
        invariant Tables() == RenewUpTo(start, row)
      {
        var active := models[row].active;
        if active.To? && active.id < |revisions| {
          var current := revisions[active.id];
          var final := FinalPricesOfStored(current.official);
          revisions := revisions[active.id := current.(status := Superseded)];
          var replacement := Revision(
            row, Active, markupBps, current.official, final, current.source, MarkupDigest(active.id, markupBps));
          models := models[row := models[row].(active := To(|revisions|))];
          revisions := revisions + [replacement];
        }
        row := row + 1;
      }
      outcome := Done(0);
    }
  }

  lemma {:induction false} RegisteringKeepsRevisions(b: Book, publicIds: seq<string>)
    ensures RegisterAll(b, publicIds).revisions == b.revisions && RegisterAll(b, publicIds).markupBps == b.markupBps
  {
    if publicIds != [] {
      RegisteringKeepsRevisions(b, publicIds[..|publicIds| - 1]);
    }
  }

  lemma {:induction false} RefusalPersists(b: Book, publicIds: seq<string>, k: nat, offers: map<string, Offer>)
    requires k <= |publicIds| && SyncItems(b, publicIds[..k], offers) == Rejected
    ensures SyncItems(b, publicIds, offers) == Rejected
    decreases |publicIds|
  {
    hide SyncItem;
    if k < |publicIds| {
      assert publicIds[..|publicIds| - 1][..k] == publicIds[..k];
      RefusalPersists(b, publicIds[..|publicIds| - 1], k, offers);
    } else {
      assert publicIds[..k] == publicIds;
    }
  }

  lemma {:induction false} SyncOnlyAppends(b: Book, publicIds: seq<string>, offers: map<string, Offer>)
    ensures var synced := SyncItems(b, publicIds, offers);
            synced.Ok? ==> |b.revisions| <= |synced.value.revisions|
  {
    hide Normalize, MarkUpAll;
    if publicIds != [] {
      SyncOnlyAppends(b, publicIds[..|publicIds| - 1], offers);
    }
  }
}
