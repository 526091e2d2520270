/**
 The choice of a resource class for old-style server options: one pass that keeps the best class so
 far, where better means strictly smaller in all four amounts.
 */
module ResourceClasses {
  import opened Prelude
  import opened Rounding

  const GIGABYTE := 1_000_000_000

  /** What server options are compared by. */
  datatype Amounts = Amounts(cpu: real, memory: int, gpu: int, storage: int)

  datatype ResourceClass = ResourceClass(id: int, cpu: real, memory: int, gpu: int, defaultStorage: int,
                                         maxStorage: int, matching: bool)

  /** A pool; its quota may lack an id. */
  datatype Pool = Pool(classes: seq<ResourceClass>, quota: Option<Option<string>>, idleThreshold: Option<int>,
                       hibernationThreshold: Option<int>)

  /** A class as a pool offers it, with the priority class of the pool's quota. */
  datatype Offer = Offer(cls: ResourceClass, priorityClass: Option<string>)

  predicate AtMost(a: Amounts, b: Amounts) {
    a.cpu <= b.cpu && a.memory <= b.memory && a.gpu <= b.gpu && a.storage <= b.storage
  }

  predicate Less(a: Amounts, b: Amounts) {
    a.cpu < b.cpu && a.memory < b.memory && a.gpu < b.gpu && a.storage < b.storage
  }

  function Difference(a: Amounts, b: Amounts): Amounts {
    Amounts(a.cpu - b.cpu, a.memory - b.memory, a.gpu - b.gpu, a.storage - b.storage)
  }

  /** Memory and storage of a class are in gigabytes. */
  function AmountsOf(c: ResourceClass): Amounts {
    Amounts(c.cpu, c.memory * GIGABYTE, c.gpu, c.defaultStorage * GIGABYTE)
  }

  function QuotaId(pool: Pool): Option<string> {
    if pool.quota.Some? then pool.quota.value else None
  }

  function OffersOf(pool: Pool): seq<Offer> {
    seq(|pool.classes|, k requires 0 <= k < |pool.classes| => Offer(pool.classes[k], QuotaId(pool)))
  }

  function Offers(pools: seq<Pool>): seq<Offer> {
    if pools == [] then [] else Offers(pools[..|pools| - 1]) + OffersOf(pools[|pools| - 1])
  }

  predicate Acceptable(o: Offer, request: Amounts) {
    AtMost(request, AmountsOf(o.cls)) && o.cls.matching
  }

  /** The offer that the pass ends up with, by its place. */
  function Choose(offers: seq<Offer>, request: Amounts): (k: Option<nat>)
    ensures k.Some? ==> k.value < |offers|
  {
    if offers == [] then None
    else
      var n := |offers| - 1;
      var best := Choose(offers[..n], request);
      if Acceptable(offers[n], request)
        && (best.None? || Less(AmountsOf(offers[n].cls), AmountsOf(offers[best.value].cls)))
      then Some(n) else best
  }

  /** One more offer is chosen exactly when it is enough and, if there is a choice already, smaller in all amounts. */
  lemma OneMoreOffer(offers: seq<Offer>, x: Offer, request: Amounts)
    ensures var before := Choose(offers, request);
      var enough := x.cls.matching && request.cpu <= x.cls.cpu && request.memory <= x.cls.memory * 1_000_000_000
        && request.gpu <= x.cls.gpu && request.storage <= x.cls.defaultStorage * 1_000_000_000;
      var smaller := before.Some? ==>
        var b := offers[before.value].cls;
        x.cls.cpu < b.cpu && x.cls.memory < b.memory && x.cls.gpu < b.gpu && x.cls.defaultStorage < b.defaultStorage;
      Choose(offers + [x], request) == if enough && smaller then Some(|offers|) else before
  {
    assert (offers + [x])[..|offers|] == offers;
  }

  /** Nothing is chosen exactly when nothing is acceptable. */
  lemma {:induction false} ChooseIff(offers: seq<Offer>, request: Amounts)
    ensures Choose(offers, request).None? <==> forall k | 0 <= k < |offers| :: !Acceptable(offers[k], request)
    ensures Choose(offers, request).Some? ==> Acceptable(offers[Choose(offers, request).value], request)
  {
    if offers != [] {
      ChooseIff(offers[..|offers| - 1], request);
    }
  }

  /**
   The greedy pass finds a minimum: nothing acceptable is strictly smaller than the chosen class in
   all four amounts, and nothing acceptable before it is as small as it in all four.
   */
  lemma {:induction false} ChosenIsMinimal(offers: seq<Offer>, request: Amounts, k: nat, j: nat)
    requires Choose(offers, request) == Some(k)
    requires j < |offers| && Acceptable(offers[j], request)
    ensures !Less(AmountsOf(offers[j].cls), AmountsOf(offers[k].cls))
    ensures j < k ==> !AtMost(AmountsOf(offers[j].cls), AmountsOf(offers[k].cls))
  {
    hide AmountsOf;
    var n := |offers| - 1;
    var before := Choose(offers[..n], request);
    assert forall i | 0 <= i < n :: offers[..n][i] == offers[i];
    if before.None? {
      ChooseIff(offers[..n], request);
    } else if j < n {
      ChosenIsMinimal(offers[..n], request, before.value, j);
    }
  }

  /** Comparing what is left over is the same as comparing the classes. */
  lemma DifferencesCompare(a: Amounts, b: Amounts, request: Amounts)
    ensures Less(Difference(a, request), Difference(b, request)) <==> Less(a, b)
    ensures AtMost(Amounts(0.0, 0, 0, 0), Difference(a, request)) <==> AtMost(request, a)
  {
  }

  // ------------------------------------------------------------ server options

  class ServerOptions {
    var cpu: real
    var memory: int
    var gpu: int
    var storage: Option<int>
    var gigabytes: bool
    var priorityClass: Option<string>
    var resourceClassId: Option<int>
    var idleThresholdSeconds: Option<int>
    var hibernationThresholdSeconds: Option<int>

    /** Without a storage the default is one gigabyte, in the unit that is used. */
    constructor (cpu: real, memory: int, gpu: int, storage: Option<int>, gigabytes: bool)
      ensures this.cpu == cpu && this.memory == memory && this.gpu == gpu && this.gigabytes == gigabytes
      ensures this.storage == Some(if storage.Some? then storage.value else if gigabytes then 1 else GIGABYTE)
      ensures priorityClass.None? && resourceClassId.None? && idleThresholdSeconds.None?
        && hibernationThresholdSeconds.None?
    {
      this.cpu, this.memory, this.gpu, this.gigabytes := cpu, memory, gpu, gigabytes;
      this.storage := Some(if storage.Some? then storage.value else if gigabytes then 1 else GIGABYTE);
      priorityClass, resourceClassId, idleThresholdSeconds, hibernationThresholdSeconds := None, None, None, None;
    }

    function Compared(): Amounts
      reads this`cpu, this`memory, this`gpu, this`storage
    {
      Amounts(cpu, memory, gpu, if storage.None? then 0 else storage.value)
    }

    method Minus(other: ServerOptions) returns (d: ServerOptions)
      ensures fresh(d) && d.Compared() == Difference(Compared(), other.Compared())
    {
      var mine := if storage.None? then 0 else storage.value;
      var its := if other.storage.None? then 0 else other.storage.value;
      d := new ServerOptions(cpu - other.cpu, memory - other.memory, gpu - other.gpu, Some(mine - its), false);
    }

    /** The storage is kept in the unit of the object. */
    method SetStorage(amount: nat, inGigabytes: bool)
      modifies this`storage
      ensures storage == Some(
                if gigabytes && !inGigabytes then RoundHalfEven(amount, GIGABYTE)
                else if !gigabytes && inGigabytes then amount * GIGABYTE
                else amount)
    {
      if gigabytes && !inGigabytes {
        storage := Some(RoundHalfEven(amount, GIGABYTE));
      } else if !gigabytes && inGigabytes {
        storage := Some(RoundHalfEven(amount * GIGABYTE, 1));
      } else {
        storage := Some(amount);
      }
    }
  }

  method FromResourceClass(cls: ResourceClass) returns (o: ServerOptions)
    ensures fresh(o) && o.Compared() == AmountsOf(cls) && o.resourceClassId == Some(cls.id)
    ensures o.cpu == cls.cpu && o.memory == cls.memory * 1_000_000_000 && o.gpu == cls.gpu
    ensures o.storage == Some(cls.defaultStorage * 1_000_000_000) && !o.gigabytes && o.priorityClass.None?
  {
    o := new ServerOptions(cls.cpu, cls.memory * GIGABYTE, cls.gpu, Some(cls.defaultStorage * GIGABYTE), false);
    o.resourceClassId := Some(cls.id);
  }

  /** The options are those of the offer. */
  ghost predicate Describes(o: ServerOptions, offer: Offer)
    reads o
  {
    o.Compared() == AmountsOf(offer.cls) && o.storage.Some? && o.resourceClassId == Some(offer.cls.id)
      && o.priorityClass == offer.priorityClass
  }

  lemma OffersSnoc(pools: seq<Pool>, p: nat)
    requires p < |pools|
    ensures Offers(pools[..p + 1]) == Offers(pools[..p]) + OffersOf(pools[p])
  {
    assert pools[..p + 1][..p] == pools[..p];
  }

  lemma ChooseSnoc(offers: seq<Offer>, o: Offer, request: Amounts)
    ensures Choose(offers + [o], request) ==
      var best := Choose(offers, request);
      if Acceptable(o, request) && (best.None? || Less(AmountsOf(o.cls), AmountsOf(offers[best.value].cls)))
      then Some(|offers|) else best
  {
    assert (offers + [o])[..|offers|] == offers;
  }

  /** The best class and its difference are those of the offers so far. */
  ghost predicate BestSoFar(best: ServerOptions?, diff: ServerOptions?, offers: seq<Offer>, request: Amounts)
    reads best, diff
  {
    && (best == null <==> diff == null)
    && (best == null <==> Choose(offers, request).None?)
    && (best != null ==>
        Describes(best, offers[Choose(offers, request).value])
          && diff.Compared() == Difference(best.Compared(), request))
  }

  lemma NothingYet(request: Amounts)
    ensures BestSoFar(null, null, [], request)
  {
  }

  lemma BestAtLast(best: ServerOptions?, diff: ServerOptions?, offers: seq<Offer>, request: Amounts)
    requires BestSoFar(best, diff, offers, request)
    ensures best == null <==> Choose(offers, request).None?
    ensures best != null ==> Describes(best, offers[Choose(offers, request).value])
  {
  }

  /** The test of the pass, on the differences, keeps the best offer so far. */
  lemma Considered(best: ServerOptions?, bestDiff: ServerOptions?, model: ServerOptions, diff: ServerOptions,
                   offers: seq<Offer>, offer: Offer, request: Amounts)
    requires BestSoFar(best, bestDiff, offers, request)
    requires Describes(model, offer) && diff.Compared() == Difference(model.Compared(), request)
    ensures var better := AtMost(Amounts(0.0, 0, 0, 0), diff.Compared())
              && (bestDiff == null || Less(diff.Compared(), bestDiff.Compared())) && offer.cls.matching;
      BestSoFar(if better then model else best, if better then diff else bestDiff, offers + [offer], request)
  {
    hide AmountsOf, Less, AtMost, Difference, Choose;
    DifferencesCompare(model.Compared(), if best != null then best.Compared() else model.Compared(), request);
    ChooseSnoc(offers, offer, request);
  }

  // ------------------------------------------------ offers as classes of pools

  /** The place of a class among the offers. */
  function PlaceOf(pools: seq<Pool>, p: nat, c: nat): nat
    requires p < |pools| && c < |pools[p].classes|
  {
    |Offers(pools[..p])| + c
  }

  lemma {:induction false} OffersAre(pools: seq<Pool>, p: nat, c: nat)
    requires p < |pools| && c < |pools[p].classes|
    ensures PlaceOf(pools, p, c) < |Offers(pools)|
    ensures Offers(pools)[PlaceOf(pools, p, c)] == Offer(pools[p].classes[c], QuotaId(pools[p]))
  {
    var n := |pools| - 1;
    if p < n {
      OffersAre(pools[..n], p, c);
      assert pools[..n][..p] == pools[..p];
    }
  }

  lemma {:induction false} OfferFrom(pools: seq<Pool>, k: nat) returns (p: nat, c: nat)
    requires k < |Offers(pools)|
    ensures p < |pools| && c < |pools[p].classes| && PlaceOf(pools, p, c) == k
  {
    var n := |pools| - 1;
    if k < |Offers(pools[..n])| {
      p, c := OfferFrom(pools[..n], k);
      assert pools[..n][..p] == pools[..p];
    } else {
      p, c := n, k - |Offers(pools[..n])|;
    }
  }

  lemma {:induction false} OffersGrow(pools: seq<Pool>, p: nat, q: nat)
    requires p <= q <= |pools|
    ensures |Offers(pools[..p])| <= |Offers(pools[..q])|
    ensures p < q ==> |Offers(pools[..p])| + |pools[p].classes| <= |Offers(pools[..q])|
    decreases q - p
  {
    if p < q {
      OffersSnoc(pools, q - 1);
      OffersGrow(pools, p, q - 1);
    }
  }

  /** The class is enough for the request; its memory and storage are in gigabytes, those of the request in bytes. */
  ghost predicate IsEnough(cls: ResourceClass, requested: ServerOptions)
    reads requested
  {
    && cls.matching
    && requested.cpu <= cls.cpu && requested.gpu <= cls.gpu
    && requested.memory <= cls.memory * 1_000_000_000
    && (if requested.storage.Some? then requested.storage.value else 0) <= cls.defaultStorage * 1_000_000_000
  }

  /** What the options of a class are, and that no other class would have been strictly better. */
  ghost predicate IsBest(best: ServerOptions, pools: seq<Pool>, requested: ServerOptions, p: nat, c: nat)
    requires p < |pools| && c < |pools[p].classes|
    reads best, requested
  {
    var cls := pools[p].classes[c];
    && IsEnough(cls, requested)
    && best.cpu == cls.cpu && best.gpu == cls.gpu && best.memory == cls.memory * 1_000_000_000
    && best.storage == Some(cls.defaultStorage * 1_000_000_000)
    && best.resourceClassId == Some(cls.id)
    && best.priorityClass == (if pools[p].quota.Some? then pools[p].quota.value else None)
    && forall q: nat, d: nat | q < |pools| && d < |pools[q].classes| && IsEnough(pools[q].classes[d], requested) ::
         var other := pools[q].classes[d];
         && !(other.cpu < cls.cpu && other.memory < cls.memory && other.gpu < cls.gpu
              && other.defaultStorage < cls.defaultStorage)
         && (q < p || (q == p && d < c) ==>
               !(other.cpu <= cls.cpu && other.memory <= cls.memory && other.gpu <= cls.gpu
                 && other.defaultStorage <= cls.defaultStorage))
  }

  /** Acceptable offers are the classes that are enough. */
  lemma EnoughIsAcceptable(pools: seq<Pool>, requested: ServerOptions, p: nat, c: nat)
    requires p < |pools| && c < |pools[p].classes|
    ensures PlaceOf(pools, p, c) < |Offers(pools)|
    ensures Acceptable(Offers(pools)[PlaceOf(pools, p, c)], requested.Compared())
       <==> IsEnough(pools[p].classes[c], requested)
  {
    OffersAre(pools, p, c);
  }

  lemma NoneIsEnough(pools: seq<Pool>, requested: ServerOptions)
    ensures Choose(Offers(pools), requested.Compared()).None? <==>
      forall p: nat, c: nat | p < |pools| && c < |pools[p].classes| :: !IsEnough(pools[p].classes[c], requested)
  {
    hide Choose, Acceptable, IsEnough;
    var offers, request := Offers(pools), requested.Compared();
    ChooseIff(offers, request);
    forall p: nat, c: nat | p < |pools| && c < |pools[p].classes|
      ensures IsEnough(pools[p].classes[c], requested) ==> Choose(offers, request).Some?
    {
      EnoughIsAcceptable(pools, requested, p, c);
    }
    if Choose(offers, request).Some? {
      var p, c := OfferFrom(pools, Choose(offers, request).value);
      EnoughIsAcceptable(pools, requested, p, c);
    }
  }

  lemma ChosenIsBest(best: ServerOptions, pools: seq<Pool>, requested: ServerOptions)
    requires requested != best
    requires Choose(Offers(pools), requested.Compared()).Some?
    requires Describes(best, Offers(pools)[Choose(Offers(pools), requested.Compared()).value])
    ensures exists p: nat, c: nat :: p < |pools| && c < |pools[p].classes| && IsBest(best, pools, requested, p, c)
  {
    hide Choose, Acceptable, IsEnough;
    var request := requested.Compared();
    var k := Choose(Offers(pools), request).value;
    ChooseIff(Offers(pools), request);
    var p, c := OfferFrom(pools, k);
    OffersAre(pools, p, c);
    EnoughIsAcceptable(pools, requested, p, c);
    forall q: nat, d: nat | q < |pools| && d < |pools[q].classes| && IsEnough(pools[q].classes[d], requested)
      ensures var other, cls := pools[q].classes[d], pools[p].classes[c];
        && !(other.cpu < cls.cpu && other.memory < cls.memory && other.gpu < cls.gpu
             && other.defaultStorage < cls.defaultStorage)
        && (q < p || (q == p && d < c) ==>
              !(other.cpu <= cls.cpu && other.memory <= cls.memory && other.gpu <= cls.gpu
                && other.defaultStorage <= cls.defaultStorage))
    {
      EnoughIsAcceptable(pools, requested, q, d);
      OffersAre(pools, q, d);
      ChosenIsMinimal(Offers(pools), request, k, PlaceOf(pools, q, d));
      if q < p {
        OffersGrow(pools, q, p);
      }
    }
    assert IsBest(best, pools, requested, p, c);
  }

  /** CRCValidator.find_acceptable_class */
  method FindAcceptableClass(pools: seq<Pool>, requested: ServerOptions) returns (best: ServerOptions?)
    ensures best == null <==>
      forall p: nat, c: nat | p < |pools| && c < |pools[p].classes| :: !IsEnough(pools[p].classes[c], requested)
    ensures best != null ==>
      fresh(best)
      && exists p: nat, c: nat :: p < |pools| && c < |pools[p].classes| && IsBest(best, pools, requested, p, c)
  {
    hide AmountsOf, Less, AtMost, Difference, Choose, BestSoFar, IsBest, IsEnough;
    ghost var request := requested.Compared();
    ghost var offers: seq<Offer> := [];
    var bestDiff: ServerOptions? := null;
    best := null;
    NothingYet(request);
    var zeroDiff := new ServerOptions(0.0, 0, 0, Some(0), false);
    for p := 0 to |pools|
      invariant offers == Offers(pools[..p])
      invariant fresh(zeroDiff) && zeroDiff.Compared() == Amounts(0.0, 0, 0, 0)
      invariant BestSoFar(best, bestDiff, offers, request)
      invariant (best == null <==> bestDiff == null) && (best != null ==> fresh(best) && fresh(bestDiff))
    {
      var pool := pools[p];
      OffersSnoc(pools, p);
      for c := 0 to |pool.classes|
        invariant offers == Offers(pools[..p]) + OffersOf(pool)[..c]
        invariant fresh(zeroDiff) && zeroDiff.Compared() == Amounts(0.0, 0, 0, 0)
        invariant BestSoFar(best, bestDiff, offers, request)
        invariant (best == null <==> bestDiff == null) && (best != null ==> fresh(best) && fresh(bestDiff))
      {
        var model := FromResourceClass(pool.classes[c]);
        if pool.quota.Some? {
          model.priorityClass := pool.quota.value;
        }
        var diff := model.Minus(requested);
        ghost var offer := Offer(pool.classes[c], QuotaId(pool));
        assert OffersOf(pool)[c] == offer;
        Considered(best, bestDiff, model, diff, offers, offer, request);
        if AtMost(zeroDiff.Compared(), diff.Compared())
          && (bestDiff == null || Less(diff.Compared(), bestDiff.Compared()))
          && pool.classes[c].matching
        {
          bestDiff, best := diff, model;
        }
        offers := offers + [offer];
      }
    }
    assert pools[..|pools|] == pools;
    ChooseIff(offers, request);
    BestAtLast(best, bestDiff, offers, request);
    NoneIsEnough(pools, requested);
    if best != null {
      ChosenIsBest(best, pools, requested);
    }
  }

  // ------------------------------------------------------- a class by its id

  datatype ComputeError = ClassDoesNotExist | StorageTooSmall | StorageTooLarge

  ghost predicate HasClass(pool: Pool, id: int) {
    exists c | 0 <= c < |pool.classes| :: pool.classes[c].id == id
  }

  /** The place of the class: the last pool that has it, and in this pool the first one. */
  ghost predicate FoundAt(pools: seq<Pool>, id: int, p: int, c: int) {
    && 0 <= p < |pools| && 0 <= c < |pools[p].classes| && pools[p].classes[c].id == id
    && (forall q | p < q < |pools| :: !HasClass(pools[q], id))
    && (forall d | 0 <= d < c :: pools[p].classes[d].id != id)
  }

  /** The place is unique. */
  lemma FoundOnce(pools: seq<Pool>, id: int, p: int, c: int, p': int, c': int)
    requires FoundAt(pools, id, p, c) && FoundAt(pools, id, p', c')
    ensures p == p' && c == c'
  {
    assert HasClass(pools[p], id) && HasClass(pools[p'], id);
  }

  /**
   CRCValidator.validate_class_storage.  The loop over the pools goes on after the class has been
   found, so that the last pool that has the class gives it and the thresholds.
   */
  method ValidateClassStorage(pools: seq<Pool>, classId: int, storage: Option<int>)
    returns (r: Result<ServerOptions, ComputeError>)
    ensures (forall p | 0 <= p < |pools| :: !HasClass(pools[p], classId)) <==> r == Err(ClassDoesNotExist)
    ensures r != Err(ClassDoesNotExist) ==> exists p, c :: FoundAt(pools, classId, p, c)
    ensures forall p, c | FoundAt(pools, classId, p, c) ::
      var cls := pools[p].classes[c];
      var asked := if storage.Some? then storage.value else cls.defaultStorage;
      if asked < 1 then r == Err(StorageTooSmall)
      else if asked > cls.maxStorage then r == Err(StorageTooLarge)
      else
        r.Ok? && fresh(r.value)
        && r.value.cpu == cls.cpu && r.value.gpu == cls.gpu && r.value.memory == cls.memory * 1_000_000_000
        && r.value.storage == Some(asked * 1_000_000_000)
        && r.value.resourceClassId == Some(cls.id)
        && r.value.priorityClass == (if pools[p].quota.Some? then pools[p].quota.value else None)
        && r.value.idleThresholdSeconds == pools[p].idleThreshold
        && r.value.hibernationThresholdSeconds == pools[p].hibernationThreshold
  {
    var found: Option<(Pool, ResourceClass)> := None;
    ghost var at := 0;
    ghost var place := 0;
    for p := 0 to |pools|
      invariant found.None? ==> forall q | 0 <= q < p :: !HasClass(pools[q], classId)
      invariant found.Some? ==>
        FoundAt(pools[..p], classId, at, place) && found.value == (pools[at], pools[at].classes[place])
    {
      var pool := pools[p];
      ghost var isHere := false;
      for c := 0 to |pool.classes|
        invariant !isHere && forall d | 0 <= d < c :: pool.classes[d].id != classId
      {
        if pool.classes[c].id == classId {
          found := Some((pool, pool.classes[c]));
          at, place, isHere := p, c, true;
          break;
        }
      }
      if isHere {
        assert FoundAt(pools[..p + 1], classId, at, place);
      } else {
        assert !HasClass(pool, classId);
      }
    }
    assert pools[..|pools|] == pools;
    if found.None? {
      return Err(ClassDoesNotExist);
    }
    assert HasClass(pools[at], classId) && FoundAt(pools, classId, at, place);
    forall p, c | FoundAt(pools, classId, p, c)
      ensures p == at && c == place
    {
      FoundOnce(pools, classId, p, c, at, place);
    }
    var (pool, cls) := found.value;
    var asked := if storage.Some? then storage.value else cls.defaultStorage;
    if asked < 1 {
      return Err(StorageTooSmall);
    }
    if asked > cls.maxStorage {
      return Err(StorageTooLarge);
    }
    var options := FromResourceClass(cls);
    options.idleThresholdSeconds := pool.idleThreshold;
    options.hibernationThresholdSeconds := pool.hibernationThreshold;
    options.SetStorage(asked, true);
    if pool.quota.Some? {
      options.priorityClass := pool.quota.value;
    }
    return Ok(options);
  }
}
