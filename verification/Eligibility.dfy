/** Deterministic provider eligibility and ranking. */
module Eligibility {
  import opened Contracts
  import opened Ordering

  datatype VehicleClass = CargoBike | SmallVan | LargeVan | BoxVan | Truck
  datatype ProviderStatus = ProviderPending | ProviderActive | Suspended | ProviderRejected
  datatype JobType = FailedDelivery | BulkyReturn | CompanySurplus
  datatype DocumentType = LiabilityInsurance | CargoInsurance | TradeLicence | WasteCarrierPermit | VehicleRegistration
  datatype DocumentStatus = DocumentPending | Verified | DocumentExpired | DocumentRejected

  datatype Reason =
    | ProviderNotActive | ProviderNotAcceptingWork | ServiceTypeNotPermitted | OutsideServiceRadius
    | MissingRequiredDocument | ExpiredDocument | DocumentNotVerified | NoSuitableVehicle

  datatype Vehicle = Vehicle(id: Id, vehicleClass: VehicleClass, payloadKg: int, volumeM3: real, active: bool)
  datatype Document = Document(kind: DocumentType, status: DocumentStatus, expiresAt: Option<int>)

  datatype Provider = Provider(
    id: Id, status: ProviderStatus, acceptingWork: bool, roadDistanceKm: Option<real>, basePostalCode: string,
    serviceRadiusKm: int, serviceTypes: seq<JobType>, vehicles: seq<Vehicle>, documents: seq<Document>)

  datatype Demand = Demand(
    jobType: JobType, pickupPostalCode: string, requiredVehicleClass: VehicleClass,
    totalWeightKg: int, totalVolumeM3: real)

  datatype Result = Result(
    providerId: Id, eligible: bool, reasons: seq<Reason>, distanceIsRoad: bool, rank: Option<nat>, distanceKm: real)

  const REQUIRED_DOCUMENT_TYPES: seq<DocumentType> := [LiabilityInsurance, TradeLicence]

  /** A larger rank can carry everything a smaller one can. */
  function VehicleClassRank(c: VehicleClass): nat {
    match c
    case CargoBike => 0
    case SmallVan => 1
    case LargeVan => 2
    case BoxVan => 3
    case Truck => 4
  }

  // ----------------------------------------------------------------- distance

  /** Indexing past the end of a string gives the same undefined value for both. */
  function CharAt(s: string, i: nat): Option<char> {
    if i < |s| then Some(s[i]) else None
  }

  /** How many of the first five places agree, up to the first that does not. */
  function SharedFrom(a: string, b: string, i: nat): (n: nat)
    requires i <= 5
    ensures i <= n <= 5
    ensures forall k :: i <= k < n ==> CharAt(a, k) == CharAt(b, k)
    ensures n < 5 ==> CharAt(a, n) != CharAt(b, n)
    decreases 5 - i
  {
    if i < 5 && CharAt(a, i) == CharAt(b, i) then SharedFrom(a, b, i + 1) else i
  }

  function KilometresFor(shared: nat): int {
    if shared == 4 then 3 else if shared == 3 then 10 else if shared == 2 then 40 else if shared == 1 then 120 else 400
  }

  function Distance(from: string, to: string): int {
    if from == to then 0 else KilometresFor(SharedFrom(from, to, 0))
  }

  /** The first of the five digits that differs decides: 400, 120, 40, 10 or 3 kilometres. */
  lemma FirstDifferenceDecides(a: string, b: string, i: nat)
    requires i < 5 && CharAt(a, i) != CharAt(b, i) && forall k :: 0 <= k < i ==> CharAt(a, k) == CharAt(b, k)
    ensures Distance(a, b) == [400, 120, 40, 10, 3][i] && Distance(a, a) == 0
  {
    var n := SharedFrom(a, b, 0);
    assert n == i;
  }

  method EstimateDistanceKm(from: string, to: string) returns (km: int)
    ensures km == Distance(from, to)
  {
    if from == to { return 0; }
    var shared := 0;
    var index := 0;
    while index < 5
      invariant shared == index <= 5
      invariant SharedFrom(from, to, 0) == SharedFrom(from, to, index)
    {
      if CharAt(from, index) != CharAt(to, index) { break; }
      shared := shared + 1;
      index := index + 1;
    }
    km := KilometresFor(shared);
  }

  lemma SharedSymmetric(a: string, b: string)
    ensures SharedFrom(a, b, 0) == SharedFrom(b, a, 0)
  {
    var n, m := SharedFrom(a, b, 0), SharedFrom(b, a, 0);
    assert n < 5 ==> CharAt(a, n) != CharAt(b, n);
    assert m < 5 ==> CharAt(b, m) != CharAt(a, m);
  }

  /** On five-digit postal codes the estimate is an ultrametric: zero exactly between equal
      codes, the same both ways, and no detour beats the longer of its two legs. */
  lemma DistanceIsUltrametric(a: string, b: string, c: string)
    requires |a| == |b| == |c| == 5
    ensures Distance(a, b) == 0 <==> a == b
    ensures Distance(a, b) == Distance(b, a)
    ensures Distance(a, c) <= Max(Distance(a, b), Distance(b, c))
  {
    SharedSymmetric(a, b);
    SharedDiffers(a, b);
    SharedDiffers(b, c);
    SharedDiffers(a, c);
    var x, y, z := SharedFrom(a, b, 0), SharedFrom(b, c, 0), SharedFrom(a, c, 0);
    assert z < 5 && z < x ==> CharAt(b, z) != CharAt(c, z);
    assert z < 5 && z < y ==> CharAt(a, z) != CharAt(b, z);
  }

  lemma SharedDiffers(a: string, b: string)
    requires |a| == |b| == 5
    ensures SharedFrom(a, b, 0) == 5 <==> a == b
  {
    if SharedFrom(a, b, 0) == 5 {
      forall k | 0 <= k < 5 ensures a[k] == b[k] { assert CharAt(a, k) == CharAt(b, k); }
      assert a == b;
    }
  }

  // ---------------------------------------------------------------- documents

  predicate Unexpired(d: Document, now: int) {
    d.expiresAt.None? || d.expiresAt.value > now
  }

  predicate Holds(documents: seq<Document>, kind: DocumentType) {
    exists d :: d in documents && d.kind == kind
  }

  predicate HoldsVerified(documents: seq<Document>, kind: DocumentType) {
    exists d :: d in documents && d.kind == kind && d.status.Verified?
  }

  predicate HoldsValid(documents: seq<Document>, kind: DocumentType, now: int) {
    exists d :: d in documents && d.kind == kind && d.status.Verified? && Unexpired(d, now)
  }

  /** The first thing wrong with the documents of a required kind. */
  function ProblemWith(documents: seq<Document>, kind: DocumentType, now: int): seq<Reason> {
    if !Holds(documents, kind) then [MissingRequiredDocument]
    else if !HoldsVerified(documents, kind) then [DocumentNotVerified]
    else if !HoldsValid(documents, kind, now) then [ExpiredDocument]
    else []
  }

  function ProblemsWith(documents: seq<Document>, kinds: seq<DocumentType>, now: int): seq<Reason> {
    if kinds == [] then []
    else
      var n := |kinds| - 1;
      ProblemsWith(documents, kinds[..n], now) + ProblemWith(documents, kinds[n], now)
  }

  function IsOf(kind: DocumentType): Document -> bool { (d: Document) => d.kind == kind }
  const IsVerified: Document -> bool := (d: Document) => d.status.Verified?
  function IsUnexpired(now: int): Document -> bool { (d: Document) => Unexpired(d, now) }

  /** Filtering step by step finds the same problem. */
  lemma ProblemFound(documents: seq<Document>, kind: DocumentType, now: int)
    ensures var held := Filter(documents, IsOf(kind));
      var verified := Filter(held, IsVerified);
      var unexpired := Filter(verified, IsUnexpired(now));
      ProblemWith(documents, kind, now) ==
      if |held| == 0 then [MissingRequiredDocument]
      else if |verified| == 0 then [DocumentNotVerified]
      else if |unexpired| == 0 then [ExpiredDocument] else []
  {
    var held := Filter(documents, IsOf(kind));
    var verified := Filter(held, IsVerified);
    var unexpired := Filter(verified, IsUnexpired(now));
    hide Filter;
    if |held| > 0 { FirstIn(held); }
    if |verified| > 0 { FirstIn(verified); }
    if |unexpired| > 0 { FirstIn(unexpired); }
  }

  method DocumentProblems(documents: seq<Document>, now: int) returns (problems: seq<Reason>)
    ensures problems == ProblemsWith(documents, REQUIRED_DOCUMENT_TYPES, now)
  {
    hide ProblemWith, Filter;
    problems := [];
    var i := 0;
    while i < |REQUIRED_DOCUMENT_TYPES|
      invariant i <= |REQUIRED_DOCUMENT_TYPES|
      invariant problems == ProblemsWith(documents, REQUIRED_DOCUMENT_TYPES[..i], now)
    {
      var required := REQUIRED_DOCUMENT_TYPES[i];
      assert REQUIRED_DOCUMENT_TYPES[..i + 1][..i] == REQUIRED_DOCUMENT_TYPES[..i];
      ProblemFound(documents, required, now);
      i := i + 1;
      var held := Filter(documents, IsOf(required));
      if |held| == 0 {
        problems := problems + [MissingRequiredDocument];
        continue;
      }
      var verified := Filter(held, IsVerified);
      if |verified| == 0 {
        problems := problems + [DocumentNotVerified];
        continue;
      }
      var unexpired := Filter(verified, IsUnexpired(now));
      if |unexpired| == 0 {
        problems := problems + [ExpiredDocument];
      }
    }
    assert REQUIRED_DOCUMENT_TYPES[..i] == REQUIRED_DOCUMENT_TYPES;
  }

  lemma {:induction false} NoProblems(documents: seq<Document>, kinds: seq<DocumentType>, now: int)
    ensures ProblemsWith(documents, kinds, now) == [] <==> forall k :: k in kinds ==> HoldsValid(documents, k, now)
  {
    if kinds != [] {
      var n := |kinds| - 1;
      NoProblems(documents, kinds[..n], now);
      assert kinds == kinds[..n] + [kinds[n]];
      assert ProblemWith(documents, kinds[n], now) == [] <==> HoldsValid(documents, kinds[n], now);
    }
  }

  lemma {:induction false} ProblemsForgetOrder(a: seq<Document>, b: seq<Document>, kinds: seq<DocumentType>, now: int)
    requires SameElements(a, b)
    ensures ProblemsWith(a, kinds, now) == ProblemsWith(b, kinds, now)
  {
    if kinds != [] {
      ProblemsForgetOrder(a, b, kinds[..|kinds| - 1], now);
    }
  }

  // ------------------------------------------------------------------ vehicle

  predicate Suitable(v: Vehicle, demand: Demand) {
    && v.active
    && VehicleClassRank(v.vehicleClass) >= VehicleClassRank(demand.requiredVehicleClass)
    && v.payloadKg >= demand.totalWeightKg
    && v.volumeM3 >= demand.totalVolumeM3
  }

  /** Smaller class first, then smaller payload, then id. */
  predicate Smaller(a: Vehicle, b: Vehicle) {
    var ca, cb := VehicleClassRank(a.vehicleClass), VehicleClassRank(b.vehicleClass);
    ca < cb || (ca == cb && (a.payloadKg < b.payloadKg || (a.payloadKg == b.payloadKg && StrLess(a.id, b.id))))
  }

  function SelectVehicle(vehicles: seq<Vehicle>, demand: Demand): Option<Vehicle> {
    var suitable := Filter(vehicles, (v: Vehicle) => Suitable(v, demand));
    if |suitable| == 0 then None else Some(SortBy(suitable, Smaller)[0])
  }

  ghost predicate DistinctVehicles(vehicles: seq<Vehicle>) {
    forall i, j :: 0 <= i < j < |vehicles| ==> vehicles[i].id != vehicles[j].id
  }

  lemma SmallerIsStrict()
    ensures StrictOrder(Smaller)
  {
    forall x, y | Smaller(x, y) ensures !Smaller(y, x) {
      if x.payloadKg == y.payloadKg && VehicleClassRank(x.vehicleClass) == VehicleClassRank(y.vehicleClass) {
        StrLessAsymmetric(x.id, y.id);
      }
    }
    forall x, y, z | Smaller(x, y) && Smaller(y, z) ensures Smaller(x, z) {
      if StrLess(x.id, y.id) && StrLess(y.id, z.id) { StrLessTransitive(x.id, y.id, z.id); }
    }
  }

  lemma {:induction false} FilterKeepsDistinct(vehicles: seq<Vehicle>, p: Vehicle -> bool)
    requires DistinctVehicles(vehicles)
    ensures DistinctVehicles(Filter(vehicles, p))
  {
    if vehicles != [] {
      var rest := Filter(vehicles[1..], p);
      assert forall i :: 0 <= i < |vehicles| - 1 ==> vehicles[1..][i] == vehicles[i + 1];
      FilterKeepsDistinct(vehicles[1..], p);
      forall i | 0 <= i < |rest| ensures rest[i].id != vehicles[0].id {
        assert rest[i] in rest && rest[i] in vehicles[1..];
        var k :| 0 <= k < |vehicles| - 1 && vehicles[1..][k] == rest[i];
        assert vehicles[k + 1].id != vehicles[0].id;
      }
    }
  }

  lemma VehiclesComparable(vehicles: seq<Vehicle>)
    requires DistinctVehicles(vehicles)
    ensures Comparable(vehicles, Smaller)
  {
    forall i, j | 0 <= i < j < |vehicles|
      ensures Smaller(vehicles[i], vehicles[j]) || Smaller(vehicles[j], vehicles[i])
    {
      StrLessTotal(vehicles[i].id, vehicles[j].id);
    }
  }

  /** The vehicle selected is the smallest of those that can carry the demand. */
  lemma SelectsSmallest(vehicles: seq<Vehicle>, demand: Demand)
    requires DistinctVehicles(vehicles)
    ensures SelectVehicle(vehicles, demand).None? <==> forall v :: v in vehicles ==> !Suitable(v, demand)
    ensures SelectVehicle(vehicles, demand).Some? ==>
      var s := SelectVehicle(vehicles, demand).value;
      && s in vehicles && Suitable(s, demand)
      && forall v :: v in vehicles && Suitable(v, demand) ==> v == s || Smaller(s, v)
  {
    var suitable := Filter(vehicles, (v: Vehicle) => Suitable(v, demand));
    if |suitable| > 0 {
      FirstIn(suitable);
      SmallerIsStrict();
      FilterKeepsDistinct(vehicles, (v: Vehicle) => Suitable(v, demand));
      VehiclesComparable(suitable);
      SortOrders(suitable, Smaller);
      var sorted := SortBy(suitable, Smaller);
      FirstIn(sorted);
      forall v | v in vehicles && Suitable(v, demand) ensures v == sorted[0] || Smaller(sorted[0], v) {
        assert v in sorted;
        HeadLeast(sorted, v, Smaller);
      }
    }
  }

  lemma SelectionForgetsOrder(a: seq<Vehicle>, b: seq<Vehicle>, demand: Demand)
    requires DistinctVehicles(a) && DistinctVehicles(b) && SameElements(a, b)
    ensures SelectVehicle(a, demand) == SelectVehicle(b, demand)
  {
    SelectsSmallest(a, demand);
    SelectsSmallest(b, demand);
    SmallerIsStrict();
    hide SelectVehicle, Suitable, Smaller;
  }

  // ------------------------------------------------------------------ provider

  function DistanceOf(p: Provider, demand: Demand): real {
    if p.roadDistanceKm.Some? then p.roadDistanceKm.value
    else Distance(p.basePostalCode, demand.pickupPostalCode) as real
  }

  function If(condition: bool, reason: Reason): seq<Reason> {
    if condition then [reason] else []
  }

  function Reasons(p: Provider, demand: Demand, now: int): seq<Reason> {
    If(!p.status.ProviderActive?, ProviderNotActive)
    + If(!p.acceptingWork, ProviderNotAcceptingWork)
    + If(demand.jobType !in p.serviceTypes, ServiceTypeNotPermitted)
    + If(DistanceOf(p, demand) > p.serviceRadiusKm as real, OutsideServiceRadius)
    + ProblemsWith(p.documents, REQUIRED_DOCUMENT_TYPES, now)
    + If(SelectVehicle(p.vehicles, demand).None?, NoSuitableVehicle)
  }

  function Evaluation(p: Provider, demand: Demand, now: int): Result {
    var reasons := Reasons(p, demand, now);
    Result(p.id, |reasons| == 0, reasons, p.roadDistanceKm.Some?, None, DistanceOf(p, demand))
  }

  method EvaluateProviderEligibility(p: Provider, demand: Demand, now: int) returns (result: Result)
    ensures result == Evaluation(p, demand, now)
  {
    hide Distance, ProblemsWith, SelectVehicle;
    var reasons: seq<Reason> := [];
    if !p.status.ProviderActive? { reasons := reasons + [ProviderNotActive]; }
    if !p.acceptingWork { reasons := reasons + [ProviderNotAcceptingWork]; }
    if demand.jobType !in p.serviceTypes { reasons := reasons + [ServiceTypeNotPermitted]; }
    ghost var first := reasons;
    assert first == If(!p.status.ProviderActive?, ProviderNotActive) + If(!p.acceptingWork, ProviderNotAcceptingWork)
                    + If(demand.jobType !in p.serviceTypes, ServiceTypeNotPermitted);
    var distanceKm: real;
    if p.roadDistanceKm.Some? {
      distanceKm := p.roadDistanceKm.value;
    } else {
      var km := EstimateDistanceKm(p.basePostalCode, demand.pickupPostalCode);
      distanceKm := km as real;
    }
    if distanceKm > p.serviceRadiusKm as real { reasons := reasons + [OutsideServiceRadius]; }
    var problems := DocumentProblems(p.documents, now);
    reasons := reasons + problems;
    if SelectVehicle(p.vehicles, demand).None? { reasons := reasons + [NoSuitableVehicle]; }
    assert reasons == first + If(distanceKm > p.serviceRadiusKm as real, OutsideServiceRadius) + problems
                      + If(SelectVehicle(p.vehicles, demand).None?, NoSuitableVehicle);
    result := Result(p.id, |reasons| == 0, reasons, p.roadDistanceKm.Some?, None, distanceKm);
  }

  /** Every gate, as a statement about the stored facts. */
  ghost predicate Gates(p: Provider, demand: Demand, now: int) {
    && p.status.ProviderActive? && p.acceptingWork && demand.jobType in p.serviceTypes
    && DistanceOf(p, demand) <= p.serviceRadiusKm as real
    && (forall k :: k in REQUIRED_DOCUMENT_TYPES ==> HoldsValid(p.documents, k, now))
    && (exists v :: v in p.vehicles && Suitable(v, demand))
  }

  /** Eligible exactly when every gate holds. */
  lemma EligibleIffGates(p: Provider, demand: Demand, now: int)
    requires DistinctVehicles(p.vehicles)
    ensures Evaluation(p, demand, now).eligible <==> Gates(p, demand, now)
  {
    NoProblems(p.documents, REQUIRED_DOCUMENT_TYPES, now);
    SelectsSmallest(p.vehicles, demand);
    hide ProblemsWith, SelectVehicle, HoldsValid, Suitable, Distance;
  }

  /** The same with nothing but the stored facts. */
  lemma EligibleExactly(p: Provider, demand: Demand, now: int)
    requires DistinctVehicles(p.vehicles)
    ensures Evaluation(p, demand, now).eligible <==>
            && p.status.ProviderActive? && p.acceptingWork && demand.jobType in p.serviceTypes
            && DistanceOf(p, demand) <= p.serviceRadiusKm as real
            && HasValid(p.documents, LiabilityInsurance, now) && HasValid(p.documents, TradeLicence, now)
            && HasVehicleFor(p.vehicles, demand)
  {
    EligibleIffGates(p, demand, now);
    ValidIs(p.documents, LiabilityInsurance, now);
    ValidIs(p.documents, TradeLicence, now);
    VehicleIs(p.vehicles, demand);
    assert REQUIRED_DOCUMENT_TYPES[0] == LiabilityInsurance && REQUIRED_DOCUMENT_TYPES[1] == TradeLicence;
    hide Evaluation, HoldsValid, HasValid, HasVehicleFor, Suitable, DistanceOf;
  }

  ghost predicate HasValid(documents: seq<Document>, kind: DocumentType, now: int) {
    exists d :: d in documents && d.kind == kind && d.status.Verified?
                && (d.expiresAt.Some? ==> now < d.expiresAt.value)
  }

  ghost predicate HasVehicleFor(vehicles: seq<Vehicle>, demand: Demand) {
    exists v :: v in vehicles && v.active && AtLeast(v.vehicleClass, demand.requiredVehicleClass)
                && v.payloadKg >= demand.totalWeightKg && v.volumeM3 >= demand.totalVolumeM3
  }

  /** Whether one class can carry what another can. */
  predicate AtLeast(c: VehicleClass, required: VehicleClass) {
    match required
    case CargoBike => true
    case SmallVan => !c.CargoBike?
    case LargeVan => c.LargeVan? || c.BoxVan? || c.Truck?
    case BoxVan => c.BoxVan? || c.Truck?
    case Truck => c.Truck?
  }

  lemma ValidIs(documents: seq<Document>, kind: DocumentType, now: int)
    ensures HoldsValid(documents, kind, now) <==> HasValid(documents, kind, now)
  {
  }

  lemma VehicleIs(vehicles: seq<Vehicle>, demand: Demand)
    ensures (exists v :: v in vehicles && Suitable(v, demand)) <==> HasVehicleFor(vehicles, demand)
  {
    forall v: Vehicle
      ensures VehicleClassRank(v.vehicleClass) >= VehicleClassRank(demand.requiredVehicleClass) <==>
              AtLeast(v.vehicleClass, demand.requiredVehicleClass)
    {
    }
  }

  // ------------------------------------------------------------------- ranking

  datatype Entry = Entry(provider: Provider, result: Result)

  function Evaluate(demand: Demand, now: int): Provider -> Entry {
    (p: Provider) => Entry(p, Evaluation(p, demand, now))
  }

  function ClassOf(vehicles: seq<Vehicle>, demand: Demand): int {
    var v := SelectVehicle(vehicles, demand);
    if v.Some? then VehicleClassRank(v.value.vehicleClass) else -1
  }

  /** What ranking looks at: nearer first, then the smaller vehicle, then id. */
  datatype Key = Key(result: Result, vehicleClass: int)

  predicate KeyLess(a: Key, b: Key) {
    || a.result.distanceKm < b.result.distanceKm
    || (a.result.distanceKm == b.result.distanceKm &&
        (a.vehicleClass < b.vehicleClass ||
         (a.vehicleClass == b.vehicleClass && StrLess(a.result.providerId, b.result.providerId))))
  }

  function KeyOf(demand: Demand): Entry -> Key {
    (e: Entry) => Key(e.result, ClassOf(e.provider.vehicles, demand))
  }

  function EntryLess(demand: Demand): (Entry, Entry) -> bool {
    (a: Entry, b: Entry) => KeyLess(KeyOf(demand)(a), KeyOf(demand)(b))
  }

  predicate ResultLess(a: Result, b: Result) { StrLess(a.providerId, b.providerId) }

  function EligibleEntries(providers: seq<Provider>, demand: Demand, now: int): seq<Entry> {
    Filter(Map(providers, Evaluate(demand, now)), (e: Entry) => e.result.eligible)
  }

  function IneligibleResults(providers: seq<Provider>, demand: Demand, now: int): seq<Result> {
    Map(Filter(Map(providers, Evaluate(demand, now)), (e: Entry) => !e.result.eligible), (e: Entry) => e.result)
  }

  function Numbered(entries: seq<Entry>): seq<Result> {
    seq(|entries|, i requires 0 <= i < |entries| => entries[i].result.(rank := Some(i + 1)))
  }

  /** The eligible ones ranked, then the others by id. */
  function RankProviders(providers: seq<Provider>, demand: Demand, now: int): seq<Result> {
    Numbered(SortBy(EligibleEntries(providers, demand, now), EntryLess(demand)))
    + SortBy(IneligibleResults(providers, demand, now), ResultLess)
  }

  // ------------------------------------------------------- what ranking promises

  ghost predicate DistinctProviders(providers: seq<Provider>) {
    && (forall i, j :: 0 <= i < j < |providers| ==> providers[i].id != providers[j].id)
    && forall p :: p in providers ==> DistinctVehicles(p.vehicles)
  }

  lemma KeyLessIsStrict()
    ensures StrictOrder(KeyLess)
  {
    forall x, y | KeyLess(x, y) ensures !KeyLess(y, x) {
      if StrLess(x.result.providerId, y.result.providerId) {
        StrLessAsymmetric(x.result.providerId, y.result.providerId);
      }
    }
    forall x, y, z | KeyLess(x, y) && KeyLess(y, z) ensures KeyLess(x, z) {
      var a, b, c := x.result.providerId, y.result.providerId, z.result.providerId;
      if StrLess(a, b) && StrLess(b, c) { StrLessTransitive(a, b, c); }
    }
  }

  lemma ResultLessIsStrict()
    ensures StrictOrder(ResultLess)
  {
    forall x, y | ResultLess(x, y) ensures !ResultLess(y, x) { StrLessAsymmetric(x.providerId, y.providerId); }
    forall x, y, z | ResultLess(x, y) && ResultLess(y, z) ensures ResultLess(x, z) {
      StrLessTransitive(x.providerId, y.providerId, z.providerId);
    }
  }

  ghost predicate DistinctEntries(es: seq<Entry>) {
    forall i, j :: 0 <= i < j < |es| ==> es[i].result.providerId != es[j].result.providerId
  }

  lemma {:induction false} FilterEntries(es: seq<Entry>, p: Entry -> bool)
    requires DistinctEntries(es)
    ensures DistinctEntries(Filter(es, p))
  {
    if es != [] {
      var rest := Filter(es[1..], p);
      assert forall i :: 0 <= i < |es| - 1 ==> es[1..][i] == es[i + 1];
      FilterEntries(es[1..], p);
      forall i | 0 <= i < |rest| ensures rest[i].result.providerId != es[0].result.providerId {
        assert rest[i] in rest && rest[i] in es[1..];
        var k :| 0 <= k < |es| - 1 && es[1..][k] == rest[i];
        assert es[k + 1].result.providerId != es[0].result.providerId;
      }
    }
  }

  lemma {:induction false} FilterSplits(es: seq<Entry>)
    ensures |Filter(es, (e: Entry) => e.result.eligible)| + |Filter(es, (e: Entry) => !e.result.eligible)| == |es|
  {
    if es != [] { FilterSplits(es[1..]); }
  }

  /** The keys of the eligible entries are comparable, and so are the others' results. */
  lemma EntriesDistinct(providers: seq<Provider>, demand: Demand, now: int)
    requires DistinctProviders(providers)
    ensures Comparable(Map(EligibleEntries(providers, demand, now), KeyOf(demand)), KeyLess)
    ensures Comparable(IneligibleResults(providers, demand, now), ResultLess)
  {
    var all := Map(providers, Evaluate(demand, now));
    assert DistinctEntries(all);
    var good, bad := EligibleEntries(providers, demand, now), Filter(all, (e: Entry) => !e.result.eligible);
    FilterEntries(all, (e: Entry) => e.result.eligible);
    FilterEntries(all, (e: Entry) => !e.result.eligible);
    hide Evaluation;
    var keys, results := Map(good, KeyOf(demand)), IneligibleResults(providers, demand, now);
    forall i, j | 0 <= i < j < |keys| ensures KeyLess(keys[i], keys[j]) || KeyLess(keys[j], keys[i]) {
      StrLessTotal(good[i].result.providerId, good[j].result.providerId);
    }
    forall i, j | 0 <= i < j < |results|
      ensures ResultLess(results[i], results[j]) || ResultLess(results[j], results[i])
    {
      StrLessTotal(bad[i].result.providerId, bad[j].result.providerId);
    }
  }

  /** The ranked part, seen through its keys. */
  lemma RankedKeys(providers: seq<Provider>, demand: Demand, now: int)
    ensures var es := EligibleEntries(providers, demand, now);
      Map(SortBy(es, EntryLess(demand)), KeyOf(demand)) == SortBy(Map(es, KeyOf(demand)), KeyLess)
  {
    SortMaps(EligibleEntries(providers, demand, now), EntryLess(demand), KeyOf(demand), KeyLess);
  }

  function BadEntries(providers: seq<Provider>, demand: Demand, now: int): seq<Entry> {
    Filter(Map(providers, Evaluate(demand, now)), (e: Entry) => !e.result.eligible)
  }

  const ToResult: Entry -> Result := (e: Entry) => e.result
  const ToProvider: Entry -> Provider := (e: Entry) => e.provider
  const ById: (Entry, Entry) -> bool := (a: Entry, b: Entry) => ResultLess(a.result, b.result)

  /** Nearer first, then the smaller of the vehicles selected, then id. */
  predicate RankedBefore(p: Provider, q: Provider, demand: Demand) {
    var dp, dq := DistanceOf(p, demand), DistanceOf(q, demand);
    var cp, cq := ClassOf(p.vehicles, demand), ClassOf(q.vehicles, demand);
    dp < dq || (dp == dq && (cp < cq || (cp == cq && StrLess(p.id, q.id))))
  }

  /** Entries of the given providers, each with its evaluation. */
  ghost predicate Evaluated(es: seq<Entry>, providers: seq<Provider>, demand: Demand, now: int, eligible: bool) {
    && (forall e :: e in es ==> e.provider in providers && e.result == Evaluation(e.provider, demand, now)
                                && e.result.eligible == eligible)
    && (forall p :: p in providers && Evaluation(p, demand, now).eligible == eligible ==>
          Entry(p, Evaluation(p, demand, now)) in es)
  }

  lemma EntriesEvaluated(providers: seq<Provider>, demand: Demand, now: int)
    ensures Evaluated(EligibleEntries(providers, demand, now), providers, demand, now, true)
    ensures Evaluated(BadEntries(providers, demand, now), providers, demand, now, false)
  {
    hide Evaluation;
    var all := Map(providers, Evaluate(demand, now));
    forall e | e in all ensures e.provider in providers && e.result == Evaluation(e.provider, demand, now) {
      var i :| 0 <= i < |all| && all[i] == e;
      assert providers[i] in providers;
    }
    forall p | p in providers ensures Entry(p, Evaluation(p, demand, now)) in all {
      var i :| 0 <= i < |providers| && providers[i] == p;
      assert all[i] == Entry(p, Evaluation(p, demand, now));
    }
  }

  lemma SortedEvaluated(es: seq<Entry>, less: (Entry, Entry) -> bool, providers: seq<Provider>, demand: Demand,
                        now: int, eligible: bool)
    requires Evaluated(es, providers, demand, now, eligible)
    ensures Evaluated(SortBy(es, less), providers, demand, now, eligible)
  {
    hide Evaluation, SortBy;
  }

  lemma RankedOrder(providers: seq<Provider>, demand: Demand, now: int)
    requires DistinctProviders(providers)
    ensures Ordered(Map(SortBy(EligibleEntries(providers, demand, now), EntryLess(demand)), KeyOf(demand)), KeyLess)
  {
    EntriesDistinct(providers, demand, now);
    RankedKeys(providers, demand, now);
    KeyLessIsStrict();
    hide SortBy, EligibleEntries, KeyOf, KeyLess, EntryLess, StrictOrder, Comparable, Ordered, DistinctProviders;
    SortOrders(Map(EligibleEntries(providers, demand, now), KeyOf(demand)), KeyLess);
  }

  lemma KeysOrderProviders(good: seq<Entry>, providers: seq<Provider>, demand: Demand, now: int)
    requires Evaluated(good, providers, demand, now, true) && Ordered(Map(good, KeyOf(demand)), KeyLess)
    ensures forall i, j :: 0 <= i < j < |good| ==> RankedBefore(good[i].provider, good[j].provider, demand)
  {
    hide ClassOf, StrLess, Evaluation;
    var keys := Map(good, KeyOf(demand));
    forall i, j | 0 <= i < j < |good| ensures RankedBefore(good[i].provider, good[j].provider, demand) {
      assert good[i] in good && good[j] in good;
      assert KeyLess(keys[i], keys[j]);
      EvaluationKeeps(good[i].provider, demand, now);
      EvaluationKeeps(good[j].provider, demand, now);
    }
  }

  lemma EvaluationKeeps(p: Provider, demand: Demand, now: int)
    ensures Evaluation(p, demand, now).providerId == p.id
      && Evaluation(p, demand, now).distanceKm == DistanceOf(p, demand)
  {
  }

  lemma RankedPart(providers: seq<Provider>, demand: Demand, now: int) returns (good: seq<Entry>)
    requires DistinctProviders(providers)
    ensures good == SortBy(EligibleEntries(providers, demand, now), EntryLess(demand))
    ensures |good| == |EligibleEntries(providers, demand, now)| && Evaluated(good, providers, demand, now, true)
    ensures forall i, j :: 0 <= i < j < |good| ==> RankedBefore(good[i].provider, good[j].provider, demand)
  {
    hide SortBy, EligibleEntries, EntryLess, Evaluated, Ordered, DistinctProviders, RankedBefore;
    good := SortBy(EligibleEntries(providers, demand, now), EntryLess(demand));
    EntriesEvaluated(providers, demand, now);
    SortedEvaluated(EligibleEntries(providers, demand, now), EntryLess(demand), providers, demand, now, true);
    RankedOrder(providers, demand, now);
    KeysOrderProviders(good, providers, demand, now);
  }

  lemma RestOrder(providers: seq<Provider>, demand: Demand, now: int)
    requires DistinctProviders(providers)
    ensures IneligibleResults(providers, demand, now) == Map(BadEntries(providers, demand, now), ToResult)
    ensures Map(SortBy(BadEntries(providers, demand, now), ById), ToResult) ==
            SortBy(IneligibleResults(providers, demand, now), ResultLess)
    ensures Ordered(SortBy(IneligibleResults(providers, demand, now), ResultLess), ResultLess)
  {
    var bad := BadEntries(providers, demand, now);
    assert IneligibleResults(providers, demand, now) == Map(bad, ToResult);
    EntriesDistinct(providers, demand, now);
    ResultLessIsStrict();
    hide SortBy, StrLess, StrictOrder, DistinctProviders, BadEntries, IneligibleResults, Comparable, Ordered;
    SortMaps(bad, ById, ToResult, ResultLess);
    SortOrders(Map(bad, ToResult), ResultLess);
  }

  lemma ResultsOrderProviders(rest: seq<Entry>, providers: seq<Provider>, demand: Demand, now: int)
    requires Evaluated(rest, providers, demand, now, false) && Ordered(Map(rest, ToResult), ResultLess)
    ensures forall i, j :: 0 <= i < j < |rest| ==> StrLess(rest[i].provider.id, rest[j].provider.id)
  {
    hide StrLess, Evaluation;
    var results := Map(rest, ToResult);
    forall i, j | 0 <= i < j < |rest| ensures StrLess(rest[i].provider.id, rest[j].provider.id) {
      assert rest[i] in rest && rest[j] in rest;
      assert ResultLess(results[i], results[j]);
      EvaluationKeeps(rest[i].provider, demand, now);
      EvaluationKeeps(rest[j].provider, demand, now);
    }
  }

  lemma RestPart(providers: seq<Provider>, demand: Demand, now: int) returns (rest: seq<Entry>)
    requires DistinctProviders(providers)
    ensures SortBy(IneligibleResults(providers, demand, now), ResultLess) == Map(rest, ToResult)
    ensures |rest| == |BadEntries(providers, demand, now)| && Evaluated(rest, providers, demand, now, false)
    ensures forall i, j :: 0 <= i < j < |rest| ==> StrLess(rest[i].provider.id, rest[j].provider.id)
  {
    hide SortBy, BadEntries, IneligibleResults, Evaluated, Ordered, DistinctProviders, StrLess;
    rest := SortBy(BadEntries(providers, demand, now), ById);
    EntriesEvaluated(providers, demand, now);
    SortedEvaluated(BadEntries(providers, demand, now), ById, providers, demand, now, false);
    RestOrder(providers, demand, now);
    ResultsOrderProviders(rest, providers, demand, now);
  }

  lemma RankedResults(good: seq<Entry>, rest: seq<Entry>, providers: seq<Provider>, demand: Demand, now: int)
    requires Evaluated(good, providers, demand, now, true) && Evaluated(rest, providers, demand, now, false)
    ensures var order := Map(good, ToProvider) + Map(rest, ToProvider);
      var r, k := Numbered(good) + Map(rest, ToResult), |good|;
      |r| == |order| &&
      forall i :: 0 <= i < |r| ==>
        && r[i] == Evaluation(order[i], demand, now).(rank := if i < k then Some(i + 1) else None)
        && (r[i].eligible <==> i < k)
  {
    hide Evaluation;
    var order, r, k := Map(good, ToProvider) + Map(rest, ToProvider), Numbered(good) + Map(rest, ToResult), |good|;
    forall i | 0 <= i < |r|
      ensures r[i] == Evaluation(order[i], demand, now).(rank := if i < k then Some(i + 1) else None)
        && (r[i].eligible <==> i < k)
    {
      if i < k {
        assert good[i] in good;
      } else {
        assert rest[i - k] in rest;
        Unranked(rest[i - k].provider, demand, now);
      }
    }
  }

  /** One result per provider: the eligible first, strictly by distance, class of the
      smallest suitable vehicle and id, ranked 1 to k; then the rest strictly by id. */
  lemma RankingIsOrdered(providers: seq<Provider>, demand: Demand, now: int) returns (order: seq<Provider>, k: nat)
    requires DistinctProviders(providers)
    ensures |order| == |providers| && SameElements(order, providers) && k <= |order|
    ensures var r := RankProviders(providers, demand, now);
      |r| == |order| &&
      forall i :: 0 <= i < |r| ==>
        && r[i] == Evaluation(order[i], demand, now).(rank := if i < k then Some(i + 1) else None)
        && (r[i].eligible <==> i < k)
    ensures forall i, j :: 0 <= i < j < k ==> RankedBefore(order[i], order[j], demand)
    ensures forall i, j :: k <= i < j < |order| ==> StrLess(order[i].id, order[j].id)
  {
    FilterSplits(Map(providers, Evaluate(demand, now)));
    assert |EligibleEntries(providers, demand, now)| + |BadEntries(providers, demand, now)| == |providers|;
    hide SortBy, BadEntries, EligibleEntries, IneligibleResults, Evaluation, RankedBefore, StrLess, DistinctProviders,
      Evaluated;
    var good := RankedPart(providers, demand, now);
    var rest := RestPart(providers, demand, now);
    k := |good|;
    order := Map(good, ToProvider) + Map(rest, ToProvider);
    OrderComplete(good, rest, providers, demand, now);
    RankedResults(good, rest, providers, demand, now);
    assert RankProviders(providers, demand, now) == Numbered(good) + Map(rest, ToResult);
  }

  lemma Unranked(p: Provider, demand: Demand, now: int)
    ensures Evaluation(p, demand, now).rank.None?
  {
  }

  lemma OrderComplete(good: seq<Entry>, rest: seq<Entry>, providers: seq<Provider>, demand: Demand, now: int)
    requires Evaluated(good, providers, demand, now, true) && Evaluated(rest, providers, demand, now, false)
    ensures SameElements(Map(good, ToProvider) + Map(rest, ToProvider), providers)
  {
    hide Evaluation;
    var a, b := Map(good, ToProvider), Map(rest, ToProvider);
    forall p ensures p in a + b <==> p in providers {
      if p in providers {
        var e := Entry(p, Evaluation(p, demand, now));
        if Evaluation(p, demand, now).eligible {
          var i :| 0 <= i < |good| && good[i] == e;
          assert a[i] == p;
        } else {
          var i :| 0 <= i < |rest| && rest[i] == e;
          assert b[i] == p;
        }
      }
      if p in a { var i :| 0 <= i < |a| && a[i] == p; assert good[i] in good; }
      if p in b { var i :| 0 <= i < |b| && b[i] == p; assert rest[i] in rest; }
    }
  }

  // --------------------------------------------------------- order independence

  /** The same provider, with its vehicles and documents listed in another order. */
  ghost predicate Relisted(p: Provider, q: Provider) {
    && q == p.(vehicles := q.vehicles, documents := q.documents)
    && SameElements(p.vehicles, q.vehicles) && SameElements(p.documents, q.documents)
  }

  /** The same providers in another order, each possibly relisted. */
  ghost predicate Reordered(ps: seq<Provider>, qs: seq<Provider>) {
    && (forall p :: p in ps ==> exists q :: q in qs && Relisted(p, q))
    && (forall q :: q in qs ==> exists p :: p in ps && Relisted(p, q))
  }

  lemma RelistedSame(p: Provider, q: Provider, demand: Demand, now: int)
    requires Relisted(p, q) && DistinctVehicles(p.vehicles) && DistinctVehicles(q.vehicles)
    ensures Evaluation(p, demand, now) == Evaluation(q, demand, now)
    ensures ClassOf(p.vehicles, demand) == ClassOf(q.vehicles, demand)
  {
    ProblemsForgetOrder(p.documents, q.documents, REQUIRED_DOCUMENT_TYPES, now);
    SelectionForgetsOrder(p.vehicles, q.vehicles, demand);
    hide ProblemsWith, SelectVehicle, Distance;
  }

  function ProviderKey(p: Provider, demand: Demand, now: int): Key {
    Key(Evaluation(p, demand, now), ClassOf(p.vehicles, demand))
  }

  lemma KeysIn(es: seq<Entry>, providers: seq<Provider>, demand: Demand, now: int, eligible: bool, key: Key)
    requires Evaluated(es, providers, demand, now, eligible)
    ensures key in Map(es, KeyOf(demand)) <==>
              exists p :: p in providers && Evaluation(p, demand, now).eligible == eligible
                          && key == ProviderKey(p, demand, now)
  {
    hide Evaluation, ClassOf;
    var keys := Map(es, KeyOf(demand));
    if key in keys {
      var i :| 0 <= i < |keys| && keys[i] == key;
      assert es[i] in es;
      assert key == ProviderKey(es[i].provider, demand, now);
    }
    if p :| p in providers && Evaluation(p, demand, now).eligible == eligible && key == ProviderKey(p, demand, now) {
      var i :| 0 <= i < |es| && es[i] == Entry(p, Evaluation(p, demand, now));
      assert keys[i] == key;
    }
  }

  lemma ResultsIn(es: seq<Entry>, providers: seq<Provider>, demand: Demand, now: int, eligible: bool, r: Result)
    requires Evaluated(es, providers, demand, now, eligible)
    ensures r in Map(es, ToResult) <==>
              exists p :: p in providers && Evaluation(p, demand, now).eligible == eligible
                          && r == ProviderKey(p, demand, now).result
  {
    hide Evaluation, ClassOf;
    var results := Map(es, ToResult);
    if r in results {
      var i :| 0 <= i < |results| && results[i] == r;
      assert es[i] in es;
      assert r == ProviderKey(es[i].provider, demand, now).result;
    }
    if p :| p in providers && Evaluation(p, demand, now).eligible == eligible
            && r == ProviderKey(p, demand, now).result
    {
      var i :| 0 <= i < |es| && es[i] == Entry(p, Evaluation(p, demand, now));
      assert results[i] == r;
    }
  }

  lemma KeysOf(providers: seq<Provider>, demand: Demand, now: int, key: Key)
    ensures key in Map(EligibleEntries(providers, demand, now), KeyOf(demand)) <==>
              exists p :: p in providers && Evaluation(p, demand, now).eligible && key == ProviderKey(p, demand, now)
    ensures key.result in IneligibleResults(providers, demand, now) <==>
              exists p :: p in providers && !Evaluation(p, demand, now).eligible
                          && key.result == ProviderKey(p, demand, now).result
  {
    EntriesEvaluated(providers, demand, now);
    assert IneligibleResults(providers, demand, now) == Map(BadEntries(providers, demand, now), ToResult);
    hide Evaluation, ClassOf, EligibleEntries, BadEntries, IneligibleResults, Evaluated, KeyOf;
    KeysIn(EligibleEntries(providers, demand, now), providers, demand, now, true, key);
    ResultsIn(BadEntries(providers, demand, now), providers, demand, now, false, key.result);
  }

  lemma KeysForgetOrder(ps: seq<Provider>, qs: seq<Provider>, demand: Demand, now: int)
    requires DistinctProviders(ps) && DistinctProviders(qs) && Reordered(ps, qs)
    ensures SameElements(Map(EligibleEntries(ps, demand, now), KeyOf(demand)),
                         Map(EligibleEntries(qs, demand, now), KeyOf(demand)))
    ensures SameElements(IneligibleResults(ps, demand, now), IneligibleResults(qs, demand, now))
  {
    forall p, q | p in ps && q in qs && Relisted(p, q)
      ensures ProviderKey(p, demand, now) == ProviderKey(q, demand, now)
    {
      RelistedSame(p, q, demand, now);
    }
    hide Evaluation, ClassOf, EligibleEntries, IneligibleResults, Relisted, DistinctProviders;
    var a := Map(EligibleEntries(ps, demand, now), KeyOf(demand));
    var b := Map(EligibleEntries(qs, demand, now), KeyOf(demand));
    forall key ensures key in a <==> key in b {
      KeysOf(ps, demand, now, key);
      KeysOf(qs, demand, now, key);
      SameKeys(ps, qs, demand, now, key);
    }
    forall r: Result ensures r in IneligibleResults(ps, demand, now) <==> r in IneligibleResults(qs, demand, now) {
      KeysOf(ps, demand, now, Key(r, 0));
      KeysOf(qs, demand, now, Key(r, 0));
      SameKeys(ps, qs, demand, now, Key(r, 0));
    }
  }

  lemma SameKeys(ps: seq<Provider>, qs: seq<Provider>, demand: Demand, now: int, key: Key)
    requires Reordered(ps, qs)
    requires forall p, q :: p in ps && q in qs && Relisted(p, q) ==>
               ProviderKey(p, demand, now) == ProviderKey(q, demand, now)
    ensures (exists p :: p in ps && Evaluation(p, demand, now).eligible && key == ProviderKey(p, demand, now)) <==>
            (exists q :: q in qs && Evaluation(q, demand, now).eligible && key == ProviderKey(q, demand, now))
    ensures (exists p :: p in ps && !Evaluation(p, demand, now).eligible
               && key.result == ProviderKey(p, demand, now).result) <==>
            (exists q :: q in qs && !Evaluation(q, demand, now).eligible
               && key.result == ProviderKey(q, demand, now).result)
  {
    hide Evaluation, ClassOf, Relisted;
  }

  /** The ranking is a function of the facts, not of the order they are stored in: listing
      the providers in another order, or the vehicles and documents inside them, changes nothing. */
  lemma RankingForgetsOrder(ps: seq<Provider>, qs: seq<Provider>, demand: Demand, now: int)
    requires DistinctProviders(ps) && DistinctProviders(qs) && Reordered(ps, qs)
    ensures RankProviders(ps, demand, now) == RankProviders(qs, demand, now)
  {
    KeysForgetOrder(ps, qs, demand, now);
    EntriesDistinct(ps, demand, now);
    EntriesDistinct(qs, demand, now);
    KeyLessIsStrict();
    ResultLessIsStrict();
    var a, b := EligibleEntries(ps, demand, now), EligibleEntries(qs, demand, now);
    hide EligibleEntries, IneligibleResults, DistinctProviders, Reordered, StrictOrder, Comparable, SameElements, KeyOf;
    SortForgetsOrder(Map(a, KeyOf(demand)), Map(b, KeyOf(demand)), KeyLess);
    SortForgetsOrder(IneligibleResults(ps, demand, now), IneligibleResults(qs, demand, now), ResultLess);
    RankedKeys(ps, demand, now);
    RankedKeys(qs, demand, now);
    NumberedKeys(SortBy(a, EntryLess(demand)), SortBy(b, EntryLess(demand)), demand);
  }

  lemma NumberedKeys(a: seq<Entry>, b: seq<Entry>, demand: Demand)
    requires Map(a, KeyOf(demand)) == Map(b, KeyOf(demand))
    ensures Numbered(a) == Numbered(b)
  {
    var x, y := Map(a, KeyOf(demand)), Map(b, KeyOf(demand));
    assert |a| == |x| == |b|;
    forall i | 0 <= i < |a| ensures a[i].result == b[i].result {
      assert x[i] == y[i];
    }
  }

  // -------------------------------------------------------------------- demand

  datatype Dimensions = Dimensions(length: real, width: real, height: real)
  datatype Item = Item(quantity: nat, estimatedWeightKg: Option<real>, dimensionsCm: Option<Dimensions>)

  function Ceil(x: real): int { -((-x).Floor) }

  function WeightOf(item: Item): real {
    (if item.estimatedWeightKg.Some? then item.estimatedWeightKg.value else 50.0) * item.quantity as real
  }

  function VolumeOf(item: Item): real {
    (if item.dimensionsCm.Some?
     then item.dimensionsCm.value.length * item.dimensionsCm.value.width * item.dimensionsCm.value.height / 1_000_000.0
     else 0.5) * item.quantity as real
  }

  function TotalOf(items: seq<Item>, f: Item -> real): real {
    if items == [] then 0.0 else TotalOf(items[..|items| - 1], f) + f(items[|items| - 1])
  }

  /** The totals of all items, rounded up to whole kilograms and hundredths of a cubic metre. */
  method DemandFromItems(items: seq<Item>) returns (totalWeightKg: int, totalVolumeM3: real)
    ensures totalWeightKg == Ceil(TotalOf(items, WeightOf))
    ensures totalVolumeM3 == Ceil(TotalOf(items, VolumeOf) * 100.0) as real / 100.0
  {
    var weight, volume := 0.0, 0.0;
    for i := 0 to |items|
      invariant weight == TotalOf(items[..i], WeightOf)
      invariant volume == TotalOf(items[..i], VolumeOf)
    {
      var item := items[i];
      assert items[..i + 1][..i] == items[..i];
      var each := if item.estimatedWeightKg.Some? then item.estimatedWeightKg.value else 50.0;
      weight := weight + each * item.quantity as real;
      if item.dimensionsCm.Some? {
        var d := item.dimensionsCm.value;
        var cubicCm := d.length * d.width * d.height;
        volume := volume + cubicCm / 1_000_000.0 * item.quantity as real;
      } else {
        volume := volume + 0.5 * item.quantity as real;
      }
    }
    assert items[..|items|] == items;
    totalWeightKg := Ceil(weight);
    totalVolumeM3 := Ceil(volume * 100.0) as real / 100.0;
  }

  /** The demand is never less than the goods, nor more than one rounding step above them;
      so a vehicle that passes the gates can carry everything. */
  lemma DemandCoversGoods(items: seq<Item>, v: Vehicle, demand: Demand)
    requires demand.totalWeightKg == Ceil(TotalOf(items, WeightOf))
    requires demand.totalVolumeM3 == Ceil(TotalOf(items, VolumeOf) * 100.0) as real / 100.0
    ensures 0.0 <= demand.totalWeightKg as real - TotalOf(items, WeightOf) < 1.0
    ensures 0.0 <= demand.totalVolumeM3 - TotalOf(items, VolumeOf) < 0.01
    ensures Suitable(v, demand) ==> v.payloadKg as real >= TotalOf(items, WeightOf)
                                    && v.volumeM3 >= TotalOf(items, VolumeOf)
  {
    hide TotalOf, WeightOf, VolumeOf;
    CeilBounds(TotalOf(items, WeightOf));
    CeilBounds(TotalOf(items, VolumeOf) * 100.0);
  }

  lemma CeilBounds(x: real)
    ensures x <= Ceil(x) as real < x + 1.0
  {
  }
}
