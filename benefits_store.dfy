/** The benefits store (`src/store/benefitsStore.ts`): the list of benefit
    summaries, the record being viewed, a loading flag and an error. The
    benefits service is an oracle: what each request yields is a parameter,
    and the requests made are recorded in a ghost trace with every
    snapshot the store publishes. */
module BenefitsStore {
  import opened Js

  // ---------------------------------------------------------------------
  // Records (`src/services/api/benefitsService.ts`)

  datatype SummaryCoverage = SummaryCoverage(
    copayPrimary: string,
    copaySpecialist: string,
    deductibleIndividual: string,
    deductibleFamily: string,
    coinsurance: string,
    outOfPocketIndividual: string,
    outOfPocketFamily: string)

  datatype BenefitsSummary = BenefitsSummary(
    id: string,
    patientName: string,
    insuranceProvider: string,
    memberId: string,
    callDate: string,
    benefits: SummaryCoverage)

  datatype Copay = Copay(primary: string, specialist: string, urgentCare: string, emergency: string)
  datatype Deductible = Deductible(individual: string, family: string, status: string, network: string)
  datatype Coinsurance = Coinsurance(percentage: string, afterDeductible: bool, preventiveCare: string)
  datatype OutOfPocket = OutOfPocket(individual: string, family: string, status: string)
  datatype AdditionalInfo = AdditionalInfo(preAuth: string, referrals: string, planYear: string)

  datatype DetailCoverage = DetailCoverage(
    copay: Copay,
    deductible: Deductible,
    coinsurance: Coinsurance,
    outOfPocket: OutOfPocket,
    additionalInfo: AdditionalInfo)

  datatype BenefitsDetail = BenefitsDetail(
    id: string,
    patientName: string,
    patientDOB: string,
    insuranceProvider: string,
    insurancePhone: string,
    memberId: string,
    groupNumber: string,
    callDate: string,
    callDuration: string,
    benefits: DetailCoverage)

  /** The fields of the partial record passed to `saveBenefits` that the
      store reads; a missing field is `None`. */
  datatype BenefitsUpdate = BenefitsUpdate(id: Option<string>, patientName: Option<string>, insuranceProvider: Option<string>)

  // ---------------------------------------------------------------------
  // Store state

  datatype Snapshot = Snapshot(
    benefitsList: seq<BenefitsSummary>,
    currentBenefits: Option<BenefitsDetail>,
    isLoading: bool,
    error: Option<string>)

  const Initial := Snapshot([], None, false, None)

  /** A published snapshot, or a request made to the benefits service. */
  datatype Event =
    | Published(state: Snapshot)
    | ListRequested
    | DetailRequested(id: string)
    | SaveRequested(update: BenefitsUpdate)

  const ListFallback := "Failed to fetch benefits list"
  const DetailFallback := "Failed to fetch benefits details"
  const SaveFallback := "Failed to save benefits information"

  /** The `set({ isLoading: true, error: null })` each request starts with. */
  function Loading(s: Snapshot): (r: Snapshot)
    ensures r.isLoading && r.error.None?
    ensures r.benefitsList == s.benefitsList && r.currentBenefits == s.currentBenefits
  {
    s.(isLoading := true, error := None)
  }

  datatype Step = Step(next: Snapshot, events: seq<Event>)

  /** `fetchBenefitsList()`, given what the service yields. */
  function FetchListEffect(s: Snapshot, outcome: Result<seq<BenefitsSummary>, Thrown>): (r: Step)
    ensures r.events == [Published(Loading(s)), ListRequested, Published(r.next)]
    ensures !r.next.isLoading && r.next.currentBenefits == s.currentBenefits
    ensures outcome.Success? ==> r.next.benefitsList == outcome.value && r.next.error.None?
    ensures outcome.Failure? ==>
              r.next.benefitsList == s.benefitsList && r.next.error == Some(MessageOr(outcome.error, ListFallback))
  {
    var loading := Loading(s);
    var next := match outcome
      case Success(data) => loading.(benefitsList := data, isLoading := false)
      case Failure(e) => loading.(isLoading := false, error := Some(MessageOr(e, ListFallback)));
    Step(next, [Published(loading), ListRequested, Published(next)])
  }

  /** `fetchBenefitsDetail(id)`, given what the service yields. */
  function FetchDetailEffect(s: Snapshot, id: string, outcome: Result<BenefitsDetail, Thrown>): (r: Step)
    ensures r.events == [Published(Loading(s)), DetailRequested(id), Published(r.next)]
    ensures !r.next.isLoading && r.next.benefitsList == s.benefitsList
    ensures outcome.Success? ==> r.next.currentBenefits == Some(outcome.value) && r.next.error.None?
    ensures outcome.Failure? ==>
              r.next.currentBenefits == s.currentBenefits && r.next.error == Some(MessageOr(outcome.error, DetailFallback))
  {
    var loading := Loading(s);
    var next := match outcome
      case Success(data) => loading.(currentBenefits := Some(data), isLoading := false)
      case Failure(e) => loading.(isLoading := false, error := Some(MessageOr(e, DetailFallback)));
    Step(next, [Published(loading), DetailRequested(id), Published(next)])
  }

  // ---------------------------------------------------------------------
  // The list update of `saveBenefits`

  /** One item of the `.map`: a matching item takes the new patient name and
      insurance provider where those are non-empty. */
  function UpdateItem(item: BenefitsSummary, id: string, upd: BenefitsUpdate): BenefitsSummary
  {
    if item.id == id then
      item.(patientName := OrElse(upd.patientName, item.patientName),
            insuranceProvider := OrElse(upd.insuranceProvider, item.insuranceProvider))
    else item
  }

  /** `benefitsList.map(...)` for the record with the given id. */
  function ApplyUpdate(list: seq<BenefitsSummary>, id: string, upd: BenefitsUpdate): (r: seq<BenefitsSummary>)
    ensures |r| == |list|
    ensures forall i :: 0 <= i < |list| ==> r[i] == UpdateItem(list[i], id, upd)
  {
    seq(|list|, i requires 0 <= i < |list| => UpdateItem(list[i], id, upd))
  }

  /** Items with another id are unchanged; a matching item changes in its
      patient name and insurance provider only, each taking the new value
      when it is non-empty and keeping the old one otherwise. The ids, and
      so the order of the records, stay as they were. */
  lemma ApplyUpdateSpec(list: seq<BenefitsSummary>, id: string, upd: BenefitsUpdate, i: int)
    requires 0 <= i < |list|
    ensures var r := ApplyUpdate(list, id, upd);
            && r[i].id == list[i].id
            && (list[i].id != id ==> r[i] == list[i])
            && (list[i].id == id ==>
                  && r[i].memberId == list[i].memberId && r[i].callDate == list[i].callDate
                  && r[i].benefits == list[i].benefits
                  && (Truthy(upd.patientName) ==> r[i].patientName == upd.patientName.value)
                  && (!Truthy(upd.patientName) ==> r[i].patientName == list[i].patientName)
                  && (Truthy(upd.insuranceProvider) ==> r[i].insuranceProvider == upd.insuranceProvider.value)
                  && (!Truthy(upd.insuranceProvider) ==> r[i].insuranceProvider == list[i].insuranceProvider))
  {
  }

  /** An id that names no record leaves the list as it was. */
  lemma ApplyUpdateNoMatch(list: seq<BenefitsSummary>, id: string, upd: BenefitsUpdate)
    requires forall i :: 0 <= i < |list| ==> list[i].id != id
    ensures ApplyUpdate(list, id, upd) == list
  {
  }

  /** Applying the same update twice is the same as applying it once. */
  lemma ApplyUpdateIdempotent(list: seq<BenefitsSummary>, id: string, upd: BenefitsUpdate)
    ensures ApplyUpdate(ApplyUpdate(list, id, upd), id, upd) == ApplyUpdate(list, id, upd)
  {
    var once := ApplyUpdate(list, id, upd);
    forall i | 0 <= i < |list|
      ensures UpdateItem(once[i], id, upd) == once[i]
    {
      if list[i].id == id {
        assert OrElse(upd.patientName, once[i].patientName) == once[i].patientName;
        assert OrElse(upd.insuranceProvider, once[i].insuranceProvider) == once[i].insuranceProvider;
      }
    }
  }

  // ---------------------------------------------------------------------
  // saveBenefits

  datatype SaveStep = SaveStep(next: Snapshot, result: Result<string, Thrown>, events: seq<Event>)

  /** `saveBenefits(upd)`, given what the service's save yields and, for a
      new record, what the list refetch yields. */
  function SaveEffect(s: Snapshot, upd: BenefitsUpdate, save: Result<string, Thrown>,
                      refetch: Result<seq<BenefitsSummary>, Thrown>): (r: SaveStep)
    ensures |r.events| >= 3 && r.events[..2] == [Published(Loading(s)), SaveRequested(upd)]
    ensures r.next.currentBenefits == s.currentBenefits && !r.next.isLoading
    ensures save.Failure? ==>
              && r.result == save
              && r.next == s.(isLoading := false, error := Some(MessageOr(save.error, SaveFallback)))
              && r.events == [Published(Loading(s)), SaveRequested(upd), Published(r.next)]
    ensures save.Success? ==> r.result == save
    ensures save.Success? && Truthy(upd.id) ==>
              && r.next == s.(benefitsList := ApplyUpdate(s.benefitsList, upd.id.value, upd), isLoading := false, error := None)
              && r.events == [Published(Loading(s)), SaveRequested(upd), Published(r.next)]
    ensures save.Success? && !Truthy(upd.id) ==>
              var f := FetchListEffect(Loading(s), refetch);
              r.next == f.next && r.events == [Published(Loading(s)), SaveRequested(upd)] + f.events
  {
    var loading := Loading(s);
    var start := [Published(loading), SaveRequested(upd)];
    match save
    case Failure(e) =>
      var next := loading.(isLoading := false, error := Some(MessageOr(e, SaveFallback)));
      SaveStep(next, save, start + [Published(next)])
    case Success(id) =>
      if Truthy(upd.id) then
        var next := loading.(benefitsList := ApplyUpdate(loading.benefitsList, upd.id.value, upd), isLoading := false);
        SaveStep(next, save, start + [Published(next)])
      else
        var f := FetchListEffect(loading, refetch);
        SaveStep(f.next, save, start + f.events)
  }

  /** A failed save leaves the list and the viewed record as they were,
      ends the loading, records the message and hands the same error back
      to the caller. */
  lemma SaveFailureRestores(s: Snapshot, upd: BenefitsUpdate, e: Thrown, refetch: Result<seq<BenefitsSummary>, Thrown>)
    ensures var r := SaveEffect(s, upd, Failure(e), refetch);
            && r.result == Failure(e)
            && r.next.benefitsList == s.benefitsList
            && r.next.currentBenefits == s.currentBenefits
            && !r.next.isLoading
            && r.next.error == Some(MessageOr(e, SaveFallback))
            && ListRequested !in r.events
  {
  }

  /** Saving a new record (no id) never edits the list in place: the list
      afterwards is the refetched one, or the old one when the refetch
      fails; the refetch's own failure is recorded but does not make the
      save fail, and the caller receives the service's id either way. */
  lemma SaveNewRecordRefetches(s: Snapshot, upd: BenefitsUpdate, id: string, refetch: Result<seq<BenefitsSummary>, Thrown>)
    requires !Truthy(upd.id)
    ensures var r := SaveEffect(s, upd, Success(id), refetch);
            && r.result == Success(id)
            && ListRequested in r.events
            && (refetch.Success? ==> r.next.benefitsList == refetch.value && r.next.error.None?)
            && (refetch.Failure? ==>
                  r.next.benefitsList == s.benefitsList && r.next.error == Some(MessageOr(refetch.error, ListFallback)))
  {
    var r := SaveEffect(s, upd, Success(id), refetch);
    assert r.events[3] == ListRequested;
  }

  /** Saving an existing record updates the list in place, without asking
      the service for the list again, and keeps its length. */
  lemma SaveExistingEditsInPlace(s: Snapshot, upd: BenefitsUpdate, id: string, refetch: Result<seq<BenefitsSummary>, Thrown>)
    requires Truthy(upd.id)
    ensures var r := SaveEffect(s, upd, Success(id), refetch);
            && r.result == Success(id)
            && ListRequested !in r.events
            && |r.next.benefitsList| == |s.benefitsList|
            && r.next.error.None?
  {
  }

  /** Every request ends with the loading flag down and leaves the error
      empty exactly when the request succeeded. */
  lemma RequestsSettle(s: Snapshot, id: string, list: Result<seq<BenefitsSummary>, Thrown>, detail: Result<BenefitsDetail, Thrown>)
    ensures var f := FetchListEffect(s, list);
            !f.next.isLoading && (f.next.error.None? <==> list.Success?)
    ensures var d := FetchDetailEffect(s, id, detail);
            !d.next.isLoading && (d.next.error.None? <==> detail.Success?)
  {
  }

  // ---------------------------------------------------------------------
  // The store

  class Store {
    var benefitsList: seq<BenefitsSummary>
    var currentBenefits: Option<BenefitsDetail>
    var isLoading: bool
    var error: Option<string>
    /** Everything observed so far, oldest first. */
    ghost var trace: seq<Event>

    function State(): Snapshot
      reads this
    {
      Snapshot(benefitsList, currentBenefits, isLoading, error)
    }

    constructor ()
      ensures State() == Initial && trace == []
    {
      benefitsList, currentBenefits, isLoading, error := [], None, false, None;
      trace := [];
    }

    /** One `set()`. */
    method Publish(s: Snapshot)
      modifies this
      ensures State() == s && trace == old(trace) + [Published(s)]
    {
      benefitsList, currentBenefits, isLoading, error := s.benefitsList, s.currentBenefits, s.isLoading, s.error;
      trace := trace + [Published(s)];
    }

    /** `fetchBenefitsList()` */
    method FetchBenefitsList(outcome: Result<seq<BenefitsSummary>, Thrown>)
      modifies this
      ensures var r := FetchListEffect(old(State()), outcome);
              State() == r.next && trace == old(trace) + r.events
    {
      Publish(State().(isLoading := true, error := None));
      trace := trace + [ListRequested];
      match outcome {
        case Success(data) =>
          Publish(State().(benefitsList := data, isLoading := false));
        case Failure(e) =>
          Publish(State().(isLoading := false, error := Some(MessageOr(e, ListFallback))));
      }
    }

    /** `fetchBenefitsDetail(id)` */
    method FetchBenefitsDetail(id: string, outcome: Result<BenefitsDetail, Thrown>)
      modifies this
      ensures var r := FetchDetailEffect(old(State()), id, outcome);
              State() == r.next && trace == old(trace) + r.events
    {
      Publish(State().(isLoading := true, error := None));
      trace := trace + [DetailRequested(id)];
      match outcome {
        case Success(data) =>
          Publish(State().(currentBenefits := Some(data), isLoading := false));
        case Failure(e) =>
          Publish(State().(isLoading := false, error := Some(MessageOr(e, DetailFallback))));
      }
    }

    /** `saveBenefits(upd)`: the id on success, the service's error,
        rethrown, on failure. */
    method SaveBenefits(upd: BenefitsUpdate, save: Result<string, Thrown>, refetch: Result<seq<BenefitsSummary>, Thrown>)
      returns (r: Result<string, Thrown>)
      modifies this
      ensures var e := SaveEffect(old(State()), upd, save, refetch);
              State() == e.next && r == e.result && trace == old(trace) + e.events
    {
      Publish(State().(isLoading := true, error := None));
      trace := trace + [SaveRequested(upd)];
      match save {
        case Failure(e) =>
          Publish(State().(isLoading := false, error := Some(MessageOr(e, SaveFallback))));
          return save;
        case Success(id) =>
          if Truthy(upd.id) {
            Publish(State().(benefitsList := ApplyUpdate(benefitsList, upd.id.value, upd), isLoading := false));
          } else {
            FetchBenefitsList(refetch);
          }
          return Success(id);
      }
    }

    /** `clearCurrentBenefits()`: only the viewed record is cleared. */
    method ClearCurrentBenefits()
      modifies this
      ensures State() == old(State()).(currentBenefits := None)
      ensures trace == old(trace) + [Published(State())]
    {
      Publish(State().(currentBenefits := None));
    }

    /** `clearError()`: only the error is cleared. */
    method ClearError()
      modifies this
      ensures State() == old(State()).(error := None)
      ensures trace == old(trace) + [Published(State())]
    {
      Publish(State().(error := None));
    }
  }
}
