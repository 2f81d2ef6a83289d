/**
 * The application cards: which controls each record offers to an admin or
 * to an applicant, what clicking them asks the dashboard to do, the colour
 * a status is drawn in, and the message shown when the list is empty.
 */
module ApplicationsList {
  import opened JsSemantics
  import opened LoanRecords
  import Dashboard

  const ADMIN := "ADMIN"
  const TRY_OTHER_SEARCH := "Try a different search term"
  const NONE_WITH_STATUS := "No applications with this status"
  const NONE_YET := "You have no applications yet"

  datatype Control = ViewDocuments | Approve | Reject | DisburseLoan | PayEmis | ClosedChip

  /** The controls on one card, in the order they are drawn. */
  function Controls(role: string, status: string): (cs: seq<Control>)
    ensures ViewDocuments in cs <==> role == ADMIN
    ensures Approve in cs <==> role == ADMIN && status == PENDING
    ensures Reject in cs <==> role == ADMIN && status == PENDING
    ensures DisburseLoan in cs <==> role == ADMIN && status == APPROVED
    ensures PayEmis in cs <==> role != ADMIN && status == DISBURSED
    ensures ClosedChip in cs <==> role != ADMIN && status == CLOSED
  {
    if role == ADMIN then
      [ViewDocuments]
      + (if status == PENDING then [Approve, Reject] else [])
      + (if status == APPROVED then [DisburseLoan] else [])
    else
      (if status == DISBURSED then [PayEmis] else [])
      + (if status == CLOSED then [ClosedChip] else [])
  }

  /** A card never offers both a decision and a disbursal, nor EMIs on a
      closed loan, and admin and applicant controls never mix. */
  lemma ControlsExclusive(role: string, status: string)
    ensures !(Approve in Controls(role, status) && DisburseLoan in Controls(role, status))
    ensures !(PayEmis in Controls(role, status) && ClosedChip in Controls(role, status))
    ensures !(ViewDocuments in Controls(role, status) && PayEmis in Controls(role, status))
    ensures |Controls(role, status)| <= 3
  {
  }

  /** What a control asks the dashboard to do. */
  datatype Request =
    | FetchDocuments(applicationId: string)
    | StatusUpdate(applicationId: string, status: string)
    | Disburse(applicationId: string)
    | FetchEmis(applicationId: string)
    | NoRequest

  function Click(c: Control, app: LoanRecord): (r: Request)
    ensures c == Approve ==> r == StatusUpdate(app.applicationId, APPROVED)
    ensures c == Reject ==> r == StatusUpdate(app.applicationId, REJECTED)
    ensures c == DisburseLoan ==> r == Disburse(app.applicationId)
    ensures c == PayEmis ==> r == FetchEmis(app.applicationId)
    ensures c == ClosedChip ==> r == NoRequest
  {
    match c
    case ViewDocuments => FetchDocuments(app.applicationId)
    case Approve => StatusUpdate(app.applicationId, APPROVED)
    case Reject => StatusUpdate(app.applicationId, REJECTED)
    case DisburseLoan => Disburse(app.applicationId)
    case PayEmis => FetchEmis(app.applicationId)
    case ClosedChip => NoRequest
  }

  /** Every control a card offers acts on that card's own record. */
  lemma ClickTargetsOwnRecord(role: string, app: LoanRecord, c: Control)
    requires c in Controls(role, app.status) && c != ClosedChip
    ensures Click(c, app).applicationId == app.applicationId
  {
  }

  /** The Disburse button appears only on APPROVED cards, and the dashboard
      then sends that record's amount (when its id is not shadowed by an
      earlier record with the same id). */
  lemma DisburseButtonSendsAmount(apps: seq<LoanRecord>, i: nat)
    requires i < |apps|
    requires DisburseLoan in Controls(ADMIN, apps[i].status)
    requires forall j :: 0 <= j < i ==> apps[j].applicationId != apps[i].applicationId
    ensures Dashboard.DisburseFor(apps, apps[i].applicationId).Disburse?
    ensures Dashboard.DisburseFor(apps, apps[i].applicationId).amount == apps[i].loanAmount
  {
    Dashboard.DisburseGuard(apps, apps[i].applicationId, i);
  }

  /** The application form is offered to everyone but an admin. */
  predicate NewApplicationOffered(role: string): (offered: bool)
    ensures forall status :: offered <==> ViewDocuments !in Controls(role, status)
  {
    role != ADMIN
  }

  datatype Colour = Success | Error | Primary | Info | Warning

  /** The colour of a card's border and of its status chip. */
  function StatusColour(status: string): (c: Colour)
    ensures c == Success <==> status == APPROVED
    ensures c == Error <==> status == REJECTED
    ensures c == Primary <==> status == DISBURSED
    ensures c == Info <==> status == CLOSED
    ensures c == Warning <==> status !in {APPROVED, REJECTED, DISBURSED, CLOSED}
  {
    if status == APPROVED then Success
    else if status == REJECTED then Error
    else if status == DISBURSED then Primary
    else if status == CLOSED then Info
    else Warning
  }

  /** Pending and any unknown status look the same. */
  lemma UnknownStatusLooksPending(status: string)
    requires status !in {APPROVED, REJECTED, DISBURSED, CLOSED}
    ensures StatusColour(status) == StatusColour(PENDING)
  {
  }

  /** The hint under "No applications found": a search explains it first,
      then a status filter, else there are no applications at all. */
  function EmptyStateMessage(search: string, filter: string): (m: string)
    ensures search != "" ==> m == TRY_OTHER_SEARCH
    ensures search == "" && filter != Dashboard.ALL ==> m == NONE_WITH_STATUS
    ensures search == "" && filter == Dashboard.ALL ==> m == NONE_YET
  {
    if search != "" then TRY_OTHER_SEARCH
    else if filter != Dashboard.ALL then NONE_WITH_STATUS
    else NONE_YET
  }

  /** What the list shows for the records the dashboard passes it. */
  datatype ListView = EmptyState(message: string) | Cards(apps: seq<LoanRecord>)

  function View(all: seq<LoanRecord>, search: string, filter: string): (v: ListView)
    ensures v.EmptyState? <==> Dashboard.FilteredApplications(all, search, filter) == []
  {
    var shown := Dashboard.FilteredApplications(all, search, filter);
    if |shown| == 0 then EmptyState(EmptyStateMessage(search, filter)) else Cards(shown)
  }

  /** Without a search or filter, "no applications yet" appears exactly when
      there are no records, and otherwise every record gets a card. */
  lemma NoneYetOnlyWhenEmpty(all: seq<LoanRecord>)
    ensures View(all, "", Dashboard.ALL) == EmptyState(NONE_YET) <==> all == []
    ensures all != [] ==> View(all, "", Dashboard.ALL) == Cards(all)
  {
    Dashboard.FilterIdentity(all);
  }
}
