/** The database rows of the invoice workflow and the few writes every service is made of. */
module Records {
  import opened Wrappers
  import opened StateMachine

  /** Primary key of an invoice: rows are never removed, so it is the creation rank. */
  type Id = nat

  datatype Supplier = Supplier(id: nat, siren: string)

  /** `en16931_data`: the fields the workflow reads or writes; amounts in cents, the rest opaque. */
  datatype Snapshot = Snapshot(
    gross: Option<int>,
    prepayment: Option<int>,
    amountDue: Option<int>,
    invoiceNumber: string,
    typeCode: string,
    precedingReference: string,
    rest: string)

  datatype Invoice = Invoice(
    org: nat,
    supplier: Supplier,
    number: string,
    status: Status,
    total: Option<int>,
    data: Snapshot,
    externalId: Option<string>,
    preceding: Option<Id>,
    deleted: bool,
    version: nat,
    paymentDate: Option<int>,
    paymentReference: string,
    paymentAmount: Option<int>,
    transmissionId: string,
    pdpStatus: string)

  /** The `details` of a status change that later code or a reader depends on. */
  datatype Cause =
    | ByUser
    | CeleryTask
    | CdarPoll(code: string)
    | FlowFallback
    | CreditNoteValidated(creditNote: Id)
    | Failure(kind: string)
    | Payment(source: string, date: Option<int>, reference: string, amount: Option<int>)

  datatype Log =
    | Created(id: Id)
    | DataUpdate(id: Id)
    | Delete(id: Id)
    | FlowSubmitted(id: Id, flowId: string)
    | CdarEvent(id: Id, code: string, at: string)
    | StatusChange(id: Id, from: Status, to: Status, why: Cause)

  datatype TxnStatus = TxnCreated | TxnPending | TxnConfirmed | TxnFailed

  datatype Txn = Txn(provider: string, paymentId: string, invoice: Id, amount: int, status: TxnStatus, url: string)

  /** A numbering counter is found by the supplier of its sequence and the resolved prefix. */
  datatype Series = Series(supplier: nat, prefix: string)

  datatype State = State(
    invoices: seq<Invoice>,
    logs: seq<Log>,
    counters: map<Series, nat>,
    events: set<string>,
    txns: seq<Txn>)

  /** How a service call ends: normally, or with the exception it raises. */
  datatype Outcome = Done | Skipped | NotFound | ConflictError | ValueError | IntegrityError

  datatype Effect = Effect(after: State, out: Outcome)

  const EMPTY := State([], [], map[], {}, [])
  const CREDIT_NOTE_TYPE_CODE := "381"

  /** `_sync_denormalized_fields`, run by every `Invoice.save`. */
  function Sync(inv: Invoice): Invoice {
    inv.(total := inv.data.gross)
  }

  // ---------- uniqueness constraints ----------

  predicate Compatible(a: Invoice, b: Invoice) {
    && !(a.number != "" && a.number == b.number && a.supplier.id == b.supplier.id)
    && !(a.externalId.Some? && a.externalId == b.externalId && a.org == b.org)
  }

  /** The database accepts `inv` as row `id`. */
  predicate Admits(invoices: seq<Invoice>, id: Id, inv: Invoice) {
    forall j | 0 <= j < |invoices| :: j != id ==> Compatible(inv, invoices[j])
  }

  // ---------- elementary writes ----------

  function Add(s: State, inv: Invoice): State {
    s.(invoices := s.invoices + [inv], logs := s.logs + [Created(|s.invoices|)])
  }

  function Save(s: State, id: Id, inv: Invoice): State
    requires id < |s.invoices|
  {
    s.(invoices := s.invoices[id := inv])
  }

  function Note(s: State, l: Log): State {
    s.(logs := s.logs + [l])
  }

  /** Save row `id` as `inv` in status `to`, then append the STATUS_CHANGE row. */
  function Move(s: State, id: Id, inv: Invoice, to: Status, why: Cause): State
    requires id < |s.invoices|
  {
    Note(Save(s, id, inv.(status := to)), StatusChange(id, s.invoices[id].status, to, why))
  }

  // ---------- lookups ----------

  /** The queryset of the API: the row exists and is not soft-deleted. */
  predicate Visible(s: State, id: Id) {
    id < |s.invoices| && !s.invoices[id].deleted
  }

  /** `.first()` of a queryset in the default order, newest row first. */
  function Newest(invoices: seq<Invoice>, p: Invoice -> bool): (r: Option<Id>)
    ensures r.Some? ==> r.value < |invoices| && p(invoices[r.value])
    ensures r.Some? ==> forall j | r.value < j < |invoices| :: !p(invoices[j])
    ensures r.None? ==> forall j | 0 <= j < |invoices| :: !p(invoices[j])
  {
    if invoices == [] then None
    else if p(invoices[|invoices| - 1]) then Some(|invoices| - 1)
    else Newest(invoices[..|invoices| - 1], p)
  }

  function FirstTxn(txns: seq<Txn>, p: Txn -> bool): (r: Option<nat>)
    ensures r.Some? ==> r.value < |txns| && p(txns[r.value])
    ensures r.Some? ==> forall j | 0 <= j < r.value :: !p(txns[j])
    ensures r.None? ==> forall j | 0 <= j < |txns| :: !p(txns[j])
  {
    if txns == [] then None
    else
      var r := FirstTxn(txns[..|txns| - 1], p);
      if r.Some? then r
      else if p(txns[|txns| - 1]) then Some(|txns| - 1) else None
  }

  /** The status changes of invoice `id`, oldest first. */
  function Trail(logs: seq<Log>, id: Id): seq<Link> {
    if logs == [] then []
    else
      var rest, l := Trail(logs[..|logs| - 1], id), logs[|logs| - 1];
      if l.StatusChange? && l.id == id then rest + [Link(l.from, l.to)] else rest
  }

  lemma TrailNote(logs: seq<Log>, l: Log, id: Id)
    ensures Trail(logs + [l], id)
         == if l.StatusChange? && l.id == id then Trail(logs, id) + [Link(l.from, l.to)] else Trail(logs, id)
  {
    assert (logs + [l])[..|logs|] == logs;
  }
}
