/** The invoice status table, and what it alone implies about the history of one invoice. */
module StateMachine {

  datatype Status =
    | Draft | Processing | Validated | Transmitting | Transmitted
    | Accepted | Rejected | Refused | Paid | Cancelled

  function Transitions(from: Status): set<Status> {
    match from
    case Draft => {Processing}
    case Processing => {Validated, Draft}
    case Validated => {Transmitting, Paid, Cancelled}
    case Transmitting => {Transmitted, Rejected, Validated}
    case Transmitted => {Accepted, Rejected, Refused, Paid}
    case Accepted => {Refused, Paid}
    case Rejected => {}
    case Refused => {}
    case Paid => {Cancelled}
    case Cancelled => {}
  }

  predicate CanTransition(from: Status, to: Status) {
    to in Transitions(from)
  }

  /** `validate_transition` accepts: the table first, then the block on invoices being processed. */
  predicate TransitionAccepted(from: Status, to: Status) {
    CanTransition(from, to) && !(from == Processing && to !in {Validated, Draft})
  }

  /** The second guard of `validate_transition` never decides anything the table has not decided. */
  lemma ProcessingBlockIsRedundant(from: Status, to: Status)
    ensures TransitionAccepted(from, to) <==> CanTransition(from, to)
  {
  }

  // ---------- trails: the status changes of one invoice, oldest first ----------

  datatype Link = Link(from: Status, to: Status)

  /** The write of the catch-all handler of `generate_and_validate_invoice` when it runs
      after VALIDATED was saved; it is not in the table. */
  predicate CrashLink(l: Link) {
    l == Link(Validated, Draft)
  }

  predicate TableLink(l: Link) {
    CanTransition(l.from, l.to)
  }

  predicate FallbackLink(l: Link) {
    l == Link(Processing, Draft) || l == Link(Transmitting, Validated)
  }

  /** An unbroken chain from DRAFT to `current`. */
  ghost predicate Chained(trail: seq<Link>, current: Status) {
    if trail == [] then current == Draft
    else
      var last := trail[|trail| - 1];
      last.to == current
      && (TableLink(last) || CrashLink(last))
      && Chained(trail[..|trail| - 1], last.from)
  }

  function Count(trail: seq<Link>, p: Link -> bool): nat {
    if trail == [] then 0
    else Count(trail[..|trail| - 1], p) + if p(trail[|trail| - 1]) then 1 else 0
  }

  /** Progress of an invoice along the lifecycle. */
  function Rank(s: Status): nat {
    match s
    case Draft => 0
    case Processing => 1
    case Validated => 2
    case Transmitting => 3
    case Transmitted => 4
    case Accepted => 5
    case Rejected => 6
    case Refused => 6
    case Paid => 6
    case Cancelled => 7
  }

  /** Every table link that is no fallback climbs, a fallback costs one rank and a crash two. */
  lemma {:induction false} TrailBound(trail: seq<Link>, current: Status)
    requires Chained(trail, current)
    ensures |trail| <= Rank(current) + 2 * Count(trail, FallbackLink) + 3 * Count(trail, CrashLink)
  {
    if trail != [] {
      var last := trail[|trail| - 1];
      TrailBound(trail[..|trail| - 1], last.from);
      assert FallbackLink(last) || CrashLink(last) || Rank(last.to) >= Rank(last.from) + 1;
    }
  }

  predicate Final(s: Status) {
    Transitions(s) == {}
  }

  /** A link that enters a status nothing but CANCELLED leaves is the last one, or the last but one. */
  lemma {:induction false} ClosingLink(trail: seq<Link>, current: Status, k: nat)
    requires Chained(trail, current) && k < |trail|
    ensures trail[k].to in {Rejected, Refused, Cancelled} ==> k == |trail| - 1 && current == trail[k].to
    ensures trail[k].to == Paid ==>
              (k == |trail| - 1 && current == Paid)
              || (k == |trail| - 2 && current == Cancelled && trail[k + 1] == Link(Paid, Cancelled))
  {
    if k < |trail| - 1 {
      ClosingLink(trail[..|trail| - 1], trail[|trail| - 1].from, k);
    }
  }

  /** No invoice is ever marked paid, or cancelled, twice. */
  lemma EntersOnce(trail: seq<Link>, current: Status, i: nat, j: nat)
    requires Chained(trail, current) && i < j < |trail|
    ensures !(trail[i].to == trail[j].to && trail[i].to in {Paid, Rejected, Refused, Cancelled})
  {
    ClosingLink(trail, current, i);
    ClosingLink(trail, current, j);
  }

  lemma ChainedExtend(trail: seq<Link>, l: Link)
    requires Chained(trail, l.from) && (TableLink(l) || CrashLink(l))
    ensures Chained(trail + [l], l.to)
  {
    assert (trail + [l])[..|trail|] == trail;
  }
}
