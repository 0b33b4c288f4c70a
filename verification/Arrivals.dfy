/** Whether the way lifecycle events arrive matters. */
module Arrivals {
  import opened StateMachine
  import opened Records
  import opened Tasks
  import opened Polling
  import opened Verdicts

  // ---------- one invoice in a poll ----------

  /** The events of invoice `id` that a poll processes. */
  function Mine(items: seq<Item>, seen: set<Item>, id: Id): (r: seq<Item>)
    ensures forall it :: it in r <==> it in items && it.id == id && it !in seen
  {
    if items == [] then []
    else
      var n := |items| - 1;
      assert items == items[..n] + [items[n]];
      Mine(items[..n], seen, id) + if items[n].id == id && items[n] !in seen then [items[n]] else []
  }

  lemma MineLast(items: seq<Item>, seen: set<Item>, id: Id)
    requires items != []
    ensures var n := |items| - 1;
            var mine := items[n].id == id && items[n] !in seen;
            && (mine ==> Mine(items, seen, id) == Mine(items[..n], seen, id) + [items[n]])
            && (!mine ==> Mine(items, seen, id) == Mine(items[..n], seen, id))
  {
  }

  /** A payment is recorded on the invoice. */
  predicate PaidFor(s: State, id: Id)
    requires id < |s.invoices|
  {
    s.invoices[id].paymentDate.Some?
  }

  /** Every poll, whatever else it holds, moves an invoice as its own fresh events say. */
  lemma {:induction false} DeliverFolds(s: State, seen: set<Item>, items: seq<Item>, today: int, id: Id)
    requires id < |s.invoices| && InRange(items, |s.invoices|)
    ensures var s' := Deliver(s, seen, items, today);
            && s'.invoices[id].status == StatusAfter(s.invoices[id].status, PaidFor(s, id), Mine(items, seen, id))
            && s'.invoices[id].paymentDate == s.invoices[id].paymentDate
  {
    if items != [] {
      var n := |items| - 1;
      assert items == items[..n] + [items[n]] && items[n] in items;
      DeliverFolds(s, seen, items[..n], today, id);
      hide Deliver, ProcessEvent, Mine, StatusAfter, Next;
      DeliverOneMore(s, seen, items[..n], items[n], today);
      MineLast(items, seen, id);
      var before := Deliver(s, seen, items[..n], today);
      if items[n].id != id {
        ProcessElsewhere(before, items[n].id, items[n].event, today, id);
      } else if items[n] !in seen {
        EventFolds(before, id, items[n].event, today);
        FoldOneMore(s.invoices[id].status, PaidFor(s, id), Mine(items[..n], seen, id), items[n]);
      }
    }
  }

  lemma EventFolds(s: State, id: Id, ev: Event, today: int)
    requires id < |s.invoices|
    ensures var inv := ProcessEvent(s, id, ev, today).invoices[id];
            && inv.status == Next(s.invoices[id].status, PaidFor(s, id), ev.code)
            && inv.paymentDate == s.invoices[id].paymentDate
  {
  }

  /** A batch of fresh events of one invoice is a fold over the codes. */
  lemma StatusOfBatch(s: State, seen: set<Item>, items: seq<Item>, today: int, id: Id)
    requires id < |s.invoices| && InRange(items, |s.invoices|)
    requires forall it | it in items :: it.id == id && it !in seen
    ensures Deliver(s, seen, items, today).invoices[id].status
         == StatusAfter(s.invoices[id].status, PaidFor(s, id), items)
  {
    DeliverFolds(s, seen, items, today, id);
    MineAll(items, seen, id);
  }

  // ---------- a poll ----------

  predicate InTransmission(s: State, id: Id) {
    id < |s.invoices| && s.invoices[id].status == Transmitting
  }

  /** Polled in ascending code order, the fresh codes of an invoice in transmission decide its status
      as a set, whatever the repetitions and whatever else the poll brings. */
  lemma PollVerdict(s: State, items: seq<Item>, today: int, id: Id)
    requires InTransmission(s, id) && InRange(items, |s.invoices|)
    requires Ascending(Mine(items, SeenKeys(s.logs), id))
    ensures Ingest(s, items, today).invoices[id].status == Verdict(PaidFor(s, id), Mine(items, SeenKeys(s.logs), id))
  {
    DeliverFolds(s, SeenKeys(s.logs), items, today, id);
    AscendingVerdict(PaidFor(s, id), Mine(items, SeenKeys(s.logs), id));
  }

  lemma {:induction false} MinePermuted(items: seq<Item>, seen: set<Item>, id: Id)
    ensures multiset(Mine(items, seen, id)) == multiset(items) - multiset(Others(items, seen, id))
    ensures multiset(Others(items, seen, id)) <= multiset(items)
  {
    if items != [] {
      var n := |items| - 1;
      assert items == items[..n] + [items[n]];
      MinePermuted(items[..n], seen, id);
    }
  }

  function Others(items: seq<Item>, seen: set<Item>, id: Id): (r: seq<Item>)
    ensures forall it :: it in r <==> it in items && !(it.id == id && it !in seen)
  {
    if items == [] then []
    else
      var n := |items| - 1;
      assert items == items[..n] + [items[n]];
      Others(items[..n], seen, id) + if items[n].id == id && items[n] !in seen then [] else [items[n]]
  }

  lemma {:induction false} MineCounts(items: seq<Item>, seen: set<Item>, id: Id, it: Item)
    ensures multiset(Mine(items, seen, id))[it] == if it.id == id && it !in seen then multiset(items)[it] else 0
  {
    if items != [] {
      var n := |items| - 1;
      assert items == items[..n] + [items[n]];
      MineCounts(items[..n], seen, id, it);
    }
  }

  lemma {:induction false} MineConcat(a: seq<Item>, b: seq<Item>, seen: set<Item>, id: Id)
    ensures Mine(a + b, seen, id) == Mine(a, seen, id) + Mine(b, seen, id)
  {
    hide *;
    if b == [] {
      MineNothing(a, seen, id);
    } else {
      var front, last := b[..|b| - 1], b[|b| - 1];
      MineConcat(a, front, seen, id);
      MineConcatStep(a, front, last, b, seen, id);
    }
  }

  lemma MineNothing(a: seq<Item>, seen: set<Item>, id: Id)
    ensures Mine(a + [], seen, id) == Mine(a, seen, id) + Mine([], seen, id)
  {
    assert a + [] == a;
  }

  lemma MineOneMore(items: seq<Item>, it: Item, seen: set<Item>, id: Id)
    ensures Mine(items + [it], seen, id) == Mine(items, seen, id) + if it.id == id && it !in seen then [it] else []
  {
    assert (items + [it])[..|items|] == items;
  }

  lemma MineConcatStep(a: seq<Item>, b: seq<Item>, last: Item, c: seq<Item>, seen: set<Item>, id: Id)
    requires Mine(a + b, seen, id) == Mine(a, seen, id) + Mine(b, seen, id) && c == b + [last]
    ensures Mine(a + c, seen, id) == Mine(a, seen, id) + Mine(c, seen, id)
  {
    hide Mine;
    Reassociate(a, b, [last]);
    MineOneMore(a + b, last, seen, id);
    MineOneMore(b, last, seen, id);
    Reassociate(Mine(a, seen, id), Mine(b, seen, id), if last.id == id && last !in seen then [last] else []);
  }

  lemma {:induction false} MineAll(items: seq<Item>, seen: set<Item>, id: Id)
    ensures (forall it | it in items :: it.id == id && it !in seen) ==> Mine(items, seen, id) == items
    ensures (forall it | it in items :: !(it.id == id && it !in seen)) ==> Mine(items, seen, id) == []
  {
    if items != [] {
      var n := |items| - 1;
      assert items == items[..n] + [items[n]] && items[n] in items;
      MineAll(items[..n], seen, id);
    }
  }

  lemma RangePermuted(a: seq<Item>, b: seq<Item>, n: nat)
    requires multiset(a) == multiset(b) && InRange(a, n)
    ensures InRange(b, n)
  {
    assert forall it | it in b :: it in multiset(b);
    assert forall it | it in multiset(a) :: it in a;
  }

  /** The answer reordered so that the invoice's events come first, in the order `mine`. */
  lemma Rearranged(items: seq<Item>, mine: seq<Item>, seen: set<Item>, id: Id) returns (items': seq<Item>)
    requires multiset(mine) == multiset(Mine(items, seen, id))
    ensures multiset(items') == multiset(items) && Mine(items', seen, id) == mine
  {
    var rest := Others(items, seen, id);
    items' := mine + rest;
    MinePermuted(items, seen, id);
    hide Mine, Others;
    assert forall it | it in mine :: it in multiset(mine);
    assert forall it | it in multiset(Mine(items, seen, id)) :: it in Mine(items, seen, id);
    MineThenOthers(mine, rest, seen, id);
  }

  lemma MineThenOthers(mine: seq<Item>, rest: seq<Item>, seen: set<Item>, id: Id)
    requires forall it | it in mine :: it.id == id && it !in seen
    requires forall it | it in rest :: !(it.id == id && it !in seen)
    ensures Mine(mine + rest, seen, id) == mine
  {
    hide Mine;
    MineConcat(mine, rest, seen, id);
    MineAll(mine, seen, id);
    MineAll(rest, seen, id);
    assert mine + [] == mine;
  }

  /** All orders in which a poll may list its events, on whatever day, leave invoice `id` in the same status. */
  ghost predicate OrderFree(s: State, items: seq<Item>, id: Id)
    requires id < |s.invoices|
  {
    forall a, b, day, day' |
      multiset(a) == multiset(items) && multiset(b) == multiset(items)
      && InRange(a, |s.invoices|) && InRange(b, |s.invoices|) ::
      Ingest(s, a, day).invoices[id].status == Ingest(s, b, day').invoices[id].status
  }

  lemma MineOfPermuted(a: seq<Item>, b: seq<Item>, seen: set<Item>, id: Id)
    requires multiset(a) == multiset(b)
    ensures multiset(Mine(a, seen, id)) == multiset(Mine(b, seen, id))
  {
    forall it ensures multiset(Mine(a, seen, id))[it] == multiset(Mine(b, seen, id))[it] {
      MineCounts(a, seen, id, it);
      MineCounts(b, seen, id, it);
    }
  }

  /** The order in which a poll lists its events is irrelevant to an invoice in transmission if and only
      if its fresh events do not hold a deposit together with an acceptance or a refusal or, when it was
      paid for beforehand, with a rejection; the codes alone then decide. */
  lemma PollOrderIff(s: State, items: seq<Item>, today: int, id: Id)
    requires InTransmission(s, id) && InRange(items, |s.invoices|)
    ensures var paid, mine := PaidFor(s, id), Mine(items, SeenKeys(s.logs), id);
            && (OrderFree(s, items, id) <==> !OrderCounts(paid, mine))
            && (!OrderCounts(paid, mine) ==> Ingest(s, items, today).invoices[id].status == Verdict(paid, mine))
  {
    var seen := SeenKeys(s.logs);
    var paid, mine := PaidFor(s, id), Mine(items, seen, id);
    hide Deliver, SeenKeys, StatusAfter, Verdict, OrderCounts, Mine;
    ReorderIff(paid, mine);
    DeliverFolds(s, seen, items, today, id);
    if OrderFree(s, items, id) {
      forall a, b | multiset(a) == multiset(mine) && multiset(b) == multiset(mine)
        ensures StatusAfter(Transmitting, paid, a) == StatusAfter(Transmitting, paid, b)
      {
        var a' := Rearranged(items, a, seen, id);
        var b' := Rearranged(items, b, seen, id);
        RangePermuted(items, a', |s.invoices|);
        RangePermuted(items, b', |s.invoices|);
        DeliverFolds(s, seen, a', today, id);
        DeliverFolds(s, seen, b', today, id);
        assert Ingest(s, a', today).invoices[id].status == Ingest(s, b', today).invoices[id].status;
      }
    }
    if Reorderable(paid, mine) {
      forall a, b, day, day' |
        multiset(a) == multiset(items) && multiset(b) == multiset(items)
        && InRange(a, |s.invoices|) && InRange(b, |s.invoices|)
        ensures Ingest(s, a, day).invoices[id].status == Ingest(s, b, day').invoices[id].status
      {
        DeliverFolds(s, seen, a, day, id);
        DeliverFolds(s, seen, b, day', id);
        MineOfPermuted(a, items, seen, id);
        MineOfPermuted(b, items, seen, id);
      }
    }
  }

  // ---------- a series of polls ----------

  predicate AllInRange(batches: seq<seq<Item>>, n: nat) {
    forall k | 0 <= k < |batches| :: InRange(batches[k], n)
  }

  /** The polls in turn, the `k`-th on day `days(k)`. */
  function IngestAll(s: State, batches: seq<seq<Item>>, days: nat -> int): (r: State)
    requires AllInRange(batches, |s.invoices|)
    ensures |r.invoices| == |s.invoices|
  {
    if batches == [] then s
    else
      var n := |batches| - 1;
      Ingest(IngestAll(s, batches[..n], days), batches[n], days(n))
  }

  function Keys(items: seq<Item>): set<Item> {
    set it | it in items
  }

  /** All keys of the batches. */
  function KeysOf(batches: seq<seq<Item>>): set<Item> {
    if batches == [] then {}
    else KeysOf(batches[..|batches| - 1]) + Keys(batches[|batches| - 1])
  }

  /** The events of an invoice in the order the polls first process them. */
  function Arrived(batches: seq<seq<Item>>, seen: set<Item>, id: Id): seq<Item> {
    if batches == [] then []
    else
      var before := batches[..|batches| - 1];
      Arrived(before, seen, id) + Mine(batches[|batches| - 1], seen + KeysOf(before), id)
  }

  /** A series of polls, answers overlapping or not, folds the codes in their order of arrival. */
  lemma {:induction false} PollsFold(s: State, batches: seq<seq<Item>>, days: nat -> int, id: Id)
    requires AllInRange(batches, |s.invoices|) && id < |s.invoices|
    ensures var s', seen := IngestAll(s, batches, days), SeenKeys(s.logs);
            && SeenKeys(s'.logs) == seen + KeysOf(batches)
            && s'.invoices[id].status
               == StatusAfter(s.invoices[id].status, PaidFor(s, id), Arrived(batches, seen, id))
            && s'.invoices[id].paymentDate == s.invoices[id].paymentDate
  {
    if batches != [] {
      hide Deliver, SeenKeys, StatusAfter, Mine;
      var n := |batches| - 1;
      var before, last := batches[..n], batches[n];
      var s', seen := IngestAll(s, before, days), SeenKeys(s.logs);
      PollsFold(s, before, days, id);
      DeliverLogs(s', SeenKeys(s'.logs), last, days(n));
      DeliverFolds(s', SeenKeys(s'.logs), last, days(n), id);
      FoldConcat(s.invoices[id].status, PaidFor(s, id), Arrived(before, seen, id),
                 Mine(last, seen + KeysOf(before), id));
    }
  }

  lemma {:induction false} ArrivedKeys(batches: seq<seq<Item>>, seen: set<Item>, id: Id, it: Item)
    ensures it in Arrived(batches, seen, id) <==> it.id == id && it !in seen && it in KeysOf(batches)
  {
    if batches != [] {
      ArrivedKeys(batches[..|batches| - 1], seen, id, it);
    }
  }

  /** Two series of polls that bring an invoice in transmission the same fresh keys, however split,
      overlapping and ordered, and on whatever days, leave it in the same status unless the order of
      those keys counts. */
  lemma SplitIrrelevant(s: State, a: seq<seq<Item>>, b: seq<seq<Item>>, days: nat -> int, days': nat -> int, id: Id)
    requires InTransmission(s, id) && AllInRange(a, |s.invoices|) && AllInRange(b, |s.invoices|)
    requires forall it: Item | it.id == id && it !in SeenKeys(s.logs) :: it in KeysOf(a) <==> it in KeysOf(b)
    requires !OrderCounts(PaidFor(s, id), Arrived(a, SeenKeys(s.logs), id))
    ensures IngestAll(s, a, days).invoices[id].status == IngestAll(s, b, days').invoices[id].status
         == Verdict(PaidFor(s, id), Arrived(a, SeenKeys(s.logs), id))
  {
    var seen, paid := SeenKeys(s.logs), PaidFor(s, id);
    var x, y := Arrived(a, seen, id), Arrived(b, seen, id);
    hide Arrived, IngestAll, SeenKeys, StatusAfter;
    PollsFold(s, a, days, id);
    PollsFold(s, b, days', id);
    forall it ensures it in x <==> it in y {
      ArrivedKeys(a, seen, id, it);
      ArrivedKeys(b, seen, id, it);
    }
    assert forall code :: Has(x, code) <==> Has(y, code);
    assert Verdict(paid, x) == Verdict(paid, y);
    FreeFold(paid, x);
    FreeFold(paid, y);
  }

  /** All series of polls with the keys of `a`, however split, repeated and ordered, and on whatever days,
      leave the invoice in the same status. */
  ghost predicate ArrivalFree(s: State, a: seq<seq<Item>>, id: Id)
    requires id < |s.invoices|
  {
    forall b, c, days, days' |
      AllInRange(b, |s.invoices|) && AllInRange(c, |s.invoices|) && KeysOf(b) == KeysOf(a) && KeysOf(c) == KeysOf(a) ::
      IngestAll(s, b, days).invoices[id].status == IngestAll(s, c, days').invoices[id].status
  }

  /** Polls with the keys of `a` by which the invoice's events arrive in the order `first`. */
  lemma Replayed(s: State, a: seq<seq<Item>>, first: seq<Item>, days: nat -> int, id: Id) returns (b: seq<seq<Item>>)
    requires InTransmission(s, id) && AllInRange(a, |s.invoices|)
    requires multiset(first) == multiset(Arrived(a, SeenKeys(s.logs), id))
    ensures AllInRange(b, |s.invoices|) && KeysOf(b) == KeysOf(a)
    ensures IngestAll(s, b, days).invoices[id].status == StatusAfter(Transmitting, PaidFor(s, id), first)
  {
    hide IngestAll, SeenKeys, StatusAfter, Arrived, Mine;
    var seen := SeenKeys(s.logs);
    var arrived := Arrived(a, seen, id);
    forall it | it in first ensures it.id == id && it !in seen && it in KeysOf(a) {
      assert it in multiset(first) && it in arrived;
      ArrivedKeys(a, seen, id, it);
    }
    b := [first] + a;
    assert AllInRange([first], |s.invoices|);
    assert KeysOf([first]) == Keys(first) by { assert [first][..0] == []; }
    KeysSplit([first], a);
    assert KeysOf([first] + a) == KeysOf(a);
    PollsFold(s, b, days, id);
    ArrivedSplit([first], a, seen, id);
    ArrivedOnce(first, seen, id);
    var later := Arrived(a, seen + KeysOf([first]), id);
    forall it ensures it !in later {
      ArrivedKeys(a, seen + KeysOf([first]), id, it);
      ArrivedKeys(a, seen, id, it);
      assert it in arrived <==> it in multiset(first);
    }
    SomeElement(later);
    assert first + [] == first;
  }

  lemma SomeElement(items: seq<Item>)
    ensures items == [] || exists it :: it in items
  {
    assert items == [] || items[0] in items;
  }

  lemma ArrivedOnce(items: seq<Item>, seen: set<Item>, id: Id)
    requires forall it | it in items :: it.id == id && it !in seen
    ensures Arrived([items], seen, id) == items
  {
    MineAll(items, seen + KeysOf([]), id);
    assert [items][..0] == [];
  }

  /** The way events arrive is irrelevant to an invoice in transmission if and only if those that reach
      it do not hold a deposit together with an acceptance or a refusal or, when it was paid for
      beforehand, with a rejection; the codes alone then decide. */
  lemma ArrivalFreeIff(s: State, a: seq<seq<Item>>, days: nat -> int, id: Id)
    requires InTransmission(s, id) && AllInRange(a, |s.invoices|)
    ensures var paid, arrived := PaidFor(s, id), Arrived(a, SeenKeys(s.logs), id);
            && (ArrivalFree(s, a, id) <==> !OrderCounts(paid, arrived))
            && (!OrderCounts(paid, arrived) ==>
                  IngestAll(s, a, days).invoices[id].status == Verdict(paid, arrived))
  {
    var paid, arrived := PaidFor(s, id), Arrived(a, SeenKeys(s.logs), id);
    hide IngestAll, SeenKeys, Arrived, StatusAfter, Verdict, EarlyFirst, InOrder;
    if OrderCounts(paid, arrived) {
      EarlyFirstLoses(paid, arrived);
      InOrderDecides(paid, arrived);
      var b := Replayed(s, a, EarlyFirst(paid, arrived), days, id);
      var c := Replayed(s, a, InOrder(arrived), days, id);
      assert IngestAll(s, b, days).invoices[id].status != IngestAll(s, c, days).invoices[id].status;
    } else {
      SplitIrrelevant(s, a, a, days, days, id);
      forall b, c, days, days' |
        AllInRange(b, |s.invoices|) && AllInRange(c, |s.invoices|) && KeysOf(b) == KeysOf(a) && KeysOf(c) == KeysOf(a)
        ensures IngestAll(s, b, days).invoices[id].status == IngestAll(s, c, days').invoices[id].status
      {
        SplitIrrelevant(s, a, b, days, days, id);
        SplitIrrelevant(s, a, c, days, days', id);
      }
    }
  }

  /** An invoice paid for beforehand is decided by whichever of deposit and rejection arrives first: once
      deposited it ends PAID, even when the platform rejects it afterwards. */
  lemma PaidForIsDecidedFirst(s: State, polls: seq<seq<Item>>, days: nat -> int, id: Id,
                              before: seq<Item>, first: Item, rest: seq<Item>)
    requires InTransmission(s, id) && PaidFor(s, id) && AllInRange(polls, |s.invoices|)
    requires Arrived(polls, SeenKeys(s.logs), id) == before + [first] + rest
    requires !Has(before, "200") && !Has(before, "213") && first.event.code in {"200", "213"}
    ensures IngestAll(s, polls, days).invoices[id].status == if first.event.code == "200" then Paid else Rejected
  {
    hide IngestAll, SeenKeys, Arrived, StatusAfter, Has;
    PollsFold(s, polls, days, id);
    FirstDecides(before, first, rest);
  }

  /** An acceptance or a refusal of an unpaid invoice polled before the deposit is logged and lost: polls
      that bring only such verdicts, then any that bring none anew, end in REJECTED or TRANSMITTED or
      nowhere. */
  lemma EarlyVerdictIsLost(s: State, early: seq<seq<Item>>, late: seq<seq<Item>>, days: nat -> int, id: Id)
    requires InTransmission(s, id) && !PaidFor(s, id)
    requires AllInRange(early, |s.invoices|) && AllInRange(early + late, |s.invoices|)
    requires forall it | it in KeysOf(early) && it.id == id :: it.event.code in JUDGED
    requires forall it | it in KeysOf(late) && it.id == id && it.event.code in JUDGED ::
               it in SeenKeys(s.logs) + KeysOf(early)
    ensures var arrived := Arrived(early + late, SeenKeys(s.logs), id);
            IngestAll(s, early + late, days).invoices[id].status
            == if Has(arrived, "213") then Rejected else if Has(arrived, "200") then Transmitted else Transmitting
  {
    hide IngestAll, SeenKeys, Arrived, StatusAfter, Has, AllInRange;
    PollsFold(s, early + late, days, id);
    var seen := SeenKeys(s.logs);
    ArrivedSplit(early, late, seen, id);
    KeysSplit(early, late);
    var x, y := Arrived(early, seen, id), Arrived(late, seen + KeysOf(early), id);
    forall it | it in x ensures it.event.code in JUDGED {
      ArrivedKeys(early, seen, id, it);
    }
    forall it | it in y ensures it.event.code !in JUDGED {
      ArrivedKeys(late, seen + KeysOf(early), id, it);
    }
    JudgedThenOthers(x, y);
  }

  lemma ArrivedLast(batches: seq<seq<Item>>, last: seq<Item>, seen: set<Item>, id: Id)
    ensures KeysOf(batches + [last]) == KeysOf(batches) + Keys(last)
    ensures Arrived(batches + [last], seen, id) == Arrived(batches, seen, id) + Mine(last, seen + KeysOf(batches), id)
  {
    assert (batches + [last])[..|batches|] == batches;
  }

  lemma {:induction false} KeysSplit(a: seq<seq<Item>>, b: seq<seq<Item>>)
    ensures KeysOf(a + b) == KeysOf(a) + KeysOf(b)
  {
    if b == [] {
      assert a + b == a;
    } else {
      var b', last := b[..|b| - 1], b[|b| - 1];
      hide Keys;
      KeysSplit(a, b');
      assert (a + b)[..|a + b| - 1] == a + b';
    }
  }

  lemma ArrivedNothing(a: seq<seq<Item>>, seen: set<Item>, id: Id)
    ensures Arrived(a + [], seen, id) == Arrived(a, seen, id) + Arrived([], seen + KeysOf(a), id)
  {
    assert a + [] == a;
  }

  lemma ArrivedSplitStep(a: seq<seq<Item>>, b: seq<seq<Item>>, last: seq<Item>, c: seq<seq<Item>>,
                         seen: set<Item>, id: Id)
    requires Arrived(a + b, seen, id) == Arrived(a, seen, id) + Arrived(b, seen + KeysOf(a), id) && c == b + [last]
    ensures Arrived(a + c, seen, id) == Arrived(a, seen, id) + Arrived(c, seen + KeysOf(a), id)
  {
    hide Mine, KeysOf, Arrived;
    Reassociate(a, b, [last]);
    KeysSplit(a, b);
    assert seen + KeysOf(a + b) == seen + KeysOf(a) + KeysOf(b);
    ArrivedLast(a + b, last, seen, id);
    ArrivedLast(b, last, seen + KeysOf(a), id);
    Reassociate(Arrived(a, seen, id), Arrived(b, seen + KeysOf(a), id), Mine(last, seen + KeysOf(a + b), id));
  }

  lemma {:induction false} ArrivedSplit(a: seq<seq<Item>>, b: seq<seq<Item>>, seen: set<Item>, id: Id)
    ensures Arrived(a + b, seen, id) == Arrived(a, seen, id) + Arrived(b, seen + KeysOf(a), id)
  {
    hide *;
    if b == [] {
      ArrivedNothing(a, seen, id);
    } else {
      var front, last := b[..|b| - 1], b[|b| - 1];
      ArrivedSplit(a, front, seen, id);
      ArrivedSplitStep(a, front, last, b, seen, id);
    }
  }

  lemma Reassociate<T>(a: seq<T>, b: seq<T>, c: seq<T>)
    ensures (a + b) + c == a + (b + c)
  {
  }

  /** The shortest such polls: the same two events polled together in code order are both applied. */
  lemma EarlyAcceptanceIsLost(s: State, id: Id, at: string, at': string, day: int, later: int, once: int)
    requires InTransmission(s, id) && !PaidFor(s, id)
    requires Item(id, Event("200", at)) !in SeenKeys(s.logs) && Item(id, Event("201", at')) !in SeenKeys(s.logs)
    ensures var deposited, accepted := Item(id, Event("200", at)), Item(id, Event("201", at'));
            && Ingest(Ingest(s, [accepted], day), [deposited, accepted], later).invoices[id].status == Transmitted
            && Ingest(s, [deposited, accepted], once).invoices[id].status == Accepted
  {
    var deposited, accepted := Item(id, Event("200", at)), Item(id, Event("201", at'));
    var seen := SeenKeys(s.logs);
    hide Deliver, SeenKeys, StatusAfter, Mine;
    CodesDiffer();
    var s' := Ingest(s, [accepted], day);
    DeliverLogs(s, seen, [accepted], day);
    DeliverFolds(s, seen, [accepted], day, id);
    MineAll([accepted], seen, id);
    ShortFolds(deposited, accepted);
    DeliverFolds(s', SeenKeys(s'.logs), [deposited, accepted], later, id);
    MineAll([deposited], SeenKeys(s'.logs), id);
    MineAll([accepted], SeenKeys(s'.logs), id);
    MineConcat([deposited], [accepted], SeenKeys(s'.logs), id);
    assert [deposited] + [accepted] == [deposited, accepted] && [deposited] + [] == [deposited];
    DeliverFolds(s, seen, [deposited, accepted], once, id);
    MineAll([deposited, accepted], seen, id);
  }

  lemma ShortFolds(deposited: Item, accepted: Item)
    requires deposited.event.code == "200" && accepted.event.code == "201"
    ensures StatusAfter(Transmitting, false, [accepted]) == Transmitting
    ensures StatusAfter(Transmitting, false, [deposited]) == Transmitted
    ensures StatusAfter(Transmitting, false, [deposited, accepted]) == Accepted
  {
    CodesDiffer();
    assert [deposited, accepted][..1] == [deposited] && [deposited][..0] == [] && [accepted][..0] == [];
  }
}
