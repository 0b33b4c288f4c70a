/** What the codes of a series of lifecycle events make of an invoice in transmission. */
module Verdicts {
  import opened StateMachine
  import opened Tasks

  // ---------- the fold ----------

  /** The status an event leads to; an invoice paid for beforehand goes on to PAID where it can. */
  function Next(st: Status, paid: bool, code: string): Status {
    if !Applies(st, code) then st
    else
      var to := CdarStatus(code).value;
      if paid && CanTransition(to, Paid) then Paid else to
  }

  function StatusAfter(st: Status, paid: bool, items: seq<Item>): Status {
    if items == [] then st
    else Next(StatusAfter(st, paid, items[..|items| - 1]), paid, items[|items| - 1].event.code)
  }

  lemma FoldOneMore(st: Status, paid: bool, items: seq<Item>, it: Item)
    ensures StatusAfter(st, paid, items + [it]) == Next(StatusAfter(st, paid, items), paid, it.event.code)
  {
    assert (items + [it])[..|items|] == items;
  }

  lemma {:induction false} FoldConcat(st: Status, paid: bool, a: seq<Item>, b: seq<Item>)
    ensures StatusAfter(st, paid, a + b) == StatusAfter(StatusAfter(st, paid, a), paid, b)
  {
    if b == [] {
      assert a + b == a;
    } else {
      hide Next;
      var n := |b| - 1;
      FoldConcat(st, paid, a, b[..n]);
      assert a + b == (a + b[..n]) + [b[n]] && b == b[..n] + [b[n]];
      FoldOneMore(st, paid, a + b[..n], b[n]);
    }
  }

  /** Statuses no event changes. */
  lemma {:induction false} ClosedStays(st: Status, paid: bool, items: seq<Item>)
    requires st in {Rejected, Refused, Paid}
    ensures StatusAfter(st, paid, items) == st
  {
    if items != [] {
      ClosedStays(st, paid, items[..|items| - 1]);
    }
  }

  // ---------- the codes as a set ----------

  predicate Has(items: seq<Item>, code: string) {
    exists it | it in items :: it.event.code == code
  }

  function VerdictOf(paid: bool, deposited: bool, accepted: bool, refused: bool, rejected: bool): Status {
    if !deposited then (if rejected then Rejected else Transmitting)
    else if paid then Paid
    else if refused then Refused
    else if accepted then Accepted
    else if rejected then Rejected
    else Transmitted
  }

  /** The status an invoice in transmission ends in when the codes received decide it. */
  function Verdict(paid: bool, items: seq<Item>): Status {
    VerdictOf(paid, Has(items, "200"), Has(items, "201"), Has(items, "210"), Has(items, "213"))
  }

  lemma CodesDiffer()
    ensures "200" != "201" && "200" != "210" && "200" != "213" && "201" != "210" && "201" != "213" && "210" != "213"
  {
    assert "200"[2] != "201"[2] && "200"[1] != "210"[1] && "200"[1] != "213"[1];
    assert "201"[1] != "210"[1] && "201"[1] != "213"[1] && "210"[2] != "213"[2];
  }

  lemma HasLast(items: seq<Item>, code: string)
    requires items != []
    ensures var n := |items| - 1; Has(items, code) <==> Has(items[..n], code) || items[n].event.code == code
  {
    var n := |items| - 1;
    assert items == items[..n] + [items[n]];
    assert items[n] in items;
  }

  lemma HasEach(items: seq<Item>)
    requires items != []
    ensures var n := |items| - 1;
            forall code | code in {"200", "201", "210", "213"} ::
              Has(items, code) <==> Has(items[..n], code) || items[n].event.code == code
  {
    HasLast(items, "200");
    HasLast(items, "201");
    HasLast(items, "210");
    HasLast(items, "213");
  }

  lemma HasPermuted(a: seq<Item>, b: seq<Item>, code: string)
    requires multiset(a) == multiset(b)
    ensures Has(a, code) <==> Has(b, code)
  {
    assert forall it :: it in a <==> it in multiset(a);
    assert forall it :: it in b <==> it in multiset(b);
  }

  lemma VerdictPermuted(paid: bool, a: seq<Item>, b: seq<Item>)
    requires multiset(a) == multiset(b)
    ensures Verdict(paid, a) == Verdict(paid, b) && (OrderCounts(paid, a) <==> OrderCounts(paid, b))
  {
    hide Has;
    HasPermuted(a, b, "200");
    HasPermuted(a, b, "201");
    HasPermuted(a, b, "210");
    HasPermuted(a, b, "213");
  }

  // ---------- ascending codes ----------

  /** Rank of the codes that move an invoice. */
  function CodeRank(code: string): nat {
    if code == "200" then 0 else if code == "201" then 1 else if code == "210" then 2 else 3
  }

  predicate Ascending(items: seq<Item>) {
    forall i, j |
      0 <= i < j < |items| && CdarStatus(items[i].event.code).Some? && CdarStatus(items[j].event.code).Some? ::
      CodeRank(items[i].event.code) <= CodeRank(items[j].event.code)
  }

  lemma VerdictStep(paid: bool, h200: bool, h201: bool, h210: bool, h213: bool, code: string)
    requires code == "200" ==> !h201 && !h210 && !h213
    requires code == "201" ==> !h210 && !h213
    requires code == "210" ==> !h213
    ensures Next(VerdictOf(paid, h200, h201, h210, h213), paid, code)
         == VerdictOf(paid, h200 || code == "200", h201 || code == "201", h210 || code == "210", h213 || code == "213")
  {
    CodesDiffer();
  }

  /** Received in ascending code order, with whatever repetitions, the codes decide as a set. */
  lemma {:induction false} AscendingVerdict(paid: bool, items: seq<Item>)
    requires Ascending(items)
    ensures StatusAfter(Transmitting, paid, items) == Verdict(paid, items)
  {
    if items != [] {
      var n := |items| - 1;
      var pre, code := items[..n], items[n].event.code;
      hide Has, Ascending, VerdictOf, Next, CdarStatus;
      AscendingBefore(items);
      AscendingVerdict(paid, pre);
      HasEach(items);
      NothingLater(items);
      VerdictStep(paid, Has(pre, "200"), Has(pre, "201"), Has(pre, "210"), Has(pre, "213"), code);
    }
  }

  lemma NothingLater(items: seq<Item>)
    requires items != [] && Ascending(items)
    ensures var pre, code := items[..|items| - 1], items[|items| - 1].event.code;
            && (code == "200" ==> !Has(pre, "201") && !Has(pre, "210") && !Has(pre, "213"))
            && (code == "201" ==> !Has(pre, "210") && !Has(pre, "213"))
            && (code == "210" ==> !Has(pre, "213"))
  {
    CodesDiffer();
    NoLaterCode(items, "201");
    NoLaterCode(items, "210");
    NoLaterCode(items, "213");
  }

  lemma AscendingBefore(items: seq<Item>)
    requires items != [] && Ascending(items)
    ensures Ascending(items[..|items| - 1])
  {
  }

  lemma NoLaterCode(items: seq<Item>, later: string)
    requires items != [] && Ascending(items) && CdarStatus(later).Some?
    ensures var n := |items| - 1;
            var code := items[n].event.code;
            CdarStatus(code).Some? && CodeRank(code) < CodeRank(later) ==> !Has(items[..n], later)
  {
    if Has(items[..|items| - 1], later) {
      var it :| it in items[..|items| - 1] && it.event.code == later;
      var i :| 0 <= i < |items| - 1 && items[i] == it;
    }
  }

  // ---------- any order ----------

  /** A deposit together with a verdict of the buyer or, for an invoice paid for beforehand, with a
      rejection by the platform: the codes whose order counts. */
  predicate OrderCounts(paid: bool, items: seq<Item>) {
    Has(items, "200") && if paid then Has(items, "213") else Has(items, "201") || Has(items, "210")
  }

  lemma FreeStep(paid: bool, h200: bool, h201: bool, h210: bool, h213: bool, code: string)
    requires (h200 || code == "200") ==>
               if paid then !h213 && code != "213" else !h201 && !h210 && code != "201" && code != "210"
    ensures Next(VerdictOf(paid, h200, h201, h210, h213), paid, code)
         == VerdictOf(paid, h200 || code == "200", h201 || code == "201", h210 || code == "210", h213 || code == "213")
  {
    CodesDiffer();
  }

  /** Outside such codes the order plays no part. */
  lemma {:induction false} FreeFold(paid: bool, items: seq<Item>)
    requires !OrderCounts(paid, items)
    ensures StatusAfter(Transmitting, paid, items) == Verdict(paid, items)
  {
    if items != [] {
      var n := |items| - 1;
      var pre := items[..n];
      hide Has, VerdictOf, Next;
      HasEach(items);
      FreeFold(paid, pre);
      FreeStep(paid, Has(pre, "200"), Has(pre, "201"), Has(pre, "210"), Has(pre, "213"), items[n].event.code);
    }
  }

  function WithCode(items: seq<Item>, codes: set<string>, inside: bool): (r: seq<Item>)
    ensures forall it :: it in r <==> it in items && (it.event.code in codes) == inside
  {
    if items == [] then []
    else
      var n := |items| - 1;
      assert items == items[..n] + [items[n]];
      WithCode(items[..n], codes, inside) + if (items[n].event.code in codes) == inside then [items[n]] else []
  }

  lemma {:induction false} SplitByCode(items: seq<Item>, codes: set<string>)
    ensures multiset(WithCode(items, codes, true)) + multiset(WithCode(items, codes, false)) == multiset(items)
  {
    if items != [] {
      var n := |items| - 1;
      assert items == items[..n] + [items[n]];
      SplitByCode(items[..n], codes);
    }
  }

  // ---------- two orders that differ ----------

  const JUDGED: set<string> := {"201", "210"}

  /** The codes that count beside a deposit. */
  function Early(paid: bool): set<string> {
    if paid then {"213"} else JUDGED
  }

  function EarlyFirst(paid: bool, items: seq<Item>): seq<Item> {
    WithCode(items, Early(paid), true) + WithCode(items, Early(paid), false)
  }

  lemma {:induction false} JudgedStay(items: seq<Item>)
    requires forall it | it in items :: it.event.code in JUDGED
    ensures StatusAfter(Transmitting, false, items) == Transmitting
  {
    if items != [] {
      assert items[|items| - 1] in items;
      JudgedStay(items[..|items| - 1]);
      CodesDiffer();
    }
  }

  /** Before the deposit the verdicts of the buyer are all refused. */
  lemma JudgedThenOthers(early: seq<Item>, late: seq<Item>)
    requires forall it | it in early :: it.event.code in JUDGED
    requires forall it | it in late :: it.event.code !in JUDGED
    ensures StatusAfter(Transmitting, false, early + late)
         == if Has(early + late, "213") then Rejected
            else if Has(early + late, "200") then Transmitted
            else Transmitting
  {
    hide StatusAfter;
    JudgedStay(early);
    FoldConcat(Transmitting, false, early, late);
    CodesDiffer();
    FreeFold(false, late);
  }

  /** The first event of a prepaid invoice that is a deposit or a rejection decides for good. */
  lemma FirstDecides(before: seq<Item>, first: Item, rest: seq<Item>)
    requires !Has(before, "200") && !Has(before, "213") && first.event.code in {"200", "213"}
    ensures StatusAfter(Transmitting, true, before + [first] + rest)
         == if first.event.code == "200" then Paid else Rejected
  {
    CodesDiffer();
    FreeFold(true, before);
    FoldOneMore(Transmitting, true, before, first);
    FoldConcat(Transmitting, true, before + [first], rest);
    hide StatusAfter;
    ClosedStays(if first.event.code == "200" then Paid else Rejected, true, rest);
  }

  lemma EarlyFirstLoses(paid: bool, items: seq<Item>)
    requires OrderCounts(paid, items)
    ensures multiset(EarlyFirst(paid, items)) == multiset(items)
    ensures StatusAfter(Transmitting, paid, EarlyFirst(paid, items)) in {Rejected, Transmitted}
  {
    SplitByCode(items, Early(paid));
    var early, late := WithCode(items, Early(paid), true), WithCode(items, Early(paid), false);
    hide StatusAfter, WithCode;
    HasPermuted(EarlyFirst(paid, items), items, "200");
    if paid {
      var it :| it in items && it.event.code == "213";
      assert it in early && early[0] in early;
      assert early + late == [] + [early[0]] + (early[1..] + late);
      FirstDecides([], early[0], early[1..] + late);
      CodesDiffer();
    } else {
      JudgedThenOthers(early, late);
    }
  }

  function Outside(items: seq<Item>, codes: set<string>): seq<Item> {
    WithCode(items, codes, false)
  }

  /** The events sorted by code. */
  function InOrder(items: seq<Item>): seq<Item> {
    var rest := Outside(items, {"200"});
    var rest' := Outside(rest, {"201"});
    WithCode(items, {"200"}, true)
    + (WithCode(rest, {"201"}, true) + (WithCode(rest', {"210"}, true) + Outside(rest', {"210"})))
  }

  /** All events that move an invoice have ranks in this range. */
  predicate Ranked(items: seq<Item>, lo: nat, hi: nat) {
    forall it | it in items && CdarStatus(it.event.code).Some? :: lo <= CodeRank(it.event.code) <= hi
  }

  lemma AscendingConcat(a: seq<Item>, b: seq<Item>, lo: nat, mid: nat, hi: nat)
    requires Ascending(a) && Ascending(b) && Ranked(a, lo, mid) && Ranked(b, mid, hi) && lo <= mid <= hi
    ensures Ascending(a + b) && Ranked(a + b, lo, hi)
  {
    hide CodeRank, CdarStatus;
    forall i, j | 0 <= i < |a| && |a| <= j < |a + b| ensures (a + b)[i] in a && (a + b)[j] in b {
      assert (a + b)[i] == a[i] && (a + b)[j] == b[j - |a|];
    }
  }

  lemma OneRank(items: seq<Item>, rank: nat)
    requires Ranked(items, rank, rank)
    ensures Ascending(items)
  {
    hide CodeRank, CdarStatus;
    assert forall i | 0 <= i < |items| :: items[i] in items;
  }

  lemma InOrderBag(items: seq<Item>)
    ensures multiset(InOrder(items)) == multiset(items)
  {
    hide WithCode;
    var rest := Outside(items, {"200"});
    var rest' := Outside(rest, {"201"});
    SplitByCode(items, {"200"});
    SplitByCode(rest, {"201"});
    SplitByCode(rest', {"210"});
  }

  lemma AscendingFour(a: seq<Item>, b: seq<Item>, c: seq<Item>, d: seq<Item>)
    requires Ranked(a, 0, 0) && Ranked(b, 1, 1) && Ranked(c, 2, 2) && Ranked(d, 3, 3)
    ensures Ascending(a + (b + (c + d)))
  {
    Widen(a, b, c);
    hide Ranked, Ascending;
    OneRank(a, 0);
    OneRank(b, 1);
    OneRank(c, 2);
    OneRank(d, 3);
    AscendingConcat(c, d, 2, 3, 3);
    AscendingConcat(b, c + d, 1, 2, 3);
    AscendingConcat(a, b + (c + d), 0, 1, 3);
  }

  lemma OnlyCode(items: seq<Item>, code: string)
    ensures Ranked(WithCode(items, {code}, true), CodeRank(code), CodeRank(code))
  {
  }

  lemma InOrderIs(items: seq<Item>)
    ensures multiset(InOrder(items)) == multiset(items) && Ascending(InOrder(items))
  {
    InOrderBag(items);
    CodesDiffer();
    var rest := Outside(items, {"200"});
    var rest' := Outside(rest, {"201"});
    OnlyCode(items, "200");
    OnlyCode(rest, "201");
    OnlyCode(rest', "210");
    LastRank(items);
    assert CodeRank("200") == 0 && CodeRank("201") == 1 && CodeRank("210") == 2;
    hide *;
    AscendingFour(WithCode(items, {"200"}, true), WithCode(rest, {"201"}, true), WithCode(rest', {"210"}, true),
                  Outside(rest', {"210"}));
    InOrderUnfolds(items);
  }

  lemma InOrderUnfolds(items: seq<Item>)
    ensures var rest := Outside(items, {"200"});
            var rest' := Outside(rest, {"201"});
            InOrder(items)
            == WithCode(items, {"200"}, true)
               + (WithCode(rest, {"201"}, true) + (WithCode(rest', {"210"}, true) + Outside(rest', {"210"})))
  {
  }

  lemma LastRank(items: seq<Item>)
    ensures Ranked(Outside(Outside(Outside(items, {"200"}), {"201"}), {"210"}), 3, 3)
  {
    hide WithCode;
  }

  lemma Widen(a: seq<Item>, b: seq<Item>, c: seq<Item>)
    requires Ranked(a, 0, 0) && Ranked(b, 1, 1) && Ranked(c, 2, 2)
    ensures Ranked(a, 0, 1) && Ranked(b, 1, 2) && Ranked(c, 2, 3)
  {
  }

  /** All orders of the events leave an invoice in transmission in the same status. */
  ghost predicate Reorderable(paid: bool, items: seq<Item>) {
    forall a, b | multiset(a) == multiset(items) && multiset(b) == multiset(items) ::
      StatusAfter(Transmitting, paid, a) == StatusAfter(Transmitting, paid, b)
  }

  /** The events of an invoice in transmission can be reordered at will if and only if they do not hold
      a deposit together with an acceptance or a refusal or, when it was paid for beforehand, with a
      rejection; the codes alone then decide. */
  lemma ReorderIff(paid: bool, items: seq<Item>)
    ensures Reorderable(paid, items) <==> !OrderCounts(paid, items)
    ensures !OrderCounts(paid, items) ==> StatusAfter(Transmitting, paid, items) == Verdict(paid, items)
  {
    if OrderCounts(paid, items) {
      EarlyFirstLoses(paid, items);
      InOrderDecides(paid, items);
      hide StatusAfter, EarlyFirst, InOrder;
      assert StatusAfter(Transmitting, paid, EarlyFirst(paid, items))
          != StatusAfter(Transmitting, paid, InOrder(items));
    } else {
      hide StatusAfter, OrderCounts, Verdict;
      FreeFold(paid, items);
      forall a, b | multiset(a) == multiset(items) && multiset(b) == multiset(items)
        ensures StatusAfter(Transmitting, paid, a) == StatusAfter(Transmitting, paid, b)
      {
        VerdictPermuted(paid, a, items);
        VerdictPermuted(paid, b, items);
        FreeFold(paid, a);
        FreeFold(paid, b);
      }
    }
  }

  /** In code order nothing is lost. */
  lemma InOrderDecides(paid: bool, items: seq<Item>)
    ensures multiset(InOrder(items)) == multiset(items)
    ensures StatusAfter(Transmitting, paid, InOrder(items)) == Verdict(paid, items)
    ensures OrderCounts(paid, items) ==> Verdict(paid, items) in {Paid, Accepted, Refused}
  {
    hide StatusAfter, InOrder, Ascending;
    InOrderIs(items);
    AscendingVerdict(paid, InOrder(items));
    VerdictPermuted(paid, InOrder(items), items);
  }
}
