/**
 * The simulated invoices of a project (src/components/dashboard/InvoiceList.tsx):
 * a budgeted project shows three invoices that split the budget 40 / 35 /
 * 25 per cent, the first two paid and the last paid only once the project
 * is completed, with the paid and pending totals above them. Budgets are
 * whole amounts and dates are milliseconds since the epoch.
 */
module InvoiceList {
  import opened Common
  import opened ProjectSchema
  import Store
  import Numeric
  import Text

  datatype InvoiceStatus = PAID | PENDING

  /** An invoice; `share` is the percentage of the budget its label names. */
  datatype Invoice = Invoice(id: string, share: nat, amount: nat, status: InvoiceStatus, date: int)

  const DAY_MS: nat := 1000 * 60 * 60 * 24

  /** The three shares of the budget, in invoice order. */
  const SHARES: seq<nat> := [40, 35, 25]

  /** The numbering suffixes, in invoice order. */
  const NUMBERS: seq<string> := ["001", "002", "003"]

  /** `project.id.slice(-4).toUpperCase()`: the last four characters (all of a shorter id), upper-cased. */
  function Seed(id: Id): (s: string)
    ensures |s| == if |id| < 4 then |id| else 4
    ensures forall j | |id| - |s| <= j < |id| :: s[j - (|id| - |s|)] == Text.UpperChar(id[j])
  {
    var n := if |id| < 4 then |id| else 4;
    Text.ToUpper(id[|id| - n..])
  }

  /** `WB-{seed}-{number}`. */
  function InvoiceId(seed: string, number: string): string {
    "WB-" + seed + "-" + number
  }

  /** `Math.round(budget * share / 100)`. */
  function Amount(budget: nat, share: nat): nat {
    Numeric.RoundDiv(budget * share, 100)
  }

  /** `new Date(project.startDate ?? project.createdAt)`. */
  function BaseDate(p: Store.Project): int {
    if p.startDate.Some? then p.startDate.value else p.createdAt
  }

  /** `offset(days)`: the base date moved by whole days. */
  function Offset(base: int, days: int): int {
    base + days * DAY_MS
  }

  /**
   * `generateInvoices`: none without a positive budget; otherwise the
   * three instalments dated at the start, thirty days later, and at the
   * end date (sixty days after the start when there is none).
   */
  function Generate(p: Store.Project): (r: seq<Invoice>)
    ensures r == [] <==> p.budget.None? || p.budget.value <= 0
    ensures r != [] ==> |r| == 3
    ensures r != [] ==> forall k | 0 <= k < 3 ::
      && r[k].id == InvoiceId(Seed(p.id), NUMBERS[k])
      && r[k].share == SHARES[k]
      && r[k].amount == Amount(p.budget.value, SHARES[k])
    ensures r != [] ==> r[0].status == PAID && r[1].status == PAID
    ensures r != [] ==> (r[2].status == PAID <==> p.status == COMPLETED)
    ensures r != [] ==> r[0].date == BaseDate(p) && r[1].date == BaseDate(p) + 30 * DAY_MS
    ensures r != [] ==> r[2].date == if p.endDate.Some? then p.endDate.value else BaseDate(p) + 60 * DAY_MS
  {
    if p.budget.None? || p.budget.value <= 0 then []
    else
      var budget := p.budget.value;
      var seed := Seed(p.id);
      var base := BaseDate(p);
      [ Invoice(InvoiceId(seed, "001"), 40, Amount(budget, 40), PAID, Offset(base, 0)),
        Invoice(InvoiceId(seed, "002"), 35, Amount(budget, 35), PAID, Offset(base, 30)),
        Invoice(InvoiceId(seed, "003"), 25, Amount(budget, 25),
                if p.status == COMPLETED then PAID else PENDING,
                if p.endDate.Some? then p.endDate.value else Offset(base, 60)) ]
  }

  /** `invoices.filter(i => i.status === st).reduce((s, i) => s + i.amount, 0)`. */
  function Total(invoices: seq<Invoice>, st: InvoiceStatus): nat {
    if invoices == [] then 0
    else (if invoices[0].status == st then invoices[0].amount else 0) + Total(invoices[1..], st)
  }

  /** The sum of all amounts. */
  function Sum(invoices: seq<Invoice>): nat {
    if invoices == [] then 0 else invoices[0].amount + Sum(invoices[1..])
  }

  /** Paid and pending together account for every invoice. */
  lemma {:induction false} TotalsSplit(invoices: seq<Invoice>)
    ensures Total(invoices, PAID) + Total(invoices, PENDING) == Sum(invoices)
  {
    if invoices != [] {
      TotalsSplit(invoices[1..]);
    }
  }

  /** The totals of a project: nothing pending once completed, the final balance pending before. */
  lemma {:induction false} ProjectTotals(p: Store.Project)
    ensures Total(Generate(p), PAID) + Total(Generate(p), PENDING) == Sum(Generate(p))
    ensures p.status == COMPLETED ==> Total(Generate(p), PENDING) == 0
    ensures Generate(p) != [] && p.status != COMPLETED ==> Total(Generate(p), PENDING) == Amount(p.budget.value, 25)
  {
    var r := Generate(p);
    TotalsSplit(r);
    if r != [] {
      assert r[1..][1..][1..] == [];
      assert Total(r, PENDING) == Total(r[1..][1..], PENDING) == (if r[2].status == PENDING then r[2].amount else 0);
    }
  }

  /**
   * The three rounded amounts add up to the budget give or take one: each
   * rounding moves its amount by at most a half.
   */
  lemma {:induction false} AmountsNearBudget(budget: nat)
    ensures budget - 1 <= Amount(budget, 40) + Amount(budget, 35) + Amount(budget, 25) <= budget + 1
  {
    var a, b, c := Amount(budget, 40), Amount(budget, 35), Amount(budget, 25);
    assert 200 * a <= 2 * budget * 40 + 100 < 200 * (a + 1);
    assert 200 * b <= 2 * budget * 35 + 100 < 200 * (b + 1);
    assert 200 * c <= 2 * budget * 25 + 100 < 200 * (c + 1);
    assert 200 * (a + b + c) <= 200 * budget + 300;
    assert 200 * budget + 300 < 200 * (a + b + c + 3);
  }

  /** Neither bound can be tightened: a budget of 1 invoices 0 in total, a budget of 2 invoices 3. */
  lemma AmountsMissBudget()
    ensures Amount(1, 40) + Amount(1, 35) + Amount(1, 25) == 0
    ensures Amount(2, 40) + Amount(2, 35) + Amount(2, 25) == 3
  {
  }

  /** The three invoice numbers of a project differ. */
  lemma IdsDistinct(p: Store.Project)
    requires Generate(p) != []
    ensures Generate(p)[0].id != Generate(p)[1].id
    ensures Generate(p)[1].id != Generate(p)[2].id
    ensures Generate(p)[0].id != Generate(p)[2].id
  {
    var r, seed := Generate(p), Seed(p.id);
    var n := |"WB-" + seed + "-"|;
    assert r[0].id[n + 2] == '1' && r[1].id[n + 2] == '2' && r[2].id[n + 2] == '3';
  }
}
