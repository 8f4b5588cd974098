/**
 * The loan summary the dashboard page derives from the fetched data: the
 * number of active (disbursed) loans, the total amount borrowed, and the
 * defaults used when a fetched payload is missing. Amounts are whole currency
 * units.
 */
module Dashboard {
  import opened Wrappers

  /** A loan as the dashboard reads it; either field may be missing from the payload. */
  datatype Loan = Loan(amount: Option<int>, status: Option<string>)

  /** The savings payload. */
  datatype Savings = Savings(balance: int)

  /** The three figures of the stats cards. */
  datatype Overview = Overview(balance: int, activeLoans: nat, totalBorrowed: int)

  const DisbursedStatus: string := "disbursed"

  /** `l.status === "disbursed"`: an exact, case-sensitive comparison. */
  predicate IsActive(l: Loan) {
    l.status == Some(DisbursedStatus)
  }

  /** `l.amount || 0`. */
  function AmountOrZero(l: Loan): int {
    match l.amount
    case Some(a) => a
    case None => 0
  }

  /**
   * `loans.filter(l => l.status === "disbursed")`: the active loans, each as
   * often as it occurs in `loans`, and no other loan.
   */
  function ActiveOnly(loans: seq<Loan>): (r: seq<Loan>)
    ensures |r| <= |loans|
    ensures forall l :: multiset(r)[l] == if IsActive(l) then multiset(loans)[l] else 0
    decreases |loans|
  {
    if loans == [] then []
    else
      var rest := ActiveOnly(loans[1..]);
      assert loans == [loans[0]] + loans[1..];
      assert multiset(loans) == multiset{loans[0]} + multiset(loans[1..]);
      if IsActive(loans[0]) then
        assert multiset([loans[0]] + rest) == multiset{loans[0]} + multiset(rest);
        [loans[0]] + rest
      else rest
  }

  /** `activeLoans`: how many loans are disbursed; never more than there are loans. */
  function ActiveLoans(loans: seq<Loan>): (n: nat)
    ensures n <= |loans|
  {
    |ActiveOnly(loans)|
  }

  /** The first loan counts one exactly when it is disbursed. */
  lemma ActiveLoansCons(loans: seq<Loan>)
    requires loans != []
    ensures ActiveLoans(loans) == (if IsActive(loans[0]) then 1 else 0) + ActiveLoans(loans[1..])
  {
  }

  /** No loan is counted exactly when none is disbursed. */
  lemma {:induction false} ActiveLoansNone(loans: seq<Loan>)
    ensures ActiveLoans(loans) == 0 <==> forall i :: 0 <= i < |loans| ==> !IsActive(loans[i])
    decreases |loans|
  {
    if loans != [] {
      ActiveLoansCons(loans);
      ActiveLoansNone(loans[1..]);
      assert forall i :: 1 <= i < |loans| ==> loans[i] == loans[1..][i - 1];
    }
  }

  /** Every loan is counted exactly when all are disbursed. */
  lemma {:induction false} ActiveLoansAll(loans: seq<Loan>)
    ensures ActiveLoans(loans) == |loans| <==> forall i :: 0 <= i < |loans| ==> IsActive(loans[i])
    decreases |loans|
  {
    if loans != [] {
      ActiveLoansCons(loans);
      ActiveLoansAll(loans[1..]);
      assert forall i :: 1 <= i < |loans| ==> loans[i] == loans[1..][i - 1];
    }
  }

  /** `loans.reduce((sum, l) => sum + (l.amount || 0), sum0)`: a left fold. */
  function ReduceAmounts(sum: int, loans: seq<Loan>): int
    decreases |loans|
  {
    if loans == [] then sum else ReduceAmounts(sum + AmountOrZero(loans[0]), loans[1..])
  }

  /** The sum of the amounts, a missing amount counting 0: the reference the fold is measured against. */
  function SumAmounts(loans: seq<Loan>): int
    decreases |loans|
  {
    if loans == [] then 0 else AmountOrZero(loans[0]) + SumAmounts(loans[1..])
  }

  lemma {:induction false} ReduceAmountsIsSum(sum: int, loans: seq<Loan>)
    ensures ReduceAmounts(sum, loans) == sum + SumAmounts(loans)
    decreases |loans|
  {
    if loans != [] {
      ReduceAmountsIsSum(sum + AmountOrZero(loans[0]), loans[1..]);
    }
  }

  /** `totalBorrowed`: the sum of all amounts, a missing amount counting 0; 0 for no loans. */
  function TotalBorrowed(loans: seq<Loan>): (t: int)
    ensures t == SumAmounts(loans)
    ensures loans == [] ==> t == 0
  {
    ReduceAmountsIsSum(0, loans);
    ReduceAmounts(0, loans)
  }

  lemma {:induction false} SumAmountsAppend(a: seq<Loan>, b: seq<Loan>)
    ensures SumAmounts(a + b) == SumAmounts(a) + SumAmounts(b)
    decreases |a|
  {
    if a == [] {
      assert a + b == b;
    } else {
      assert (a + b)[0] == a[0] && (a + b)[1..] == a[1..] + b;
      SumAmountsAppend(a[1..], b);
    }
  }

  /** The total of a concatenation is the sum of the totals of its parts. */
  lemma TotalBorrowedAppend(a: seq<Loan>, b: seq<Loan>)
    ensures TotalBorrowed(a + b) == TotalBorrowed(a) + TotalBorrowed(b)
  {
    SumAmountsAppend(a, b);
  }

  /** A loan with no amount, or a zero amount, adds nothing to the total. */
  lemma ZeroAmountAddsNothing(loans: seq<Loan>, l: Loan)
    requires l.amount == None || l.amount == Some(0)
    ensures TotalBorrowed(loans + [l]) == TotalBorrowed(loans)
    ensures TotalBorrowed([l] + loans) == TotalBorrowed(loans)
  {
    TotalBorrowedAppend(loans, [l]);
    TotalBorrowedAppend([l], loans);
  }

  /** Taking one loan out of the list takes its amount out of the sum. */
  lemma SumAmountsRemove(b: seq<Loan>, k: nat)
    requires k < |b|
    ensures SumAmounts(b) == AmountOrZero(b[k]) + SumAmounts(b[..k] + b[k + 1..])
  {
    assert b == b[..k] + ([b[k]] + b[k + 1..]);
    SumAmountsAppend(b[..k], [b[k]] + b[k + 1..]);
    SumAmountsAppend(b[..k], b[k + 1..]);
    assert ([b[k]] + b[k + 1..])[1..] == b[k + 1..];
  }

  lemma {:induction false} SumAmountsPermutation(a: seq<Loan>, b: seq<Loan>)
    requires multiset(a) == multiset(b)
    ensures SumAmounts(a) == SumAmounts(b)
    decreases |a|
  {
    if a == [] {
      assert |b| == |multiset(b)| == 0;
    } else {
      var x := a[0];
      assert x in multiset(b);
      var k :| 0 <= k < |b| && b[k] == x;
      var b' := b[..k] + b[k + 1..];
      assert b == b[..k] + [x] + b[k + 1..];
      assert a == [x] + a[1..];
      assert multiset(a[1..]) == multiset(a) - multiset{x};
      assert multiset(b') == multiset(b) - multiset{x};
      SumAmountsPermutation(a[1..], b');
      SumAmountsRemove(b, k);
    }
  }

  /** The total does not depend on the order of the loans. */
  lemma TotalBorrowedPermutation(a: seq<Loan>, b: seq<Loan>)
    requires multiset(a) == multiset(b)
    ensures TotalBorrowed(a) == TotalBorrowed(b)
  {
    SumAmountsPermutation(a, b);
  }

  /** With no negative amount, the total is at least every single amount, hence not negative. */
  lemma {:induction false} TotalBorrowedBounds(loans: seq<Loan>)
    requires forall i :: 0 <= i < |loans| ==> AmountOrZero(loans[i]) >= 0
    ensures TotalBorrowed(loans) >= 0
    ensures forall i :: 0 <= i < |loans| ==> AmountOrZero(loans[i]) <= TotalBorrowed(loans)
    decreases |loans|
  {
    if loans != [] {
      TotalBorrowedBounds(loans[1..]);
      assert forall i :: 1 <= i < |loans| ==> loans[i] == loans[1..][i - 1];
    }
  }

  /** The active-loan count of a concatenation is the sum of the counts of its parts. */
  lemma {:induction false} ActiveLoansAppend(a: seq<Loan>, b: seq<Loan>)
    ensures ActiveLoans(a + b) == ActiveLoans(a) + ActiveLoans(b)
    decreases |a|
  {
    if a == [] {
      assert a + b == b;
    } else {
      assert (a + b)[0] == a[0] && (a + b)[1..] == a[1..] + b;
      ActiveLoansAppend(a[1..], b);
    }
  }

  /** The active-loan count does not depend on the order of the loans. */
  lemma ActiveLoansPermutation(a: seq<Loan>, b: seq<Loan>)
    requires multiset(a) == multiset(b)
    ensures ActiveLoans(a) == ActiveLoans(b)
  {
    assert multiset(ActiveOnly(a)) == multiset(ActiveOnly(b));
    assert |ActiveOnly(a)| == |multiset(ActiveOnly(a))|;
    assert |ActiveOnly(b)| == |multiset(ActiveOnly(b))|;
  }

  /** Only the exact status `disbursed` is counted: other spellings and a missing status are not. */
  lemma ActiveStatusIsExact(amount: Option<int>)
    ensures ActiveLoans([Loan(amount, Some("disbursed"))]) == 1
    ensures ActiveLoans([Loan(amount, Some("Disbursed"))]) == 0
    ensures ActiveLoans([Loan(amount, Some("approved"))]) == 0
    ensures ActiveLoans([Loan(amount, None)]) == 0
  {
    assert IsActive(Loan(amount, Some("disbursed")));
    assert !IsActive(Loan(amount, Some("Disbursed")));
    assert !IsActive(Loan(amount, Some("approved")));
  }

  /** `savingsRes.data || { balance: 0 }`. */
  function SavingsOrDefault(data: Option<Savings>): Savings {
    match data
    case Some(s) => s
    case None => Savings(0)
  }

  /** `loansRes.data || []`. */
  function LoansOrDefault(data: Option<seq<Loan>>): seq<Loan> {
    match data
    case Some(loans) => loans
    case None => []
  }

  /**
   * The stats cards for the fetched payloads: a missing savings payload shows a
   * balance of 0, a missing loans payload shows no active loans and nothing
   * borrowed; otherwise the balance is the payload's, the count is the number
   * of disbursed loans in the payload and the total is the sum of its amounts.
   */
  function Summarize(savingsData: Option<Savings>, loansData: Option<seq<Loan>>): (o: Overview)
    ensures savingsData.None? ==> o.balance == 0
    ensures savingsData.Some? ==> o.balance == savingsData.value.balance
    ensures loansData.None? ==> o.activeLoans == 0 && o.totalBorrowed == 0
    ensures loansData.Some? ==> o.activeLoans == |ActiveOnly(loansData.value)| <= |loansData.value|
    ensures loansData.Some? ==> o.totalBorrowed == SumAmounts(loansData.value)
  {
    var loans := LoansOrDefault(loansData);
    Overview(SavingsOrDefault(savingsData).balance, ActiveLoans(loans), TotalBorrowed(loans))
  }
}
