/** The search for positions does not depend on the order in which the accounts are listed. */
module RoleOrder {
  import opened Common
  import opened Sorting
  import opened RoleSearch

  function IndexOf(accounts: seq<int>, x: int): (i: nat)
    requires x in accounts
    ensures i < |accounts| && accounts[i] == x
  {
    if accounts[|accounts| - 1] == x then |accounts| - 1 else IndexOf(accounts[..|accounts| - 1], x)
  }

  /** The same five accounts in two orders. */
  ghost predicate SameAccounts(accounts: seq<int>, others: seq<int>) {
    && |accounts| == |others| == 5 && Distinct(accounts) && Distinct(others)
    && forall x :: x in accounts <==> x in others
  }

  /** The assignment that gives every account the same position when listed in the other order. */
  function Transfer(accounts: seq<int>, others: seq<int>, a: seq<int>): seq<int>
    requires |a| == |accounts| && forall x :: x in others ==> x in accounts
  {
    seq(|others|, j requires 0 <= j < |others| => a[IndexOf(accounts, others[j])])
  }

  lemma TransferBack(accounts: seq<int>, others: seq<int>, a: seq<int>)
    requires SameAccounts(accounts, others) && |a| == 5
    ensures Transfer(others, accounts, Transfer(accounts, others, a)) == a
  {
    var b := Transfer(accounts, others, a);
    forall i | 0 <= i < 5
      ensures Transfer(others, accounts, b)[i] == a[i]
    {
      var j := IndexOf(others, accounts[i]);
      assert b[j] == a[IndexOf(accounts, others[j])];
      assert IndexOf(accounts, accounts[i]) == i;
    }
  }

  // ---- Scores --------------------------------------------------------------------------------

  function Term(accounts: seq<int>, shares: Shares, a: seq<int>): int -> real
    requires |a| == |accounts|
  {
    x => if x in accounts then ShareAt(shares, x, a[IndexOf(accounts, x)]) else 0.0
  }

  lemma {:induction false} ScoreIsSum(accounts: seq<int>, shares: Shares, a: seq<int>, end: nat)
    requires Distinct(accounts) && end <= |accounts| == |a|
    ensures ScoreUpTo(accounts, shares, a, end) == SumReal(Term(accounts, shares, a), accounts[..end])
  {
    if end > 0 {
      ScoreIsSum(accounts, shares, a, end - 1);
      assert accounts[..end][..end - 1] == accounts[..end - 1];
      assert IndexOf(accounts, accounts[end - 1]) == end - 1;
    }
  }

  lemma SameBag(s: seq<int>, t: seq<int>)
    requires Distinct(s) && Distinct(t) && forall x :: x in s <==> x in t
    ensures multiset(s) == multiset(t)
  {
    forall x: int
      ensures multiset(s)[x] == multiset(t)[x]
    {
      CountsOne(s, x);
      CountsOne(t, x);
    }
  }

  lemma ScoreTransfers(accounts: seq<int>, others: seq<int>, shares: Shares, a: seq<int>)
    requires SameAccounts(accounts, others) && |a| == 5
    ensures Score(others, shares, Transfer(accounts, others, a)) == Score(accounts, shares, a)
  {
    var b := Transfer(accounts, others, a);
    var f, g := Term(accounts, shares, a), Term(others, shares, b);
    ScoreIsSum(accounts, shares, a, 5);
    ScoreIsSum(others, shares, b, 5);
    assert accounts[..5] == accounts && others[..5] == others;
    forall j | 0 <= j < 5
      ensures f(others[j]) == g(others[j])
    {
      assert IndexOf(others, others[j]) == j;
    }
    SumRealSame(f, g, others);
    SameBag(accounts, others);
    SumsIgnoreOrder((x: int) => 0, f, accounts, others);
  }

  lemma EligibleTransfers(accounts: seq<int>, others: seq<int>, shares: Shares, a: seq<int>)
    requires SameAccounts(accounts, others) && |a| == 5
    ensures Eligible(accounts, shares, a) <==> Eligible(others, shares, Transfer(accounts, others, a))
  {
    if Eligible(accounts, shares, a) {
      EligibleGoesOver(accounts, others, shares, a);
    }
    if Eligible(others, shares, Transfer(accounts, others, a)) {
      EligibleGoesOver(others, accounts, shares, Transfer(accounts, others, a));
      TransferBack(accounts, others, a);
    }
  }

  lemma EligibleGoesOver(accounts: seq<int>, others: seq<int>, shares: Shares, a: seq<int>)
    requires SameAccounts(accounts, others) && Eligible(accounts, shares, a)
    ensures Eligible(others, shares, Transfer(accounts, others, a))
  {
    var b := Transfer(accounts, others, a);
    forall i, j | 0 <= i < j < 5
      ensures b[i] != b[j]
    {
      assert others[i] != others[j];
      var i', j' := IndexOf(accounts, others[i]), IndexOf(accounts, others[j]);
      assert i' != j' && (i' < j' || j' < i');
    }
  }

  /** Dominance and the lead are the same in both orders. */
  lemma DominanceTransfers(accounts: seq<int>, others: seq<int>, shares: Shares, a: seq<int>)
    requires SameAccounts(accounts, others) && Dominant(accounts, shares, a)
    ensures Dominant(others, shares, Transfer(accounts, others, a))
  {
    var b := Transfer(accounts, others, a);
    EligibleTransfers(accounts, others, shares, a);
    ScoreTransfers(accounts, others, shares, a);
    forall c | Eligible(others, shares, c) && c != b
      ensures Score(others, shares, c) + MIN_ASSIGNMENT_MARGIN <= Score(others, shares, b)
    {
      var d := Transfer(others, accounts, c);
      EligibleTransfers(others, accounts, shares, c);
      ScoreTransfers(others, accounts, shares, c);
      TransferBack(others, accounts, c);
      assert d != a;
    }
  }

  lemma RivalTransfers(accounts: seq<int>, others: seq<int>, shares: Shares, a: seq<int>, c: seq<int>)
    requires SameAccounts(accounts, others) && |a| == 5 && Rival(accounts, shares, a, c)
    ensures Rival(others, shares, Transfer(accounts, others, a), Transfer(accounts, others, c))
    ensures Score(others, shares, Transfer(accounts, others, c)) == Score(accounts, shares, c)
  {
    EligibleTransfers(accounts, others, shares, c);
    ScoreTransfers(accounts, others, shares, c);
    TransferBack(accounts, others, a);
    TransferBack(accounts, others, c);
  }

  /** Two leads of one assignment, taken in two orders of the accounts, are equal. */
  lemma LeadTransfers(accounts: seq<int>, others: seq<int>, shares: Shares, a: seq<int>, m: real, n: real)
    requires SameAccounts(accounts, others) && |a| == 5
    requires Leads(accounts, shares, a, m) && Leads(others, shares, Transfer(accounts, others, a), n)
    ensures m == n
  {
    ScoreTransfers(accounts, others, shares, a);
    LeadNoGreater(accounts, others, shares, a, m, n);
    TransferBack(accounts, others, a);
    LeadNoGreater(others, accounts, shares, Transfer(accounts, others, a), n, m);
  }

  lemma LeadNoGreater(accounts: seq<int>, others: seq<int>, shares: Shares, a: seq<int>, m: real, n: real)
    requires SameAccounts(accounts, others) && |a| == 5
    requires Leads(accounts, shares, a, m) && Leads(others, shares, Transfer(accounts, others, a), n)
    ensures HasRival(accounts, shares, a) ==> n <= m && HasRival(others, shares, Transfer(accounts, others, a))
  {
    if HasRival(accounts, shares, a) {
      var c :| Rival(accounts, shares, a, c) && Score(accounts, shares, c) + m == Score(accounts, shares, a);
      RivalTransfers(accounts, others, shares, a, c);
      ScoreTransfers(accounts, others, shares, a);
    }
  }

  /** Listing the accounts in another order gives every account the same position, with the same lead. */
  lemma SearchIgnoresOrder(accounts: seq<int>, others: seq<int>, shares: Shares)
    requires SameAccounts(accounts, others)
    ensures Search(accounts, shares).Some? <==> Search(others, shares).Some?
    ensures Search(accounts, shares).Some? ==>
              && Search(accounts, shares).value.margin == Search(others, shares).value.margin
              && |Search(accounts, shares).value.assignment| == 5
              && Search(others, shares).value.assignment == Transfer(accounts, others, Search(accounts, shares).value.assignment)
  {
    if Search(accounts, shares).Some? {
      FoundInBoth(accounts, others, shares);
    }
    if Search(others, shares).Some? {
      FoundInBoth(others, accounts, shares);
    }
  }

  lemma FoundInBoth(accounts: seq<int>, others: seq<int>, shares: Shares)
    requires SameAccounts(accounts, others) && Search(accounts, shares).Some?
    ensures Search(others, shares).Some? && |Search(accounts, shares).value.assignment| == 5
    ensures Search(others, shares).value.assignment == Transfer(accounts, others, Search(accounts, shares).value.assignment)
    ensures Search(accounts, shares).value.margin == Search(others, shares).value.margin
  {
    var a, m := Search(accounts, shares).value.assignment, Search(accounts, shares).value.margin;
    SearchFindsDominant(accounts, shares, a);
    DominanceTransfers(accounts, others, shares, a);
    SearchFindsDominant(others, shares, Transfer(accounts, others, a));
    LeadTransfers(accounts, others, shares, a, m, Search(others, shares).value.margin);
  }
}
