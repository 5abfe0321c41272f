/**
 * The `FormSplitBill` component's drafts: the bill, your own expense and the
 * friend's expense derived from them. Amounts are already-parsed integers and
 * 0 stands for the empty field; both are falsy. The form has no submit
 * handler, so nothing here changes a balance.
 */
module SplitBillForm {
  import opened Optional

  /** `paidByFriend`: the friend's expense, shown only while the bill is truthy. */
  function PaidByFriend(bill: int, yourExpense: int): Option<int> {
    if bill != 0 then Some(bill - yourExpense) else None
  }

  /** The shown friend's expense and your expense add up to the bill; nothing is
      shown for an empty or zero bill. */
  lemma PaidByFriendCompletesBill(bill: int, yourExpense: int)
    ensures PaidByFriend(bill, yourExpense).None? <==> bill == 0
    ensures PaidByFriend(bill, yourExpense).Some? ==>
      PaidByFriend(bill, yourExpense).value + yourExpense == bill
  {
  }

  /** The your-expense `onChange`: an entry above the current bill is rejected and
      the previous value kept; any other entry is stored as it is. */
  function AcceptExpense(bill: int, current: int, entered: int): (r: int)
    ensures r == entered || r == current
    ensures r == entered <==> entered <= bill || entered == current
    ensures current <= bill ==> r <= bill
  {
    if entered > bill then current else entered
  }

  datatype Drafts = Drafts(bill: int, yourExpense: int)

  /** Both fields start as the empty string. */
  const INITIAL_DRAFTS: Drafts := Drafts(0, 0)

  datatype Edit = BillChanged(value: int) | ExpenseChanged(value: int)

  /** Editing the bill never revisits your expense. */
  function ApplyEdit(d: Drafts, e: Edit): Drafts {
    match e
    case BillChanged(v) => d.(bill := v)
    case ExpenseChanged(v) => d.(yourExpense := AcceptExpense(d.bill, d.yourExpense, v))
  }

  function RunEdits(d: Drafts, es: seq<Edit>): Drafts
    decreases |es|
  {
    if es == [] then d else RunEdits(ApplyEdit(d, es[0]), es[1..])
  }

  /** No bill edit of the run goes below your expense as it is at that moment. */
  predicate BillEditsCoverExpense(d: Drafts, es: seq<Edit>)
    decreases |es|
  {
    es == [] ||
    ((es[0].BillChanged? ==> es[0].value >= d.yourExpense) && BillEditsCoverExpense(ApplyEdit(d, es[0]), es[1..]))
  }

  /** As long as the bill is never lowered below your expense, your expense stays
      within the bill and the shown friend's expense is never negative. */
  lemma {:induction false} ExpenseStaysCovered(d: Drafts, es: seq<Edit>)
    requires d.yourExpense <= d.bill
    requires BillEditsCoverExpense(d, es)
    ensures RunEdits(d, es).yourExpense <= RunEdits(d, es).bill
    ensures var last := RunEdits(d, es);
      PaidByFriend(last.bill, last.yourExpense).Some? ==> PaidByFriend(last.bill, last.yourExpense).value >= 0
    decreases |es|
  {
    if es != [] {
      ExpenseStaysCovered(ApplyEdit(d, es[0]), es[1..]);
    }
  }

  /** Lowering the bill after the expense is set makes the shown friend's expense negative. */
  lemma LoweredBillShowsNegativeShare()
    ensures RunEdits(INITIAL_DRAFTS, [BillChanged(20), ExpenseChanged(4), BillChanged(3)]) == Drafts(3, 4)
    ensures PaidByFriend(3, 4) == Some(-1)
  {
  }

  /** The form component, its two amount drafts held in fields; the disabled
      friend's-expense field shows `PaidByFriend(bill, yourExpense)`. */
  class Form {
    var bill: int
    var yourExpense: int

    function Current(): Drafts
      reads this
    {
      Drafts(bill, yourExpense)
    }

    constructor ()
      ensures Current() == INITIAL_DRAFTS
    {
      bill := 0;
      yourExpense := 0;
    }

    /** The bill field's `onChange`. */
    method HandleBillChange(value: int)
      modifies this
      ensures Current() == ApplyEdit(old(Current()), BillChanged(value))
      ensures bill == value && yourExpense == old(yourExpense)
    {
      bill := value;
    }

    /** The your-expense field's `onChange`. */
    method HandleExpenseChange(value: int)
      modifies this
      ensures Current() == ApplyEdit(old(Current()), ExpenseChanged(value))
      ensures bill == old(bill)
      ensures value > old(bill) ==> yourExpense == old(yourExpense)
      ensures value <= old(bill) ==> yourExpense == value && yourExpense <= bill
    {
      yourExpense := AcceptExpense(bill, yourExpense, value);
    }
  }
}
