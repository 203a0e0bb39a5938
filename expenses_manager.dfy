/**
 * The expenses panel of src/components/admin/ExpensesManager.tsx: expenses
 * carry a VAT of 20% of their amount, fixed when they are added, and the
 * panel shows the totals of amount and VAT over the listed expenses.
 */
module ExpensesManager {
  import opened Store
  import opened Schema

  /** `amount * 0.2`, in exact arithmetic. */
  function Vat(amount: real): (vat: real)
    ensures 5.0 * vat == amount
    ensures amount >= 0.0 ==> 0.0 <= vat <= amount
  {
    amount * 0.2
  }

  /** What the add-expense form submits. */
  datatype ExpenseForm = ExpenseForm(description: string, amount: real, date: Timestamp)

  /** The row `handleAddExpense` inserts. */
  function NewExpenseRow(form: ExpenseForm, now: Timestamp): (e: Expense)
    ensures e.id == MintId("exp_", now) && e.createdAt == now
    ensures e.description == form.description && e.amount == form.amount && e.date == form.date
    ensures e.vat == Vat(form.amount)
  {
    Expense(MintId("exp_", now), form.description, form.amount, Vat(form.amount), form.date, now)
  }

  /** The amounts added up: never negative when no amount is. */
  function SumAmount(es: seq<Expense>): (total: real)
    ensures (forall i :: 0 <= i < |es| ==> es[i].amount >= 0.0) ==> total >= 0.0
  {
    if es == [] then 0.0 else es[0].amount + SumAmount(es[1..])
  }

  /** The VAT amounts added up: never negative when no VAT amount is. */
  function SumVat(es: seq<Expense>): (total: real)
    ensures (forall i :: 0 <= i < |es| ==> es[i].vat >= 0.0) ==> total >= 0.0
  {
    if es == [] then 0.0 else es[0].vat + SumVat(es[1..])
  }

  /** Every row's VAT is 20% of its amount: true of every row this panel adds. */
  predicate VatConsistent(t: map<string, Expense>) {
    forall k :: k in t ==> t[k].vat == Vat(t[k].amount)
  }

  /** Over rows whose VAT is 20% of their amount, the VAT total is 20% of the amount total. */
  lemma {:induction false} VatTotalIsFifthOfAmount(es: seq<Expense>)
    requires forall i :: 0 <= i < |es| ==> es[i].vat == Vat(es[i].amount)
    ensures SumVat(es) == 0.2 * SumAmount(es)
    decreases |es|
  {
    if es != [] {
      VatTotalIsFifthOfAmount(es[1..]);
    }
  }

  /** The search box: the description contains the query. */
  function DescriptionFilter(q: string): Expense -> bool {
    (e: Expense) => Matches(q, e.description)
  }

  /** `ORDER BY date DESC`. */
  function ByDate(e: Expense): int {
    e.date
  }

  /** A listing of rows whose VAT is 20% of their amount has a VAT total of 20% of its amount total. */
  lemma ListedVatIsFifth(t: map<string, Expense>, q: string, rows: seq<Expense>)
    requires Listing(t, DescriptionFilter(q), ByDate, rows) && VatConsistent(t)
    ensures SumVat(rows) == 0.2 * SumAmount(rows)
  {
    ListingRows(t, DescriptionFilter(q), ByDate, rows);
    forall i | 0 <= i < |rows| ensures rows[i].vat == Vat(rows[i].amount) {
      assert rows[i] in t.Values;
    }
    VatTotalIsFifthOfAmount(rows);
  }

  class ExpensesManager {
    const db: Database
    var expenses: seq<Expense>
    var searchQuery: string
    var isAddModalOpen: bool
    var totalExpenses: real
    var totalVAT: real

    constructor (db: Database)
      ensures this.db == db && expenses == [] && searchQuery == "" && !isAddModalOpen
      ensures totalExpenses == 0.0 && totalVAT == 0.0
    {
      this.db := db;
      expenses := [];
      searchQuery := "";
      isAddModalOpen := false;
      totalExpenses := 0.0;
      totalVAT := 0.0;
    }

    /**
     * Lists the expenses whose description matches, latest date first, and
     * totals exactly the listed ones. A failure is only logged.
     */
    method LoadExpenses()
      modifies this
      ensures db.available ==> Listing(db.expenses, DescriptionFilter(searchQuery), ByDate, expenses)
      ensures db.available ==> totalExpenses == SumAmount(expenses) && totalVAT == SumVat(expenses)
      ensures db.available && VatConsistent(db.expenses) ==> totalVAT == 0.2 * totalExpenses
      ensures !db.available ==> expenses == old(expenses) && totalExpenses == old(totalExpenses) && totalVAT == old(totalVAT)
      ensures searchQuery == old(searchQuery) && isAddModalOpen == old(isAddModalOpen)
    {
      if db.available {
        var ids, rows := Select(db.expenses, DescriptionFilter(searchQuery), ByDate);
        expenses := rows;
        totalExpenses := SumAmount(rows);
        totalVAT := SumVat(rows);
        if VatConsistent(db.expenses) {
          ListedVatIsFifth(db.expenses, searchQuery, rows);
        }
      }
    }

    /** Stores the expense with its VAT under `exp_<now>`, closes the form and reloads. */
    method HandleAddExpense(form: ExpenseForm, now: Timestamp)
      modifies this, db`expenses
      ensures db.available ==> db.expenses == Insert(old(db.expenses), MintId("exp_", now), NewExpenseRow(form, now))
      ensures db.available ==> Listing(db.expenses, DescriptionFilter(searchQuery), ByDate, expenses)
      ensures db.available ==> !isAddModalOpen && totalExpenses == SumAmount(expenses) && totalVAT == SumVat(expenses)
      ensures old(VatConsistent(db.expenses)) ==> VatConsistent(db.expenses)
      ensures !db.available ==> db.expenses == old(db.expenses) && expenses == old(expenses) && isAddModalOpen == old(isAddModalOpen)
      ensures !db.available ==> totalExpenses == old(totalExpenses) && totalVAT == old(totalVAT)
      ensures searchQuery == old(searchQuery)
    {
      if db.available {
        db.expenses := Insert(db.expenses, MintId("exp_", now), NewExpenseRow(form, now));
        isAddModalOpen := false;
        LoadExpenses();
      }
    }

    /** Deletes the expense `id`, and only it, then reloads. */
    method HandleDeleteExpense(id: string)
      modifies this, db`expenses
      ensures db.available ==> db.expenses == DeleteRow(old(db.expenses), id)
      ensures db.available ==> Listing(db.expenses, DescriptionFilter(searchQuery), ByDate, expenses)
      ensures db.available ==> totalExpenses == SumAmount(expenses) && totalVAT == SumVat(expenses)
      ensures old(VatConsistent(db.expenses)) ==> VatConsistent(db.expenses)
      ensures !db.available ==> db.expenses == old(db.expenses) && expenses == old(expenses)
      ensures !db.available ==> totalExpenses == old(totalExpenses) && totalVAT == old(totalVAT)
      ensures searchQuery == old(searchQuery) && isAddModalOpen == old(isAddModalOpen)
    {
      if db.available {
        db.expenses := DeleteRow(db.expenses, id);
        LoadExpenses();
      }
    }
  }
}
