/**
 * The add-transaction dialog of src/components/AddTransactionModal.tsx: five
 * pieces of form state, a type toggle that clears the chosen category, and a
 * submit guard in front of the `onSubmit` callback.
 */
module AddTransactionModal {
  import opened Wrappers
  import opened Ledger

  /** `CATEGORIES[type]`: the options the category select offers for a type. */
  function Categories(kind: string): seq<string>
    requires IsKind(kind)
  {
    if kind == EXPENSE then
      ["Jedzenie", "Transport", "Rozrywka", "Zakupy", "Zdrowie", "Rachunki", "Inne"]
    else
      ["Pensja", "Freelance", "Inwestycje", "Prezent", "Inne"]
  }

  /**
   * Seven expense and five income categories, both ending in "Inne"; no option
   * is the empty placeholder value, and no option repeats (they are React keys).
   */
  lemma CategoriesShape()
    ensures |Categories(EXPENSE)| == 7 && |Categories(INCOME)| == 5
    ensures "Inne" in Categories(EXPENSE) && "Inne" in Categories(INCOME)
    ensures forall k :: IsKind(k) ==> "" !in Categories(k)
    ensures forall k :: IsKind(k) ==>
      forall i, j :: 0 <= i < j < |Categories(k)| ==> Categories(k)[i] != Categories(k)[j]
  {
  }

  /** The dialog's `useState` fields. */
  class Form {
    var kind: string
    var amount: string
    var category: string
    var description: string
    var date: string

    /** The type is one of the two, and the category is unset or one the select offers for it. */
    ghost predicate Valid()
      reads this
    {
      IsKind(kind) && (category == "" || category in Categories(kind))
    }

    /** A freshly opened dialog; `today` stands for `new Date().toISOString().split('T')[0]`. */
    constructor (today: string)
      ensures Valid()
      ensures kind == EXPENSE && amount == "" && category == "" && description == "" && date == today
    {
      kind := EXPENSE;
      amount := "";
      category := "";
      description := "";
      date := today;
    }

    /** The "Wydatek" button: `setType('expense'); setCategory('')`. */
    method ChooseExpense()
      requires Valid()
      modifies this
      ensures Valid() && kind == EXPENSE && category == ""
      ensures amount == old(amount) && description == old(description) && date == old(date)
    {
      kind := EXPENSE;
      category := "";
    }

    /** The "Przychód" button: `setType('income'); setCategory('')`. */
    method ChooseIncome()
      requires Valid()
      modifies this
      ensures Valid() && kind == INCOME && category == ""
      ensures amount == old(amount) && description == old(description) && date == old(date)
    {
      kind := INCOME;
      category := "";
    }

    /** The category select's `onChange`: the placeholder "" or one of the offered options. */
    method ChooseCategory(value: string)
      requires Valid() && (value == "" || value in Categories(kind))
      modifies this
      ensures Valid() && category == value
      ensures kind == old(kind) && amount == old(amount) && description == old(description) && date == old(date)
    {
      category := value;
    }

    /** The amount input's `onChange`: the raw text of the field. */
    method EditAmount(value: string)
      requires Valid()
      modifies this
      ensures Valid() && amount == value
      ensures kind == old(kind) && category == old(category) && description == old(description) && date == old(date)
    {
      amount := value;
    }

    /** The description textarea's `onChange`. */
    method EditDescription(value: string)
      requires Valid()
      modifies this
      ensures Valid() && description == value
      ensures kind == old(kind) && amount == old(amount) && category == old(category) && date == old(date)
    {
      description := value;
    }

    /** The date input's `onChange`. */
    method EditDate(value: string)
      requires Valid()
      modifies this
      ensures Valid() && date == value
      ensures kind == old(kind) && amount == old(amount) && category == old(category) && description == old(description)
    {
      date := value;
    }

    /**
     * `handleSubmit`: an empty amount or an empty category is refused and
     * nothing is submitted; otherwise `onSubmit` receives the form state, with
     * the amount converted by `parseFloat` and no id. What is submitted always
     * has a valid type and one of that type's categories.
     */
    method HandleSubmit(parseFloat: string -> real) returns (submitted: Option<NewTransaction>)
      requires Valid()
      ensures submitted.None? <==> amount == "" || category == ""
      ensures submitted.Some? ==>
        submitted.value == NewTransaction(parseFloat(amount), kind, category, date, description)
      ensures submitted.Some? ==>
        IsKind(submitted.value.kind) && submitted.value.category in Categories(submitted.value.kind)
    {
      if amount == "" || category == "" {
        return None;
      }
      submitted := Some(NewTransaction(parseFloat(amount), kind, category, date, description));
    }

    /** Right after either type button, submitting is refused until a category is chosen again. */
    method SwitchTypeThenSubmit(toIncome: bool, parseFloat: string -> real)
      returns (submitted: Option<NewTransaction>)
      requires Valid()
      modifies this
      ensures Valid() && category == "" && kind == (if toIncome then INCOME else EXPENSE)
      ensures submitted == None
    {
      if toIncome {
        ChooseIncome();
      } else {
        ChooseExpense();
      }
      submitted := HandleSubmit(parseFloat);
    }
  }
}
