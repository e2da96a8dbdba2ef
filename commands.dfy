/** The five commands. Each loop of a command is a method of its own, proved
    against the specification functions; the class holds the expenses file and
    runs one command per call: load, work on a local copy, save. */
module Commands {
  import opened Wrappers
  import opened Expenses

  /** The add command's scan: the running maximum of the ids, from 0, plus one
      in Go's wrapping int arithmetic. */
  method NewId(expenses: seq<Expense>) returns (newId: Int64)
    ensures newId == NextId(expenses)
    ensures MaxId(expenses) < MaxInt ==>
              newId >= 1 && forall i :: 0 <= i < |expenses| ==> expenses[i].id < newId
    ensures MaxId(expenses) == MaxInt ==> newId == MinInt
  {
    newId := 0;
    for i := 0 to |expenses|
      invariant newId == MaxId(expenses[..i])
    {
      assert expenses[..i + 1][..i] == expenses[..i];
      if expenses[i].id > newId {
        newId := expenses[i].id;
      }
    }
    assert expenses[..|expenses|] == expenses;
    if newId == MaxInt {
      newId := MinInt;
    } else {
      newId := newId + 1;
    }
  }

  /** The delete command's scan: splice out the first record carrying id and stop. */
  method RemoveFirst(expenses: seq<Expense>, id: int) returns (rest: seq<Expense>, found: bool)
    ensures found <==> HasId(expenses, id)
    ensures rest == Without(expenses, id)
    ensures found ==> |rest| == |expenses| - 1
  {
    rest, found := expenses, false;
    for i := 0 to |expenses|
      invariant rest == expenses && !found
      invariant forall j :: 0 <= j < i ==> expenses[j].id != id
    {
      if expenses[i].id == id {
        WithoutSplice(expenses, id, i);
        rest := expenses[..i] + expenses[i + 1..];
        found := true;
        break;
      }
    }
  }

  /** The update command's scan: the index of the first record carrying id, or -1. */
  method FindIndex(expenses: seq<Expense>, id: int) returns (found: int)
    ensures found == -1 <==> !HasId(expenses, id)
    ensures found != -1 ==> IsFirstWith(expenses, id, found)
    ensures found != -1 ==> found == FirstIndex(expenses, id)
  {
    found := -1;
    for i := 0 to |expenses|
      invariant found == -1
      invariant forall j :: 0 <= j < i ==> expenses[j].id != id
    {
      if expenses[i].id == id {
        found := i;
        FirstIndexUnique(expenses, id, i);
        break;
      }
    }
  }

  /** The summary loop without a month: add up every amount. */
  method SumAll(expenses: seq<Expense>) returns (total: int)
    ensures total == Total(expenses)
  {
    total := 0;
    for i := 0 to |expenses|
      invariant total == Total(expenses[..i])
    {
      assert expenses[..i + 1][..i] == expenses[..i];
      total := total + expenses[i].amount;
    }
    assert expenses[..|expenses|] == expenses;
  }

  /** The summary loop with a month: add up the amounts dated in that month of that year. */
  method SumMonth(expenses: seq<Expense>, year: int, month: int) returns (total: int)
    ensures total == Total(InMonth(expenses, year, month))
  {
    total := 0;
    for i := 0 to |expenses|
      invariant total == Total(InMonth(expenses[..i], year, month))
    {
      var e := expenses[i];
      assert expenses[..i + 1][..i] == expenses[..i];
      ghost var before := InMonth(expenses[..i], year, month);
      if InPeriod(e, year, month) {
        assert InMonth(expenses[..i + 1], year, month) == before + [e];
        assert (before + [e])[..|before|] == before;
        total := total + e.amount;
      } else {
        assert InMonth(expenses[..i + 1], year, month) == before + [];
        assert before + [] == before;
      }
    }
    assert expenses[..|expenses|] == expenses;
  }

  /** What loads from the file is a well-formed list, if anything loads. */
  ghost predicate FileWellFormed(f: StoredFile)
  {
    Load(f).Success? ==> WellFormed(Load(f).value)
  }

  /** The expenses file and the commands that read and rewrite it. */
  class ExpenseStore {
    /** The contents of expenses.json. */
    var file: StoredFile

    constructor (initial: StoredFile)
      ensures file == initial
    {
      file := initial;
    }

    /** Add a record with the next id and today's date. The amount is checked
        before the file is even loaded. */
    method Add(description: string, amount: int, today: Date) returns (r: Result<int, Error>)
      modifies this
      ensures amount <= 0 ==> r == Failure(InvalidAmount)
      ensures amount > 0 && Load(old(file)).Failure? ==> r == Failure(LoadFailed)
      ensures amount > 0 && Load(old(file)).Success? ==>
                var s := Load(old(file)).value;
                && r == Success(NextId(s))
                && file == Records(s + [NewRecord(s, today, description, amount)])
      ensures r.Failure? ==> file == old(file)
      ensures FileWellFormed(old(file)) &&
              (Load(old(file)).Success? ==> MaxId(Load(old(file)).value) < MaxInt) ==>
                FileWellFormed(file)
    {
      if amount <= 0 {
        return Failure(InvalidAmount);
      }
      var loaded := Load(file);
      if loaded.Failure? {
        return Failure(LoadFailed);
      }
      var expenses := loaded.value;
      var newId := NewId(expenses);
      if WellFormed(expenses) && MaxId(expenses) < MaxInt {
        AddKeepsWellFormed(expenses, today, description, amount);
      }
      expenses := expenses + [Expense(newId, today, description, amount)];
      file := Records(expenses);
      return Success(newId);
    }

    /** Delete the first record carrying id, keeping the order of the others. */
    method Delete(id: Int64) returns (r: Outcome<Error>)
      modifies this
      ensures Load(old(file)).Failure? ==> r == Fail(LoadFailed)
      ensures Load(old(file)).Success? ==>
                var s := Load(old(file)).value;
                && (!HasId(s, id) ==> r == Fail(NotFound(id)))
                && (HasId(s, id) ==> r == Pass && file == Records(Without(s, id)))
      ensures r.Fail? ==> file == old(file)
      ensures FileWellFormed(old(file)) ==> FileWellFormed(file)
    {
      var loaded := Load(file);
      if loaded.Failure? {
        return Fail(LoadFailed);
      }
      if WellFormed(loaded.value) {
        DeleteKeepsWellFormed(loaded.value, id);
      }
      var expenses, found := RemoveFirst(loaded.value, id);
      if !found {
        return Fail(NotFound(id));
      }
      file := Records(expenses);
      return Pass;
    }

    /** Overwrite the supplied fields of the record carrying id, one field at a
        time in a working copy; the file is written only when every step passed. */
    method Update(id: Int64, description: Option<string>, amount: Option<int>,
                  date: Option<DateArg>) returns (r: Outcome<Error>)
      modifies this
      ensures Load(old(file)).Failure? ==> r == Fail(LoadFailed)
      ensures Load(old(file)).Success? ==>
                var s := Load(old(file)).value;
                && (!HasId(s, id) ==> r == Fail(NotFound(id)))
                && (HasId(s, id) ==>
                      var i := FirstIndex(s, id);
                      var edit := EditRecord(s[i], description, amount, date);
                      && (edit.error.Some? ==> r == Fail(edit.error.value))
                      && (edit.error.None? ==> r == Pass && file == Records(s[i := edit.record])))
      ensures r.Fail? ==> file == old(file)
      ensures FileWellFormed(old(file)) ==> FileWellFormed(file)
    {
      var loaded := Load(file);
      if loaded.Failure? {
        return Fail(LoadFailed);
      }
      var expenses := loaded.value;
      var found := FindIndex(expenses, id);
      if found == -1 {
        return Fail(NotFound(id));
      }
      if WellFormed(expenses) && EditRecord(expenses[found], description, amount, date).error.None? {
        UpdateKeepsWellFormed(expenses, found, description, amount, date);
      }
      if description.None? && amount.None? && date.None? {
        return Fail(NoFieldsToUpdate);
      }
      if description.Some? {
        expenses := expenses[found := expenses[found].(description := description.value)];
      }
      if amount.Some? {
        if amount.value <= 0 {
          return Fail(InvalidAmount);
        }
        expenses := expenses[found := expenses[found].(amount := amount.value)];
      }
      if date.Some? {
        if date.value.Unparsable? {
          return Fail(InvalidDate);
        }
        expenses := expenses[found := expenses[found].(date := date.value.date)];
      }
      file := Records(expenses);
      return Pass;
    }

    /** The records in stored order; nothing is written. */
    method List() returns (r: Result<seq<Expense>, Error>)
      ensures r == Load(file)
    {
      r := Load(file);
    }

    /** The total of all amounts, or, when a month is given, of the amounts
        dated in that month of the current year; nothing is written. */
    method Summary(month: Option<int>, currentYear: int) returns (r: Result<int, Error>)
      ensures Load(file).Failure? ==> r == Failure(LoadFailed)
      ensures Load(file).Success? ==>
                var s := Load(file).value;
                && (month.None? ==> r == Success(Total(s)))
                && (month.Some? && !(1 <= month.value <= 12) ==> r == Failure(InvalidMonth(month.value)))
                && (month.Some? && 1 <= month.value <= 12 ==>
                      r == Success(Total(InMonth(s, currentYear, month.value))))
    {
      var loaded := Load(file);
      if loaded.Failure? {
        return Failure(LoadFailed);
      }
      var expenses := loaded.value;
      var total: int;
      if month.Some? {
        if month.value < 1 || month.value > 12 {
          return Failure(InvalidMonth(month.value));
        }
        total := SumMonth(expenses, currentYear, month.value);
      } else {
        total := SumAll(expenses);
      }
      return Success(total);
    }
  }
}
