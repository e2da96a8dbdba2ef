/** Clients of the store that walk through concrete command sequences and
    check, from the commands' contracts alone, what they return and leave in
    the file. */
module Scenarios {
  import opened Wrappers
  import opened Expenses
  import opened Commands

  method AddToEmptyStore(today: Date)
  {
    var store := new ExpenseStore(Missing);
    var r := store.Add("Lunch", 2000, today);
    assert r == Success(1);
    assert store.file == Records([Expense(1, today, "Lunch", 2000)]);
    r := store.Add("Refund", -500, today);
    assert r == Failure(InvalidAmount);
    assert store.file == Records([Expense(1, today, "Lunch", 2000)]);
  }

  method AddSecond(today: Date)
  {
    var lunch := Expense(1, today, "Lunch", 2000);
    var store := new ExpenseStore(Records([lunch]));
    assert [lunch][..0] == [];
    assert MaxId([lunch]) == 1;
    var r := store.Add("Dinner", 3500, today);
    assert r == Success(2);
    assert store.file == Records([lunch, Expense(2, today, "Dinner", 3500)]);
  }

  method AddWrapsAtLargestId(today: Date)
  {
    var big := Expense(MaxInt, today, "x", 100);
    var store := new ExpenseStore(Records([big]));
    assert [big][..0] == [];
    assert MaxId([big]) == MaxInt;
    var r := store.Add("y", 200, today);
    assert r == Success(MinInt);
    var wrapped := Expense(MinInt, today, "y", 200);
    assert store.file == Records([big, wrapped]);
    assert [big, wrapped][..1] == [big];
    assert MaxId([big, wrapped]) == MaxInt;
    r := store.Add("z", 300, today);
    assert r == Success(MinInt);
  }

  method AddToMalformedFile(today: Date)
  {
    var store := new ExpenseStore(Malformed);
    var r := store.Add("Lunch", 0, today);
    assert r == Failure(InvalidAmount);
    r := store.Add("Lunch", 2000, today);
    assert r == Failure(LoadFailed);
    assert store.file == Malformed;
  }

  method SummaryByMonth(year: int)
  {
    var march := Expense(1, Date(year, 3, 14), "Books", 1000);
    var may := Expense(2, Date(year, 5, 2), "Train", 1500);
    var lastYear := Expense(3, Date(year - 1, 3, 1), "Gift", 700);
    var s := [march, may, lastYear];
    assert s[..2] == [march, may] && [march, may][..1] == [march] && [march][..0] == [];
    assert InMonth([march], year, 3) == [march];
    assert InMonth([march, may], year, 3) == [march] + [];
    assert InMonth(s, year, 3) == [march] + [];
    assert Total([march]) == 1000;
    var store := new ExpenseStore(Records(s));
    var r := store.Summary(Some(3), year);
    assert r == Success(1000);
    r := store.Summary(Some(13), year);
    assert r == Failure(InvalidMonth(13));
  }

  method SummaryOfAll(year: int)
  {
    var march := Expense(1, Date(year, 3, 14), "Books", 1000);
    var may := Expense(2, Date(year, 5, 2), "Train", 1500);
    var lastYear := Expense(3, Date(year - 1, 3, 1), "Gift", 700);
    var s := [march, may, lastYear];
    assert s[..2] == [march, may] && [march, may][..1] == [march] && [march][..0] == [];
    assert Total([march]) == 1000;
    assert Total([march, may]) == 2500;
    assert Total(s) == 3200;
    var store := new ExpenseStore(Records(s));
    var r := store.Summary(None, year);
    assert r == Success(3200);
  }

  method DeleteMiddle(d: Date)
  {
    var e1, e2, e3 := Expense(1, d, "a", 100), Expense(2, d, "b", 200), Expense(3, d, "c", 300);
    var s := [e1, e2, e3];
    var store := new ExpenseStore(Records(s));
    assert IsFirstWith(s, 2, 1);
    WithoutSplice(s, 2, 1);
    assert s[..1] + s[2..] == [e1, e3];
    var r := store.Delete(2);
    assert r == Pass && store.file == Records([e1, e3]);
    assert !HasId([e1, e3], 2);
    r := store.Delete(2);
    assert r == Fail(NotFound(2)) && store.file == Records([e1, e3]);
  }

  method UpdateErrorsLeaveFileAlone(d: Date, d': Date)
  {
    var e1 := Expense(1, d, "a", 100);
    var store := new ExpenseStore(Records([e1]));
    assert [e1][0].id == 1;
    var r := store.Update(1, Some("b"), Some(0), None);
    assert r == Fail(InvalidAmount) && store.file == Records([e1]);
    r := store.Update(1, Some("b"), Some(250), Some(Unparsable));
    assert r == Fail(InvalidDate) && store.file == Records([e1]);
    r := store.Update(1, None, None, None);
    assert r == Fail(NoFieldsToUpdate);
    r := store.Update(7, None, None, None);
    assert r == Fail(NotFound(7));
    r := store.Update(1, None, Some(250), Some(Parsed(d')));
    assert r == Pass && store.file == Records([Expense(1, d', "a", 250)]);
  }
}
