/** The expense records, the file they are kept in, and the specification
    functions that the commands are proved against. */
module Expenses {
  import opened Wrappers

  /** A calendar day (Go keeps a full time.Time; only the day matters here). */
  datatype Date = Date(year: int, month: int, day: int)

  /** The range of Go's int on a 64-bit platform. */
  const MinInt: int := -0x8000_0000_0000_0000
  const MaxInt: int := 0x7FFF_FFFF_FFFF_FFFF
  type Int64 = x: int | MinInt <= x <= MaxInt

  /** Go's x + 1 on int: the sum taken modulo 2^64 into the int range. */
  function Increment(x: Int64): (y: Int64)
    ensures (y - (x + 1)) % 0x1_0000_0000_0000_0000 == 0
  {
    if x == MaxInt then MinInt else x + 1
  }

  /** One stored expense; the id is a Go int, the amount a whole number of cents. */
  datatype Expense = Expense(id: Int64, date: Date, description: string, amount: int)

  /** Why a command stopped before saving. */
  datatype Error =
    | InvalidAmount            // the amount given is not positive
    | LoadFailed               // the expenses file could not be read or decoded
    | NotFound(id: int)        // no record carries the id
    | NoFieldsToUpdate         // update was given none of its optional fields
    | InvalidDate              // the date given does not parse as YYYY-MM-DD
    | InvalidMonth(month: int) // the month given to summary is outside 1..12

  /** The file expenses.json as the loader finds it. */
  datatype StoredFile =
    | Missing                          // the file does not exist
    | Blank                            // it exists but holds no JSON value (the decoder reports EOF)
    | Unreadable                       // it exists but cannot be opened
    | Malformed                        // it holds something that is not a list of expenses
    | Records(expenses: seq<Expense>)  // it holds this list, in this order

  /** What loading the file yields: a missing or blank file is an empty list,
      an unreadable or malformed one is an error. */
  function Load(f: StoredFile): (r: Result<seq<Expense>, Error>)
    ensures r.Failure? <==> f.Unreadable? || f.Malformed?
    ensures r.Success? ==> r.value == (if f.Records? then f.expenses else [])
  {
    match f
    case Missing => Success([])
    case Blank => Success([])
    case Unreadable => Failure(LoadFailed)
    case Malformed => Failure(LoadFailed)
    case Records(s) => Success(s)
  }

  /** Saving writes the whole list as Records(s). With the JSON encoding taken
      to be lossless, loading what was saved gives back the same list, and
      saving what was loaded does not change what a later load sees. */
  lemma LoadSaveRoundTrip(f: StoredFile, s: seq<Expense>)
    ensures Load(Records(s)) == Success(s)
    ensures Load(f).Success? ==> Load(Records(Load(f).value)) == Load(f)
  {
  }

  // ---------------------------------------------------------------------------
  // Identifiers

  /** The largest id in the list, or 0 when there is none larger than 0: the
      running maximum the add command starts at 0. */
  function MaxId(s: seq<Expense>): (m: Int64)
    ensures m >= 0
    ensures forall i :: 0 <= i < |s| ==> s[i].id <= m
    ensures m == 0 || exists i :: 0 <= i < |s| && s[i].id == m
  {
    if s == [] then 0
    else
      var m' := MaxId(s[..|s| - 1]);
      if s[|s| - 1].id > m' then s[|s| - 1].id else m'
  }

  /** The id the add command gives a new record: the running maximum plus one,
      with Go's wrap-around. Below the largest int it is above every stored id;
      when some stored id is the largest int, it wraps to the smallest. */
  function NextId(s: seq<Expense>): (n: Int64)
    ensures MaxId(s) < MaxInt ==>
              && n >= 1
              && (forall i :: 0 <= i < |s| ==> s[i].id < n)
              && (n == 1 || exists i :: 0 <= i < |s| && s[i].id == n - 1)
    ensures MaxId(s) == MaxInt ==>
              n == MinInt && exists i :: 0 <= i < |s| && s[i].id == MaxInt
  {
    Increment(MaxId(s))
  }

  /** The record that add appends. */
  function NewRecord(s: seq<Expense>, today: Date, description: string, amount: int): (e: Expense)
  {
    Expense(NextId(s), today, description, amount)
  }

  /** Ids handed out by successive adds increase by exactly one each time, until
      the largest int is stored; from then on every add issues the smallest int. */
  lemma NextIdAfterAdd(s: seq<Expense>, today: Date, description: string, amount: int)
    ensures MaxId(s) < MaxInt ==>
              NextId(s + [NewRecord(s, today, description, amount)]) == Increment(NextId(s))
    ensures MaxId(s) == MaxInt ==>
              NextId(s + [NewRecord(s, today, description, amount)]) == NextId(s) == MinInt
  {
    var t := s + [NewRecord(s, today, description, amount)];
    assert t[..|t| - 1] == s;
  }

  predicate HasId(s: seq<Expense>, id: int)
  {
    exists i :: 0 <= i < |s| && s[i].id == id
  }

  /** Position i holds the first record carrying id. */
  predicate IsFirstWith(s: seq<Expense>, id: int, i: int)
  {
    0 <= i < |s| && s[i].id == id && forall j :: 0 <= j < i ==> s[j].id != id
  }

  lemma HasIdCons(s: seq<Expense>, id: int)
    requires s != []
    ensures HasId(s, id) <==> s[0].id == id || HasId(s[1..], id)
  {
    if HasId(s, id) && s[0].id != id {
      var i :| 0 <= i < |s| && s[i].id == id;
      assert s[1..][i - 1].id == id;
    }
    if HasId(s[1..], id) {
      var i :| 0 <= i < |s[1..]| && s[1..][i].id == id;
      assert s[i + 1].id == id;
    }
  }

  /** The position of the first record carrying id. */
  function FirstIndex(s: seq<Expense>, id: int): (i: nat)
    requires HasId(s, id)
    ensures IsFirstWith(s, id, i)
  {
    HasIdCons(s, id);
    if s[0].id == id then 0 else 1 + FirstIndex(s[1..], id)
  }

  /** There is only one first match. */
  lemma FirstIndexUnique(s: seq<Expense>, id: int, i: int)
    requires IsFirstWith(s, id, i)
    ensures HasId(s, id) && FirstIndex(s, id) == i
  {
    var k := FirstIndex(s, id);
    assert !(k < i) && !(i < k);
  }

  // ---------------------------------------------------------------------------
  // Removing a record

  /** The list with its first record carrying id taken out, the rest in their order. */
  function Without(s: seq<Expense>, id: int): (r: seq<Expense>)
    ensures HasId(s, id) ==> |r| == |s| - 1
    ensures !HasId(s, id) ==> r == s
  {
    if s == [] then []
    else
      HasIdCons(s, id);
      if s[0].id == id then s[1..] else [s[0]] + Without(s[1..], id)
  }

  /** Every record left after a delete was in the list before it. */
  lemma {:induction false} WithoutFromList(s: seq<Expense>, id: int)
    ensures forall k :: 0 <= k < |Without(s, id)| ==> Without(s, id)[k] in s
  {
    if s != [] && s[0].id != id {
      WithoutFromList(s[1..], id);
      var r := Without(s, id);
      assert r == [s[0]] + Without(s[1..], id);
      forall k | 0 < k < |r|
        ensures r[k] in s
      {
        assert r[k] == Without(s[1..], id)[k - 1];
      }
    }
  }

  /** Taking out the first match is splicing at its position. */
  lemma {:induction false} WithoutSplice(s: seq<Expense>, id: int, i: int)
    requires IsFirstWith(s, id, i)
    ensures Without(s, id) == s[..i] + s[i + 1..]
  {
    if i == 0 {
      assert Without(s, id) == s[1..];
      assert s[..0] + s[1..] == s[1..];
    } else {
      var tail := s[1..];
      assert s[0].id != id;
      assert Without(s, id) == [s[0]] + Without(tail, id);
      assert IsFirstWith(tail, id, i - 1);
      WithoutSplice(tail, id, i - 1);
      assert tail[..i - 1] == s[1..i];
      assert tail[i..] == s[i + 1..];
      assert [s[0]] + s[1..i] == s[..i];
    }
  }

  // ---------------------------------------------------------------------------
  // Editing a record

  /** The date flag of update, after the Go time library has tried to parse it. */
  datatype DateArg = Unparsable | Parsed(date: Date)

  /** The record as update leaves it in memory, and the error it stopped at, if any. */
  datatype Edit = Edit(record: Expense, error: Option<Error>)

  /** Update's field-by-field edit of the matching record: give up when no field
      is supplied; write the description; check and write the amount; check and
      write the date. A failing check stops the edit where it is. */
  function EditRecord(e: Expense, description: Option<string>, amount: Option<int>,
                      date: Option<DateArg>): (r: Edit)
    // the edit succeeds exactly when some field is supplied and every supplied field is acceptable
    ensures r.error.None? <==>
              (description.Some? || amount.Some? || date.Some?) &&
              (amount.Some? ==> amount.value > 0) &&
              (date.Some? ==> date.value.Parsed?)
    // the checks come in order: fields present, then amount, then date
    ensures r.error.Some? ==>
              r.error.value ==
                (if description.None? && amount.None? && date.None? then NoFieldsToUpdate
                 else if amount.Some? && amount.value <= 0 then InvalidAmount
                 else InvalidDate)
    // the id is never touched
    ensures r.record.id == e.id
    // on success each field is the supplied value, or the old one if none was supplied
    ensures r.error.None? ==>
              && r.record.description == (if description.Some? then description.value else e.description)
              && r.record.amount == (if amount.Some? then amount.value else e.amount)
              && r.record.date == (if date.Some? then date.value.date else e.date)
  {
    if description.None? && amount.None? && date.None? then Edit(e, Some(NoFieldsToUpdate))
    else
      var e1 := if description.Some? then e.(description := description.value) else e;
      if amount.Some? && amount.value <= 0 then Edit(e1, Some(InvalidAmount))
      else
        var e2 := if amount.Some? then e1.(amount := amount.value) else e1;
        if date.Some? && date.value.Unparsable? then Edit(e2, Some(InvalidDate))
        else
          var e3 := if date.Some? then e2.(date := date.value.date) else e2;
          Edit(e3, None)
  }

  /** The in-memory edit is not atomic: when the date fails to parse, a
      description supplied in the same call has already been written to the
      working copy (it is never saved, since the command stops first). */
  lemma EditStopsPartway(e: Expense, description: string, amount: Option<int>)
    requires amount.Some? ==> amount.value > 0
    ensures var r := EditRecord(e, Some(description), amount, Some(Unparsable));
            r.error == Some(InvalidDate) && r.record.description == description &&
            (amount.Some? ==> r.record.amount == amount.value)
  {
  }

  // ---------------------------------------------------------------------------
  // Totals

  /** The sum of the amounts, in the order the summary loop adds them. */
  function Total(s: seq<Expense>): (t: int)
  {
    if s == [] then 0 else Total(s[..|s| - 1]) + s[|s| - 1].amount
  }

  predicate InPeriod(e: Expense, year: int, month: int)
  {
    e.date.year == year && e.date.month == month
  }

  /** The records dated in the given month of the given year, in order. */
  function InMonth(s: seq<Expense>, year: int, month: int): (r: seq<Expense>)
  {
    if s == [] then []
    else
      var last := s[|s| - 1];
      InMonth(s[..|s| - 1], year, month) + (if InPeriod(last, year, month) then [last] else [])
  }

  lemma {:induction false} TotalAppend(a: seq<Expense>, b: seq<Expense>)
    ensures Total(a + b) == Total(a) + Total(b)
    decreases |b|
  {
    if b == [] {
      assert a + b == a;
    } else {
      var b' := b[..|b| - 1];
      assert (a + b)[..|a + b| - 1] == a + b';
      TotalAppend(a, b');
    }
  }

  /** A record is counted in a month's total exactly when it is stored and
      dated in that month and year. */
  lemma {:induction false} InMonthMembers(s: seq<Expense>, year: int, month: int, e: Expense)
    ensures e in InMonth(s, year, month) <==> e in s && InPeriod(e, year, month)
  {
    if s != [] {
      var s' := s[..|s| - 1];
      InMonthMembers(s', year, month, e);
      assert s == s' + [s[|s| - 1]];
    }
  }

  /** With positive amounts, a month's total is between zero and the overall total. */
  lemma {:induction false} MonthTotalBounded(s: seq<Expense>, year: int, month: int)
    requires PositiveAmounts(s)
    ensures 0 <= Total(InMonth(s, year, month)) <= Total(s)
  {
    if s != [] {
      var s' := s[..|s| - 1];
      var last := s[|s| - 1];
      MonthTotalBounded(s', year, month);
      if InPeriod(last, year, month) {
        TotalAppend(InMonth(s', year, month), [last]);
      } else {
        assert InMonth(s', year, month) + [] == InMonth(s', year, month);
      }
    }
  }

  // ---------------------------------------------------------------------------
  // Well-formed lists

  ghost predicate UniqueIds(s: seq<Expense>)
  {
    forall i, j :: 0 <= i < j < |s| ==> s[i].id != s[j].id
  }

  ghost predicate PositiveAmounts(s: seq<Expense>)
  {
    forall i :: 0 <= i < |s| ==> s[i].amount > 0
  }

  ghost predicate PositiveIds(s: seq<Expense>)
  {
    forall i :: 0 <= i < |s| ==> s[i].id > 0
  }

  /** Every list the commands build from a well-formed one is well formed:
      positive ids, unique ids, positive amounts. */
  ghost predicate WellFormed(s: seq<Expense>)
  {
    PositiveIds(s) && UniqueIds(s) && PositiveAmounts(s)
  }

  /** Add keeps a list well formed as long as no stored id is the largest int. */
  lemma AddKeepsWellFormed(s: seq<Expense>, today: Date, description: string, amount: int)
    requires WellFormed(s) && amount > 0 && MaxId(s) < MaxInt
    ensures WellFormed(s + [NewRecord(s, today, description, amount)])
  {
  }

  /** Once the largest int is stored, add appends a record with a negative id,
      and a second add appends another record with that same id. */
  lemma {:induction false} AddAfterLargestId(s: seq<Expense>, today: Date, description: string, amount: int)
    requires MaxId(s) == MaxInt
    ensures var t := s + [NewRecord(s, today, description, amount)];
            && !PositiveIds(t)
            && !UniqueIds(t + [NewRecord(t, today, description, amount)])
  {
    var t := s + [NewRecord(s, today, description, amount)];
    NextIdAfterAdd(s, today, description, amount);
    var u := t + [NewRecord(t, today, description, amount)];
    assert t[|s|].id == MinInt;
    assert u[|s|].id == u[|s| + 1].id;
  }

  /** Where each record of a splice came from. */
  lemma SpliceIndex(s: seq<Expense>, i: int, k: int)
    requires 0 <= i < |s| && 0 <= k < |s| - 1
    ensures (s[..i] + s[i + 1..])[k] == s[if k < i then k else k + 1]
  {
  }

  /** Splicing one record out of a well-formed list keeps it well formed and
      leaves no other record with that record's id. */
  lemma SpliceKeepsWellFormed(s: seq<Expense>, i: int)
    requires WellFormed(s) && 0 <= i < |s|
    ensures WellFormed(s[..i] + s[i + 1..])
    ensures !HasId(s[..i] + s[i + 1..], s[i].id)
  {
    var r := s[..i] + s[i + 1..];
    forall k | 0 <= k < |r|
      ensures r[k].id > 0 && r[k].amount > 0 && r[k].id != s[i].id
    {
      SpliceIndex(s, i, k);
      var k' := if k < i then k else k + 1;
      assert k' < i ==> s[k'].id != s[i].id;
      assert i < k' ==> s[i].id != s[k'].id;
    }
    forall k, l | 0 <= k < l < |r|
      ensures r[k].id != r[l].id
    {
      SpliceIndex(s, i, k);
      SpliceIndex(s, i, l);
    }
  }

  lemma DeleteKeepsWellFormed(s: seq<Expense>, id: int)
    requires WellFormed(s)
    ensures WellFormed(Without(s, id))
    ensures !HasId(Without(s, id), id)
  {
    if HasId(s, id) {
      var i := FirstIndex(s, id);
      WithoutSplice(s, id, i);
      SpliceKeepsWellFormed(s, i);
    }
  }

  lemma UpdateKeepsWellFormed(s: seq<Expense>, i: int, description: Option<string>,
                              amount: Option<int>, date: Option<DateArg>)
    requires WellFormed(s) && 0 <= i < |s|
    requires EditRecord(s[i], description, amount, date).error.None?
    ensures WellFormed(s[i := EditRecord(s[i], description, amount, date).record])
  {
  }

  /** Ids can be handed out again: deleting the record an add just appended
      makes the next add issue its id once more. */
  lemma {:induction false} IdReissuedAfterDeletingNewest(s: seq<Expense>, today: Date, description: string, amount: int)
    ensures var n := NextId(s);
            NextId(Without(s + [NewRecord(s, today, description, amount)], n)) == n
  {
    var n := NextId(s);
    var t := s + [NewRecord(s, today, description, amount)];
    if MaxId(s) < MaxInt {
      assert IsFirstWith(t, n, |s|);
      WithoutSplice(t, n, |s|);
      assert t[..|s|] + t[|s| + 1..] == s;
    } else {
      // the largest int is still stored after the delete, so the id wraps again
      var k :| 0 <= k < |s| && s[k].id == MaxInt;
      assert t[|s|].id == n;
      var i := FirstIndex(t, n);
      WithoutSplice(t, n, i);
      var r := Without(t, n);
      var k' := if k < i then k else k - 1;
      assert r[k'] == t[k];
      assert MaxId(r) == MaxInt;
    }
  }
}
