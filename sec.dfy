/** Selection of SEC EDGAR filings (backend/sec.py): classifying the rows of
    a submissions block into 10-Ks, 8-Ks and Form 4s, the stopping predicate
    for paging through older blocks, the final sort and truncation, and the
    company-name lookup in the ticker table. */
module Sec {
  import opened Wrappers
  import opened PyStr

  // ---------------------------------------------------------------------------
  // Dates
  // ---------------------------------------------------------------------------

  /** A calendar date as `datetime.strptime(s, "%Y-%m-%d")` yields it. */
  datatype Date = Date(year: int, month: int, day: int)

  predicate IsLeap(y: int) {
    y % 4 == 0 && (y % 100 != 0 || y % 400 == 0)
  }

  function DaysInMonth(y: int, m: int): int {
    if m == 2 then (if IsLeap(y) then 29 else 28)
    else if m == 4 || m == 6 || m == 9 || m == 11 then 30
    else if 1 <= m <= 12 then 31
    else 0
  }

  predicate ValidDate(d: Date) {
    1 <= d.year <= 9999 && 1 <= d.month <= 12 && 1 <= d.day <= DaysInMonth(d.year, d.month)
  }

  /** Days in the years before `y` of the proleptic Gregorian calendar. */
  function DaysBeforeYear(y: int): int {
    var p := y - 1;
    365 * p + p / 4 - p / 100 + p / 400
  }

  function DaysBeforeMonth(y: int, m: int): int
    decreases m
  {
    if m <= 1 then 0 else DaysBeforeMonth(y, m - 1) + DaysInMonth(y, m - 1)
  }

  /** The day number `date.toordinal()` gives: 1 for 0001-01-01. */
  function Ordinal(d: Date): int {
    DaysBeforeYear(d.year) + DaysBeforeMonth(d.year, d.month) + d.day
  }

  /** `filing_date <= today - timedelta(days=365)`: the filing date is a
      midnight, so it lies at least 365 days back exactly when its day number
      does. */
  predicate AtLeastYearOld(d: Date, today: Date) {
    Ordinal(d) <= Ordinal(today) - 365
  }

  /** The order of the "YYYY-MM-DD" text of a date, as a number. */
  function DateKey(d: Date): int {
    d.year * 10000 + d.month * 100 + d.day
  }

  // ---------------------------------------------------------------------------
  // Submissions blocks and filing entries
  // ---------------------------------------------------------------------------

  /** One submissions JSON document: its `cik` and the parallel lists under
      `filings.recent` (a missing list is empty), and the names listed under
      `filings.files`. */
  datatype Block = Block(
    cik: nat,
    forms: seq<string>,
    filingDates: seq<Date>,
    accessionNumbers: seq<string>,
    primaryDocuments: seq<string>,
    files: seq<string>)

  const EmptyBlock := Block(0, [], [], [], [], [])

  /** One element of the `zip` over the four lists. */
  datatype Row = Row(form: string, date: Date, accession: string, doc: string)

  function Min(a: nat, b: nat): nat {
    if a < b then a else b
  }

  /** The number of rows `zip` yields: the length of the shortest list. */
  function RowCount(b: Block): nat {
    Min(Min(|b.forms|, |b.filingDates|), Min(|b.accessionNumbers|, |b.primaryDocuments|))
  }

  function RowAt(b: Block, i: nat): Row
    requires i < RowCount(b)
  {
    Row(b.forms[i], b.filingDates[i], b.accessionNumbers[i], b.primaryDocuments[i])
  }

  /** `zip(forms, filing_dates, accession_numbers, primary_docs)`. */
  function Rows(b: Block): (r: seq<Row>)
    ensures |r| == RowCount(b)
  {
    seq(RowCount(b), i requires 0 <= i < RowCount(b) => RowAt(b, i))
  }

  /** A filing entry; `filingDate` stands for the date string it was parsed
      from. */
  datatype Filing = Filing(
    form: string,
    filingDate: Date,
    accessionNumber: string,
    primaryDocument: string,
    filingUrl: string)

  /** A 10-K entry: the filing year next to the entry's fields. */
  datatype TenK = TenK(year: int, filing: Filing)

  const ArchivesPrefix: string := "https://www.sec.gov/Archives/edgar/data/"

  /** `accession.replace('-', '')`. */
  function RemoveDashes(s: string): (r: string)
    ensures '-' !in r
    ensures |r| <= |s|
    ensures '-' !in s ==> r == s
  {
    if s == [] then []
    else if s[0] == '-' then RemoveDashes(s[1..])
    else [s[0]] + RemoveDashes(s[1..])
  }

  /** Removing dashes works piece by piece, so the characters other than
      dashes stay, in order. */
  lemma {:induction false} RemoveDashesAppend(a: string, b: string)
    ensures RemoveDashes(a + b) == RemoveDashes(a) + RemoveDashes(b)
  {
    if a != [] {
      assert (a + b)[0] == a[0];
      assert (a + b)[1..] == a[1..] + b;
      RemoveDashesAppend(a[1..], b);
    } else {
      assert a + b == b;
    }
  }

  /** Every character of the accession number other than a dash is kept. */
  lemma {:induction false} RemoveDashesKeeps(s: string, c: char)
    requires c != '-'
    ensures c in RemoveDashes(s) <==> c in s
  {
    if s != [] {
      RemoveDashesKeeps(s[1..], c);
      assert s == [s[0]] + s[1..];
    }
  }

  /** The `filing_url` of an entry. */
  function FilingUrl(cik: nat, accession: string, doc: string): (u: string)
    ensures IsPrefix(ArchivesPrefix, u)
  {
    ArchivesPrefix + NatToString(cik) + "/" + RemoveDashes(accession) + "/" + doc
  }

  /** The URL holds the accession number without its dashes as a path
      segment between the numeric CIK and the document name. */
  lemma FilingUrlShape(cik: nat, accession: string, doc: string)
    ensures FilingUrl(cik, accession, doc)[|ArchivesPrefix|..]
         == NatToString(cik) + "/" + RemoveDashes(accession) + "/" + doc
    ensures '/' !in accession ==> '/' !in RemoveDashes(accession)
  {
    if '/' !in accession {
      RemoveDashesKeeps(accession, '/');
    }
  }

  function Entry(cik: nat, row: Row): (f: Filing)
    ensures f.form == row.form && f.filingDate == row.date
  {
    Filing(row.form, row.date, row.accession, row.doc, FilingUrl(cik, row.accession, row.doc))
  }

  // ---------------------------------------------------------------------------
  // process_block as a function on the collected state
  // ---------------------------------------------------------------------------

  /** The `state` dictionary: the 10-K, 8-K and Form 4 lists and the flag. */
  datatype Collected = Collected(tenK: seq<TenK>, eightK: seq<Filing>, form4: seq<Filing>, foundOld8k: bool)

  const Empty := Collected([], [], [], false)

  /** `[f["year"] for f in state["10K"]]`. */
  function YearsOf(ts: seq<TenK>): (ys: seq<int>)
    ensures |ys| == |ts|
  {
    seq(|ts|, i requires 0 <= i < |ts| => ts[i].year)
  }

  /** What one row does to the state. */
  function ProcessRow(c: Collected, cik: nat, row: Row, today: Date): Collected {
    var e := Entry(cik, row);
    if row.form == "10-K" then
      if row.date.year in YearsOf(c.tenK) then c
      else c.(tenK := c.tenK + [TenK(row.date.year, e)])
    else if row.form == "8-K" then
      c.(eightK := c.eightK + [e], foundOld8k := c.foundOld8k || AtLeastYearOld(row.date, today))
    else if row.form == "4" && row.date.year == today.year then
      c.(form4 := c.form4 + [e])
    else
      c
  }

  /** What the rows of a block do to the state, one after the other. */
  function ProcessRows(c: Collected, cik: nat, rows: seq<Row>, today: Date): Collected
    decreases |rows|
  {
    if rows == [] then c
    else ProcessRow(ProcessRows(c, cik, rows[..|rows| - 1], today), cik, rows[|rows| - 1], today)
  }

  lemma ProcessRowsPrefix(c: Collected, cik: nat, rows: seq<Row>, i: nat, today: Date)
    requires i < |rows|
    ensures ProcessRows(c, cik, rows[..i + 1], today) == ProcessRow(ProcessRows(c, cik, rows[..i], today), cik, rows[i], today)
  {
    assert rows[..i + 1][..i] == rows[..i];
  }

  /** `requirements_met`: two 10-Ks and an 8-K at least a year old. */
  predicate RequirementsMet(c: Collected) {
    |c.tenK| >= 2 && c.foundOld8k
  }

  predicate DistinctYears(ts: seq<TenK>) {
    forall i, j :: 0 <= i < j < |ts| ==> ts[i].year != ts[j].year
  }

  lemma InYearsOf(ts: seq<TenK>, y: int)
    ensures y in YearsOf(ts) <==> exists i :: 0 <= i < |ts| && ts[i].year == y
  {
    if y in YearsOf(ts) {
      var i :| 0 <= i < |ts| && YearsOf(ts)[i] == y;
    }
    if exists i :: 0 <= i < |ts| && ts[i].year == y {
      var i :| 0 <= i < |ts| && ts[i].year == y;
      assert YearsOf(ts)[i] == y;
    }
  }

  /** A 10-K row adds an entry exactly when no entry of its filing year is
      present; nothing else about the state changes. */
  lemma TenKRow(c: Collected, cik: nat, row: Row, today: Date)
    requires row.form == "10-K"
    ensures var r := ProcessRow(c, cik, row, today);
      && r.eightK == c.eightK && r.form4 == c.form4 && r.foundOld8k == c.foundOld8k
      && ((exists i :: 0 <= i < |c.tenK| && c.tenK[i].year == row.date.year) ==> r.tenK == c.tenK)
      && ((forall i :: 0 <= i < |c.tenK| ==> c.tenK[i].year != row.date.year) ==>
            r.tenK == c.tenK + [TenK(row.date.year, Entry(cik, row))])
  {
    InYearsOf(c.tenK, row.date.year);
  }

  /** `t` extends `t0`, and every entry added is a 10-K of its own filing year. */
  predicate TenKGrown(t0: seq<TenK>, t: seq<TenK>) {
    && |t0| <= |t| && t[..|t0|] == t0
    && forall i :: |t0| <= i < |t| ==> t[i].filing.form == "10-K" && t[i].year == t[i].filing.filingDate.year
  }

  /** The year of every 10-K row is present in `t`. */
  predicate YearsCovered(rows: seq<Row>, t: seq<TenK>) {
    forall k :: 0 <= k < |rows| && rows[k].form == "10-K" ==> rows[k].date.year in YearsOf(t)
  }

  /** One row keeps the years distinct, only appends, and leaves its own year
      present when it is a 10-K. */
  lemma TenKRowStep(p: Collected, cik: nat, row: Row, today: Date)
    requires DistinctYears(p.tenK)
    ensures var r := ProcessRow(p, cik, row, today);
      && DistinctYears(r.tenK) && TenKGrown(p.tenK, r.tenK)
      && (row.form == "10-K" ==> row.date.year in YearsOf(r.tenK))
  {
    var r := ProcessRow(p, cik, row, today);
    assert p.tenK[..|p.tenK|] == p.tenK;
    if row.form == "10-K" && row.date.year !in YearsOf(p.tenK) {
      InYearsOf(p.tenK, row.date.year);
      assert r.tenK[..|p.tenK|] == p.tenK;
      assert YearsOf(r.tenK)[|p.tenK|] == row.date.year;
    }
  }

  lemma TenKGrownTrans(a: seq<TenK>, b: seq<TenK>, c: seq<TenK>)
    requires TenKGrown(a, b) && TenKGrown(b, c)
    ensures TenKGrown(a, c)
  {
    assert c[..|b|][..|a|] == c[..|a|];
    forall i | |a| <= i < |c|
      ensures c[i].filing.form == "10-K" && c[i].year == c[i].filing.filingDate.year
    {
      if i < |b| {
        assert c[i] == c[..|b|][i];
      }
    }
  }

  lemma YearsCoveredStep(init: seq<Row>, row: Row, p: seq<TenK>, r: seq<TenK>)
    requires YearsCovered(init, p) && |p| <= |r| && r[..|p|] == p
    requires row.form == "10-K" ==> row.date.year in YearsOf(r)
    ensures YearsCovered(init + [row], r)
  {
    var rows := init + [row];
    forall k | 0 <= k < |rows| && rows[k].form == "10-K"
      ensures rows[k].date.year in YearsOf(r)
    {
      if k < |init| {
        var y := rows[k].date.year;
        assert rows[k] == init[k];
        InYearsOf(p, y);
        var i :| 0 <= i < |p| && p[i].year == y;
        assert r[i] == p[i];
        InYearsOf(r, y);
      }
    }
  }

  /** 10-K de-duplication: distinct years stay distinct, the old list is a
      prefix of the new one, every entry added is a 10-K of its own filing
      year, and every 10-K row's year is present afterwards. */
  lemma {:induction false} TenKDistinct(c: Collected, cik: nat, rows: seq<Row>, today: Date)
    requires DistinctYears(c.tenK)
    ensures var r := ProcessRows(c, cik, rows, today);
      DistinctYears(r.tenK) && TenKGrown(c.tenK, r.tenK) && YearsCovered(rows, r.tenK)
    decreases |rows|
  {
    if rows == [] {
      assert c.tenK[..|c.tenK|] == c.tenK;
    } else {
      var init, row := rows[..|rows| - 1], rows[|rows| - 1];
      assert rows == init + [row];
      TenKDistinct(c, cik, init, today);
      var p := ProcessRows(c, cik, init, today);
      var r := ProcessRow(p, cik, row, today);
      TenKRowStep(p, cik, row, today);
      TenKGrownTrans(c.tenK, p.tenK, r.tenK);
      YearsCoveredStep(init, row, p.tenK, r.tenK);
    }
  }

  /** The rows of a form, in order. */
  function OfForm(rows: seq<Row>, form: string): (r: seq<Row>)
    ensures |r| <= |rows|
    ensures forall i :: 0 <= i < |r| ==> r[i].form == form
    decreases |rows|
  {
    if rows == [] then []
    else OfForm(rows[..|rows| - 1], form) + (if rows[|rows| - 1].form == form then [rows[|rows| - 1]] else [])
  }

  /** The entries made from rows. */
  function Entries(cik: nat, rows: seq<Row>): (r: seq<Filing>)
    ensures |r| == |rows|
  {
    seq(|rows|, i requires 0 <= i < |rows| => Entry(cik, rows[i]))
  }

  lemma EntriesSnoc(cik: nat, rows: seq<Row>, row: Row)
    ensures Entries(cik, rows + [row]) == Entries(cik, rows) + [Entry(cik, row)]
  {
  }

  /** Every 8-K row is appended: the 8-K list grows by the entries of the
      8-K rows, in order, so the old list is a prefix and the count grows by
      the number of 8-K rows. */
  lemma {:induction false} EightKAppended(c: Collected, cik: nat, rows: seq<Row>, today: Date)
    ensures ProcessRows(c, cik, rows, today).eightK == c.eightK + Entries(cik, OfForm(rows, "8-K"))
    ensures |ProcessRows(c, cik, rows, today).eightK| == |c.eightK| + |OfForm(rows, "8-K")|
    decreases |rows|
  {
    if rows != [] {
      var init := rows[..|rows| - 1];
      var row := rows[|rows| - 1];
      EightKAppended(c, cik, init, today);
      if row.form == "8-K" {
        EntriesSnoc(cik, OfForm(init, "8-K"), row);
      }
    }
  }

  /** Some row is an 8-K filed at least a year before `today`. */
  predicate HasOld8K(rows: seq<Row>, today: Date) {
    exists k :: 0 <= k < |rows| && rows[k].form == "8-K" && AtLeastYearOld(rows[k].date, today)
  }

  lemma HasOld8KSnoc(rows: seq<Row>, today: Date)
    requires rows != []
    ensures var row := rows[|rows| - 1];
      HasOld8K(rows, today) <==>
      HasOld8K(rows[..|rows| - 1], today) || (row.form == "8-K" && AtLeastYearOld(row.date, today))
  {
    var init := rows[..|rows| - 1];
    if HasOld8K(init, today) {
      var k :| 0 <= k < |init| && init[k].form == "8-K" && AtLeastYearOld(init[k].date, today);
      assert rows[k] == init[k];
    }
    if HasOld8K(rows, today) {
      var k :| 0 <= k < |rows| && rows[k].form == "8-K" && AtLeastYearOld(rows[k].date, today);
      if k < |init| {
        assert init[k] == rows[k];
      }
    }
  }

  /** The old-8-K flag is sticky and is set by exactly the 8-K rows at least
      a year old. */
  lemma {:induction false} FoundOld(c: Collected, cik: nat, rows: seq<Row>, today: Date)
    ensures ProcessRows(c, cik, rows, today).foundOld8k <==> c.foundOld8k || HasOld8K(rows, today)
    decreases |rows|
  {
    if rows != [] {
      FoundOld(c, cik, rows[..|rows| - 1], today);
      HasOld8KSnoc(rows, today);
    }
  }

  /** The Form 4 rows of the current year, in order. */
  function CurrentForm4(rows: seq<Row>, today: Date): (r: seq<Row>)
    ensures forall i :: 0 <= i < |r| ==> r[i].form == "4" && r[i].date.year == today.year
    decreases |rows|
  {
    if rows == [] then []
    else
      var row := rows[|rows| - 1];
      CurrentForm4(rows[..|rows| - 1], today) + (if row.form == "4" && row.date.year == today.year then [row] else [])
  }

  /** Form 4 entries are added for exactly the Form 4 rows of the current
      year, in order. */
  lemma {:induction false} Form4ThisYear(c: Collected, cik: nat, rows: seq<Row>, today: Date)
    ensures ProcessRows(c, cik, rows, today).form4 == c.form4 + Entries(cik, CurrentForm4(rows, today))
    decreases |rows|
  {
    if rows != [] {
      var init := rows[..|rows| - 1];
      var row := rows[|rows| - 1];
      Form4ThisYear(c, cik, init, today);
      if row.form == "4" && row.date.year == today.year {
        EntriesSnoc(cik, CurrentForm4(init, today), row);
      }
    }
  }

  /** Every Form 4 entry a block adds is dated in the current year. */
  lemma Form4Dated(c: Collected, cik: nat, rows: seq<Row>, today: Date)
    ensures var r := ProcessRows(c, cik, rows, today);
      forall i :: |c.form4| <= i < |r.form4| ==> r.form4[i].form == "4" && r.form4[i].filingDate.year == today.year
  {
    Form4ThisYear(c, cik, rows, today);
    var r := ProcessRows(c, cik, rows, today);
    var added := CurrentForm4(rows, today);
    forall i | |c.form4| <= i < |r.form4|
      ensures r.form4[i].form == "4" && r.form4[i].filingDate.year == today.year
    {
      assert r.form4[i] == Entry(cik, added[i - |c.form4|]);
    }
  }

  predicate Relevant(row: Row) {
    row.form == "10-K" || row.form == "8-K" || row.form == "4"
  }

  /** The rows whose form is one of the three kept. */
  function RelevantRows(rows: seq<Row>): (r: seq<Row>)
    ensures |r| <= |rows|
    decreases |rows|
  {
    if rows == [] then []
    else RelevantRows(rows[..|rows| - 1]) + (if Relevant(rows[|rows| - 1]) then [rows[|rows| - 1]] else [])
  }

  /** Rows of any other form change nothing: the block acts as its rows of the
      three kept forms alone. */
  lemma {:induction false} OtherFormsIgnored(c: Collected, cik: nat, rows: seq<Row>, today: Date)
    ensures ProcessRows(c, cik, rows, today) == ProcessRows(c, cik, RelevantRows(rows), today)
    decreases |rows|
  {
    if rows != [] {
      var init := rows[..|rows| - 1];
      var row := rows[|rows| - 1];
      OtherFormsIgnored(c, cik, init, today);
      assert ProcessRows(c, cik, rows, today) == ProcessRow(ProcessRows(c, cik, init, today), cik, row, today);
      if Relevant(row) {
        var rr := RelevantRows(init) + [row];
        assert RelevantRows(rows) == rr;
        assert rr[..|rr| - 1] == RelevantRows(init);
        assert rr[|rr| - 1] == row;
      } else {
        assert RelevantRows(rows) == RelevantRows(init);
        assert ProcessRow(ProcessRows(c, cik, init, today), cik, row, today) == ProcessRows(c, cik, init, today);
      }
    }
  }

  /** Once the requirements are met, further rows keep them met: the 10-K
      list never shrinks and the flag never clears. */
  lemma {:induction false} RequirementsStayMet(c: Collected, cik: nat, rows: seq<Row>, today: Date)
    requires RequirementsMet(c)
    ensures RequirementsMet(ProcessRows(c, cik, rows, today))
    decreases |rows|
  {
    if rows != [] {
      RequirementsStayMet(c, cik, rows[..|rows| - 1], today);
    }
  }

  // ---------------------------------------------------------------------------
  // The mutable state record and process_block
  // ---------------------------------------------------------------------------

  /** The `state` dictionary that `process_block` updates in place. */
  class FilingState {
    var tenK: seq<TenK>
    var eightK: seq<Filing>
    var form4: seq<Filing>
    var foundOld8k: bool

    function Value(): Collected
      reads this
    {
      Collected(tenK, eightK, form4, foundOld8k)
    }

    constructor ()
      ensures Value() == Empty
    {
      tenK := [];
      eightK := [];
      form4 := [];
      foundOld8k := false;
    }

    predicate Met()
      reads this
    {
      RequirementsMet(Value())
    }

    /** The closing step: sort the 10-Ks newest first and keep two, sort the
        8-Ks newest first. */
    method Finish()
      modifies this
      ensures Value() == Finalize(old(Value()))
    {
      tenK := Take(SortDesc(tenK, TenKKey), 2);
      eightK := SortDesc(eightK, FilingKey);
    }

    /** `process_block`: classify each zipped row of the block in place. */
    method ProcessBlock(block: Block, today: Date)
      modifies this
      ensures Value() == ProcessRows(old(Value()), block.cik, Rows(block), today)
      ensures DistinctYears(old(tenK)) ==> DistinctYears(tenK)
    {
      var rows := Rows(block);
      var n := RowCount(block);
      var i := 0;
      while i < n
        invariant 0 <= i <= n
        invariant Value() == ProcessRows(old(Value()), block.cik, rows[..i], today)
      {
        var form := block.forms[i];
        var date := block.filingDates[i];
        var accession := block.accessionNumbers[i];
        var doc := block.primaryDocuments[i];
        var entry := Filing(form, date, accession, doc, FilingUrl(block.cik, accession, doc));
        assert rows[i] == Row(form, date, accession, doc);
        ProcessRowsPrefix(old(Value()), block.cik, rows, i, today);
        if form == "10-K" {
          if date.year !in YearsOf(tenK) {
            tenK := tenK + [TenK(date.year, entry)];
          }
        } else if form == "8-K" {
          eightK := eightK + [entry];
          if AtLeastYearOld(date, today) {
            foundOld8k := true;
          }
        } else if form == "4" && date.year == today.year {
          form4 := form4 + [entry];
        }
        i := i + 1;
      }
      assert rows[..n] == rows;
      if DistinctYears(old(tenK)) {
        TenKDistinct(old(Value()), block.cik, rows, today);
      }
    }
  }

  // ---------------------------------------------------------------------------
  // Sorting newest first
  // ---------------------------------------------------------------------------

  predicate SortedDesc<T>(s: seq<T>, key: T -> int) {
    forall i, j :: 0 <= i < j < |s| ==> key(s[i]) >= key(s[j])
  }

  /** Insert `x` after every element whose key is at least its key, so among
      equal keys the element inserted later comes later. */
  function InsertDesc<T>(x: T, s: seq<T>, key: T -> int): (r: seq<T>)
    ensures multiset(r) == multiset(s) + multiset{x}
    ensures |r| == |s| + 1
    decreases |s|
  {
    if s == [] then [x]
    else if key(s[0]) >= key(x) then
      assert s == [s[0]] + s[1..];
      [s[0]] + InsertDesc(x, s[1..], key)
    else [x] + s
  }

  /** No key of the list exceeds `k`. */
  predicate KeysAtMost<T>(s: seq<T>, key: T -> int, k: int) {
    forall i :: 0 <= i < |s| ==> key(s[i]) <= k
  }

  /** A sorted list stays sorted with an element in front whose key bounds
      all of its keys. */
  lemma ConsSorted<T>(a: T, t: seq<T>, key: T -> int)
    requires SortedDesc(t, key) && KeysAtMost(t, key, key(a))
    ensures SortedDesc([a] + t, key)
  {
    var r := [a] + t;
    forall i, j | 0 <= i < j < |r|
      ensures key(r[i]) >= key(r[j])
    {
      assert r[j] == t[j - 1];
      if i > 0 {
        assert r[i] == t[i - 1];
      }
    }
  }

  lemma ConsBounded<T>(a: T, t: seq<T>, key: T -> int, k: int)
    requires KeysAtMost(t, key, k) && key(a) <= k
    ensures KeysAtMost([a] + t, key, k)
  {
    var r := [a] + t;
    assert forall i :: 1 <= i < |r| ==> r[i] == t[i - 1];
  }

  lemma TailBounded<T>(s: seq<T>, key: T -> int, k: int)
    requires s != [] && KeysAtMost(s, key, k)
    ensures KeysAtMost(s[1..], key, k)
  {
    var t := s[1..];
    assert forall i :: 0 <= i < |t| ==> t[i] == s[i + 1];
  }

  /** Inserting an element within a bound keeps every key within it. */
  lemma {:induction false} InsertDescBounded<T>(x: T, s: seq<T>, key: T -> int, k: int)
    requires KeysAtMost(s, key, k) && key(x) <= k
    ensures KeysAtMost(InsertDesc(x, s, key), key, k)
    decreases |s|
  {
    if s != [] && key(s[0]) >= key(x) {
      var tail := s[1..];
      TailBounded(s, key, k);
      InsertDescBounded(x, tail, key, k);
      ConsBounded(s[0], InsertDesc(x, tail, key), key, k);
    } else if s != [] {
      ConsBounded(x, s, key, k);
    }
  }

  /** Inserting into a list sorted newest first keeps it sorted. */
  lemma {:induction false} InsertDescSorted<T>(x: T, s: seq<T>, key: T -> int)
    requires SortedDesc(s, key)
    ensures SortedDesc(InsertDesc(x, s, key), key)
    decreases |s|
  {
    if s != [] {
      var tail := s[1..];
      assert forall i :: 0 <= i < |tail| ==> tail[i] == s[i + 1];
      assert KeysAtMost(tail, key, key(s[0]));
      if key(s[0]) >= key(x) {
        InsertDescSorted(x, tail, key);
        InsertDescBounded(x, tail, key, key(s[0]));
        ConsSorted(s[0], InsertDesc(x, tail, key), key);
      } else {
        assert KeysAtMost(s, key, key(x));
        ConsSorted(x, s, key);
      }
    }
  }

  /** `sorted(xs, key=..., reverse=True)` as a stable insertion sort. */
  function SortDesc<T>(s: seq<T>, key: T -> int): (r: seq<T>)
    ensures multiset(r) == multiset(s)
    ensures |r| == |s|
    ensures SortedDesc(r, key)
    decreases |s|
  {
    if s == [] then []
    else
      assert s == s[..|s| - 1] + [s[|s| - 1]];
      InsertDescSorted(s[|s| - 1], SortDesc(s[..|s| - 1], key), key);
      InsertDesc(s[|s| - 1], SortDesc(s[..|s| - 1], key), key)
  }

  /** `xs[:n]`. */
  function Take<T>(s: seq<T>, n: nat): (r: seq<T>)
    ensures |r| == Min(n, |s|)
  {
    if |s| <= n then s else s[..n]
  }

  function TenKKey(t: TenK): int {
    DateKey(t.filing.filingDate)
  }

  function FilingKey(f: Filing): int {
    DateKey(f.filingDate)
  }

  /** The sort and truncation at the end of `get_required_filings`. */
  function Finalize(c: Collected): Collected {
    c.(tenK := Take(SortDesc(c.tenK, TenKKey), 2), eightK := SortDesc(c.eightK, FilingKey))
  }

  /** The final shape: at most two 10-Ks, newest first, taken from those
      collected and at least as new as every one dropped; the 8-Ks are the
      collected ones, newest first; the Form 4s and the flag are as
      collected. */
  lemma FinalShape(c: Collected)
    ensures var f := Finalize(c);
      && |f.tenK| == Min(2, |c.tenK|)
      && SortedDesc(f.tenK, TenKKey)
      && multiset(f.tenK) <= multiset(c.tenK)
      && (forall t, u :: t in f.tenK && u in c.tenK && u !in f.tenK ==> TenKKey(u) <= TenKKey(t))
      && SortedDesc(f.eightK, FilingKey)
      && multiset(f.eightK) == multiset(c.eightK)
      && f.form4 == c.form4 && f.foundOld8k == c.foundOld8k
  {
    var s := SortDesc(c.tenK, TenKKey);
    TakeNewest(s, TenKKey, 2);
    assert forall u :: u in c.tenK <==> u in multiset(s);
  }

  /** The first `n` elements of a list sorted newest first are at least as
      new as every element left out, and they are taken from the list. */
  lemma TakeNewest<T>(s: seq<T>, key: T -> int, n: nat)
    requires SortedDesc(s, key)
    ensures SortedDesc(Take(s, n), key)
    ensures multiset(Take(s, n)) <= multiset(s)
    ensures forall t, u :: t in Take(s, n) && u in s && u !in Take(s, n) ==> key(u) <= key(t)
  {
    if |s| > n {
      assert s == s[..n] + s[n..];
      assert multiset(s) == multiset(s[..n]) + multiset(s[n..]);
      forall t, u | t in s[..n] && u in s && u !in s[..n]
        ensures key(u) <= key(t)
      {
        var j :| 0 <= j < |s| && s[j] == u;
        var i :| 0 <= i < n && s[i] == t;
      }
    }
  }

  // ---------------------------------------------------------------------------
  // get_required_filings
  // ---------------------------------------------------------------------------

  const SubmissionsBase: string := "https://data.sec.gov/submissions/"

  function SubmissionsUrl(cik: string): string {
    SubmissionsBase + "CIK" + cik + ".json"
  }

  function OlderUrls(names: seq<string>): (r: seq<string>)
    ensures |r| == |names|
  {
    seq(|names|, i requires 0 <= i < |names| => SubmissionsBase + names[i])
  }

  /** How `fetch_json` fails: `requests.get` or `raise_for_status` raising a
      `RequestException`, or `r.json()` raising `JSONDecodeError`, which is
      also a `ValueError`. The message is `str(exc)`. */
  datatype FetchError = RequestFailed(message: string) | InvalidJson(message: string)

  function BlockOf(r: Result<Block, FetchError>): Block {
    if r.Success? then r.value else EmptyBlock
  }

  /** The state after processing, in order, the blocks fetched from `urls`. */
  function Collect(fetch: string -> Result<Block, FetchError>, urls: seq<string>, today: Date): Collected
    decreases |urls|
  {
    if urls == [] then Empty
    else
      var b := BlockOf(fetch(urls[|urls| - 1]));
      ProcessRows(Collect(fetch, urls[..|urls| - 1], today), b.cik, Rows(b), today)
  }

  lemma CollectSnoc(fetch: string -> Result<Block, FetchError>, urls: seq<string>, url: string, today: Date)
    ensures var b := BlockOf(fetch(url));
      Collect(fetch, urls + [url], today) == ProcessRows(Collect(fetch, urls, today), b.cik, Rows(b), today)
  {
    assert (urls + [url])[..|urls|] == urls;
  }

  /** Every block fetched before the last was fetched without a failure. */
  predicate FetchedBefore(fetch: string -> Result<Block, FetchError>, urls: seq<string>) {
    forall j :: 0 <= j < |urls| - 1 ==> fetch(urls[j]).Success?
  }

  /** The requirements were unmet after each block fetched before the last. */
  predicate UnmetBefore(fetch: string -> Result<Block, FetchError>, urls: seq<string>, today: Date) {
    forall k :: 1 <= k < |urls| ==> !RequirementsMet(Collect(fetch, urls[..k], today))
  }

  /** The URLs start with the main one and go on with the older files, in order. */
  predicate PagedUrls(urls: seq<string>, mainUrl: string, files: seq<string>) {
    |urls| >= 1 && urls[0] == mainUrl && |urls| - 1 <= |files|
    && forall j :: 1 <= j < |urls| ==> urls[j] == SubmissionsBase + files[j - 1]
  }

  /** Fetching one more block after an unmet, failure-free prefix. */
  lemma FetchStep(fetch: string -> Result<Block, FetchError>, prev: seq<string>, url: string, today: Date)
    requires prev != []
    requires FetchedBefore(fetch, prev) && fetch(prev[|prev| - 1]).Success?
    requires UnmetBefore(fetch, prev, today) && !RequirementsMet(Collect(fetch, prev, today))
    ensures FetchedBefore(fetch, prev + [url])
    ensures UnmetBefore(fetch, prev + [url], today)
  {
    forall k | 1 <= k < |prev + [url]|
      ensures !RequirementsMet(Collect(fetch, (prev + [url])[..k], today))
    {
      assert (prev + [url])[..k] == prev[..k];
      if k == |prev| {
        assert prev[..k] == prev;
      }
    }
  }

  lemma PagedStep(urls: seq<string>, mainUrl: string, files: seq<string>)
    requires PagedUrls(urls, mainUrl, files) && |urls| - 1 < |files|
    ensures PagedUrls(urls + [SubmissionsBase + files[|urls| - 1]], mainUrl, files)
  {
  }

  /** The log of what `get_required_filings` fetched, in order: the main
      submissions file of `cik`, then the older files it lists; every fetch
      but the last succeeded and left the requirements unmet. */
  predicate FetchLog(fetch: string -> Result<Block, FetchError>, cik: string, urls: seq<string>, today: Date) {
    && |urls| >= 1 && urls[0] == SubmissionsUrl(cik)
    && FetchedBefore(fetch, urls) && UnmetBefore(fetch, urls, today)
    && (|urls| > 1 ==>
         |urls| - 1 <= |fetch(urls[0]).value.files|
         && urls[1..] == OlderUrls(fetch(urls[0]).value.files[..|urls| - 1]))
  }

  /** Paging stopped because the requirements held or the list of older
      files ran out. */
  predicate Stopped(fetch: string -> Result<Block, FetchError>, urls: seq<string>, today: Date)
    requires |urls| >= 1 && fetch(urls[0]).Success?
  {
    RequirementsMet(Collect(fetch, urls, today)) || |urls| == 1 + |fetch(urls[0]).value.files|
  }

  lemma PagedLog(fetch: string -> Result<Block, FetchError>, cik: string, urls: seq<string>, today: Date)
    requires fetch(SubmissionsUrl(cik)).Success?
    requires PagedUrls(urls, SubmissionsUrl(cik), fetch(SubmissionsUrl(cik)).value.files)
    requires FetchedBefore(fetch, urls) && UnmetBefore(fetch, urls, today)
    ensures FetchLog(fetch, cik, urls, today)
  {
    var files := fetch(SubmissionsUrl(cik)).value.files;
    assert urls[1..] == OlderUrls(files[..|urls| - 1]);
  }

  /** `get_required_filings`: process the main submissions block; while the
      requirements are unmet, fetch and process the older blocks it lists,
      stopping at the first after which they hold; then sort and truncate.
      `fetch` is `fetch_json`, with what it raises as `Failure`. It returns
      the URLs fetched, in order. */
  method GetRequiredFilings(cik: string, fetch: string -> Result<Block, FetchError>, today: Date)
    returns (r: Result<Collected, FetchError>, urls: seq<string>)
    ensures FetchLog(fetch, cik, urls, today)
    ensures r.Failure? <==> fetch(urls[|urls| - 1]).Failure?
    ensures r.Failure? ==> r.error == fetch(urls[|urls| - 1]).error
    ensures r.Success? ==> fetch(urls[0]).Success? && Stopped(fetch, urls, today)
    ensures r.Success? ==> r.value == Finalize(Collect(fetch, urls, today))
  {
    var state := new FilingState();
    var mainUrl := SubmissionsUrl(cik);
    urls := [mainUrl];
    var res := fetch(mainUrl);
    if res.Failure? {
      return Failure(res.error), urls;
    }
    var main := res.value;
    state.ProcessBlock(main, today);
    CollectOne(fetch, mainUrl, today);
    if !state.Met() {
      var failure;
      urls, failure := FetchOlder(fetch, mainUrl, main.files, today, state);
      PagedLog(fetch, cik, urls, today);
      if failure.Some? {
        return Failure(failure.value), urls;
      }
    }
    state.Finish();
    r := Success(state.Value());
  }

  lemma CollectOne(fetch: string -> Result<Block, FetchError>, url: string, today: Date)
    ensures var b := BlockOf(fetch(url));
      Collect(fetch, [url], today) == ProcessRows(Empty, b.cik, Rows(b), today)
  {
    assert [url][..0] == [];
  }

  /** The loop over `filings.files` with its early `break`, after the main
      block has left the requirements unmet. */
  method FetchOlder(fetch: string -> Result<Block, FetchError>, mainUrl: string, files: seq<string>,
                    today: Date, state: FilingState)
    returns (urls: seq<string>, failure: Option<FetchError>)
    requires fetch(mainUrl).Success?
    requires state.Value() == Collect(fetch, [mainUrl], today)
    requires !RequirementsMet(state.Value())
    modifies state
    ensures PagedUrls(urls, mainUrl, files)
    ensures FetchedBefore(fetch, urls) && UnmetBefore(fetch, urls, today)
    ensures failure.Some? <==> fetch(urls[|urls| - 1]).Failure?
    ensures failure.Some? ==> failure.value == fetch(urls[|urls| - 1]).error
    ensures failure.None? ==> state.Value() == Collect(fetch, urls, today)
    ensures failure.None? ==> (RequirementsMet(state.Value()) || |urls| == 1 + |files|)
  {
    urls := [mainUrl];
    failure := None;
    var i := 0;
    while i < |files|
      invariant 0 <= i <= |files| && |urls| == i + 1
      invariant PagedUrls(urls, mainUrl, files)
      invariant FetchedBefore(fetch, urls) && fetch(urls[|urls| - 1]).Success?
      invariant UnmetBefore(fetch, urls, today)
      invariant state.Value() == Collect(fetch, urls, today)
      invariant !RequirementsMet(state.Value())
    {
      var url := SubmissionsBase + files[i];
      var prev := urls;
      PagedStep(urls, mainUrl, files);
      FetchStep(fetch, prev, url, today);
      urls := urls + [url];
      var older := fetch(url);
      if older.Failure? {
        return urls, Some(older.error);
      }
      state.ProcessBlock(older.value, today);
      CollectSnoc(fetch, prev, url, today);
      if state.Met() {
        return;
      }
      i := i + 1;
    }
  }

  // ---------------------------------------------------------------------------
  // get_cik_from_company_name
  // ---------------------------------------------------------------------------

  /** One value of the ticker table: `cik_str` and `title`. */
  datatype TickerEntry = TickerEntry(cikStr: nat, title: string)

  datatype CikMatch = CikMatch(cik: string, title: string)

  /** `company_name in entry["title"].lower()` for the lower-cased query. */
  predicate NameMatches(e: TickerEntry, companyName: string) {
    Contains(Lower(e.title), Lower(companyName))
  }

  /** The index of the first entry whose title matches, or -1. */
  function FirstMatch(entries: seq<TickerEntry>, companyName: string): (k: int)
    ensures -1 <= k < |entries|
    ensures k == -1 <==> forall i :: 0 <= i < |entries| ==> !NameMatches(entries[i], companyName)
    ensures k >= 0 ==>
      (NameMatches(entries[k], companyName) && forall i :: 0 <= i < k ==> !NameMatches(entries[i], companyName))
    decreases |entries|
  {
    if entries == [] then -1
    else if NameMatches(entries[0], companyName) then 0
    else
      var k := FirstMatch(entries[1..], companyName);
      assert forall i :: 1 <= i < |entries| ==> entries[i] == entries[1..][i - 1];
      if k == -1 then -1 else k + 1
  }

  /** `get_cik_from_company_name` on the loaded table: the first entry, in
      table order, whose title contains the query case-insensitively gives
      its CIK zero-padded to ten digits and its title; `None` when no title
      matches. */
  method GetCikFromCompanyName(entries: seq<TickerEntry>, companyName: string) returns (r: Option<CikMatch>)
    ensures r.None? <==> forall i :: 0 <= i < |entries| ==> !NameMatches(entries[i], companyName)
    ensures r.Some? ==> var k := FirstMatch(entries, companyName);
      r.value == CikMatch(ZFill(NatToString(entries[k].cikStr), 10), entries[k].title)
    ensures r.Some? ==>
      (IsDigits(r.value.cik) && |r.value.cik| >= 10 &&
       DigitsValue(r.value.cik) == entries[FirstMatch(entries, companyName)].cikStr)
  {
    var query := Lower(companyName);
    var i := 0;
    while i < |entries|
      invariant 0 <= i <= |entries|
      invariant forall j :: 0 <= j < i ==> !NameMatches(entries[j], companyName)
    {
      var e := entries[i];
      if Contains(Lower(e.title), query) {
        PaddedNumber(e.cikStr, 10);
        return Some(CikMatch(ZFill(NatToString(e.cikStr), 10), e.title));
      }
      i := i + 1;
    }
    return None;
  }
}
