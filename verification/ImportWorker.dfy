/** The bulk import worker: defaults, one INSERT ... ON CONFLICT DO NOTHING a row, and the counters
    the progress page shows. */
module ImportWorker {
  import opened Basics
  import Prefixes

  datatype Entry = Entry(e164: string, country: string, didType: string, supplierId: int, channelCap: int)

  /** A row as it would be inserted. */
  datatype Row = Row(country: string, didType: string, supplierId: int, channelCap: int)

  datatype Defaults = Defaults(country: string, didType: string, supplierId: int, channelCap: int)

  /** The database's verdicts: `malformed` rows fail before the conflict check, `dangling` ones only
      when they would really be inserted. `order` is the sorted prefix table. */
  datatype Setup = Setup(form: Defaults, order: seq<Prefixes.CountryPrefix>,
                         malformed: (string, Row) -> bool, dangling: (string, Row) -> bool)

  datatype Status = Queued | Running | Completed | Errored

  datatype Book = Book(dids: map<string, Row>, added: nat, skipped: nat, errors: nat, processed: nat)

  datatype Verdict = Added | Skipped | Error

  // ---------- one row ----------

  function CountryOf(s: Setup, e: Entry): string {
    if e.country != "" then e.country
    else if s.form.country != "" then s.form.country
    else
      var hit := Prefixes.FirstHit(s.order, Prefixes.TrimPlus(e.e164));
      if hit.Some? then hit.value else ""
  }

  function CapOf(s: Setup, e: Entry): (cap: int)
    ensures cap != 0
  {
    if e.channelCap != 0 then e.channelCap else if s.form.channelCap != 0 then s.form.channelCap else -1
  }

  function RowOf(s: Setup, e: Entry): Row {
    Row(CountryOf(s, e), if e.didType == "" then s.form.didType else e.didType,
        if e.supplierId == 0 then s.form.supplierId else e.supplierId, CapOf(s, e))
  }

  /** What stands in the entry goes before what stands in the form; without either, the country is that of a longest
      dial prefix of the number, and the channels are unlimited. */
  lemma RowMeans(s: Setup, e: Entry)
    requires Prefixes.Sorted(s.order)
    ensures var r := RowOf(s, e);
      && (e.country != "" ==> r.country == e.country)
      && (e.country == "" && s.form.country != "" ==> r.country == s.form.country)
      && (e.country == "" && s.form.country == "" ==>
            var number := if e.e164 != "" && e.e164[0] == '+' then e.e164[1..] else e.e164;
            if exists p :: p in s.order && Prefixes.Matches(p, number)
            then exists p :: Prefixes.Longest(s.order, number, p) && r.country == p.iso
            else r.country == "")
      && (e.didType != "" ==> r.didType == e.didType) && (e.didType == "" ==> r.didType == s.form.didType)
      && (e.supplierId != 0 ==> r.supplierId == e.supplierId)
      && (e.supplierId == 0 ==> r.supplierId == s.form.supplierId)
      && (e.channelCap != 0 ==> r.channelCap == e.channelCap)
      && (e.channelCap == 0 && s.form.channelCap != 0 ==> r.channelCap == s.form.channelCap)
      && (e.channelCap == 0 && s.form.channelCap == 0 ==> r.channelCap == -1)
  {
    var number := if e.e164 != "" && e.e164[0] == '+' then e.e164[1..] else e.e164;
    Prefixes.MatchIsLongestPrefix(s.order, s.order, number);
    hide Prefixes.FirstHit, Prefixes.Sorted, Prefixes.Matches, Prefixes.Longest;
  }

  predicate Complete(r: Row) {
    r.country != "" && r.didType != "" && r.supplierId != 0
  }

  /** The row passes every check that does not depend on what is stored. */
  predicate Insertable(s: Setup, e: Entry) {
    Complete(RowOf(s, e)) && !s.malformed(e.e164, RowOf(s, e)) && !s.dangling(e.e164, RowOf(s, e))
  }

  function Judge(s: Setup, dids: map<string, Row>, e: Entry): Verdict {
    var r := RowOf(s, e);
    if !Complete(r) || s.malformed(e.e164, r) then Error
    else if e.e164 in dids then Skipped
    else if s.dangling(e.e164, r) then Error
    else Added
  }

  function Apply(s: Setup, b: Book, e: Entry): Book {
    match Judge(s, b.dids, e)
    case Added => b.(dids := b.dids[e.e164 := RowOf(s, e)], added := b.added + 1, processed := b.processed + 1)
    case Skipped => b.(skipped := b.skipped + 1, processed := b.processed + 1)
    case Error => b.(errors := b.errors + 1, processed := b.processed + 1)
  }

  /** One row: an error if a required field is missing or the database refuses it, skipped if its number is stored,
      added otherwise; it moves one of the three counters by one, and only an added row is stored. */
  lemma VerdictMeans(s: Setup, b: Book, e: Entry)
    ensures var r := RowOf(s, e);
      var t := Apply(s, b, e);
      var bad := r.country == "" || r.didType == "" || r.supplierId == 0 || s.malformed(e.e164, r)
                 || (e.e164 !in b.dids && s.dangling(e.e164, r));
      && t.errors == (if bad then b.errors + 1 else b.errors)
      && t.skipped == (if !bad && e.e164 in b.dids then b.skipped + 1 else b.skipped)
      && t.added == (if !bad && e.e164 !in b.dids then b.added + 1 else b.added)
      && t.dids == (if !bad && e.e164 !in b.dids then b.dids[e.e164 := r] else b.dids)
      && t.processed == b.processed + 1
  {
    hide RowOf;
  }

  function ApplyAll(s: Setup, b: Book, entries: seq<Entry>): Book {
    if entries == [] then b else Apply(s, ApplyAll(s, b, entries[..|entries| - 1]), entries[|entries| - 1])
  }

  lemma NextRow(s: Setup, b: Book, entries: seq<Entry>, k: nat)
    requires k < |entries|
    ensures ApplyAll(s, b, entries[..k + 1]) == Apply(s, ApplyAll(s, b, entries[..k]), entries[k])
  {
    hide Apply;
    assert entries[..k + 1][..k] == entries[..k];
  }

  // ---------- the worker ----------

  class Job {
    var dids: map<string, Row>
    var status: Status
    var total: nat
    var added: nat
    var skipped: nat
    var errors: nat
    var processed: nat

    ghost function View(): Book
      reads this
    {
      Book(dids, added, skipped, errors, processed)
    }

    constructor (stored: map<string, Row>)
      ensures View() == Book(stored, 0, 0, 0, 0) && status == Queued && total == 0
    {
      dids, status := stored, Queued;
      total, added, skipped, errors, processed := 0, 0, 0, 0, 0;
    }

    method CountryFor(s: Setup, e: Entry) returns (country: string)
      ensures country == CountryOf(s, e)
    {
      country := e.country;
      if country == "" { country := s.form.country; }
      if country == "" {
        var iso := Prefixes.MatchCountry(s.order, e.e164);
        if iso.Some? { country := iso.value; }
      }
    }

    method ImportOne(s: Setup, e: Entry)
      modifies this`dids, this`added, this`skipped, this`errors, this`processed
      ensures View() == Apply(s, old(View()), e)
    {
      hide CountryOf;
      var country := CountryFor(s, e);
      var didType := e.didType;
      if didType == "" { didType := s.form.didType; }
      var supId := e.supplierId;
      if supId == 0 { supId := s.form.supplierId; }
      var cap := e.channelCap;
      if cap == 0 {
        cap := s.form.channelCap;
        if cap == 0 { cap := -1; }
      }
      var row := Row(country, didType, supId, cap);
      assert row == RowOf(s, e);
      if country == "" || didType == "" || supId == 0 {
        errors, processed := errors + 1, processed + 1;
        return;
      }
      var failed, affected := Insert(s, e.e164, row);
      if failed {
        errors := errors + 1;
      } else if !affected {
        skipped := skipped + 1;
      } else {
        added := added + 1;
      }
      processed := processed + 1;
    }

    /** INSERT ... ON CONFLICT (e164) DO NOTHING. */
    method Insert(s: Setup, e164: string, row: Row) returns (failed: bool, affected: bool)
      modifies this`dids
      ensures failed <==> s.malformed(e164, row) || (e164 !in old(dids) && s.dangling(e164, row))
      ensures affected <==> !failed && e164 !in old(dids)
      ensures dids == if affected then old(dids)[e164 := row] else old(dids)
    {
      if s.malformed(e164, row) { return true, false; }
      if e164 in dids { return false, false; }
      if s.dangling(e164, row) { return true, false; }
      dids := dids[e164 := row];
      return false, true;
    }

    /** `cancelled(i)` says whether the context is done when row `i` is about to start. */
    method Run(s: Setup, entries: seq<Entry>, warnings: seq<string>, cancelled: nat -> bool) returns (rows: nat)
      requires View() == Book(dids, 0, 0, 0, 0)
      modifies this
      ensures total == |entries| && rows <= |entries|
      ensures View() == ApplyAll(s, Book(old(dids), 0, 0, |warnings|, 0), entries[..rows])
      ensures status == if rows == |entries| then Completed else Errored
      ensures rows < |entries| ==> cancelled(rows)
      ensures forall i :: 0 <= i < rows ==> !cancelled(i)
    {
      total := |entries|;
      status := Running;
      ghost var start := Book(old(dids), 0, 0, |warnings|, 0);
      var w := 0;
      while w < |warnings|
        invariant 0 <= w <= |warnings| && View() == Book(old(dids), 0, 0, w, 0) && total == |entries|
      {
        errors := errors + 1;
        w := w + 1;
      }
      rows := 0;
      while rows < |entries|
        invariant 0 <= rows <= |entries| && total == |entries|
        invariant View() == ApplyAll(s, start, entries[..rows])
        invariant Accounted(View(), |warnings|) && processed == rows
        invariant forall i :: 0 <= i < rows ==> !cancelled(i)
      {
        hide Apply, Judge, ApplyAll;
        if cancelled(rows) {
          status := Errored;
          return;
        }
        NextRow(s, start, entries, rows);
        ApplyAccounts(s, View(), entries[rows], |warnings|);
        ImportOne(s, entries[rows]);
        rows := rows + 1;
      }
      status := Completed;
    }
  }

  // ---------- the counters ----------

  /** Parse warnings count as errors but not as processed rows. */
  predicate Accounted(b: Book, warnings: nat) {
    b.processed == b.added + b.skipped + (b.errors - warnings) && b.errors >= warnings
  }

  lemma ApplyAccounts(s: Setup, b: Book, e: Entry, warnings: nat)
    requires Accounted(b, warnings)
    ensures Accounted(Apply(s, b, e), warnings) && Apply(s, b, e).processed == b.processed + 1
  {
    hide Judge, RowOf;
  }

  /** After every row the counters add up, and at the end every row has been processed. */
  lemma {:induction false} CountersAddUp(s: Setup, b: Book, entries: seq<Entry>, warnings: nat)
    requires Accounted(b, warnings)
    ensures Accounted(ApplyAll(s, b, entries), warnings)
    ensures ApplyAll(s, b, entries).processed == b.processed + |entries|
  {
    hide Apply;
    if entries != [] {
      var n := |entries| - 1;
      CountersAddUp(s, b, entries[..n], warnings);
      ApplyAccounts(s, ApplyAll(s, b, entries[..n]), entries[n], warnings);
    }
  }

  // ---------- what is stored ----------

  /** Entry `i` is the first insertable one for its number. */
  ghost predicate FirstFor(s: Setup, entries: seq<Entry>, number: string, i: int) {
    && 0 <= i < |entries| && entries[i].e164 == number && Insertable(s, entries[i])
    && forall j :: 0 <= j < i && entries[j].e164 == number ==> !Insertable(s, entries[j])
  }

  /** What a run leaves: the old rows as they were, and for each new number its first insertable entry. */
  ghost predicate Stores(s: Setup, was: map<string, Row>, entries: seq<Entry>, dids: map<string, Row>) {
    && (forall k :: k in was ==> k in dids && dids[k] == was[k])
    && (forall k :: k in dids && k !in was ==>
        exists i :: FirstFor(s, entries, k, i) && dids[k] == RowOf(s, entries[i]))
    && (forall i :: 0 <= i < |entries| && Insertable(s, entries[i]) ==> entries[i].e164 in dids)
  }

  lemma StoresOneMore(s: Setup, was: map<string, Row>, entries: seq<Entry>, b: Book, e: Entry)
    requires Stores(s, was, entries, b.dids)
    ensures Stores(s, was, entries + [e], Apply(s, b, e).dids)
  {
    hide RowOf, Complete;
    var more, t := entries + [e], Apply(s, b, e);
    assert Insertable(s, e) ==> e.e164 in t.dids;
    forall k | k in t.dids && k !in was ensures exists i :: FirstFor(s, more, k, i) && t.dids[k] == RowOf(s, more[i]) {
      if k in b.dids {
        var i :| FirstFor(s, entries, k, i) && b.dids[k] == RowOf(s, entries[i]);
        FirstForStays(s, entries, e, k, i);
      } else {
        assert k == e.e164 && Insertable(s, e);
        forall j | 0 <= j < |entries| && entries[j].e164 == k ensures !Insertable(s, entries[j]) {
        }
        FirstForNew(s, entries, e);
      }
    }
  }

  lemma FirstForStays(s: Setup, entries: seq<Entry>, e: Entry, number: string, i: int)
    requires FirstFor(s, entries, number, i)
    ensures FirstFor(s, entries + [e], number, i) && (entries + [e])[i] == entries[i]
  {
    hide Insertable;
  }

  lemma FirstForNew(s: Setup, entries: seq<Entry>, e: Entry)
    requires Insertable(s, e)
    requires forall j :: 0 <= j < |entries| && entries[j].e164 == e.e164 ==> !Insertable(s, entries[j])
    ensures FirstFor(s, entries + [e], e.e164, |entries|) && (entries + [e])[|entries|] == e
  {
    hide Insertable;
  }

  lemma {:induction false} RunStores(s: Setup, b: Book, entries: seq<Entry>)
    ensures Stores(s, b.dids, entries, ApplyAll(s, b, entries).dids)
  {
    hide Apply, Insertable, RowOf;
    if entries != [] {
      var n := |entries| - 1;
      RunStores(s, b, entries[..n]);
      StoresOneMore(s, b.dids, entries[..n], ApplyAll(s, b, entries[..n]), entries[n]);
      assert entries == entries[..n] + [entries[n]];
    }
  }

  /** `added` counts exactly the numbers that are new. */
  lemma {:induction false} AddedIsNewNumbers(s: Setup, b: Book, entries: seq<Entry>)
    ensures var t := ApplyAll(s, b, entries);
      b.dids.Keys <= t.dids.Keys && t.added - b.added == |t.dids.Keys - b.dids.Keys|
  {
    hide Apply;
    if entries != [] {
      var n := |entries| - 1;
      AddedIsNewNumbers(s, b, entries[..n]);
      ApplyKeys(s, b.dids.Keys, ApplyAll(s, b, entries[..n]), entries[n]);
    }
  }

  lemma ApplyKeys(s: Setup, was: set<string>, m: Book, e: Entry)
    requires was <= m.dids.Keys
    ensures var t := Apply(s, m, e);
      was <= t.dids.Keys && t.added - m.added == |t.dids.Keys - was| - |m.dids.Keys - was|
  {
    JudgeNew(s, m.dids, e);
    ApplyEffect(s, m, e);
    hide Apply, Judge, Insertable;
    if Judge(s, m.dids, e) == Added {
      OneMoreKey(was, m.dids.Keys, e.e164);
    }
  }

  lemma ApplyEffect(s: Setup, m: Book, e: Entry)
    ensures Judge(s, m.dids, e) == Added ==>
              Apply(s, m, e).dids.Keys == m.dids.Keys + {e.e164} && Apply(s, m, e).added == m.added + 1
    ensures Judge(s, m.dids, e) != Added ==> Apply(s, m, e).dids == m.dids && Apply(s, m, e).added == m.added
  {
    hide Judge, RowOf;
  }

  lemma OneMoreKey(was: set<string>, keys: set<string>, k: string)
    requires was <= keys && k !in keys
    ensures |(keys + {k}) - was| == |keys - was| + 1
  {
    assert (keys + {k}) - was == (keys - was) + {k};
  }

  lemma JudgeNew(s: Setup, dids: map<string, Row>, e: Entry)
    ensures Judge(s, dids, e) == Added ==> e.e164 !in dids
    ensures Judge(s, dids, e) == Added <==> Insertable(s, e) && e.e164 !in dids
  {
    hide RowOf, Complete;
  }

  /** A row is new exactly when some entry could insert it, whatever the order of the entries. */
  lemma NewNumbersIff(s: Setup, b: Book, entries: seq<Entry>, number: string)
    ensures number in ApplyAll(s, b, entries).dids
            <==> number in b.dids ||
                 exists i :: 0 <= i < |entries| && entries[i].e164 == number && Insertable(s, entries[i])
  {
    hide ApplyAll, Insertable, RowOf;
    RunStores(s, b, entries);
    var t := ApplyAll(s, b, entries).dids;
    if number in t && number !in b.dids {
      var i :| FirstFor(s, entries, number, i) && t[number] == RowOf(s, entries[i]);
    }
  }

  // ---------- running it again ----------

  lemma {:induction false} NothingToAdd(s: Setup, b: Book, entries: seq<Entry>)
    requires forall i :: 0 <= i < |entries| && Insertable(s, entries[i]) ==> entries[i].e164 in b.dids
    ensures ApplyAll(s, b, entries).dids == b.dids && ApplyAll(s, b, entries).added == b.added
  {
    hide Judge, RowOf, Insertable;
    if entries != [] {
      var n := |entries| - 1;
      NothingToAdd(s, b, entries[..n]);
      JudgeNew(s, b.dids, entries[n]);
    }
  }

  /** Importing the same entries again, counters reset, adds nothing and changes no row; the rows that
      were added or skipped are now all skipped. */
  lemma RerunAddsNothing(s: Setup, was: map<string, Row>, entries: seq<Entry>, warnings: nat)
    ensures var first := ApplyAll(s, Book(was, 0, 0, warnings, 0), entries);
      var again := ApplyAll(s, Book(first.dids, 0, 0, warnings, 0), entries);
      again.added == 0 && again.dids == first.dids && again.processed == |entries|
      && again.skipped >= first.added + first.skipped
  {
    hide ApplyAll, Insertable, RowOf, Judge;
    var start := Book(was, 0, 0, warnings, 0);
    var first := ApplyAll(s, start, entries);
    RunStores(s, start, entries);
    NothingToAdd(s, Book(first.dids, 0, 0, warnings, 0), entries);
    CountersAddUp(s, start, entries, warnings);
    CountersAddUp(s, Book(first.dids, 0, 0, warnings, 0), entries, warnings);
    SkippedAgain(s, start, Book(first.dids, 0, 0, warnings, 0), entries);
  }

  /** Against a fuller table no entry fails that did not fail before. */
  lemma {:induction false} SkippedAgain(s: Setup, a: Book, b: Book, entries: seq<Entry>)
    requires forall i :: 0 <= i < |entries| && Insertable(s, entries[i]) ==> entries[i].e164 in b.dids
    requires a.dids.Keys <= b.dids.Keys
    ensures ApplyAll(s, b, entries).dids == b.dids
    ensures ApplyAll(s, b, entries).skipped - b.skipped
            >= ApplyAll(s, a, entries).added - a.added + ApplyAll(s, a, entries).skipped - a.skipped
    ensures ApplyAll(s, a, entries).dids.Keys <= b.dids.Keys
  {
    hide RowOf, Insertable, Judge;
    if entries != [] {
      var n := |entries| - 1;
      SkippedAgain(s, a, b, entries[..n]);
      var m := ApplyAll(s, a, entries[..n]);
      JudgeNew(s, m.dids, entries[n]);
      JudgeFuller(s, m.dids, b.dids, entries[n]);
    }
  }

  lemma JudgeFuller(s: Setup, few: map<string, Row>, more: map<string, Row>, e: Entry)
    requires few.Keys <= more.Keys && (Insertable(s, e) ==> e.e164 in more)
    ensures Judge(s, few, e) != Error ==> Judge(s, more, e) == Skipped
    ensures Judge(s, more, e) != Added
  {
    hide RowOf, Complete;
  }
}
