/** Loading the recipient list from the spreadsheet rows (`send_bulk_emails`, before the
    batching loop): drop rows without an address, trim, drop blank addresses, then collect
    (email, name) pairs in row order. */
module Recipients {
  import opened Common

  /** One spreadsheet row as `read_excel` gives it: the email and name cells, `None` where
      pandas reads a missing value. */
  datatype Row = Row(email: Option<string>, name: Option<string>)

  /** The sheet: its rows in order, and whether it has a name column at all. */
  datatype Sheet = Sheet(rows: seq<Row>, hasNameColumn: bool)

  datatype Recipient = Recipient(email: string, name: Option<string>)

  /** The characters Python's `str.strip()` removes (those for which `str.isspace()` holds). */
  const Whitespace: set<char> := {
    ' ', '\t', '\n', '\r', '\U{0B}', '\U{0C}', '\U{1C}', '\U{1D}', '\U{1E}', '\U{1F}', '\U{85}', '\U{A0}',
    '\U{1680}', '\U{2000}', '\U{2001}', '\U{2002}', '\U{2003}', '\U{2004}', '\U{2005}', '\U{2006}',
    '\U{2007}', '\U{2008}', '\U{2009}', '\U{200A}', '\U{2028}', '\U{2029}', '\U{202F}', '\U{205F}',
    '\U{3000}'
  }

  /** `s` is `r` with whitespace added on either side, one character at a time. */
  predicate Padded(s: string, r: string)
    decreases |s|
  {
    s == r ||
    (s != [] && ((s[0] in Whitespace && Padded(s[1..], r)) ||
                 (s[|s| - 1] in Whitespace && Padded(s[..|s| - 1], r))))
  }

  /** Python's `str.strip()`: what is left of `s` once the whitespace on both sides is gone,
      so it neither begins nor ends with whitespace. */
  function Strip(s: string): (r: string)
    ensures r == [] || (r[0] !in Whitespace && r[|r| - 1] !in Whitespace)
    ensures Padded(s, r)
  {
    var t := TrimStart(s, Whitespace);
    var r := TrimEnd(t, Whitespace);
    PaddedTrimStart(s);
    PaddedTrimEnd(t);
    PaddedTrans(s, t, r);
    r
  }

  lemma {:induction false} PaddedTrimStart(s: string)
    ensures Padded(s, TrimStart(s, Whitespace))
    decreases |s|
  {
    if s != [] && s[0] in Whitespace {
      PaddedTrimStart(s[1..]);
    }
  }

  lemma {:induction false} PaddedTrimEnd(s: string)
    ensures Padded(s, TrimEnd(s, Whitespace))
    decreases |s|
  {
    if s != [] && s[|s| - 1] in Whitespace {
      PaddedTrimEnd(s[..|s| - 1]);
    }
  }

  lemma {:induction false} PaddedTrans(s: string, t: string, r: string)
    requires Padded(s, t) && Padded(t, r)
    ensures Padded(s, r)
    decreases |s|
  {
    if s != t {
      if s[0] in Whitespace && Padded(s[1..], t) {
        PaddedTrans(s[1..], t, r);
      } else {
        PaddedTrans(s[..|s| - 1], t, r);
      }
    }
  }

  // ---------------------------------------------------------------------------------------
  // The reference: one pass over the rows

  /** A row survives loading: it has an address that is not blank once trimmed. */
  predicate Keeps(row: Row)
  {
    row.email.Some? && Strip(row.email.value) != ""
  }

  /** The name the source pairs with an address: the raw cell when the column exists and the
      cell is not missing, otherwise `None`. */
  function NameOf(row: Row, hasNameColumn: bool): Option<string>
  {
    if hasNameColumn && row.name.Some? then row.name else None
  }

  function RecipientOf(row: Row, hasNameColumn: bool): Recipient
    requires row.email.Some?
  {
    Recipient(Strip(row.email.value), NameOf(row, hasNameColumn))
  }

  function Loaded(rows: seq<Row>, hasNameColumn: bool): seq<Recipient>
    decreases |rows|
  {
    if rows == [] then []
    else
      var last := rows[|rows| - 1];
      Loaded(rows[..|rows| - 1], hasNameColumn) + (if Keeps(last) then [RecipientOf(last, hasNameColumn)] else [])
  }

  /** The indices of the rows that survive, in increasing order. */
  function KeptIndices(rows: seq<Row>): (r: seq<nat>)
    ensures |r| <= |rows|
    ensures forall k :: 0 <= k < |r| ==> r[k] < |rows|
    decreases |rows|
  {
    if rows == [] then []
    else
      var n := |rows| - 1;
      var before := KeptIndices(rows[..n]);
      assert forall k :: 0 <= k < |before| ==> before[k] < n;
      before + (if Keeps(rows[n]) then [n] else [])
  }

  // ---------------------------------------------------------------------------------------
  // The pandas stages, as the source applies them

  predicate HasEmail(row: Row) { row.email.Some? }

  predicate NotBlank(row: Row) { row.email != Some("") }

  function StripRow(row: Row): Row
  {
    match row.email
    case None => row
    case Some(e) => row.(email := Some(Strip(e)))
  }

  /** `df[df[EMAIL_COLUMN].notna()]` */
  function DropMissingEmails(rows: seq<Row>): seq<Row>
  {
    Filter(rows, HasEmail)
  }

  /** `df[EMAIL_COLUMN].astype(str).str.strip()` */
  function StripEmails(rows: seq<Row>): (r: seq<Row>)
    ensures |r| == |rows|
  {
    seq(|rows|, i requires 0 <= i < |rows| => StripRow(rows[i]))
  }

  /** `df[df[EMAIL_COLUMN] != ""]` */
  function DropBlankEmails(rows: seq<Row>): seq<Row>
  {
    Filter(rows, NotBlank)
  }

  /** The rows the collecting loop walks over. */
  function Cleaned(rows: seq<Row>): seq<Row>
  {
    DropBlankEmails(StripEmails(DropMissingEmails(rows)))
  }

  /** A row as the collecting loop sees it: an address, already trimmed and not blank. */
  predicate CleanRow(row: Row)
  {
    row.email.Some? && row.email.value != "" && Strip(row.email.value) == row.email.value
  }

  method LoadRecipients(sheet: Sheet) returns (recipients: seq<Recipient>)
    ensures recipients == Loaded(sheet.rows, sheet.hasNameColumn)
  {
    var df := DropMissingEmails(sheet.rows);
    df := StripEmails(df);
    df := DropBlankEmails(df);
    assert df == Cleaned(sheet.rows);
    CleanedRowsAreClean(sheet.rows);
    recipients := [];
    for k := 0 to |df|
      invariant forall j :: 0 <= j < |df| ==> CleanRow(df[j])
      invariant recipients == Loaded(df[..k], sheet.hasNameColumn)
    {
      var email := df[k].email.value;
      var name := if sheet.hasNameColumn && df[k].name.Some? then df[k].name else None;
      recipients := recipients + [Recipient(email, name)];
      LoadedPrefixStep(df, k, sheet.hasNameColumn);
    }
    assert df[..|df|] == df;
    CleanedMatchesLoaded(sheet.rows, sheet.hasNameColumn);
  }

  // ---------------------------------------------------------------------------------------
  // Properties

  /** Stripping twice is stripping once. */
  lemma StripIdempotent(s: string)
    ensures Strip(Strip(s)) == Strip(s)
  {
    var t := TrimStart(s, Whitespace);
    var r := TrimEnd(t, Whitespace);
    assert r == [] || r[0] == t[0];
    TrimStartOfClean(r, Whitespace);
    TrimEndOfClean(r, Whitespace);
  }

  lemma {:induction false} CleanedRowsAreClean(rows: seq<Row>)
    ensures forall k :: 0 <= k < |Cleaned(rows)| ==> CleanRow(Cleaned(rows)[k])
    decreases |rows|
  {
    if rows != [] {
      var n := |rows| - 1;
      var x := rows[n];
      CleanedRowsAreClean(rows[..n]);
      CleanedStep(rows);
      var init := Cleaned(rows[..n]);
      if Keeps(x) {
        StripIdempotent(x.email.value);
        assert CleanRow(StripRow(x));
        assert Cleaned(rows) == init + [StripRow(x)];
      } else {
        assert Cleaned(rows) == init;
      }
    }
  }

  /** How the pipeline treats one more row. */
  lemma CleanedStep(rows: seq<Row>)
    requires rows != []
    ensures Cleaned(rows) == Cleaned(rows[..|rows| - 1]) +
              (if Keeps(rows[|rows| - 1]) then [StripRow(rows[|rows| - 1])] else [])
  {
    var n := |rows| - 1;
    var x := rows[n];
    var missing := DropMissingEmails(rows[..n]);
    var tail := if HasEmail(x) then [x] else [];
    assert DropMissingEmails(rows) == missing + tail;
    assert StripEmails(missing + tail) == StripEmails(missing) + StripEmails(tail);
    FilterConcat(StripEmails(missing), StripEmails(tail), NotBlank);
    if HasEmail(x) {
      assert StripEmails(tail) == [StripRow(x)];
      assert Filter([StripRow(x)], NotBlank) == (if NotBlank(StripRow(x)) then [StripRow(x)] else []);
    }
  }

  /** A row that is already clean is loaded as it stands. */
  lemma LoadedCleanRow(rows: seq<Row>, hasNameColumn: bool)
    requires rows != [] && CleanRow(rows[|rows| - 1])
    ensures var last := rows[|rows| - 1];
      Loaded(rows, hasNameColumn) ==
      Loaded(rows[..|rows| - 1], hasNameColumn) + [Recipient(last.email.value, NameOf(last, hasNameColumn))]
  {
    var last := rows[|rows| - 1];
    assert Keeps(last);
    assert RecipientOf(last, hasNameColumn) == Recipient(last.email.value, NameOf(last, hasNameColumn));
  }

  lemma LoadedPrefixStep(df: seq<Row>, k: nat, hasNameColumn: bool)
    requires k < |df| && CleanRow(df[k])
    ensures Loaded(df[..k + 1], hasNameColumn) ==
            Loaded(df[..k], hasNameColumn) + [Recipient(df[k].email.value, NameOf(df[k], hasNameColumn))]
  {
    LoadedCleanRow(df[..k + 1], hasNameColumn);
    assert df[..k + 1][..k] == df[..k];
  }

  /** Loading distributes over concatenated row lists: nothing is deduplicated across rows. */
  lemma {:induction false} LoadedConcat(a: seq<Row>, b: seq<Row>, hasNameColumn: bool)
    ensures Loaded(a + b, hasNameColumn) == Loaded(a, hasNameColumn) + Loaded(b, hasNameColumn)
    decreases |b|
  {
    if b == [] {
      assert a + b == a;
    } else {
      var b' := b[..|b| - 1];
      LoadedConcat(a, b', hasNameColumn);
      assert (a + b)[..|a + b| - 1] == a + b';
      assert (a + b)[|a + b| - 1] == b[|b| - 1];
    }
  }

  /** The source's three pandas stages followed by its collecting loop load exactly what
      the one-pass reference loads. */
  lemma {:induction false} CleanedMatchesLoaded(rows: seq<Row>, hasNameColumn: bool)
    ensures Loaded(Cleaned(rows), hasNameColumn) == Loaded(rows, hasNameColumn)
    decreases |rows|
  {
    if rows != [] {
      var n := |rows| - 1;
      var x := rows[n];
      CleanedMatchesLoaded(rows[..n], hasNameColumn);
      CleanedStep(rows);
      var tail := if Keeps(x) then [StripRow(x)] else [];
      LoadedConcat(Cleaned(rows[..n]), tail, hasNameColumn);
      if Keeps(x) {
        StripIdempotent(x.email.value);
        assert Loaded(tail, hasNameColumn) == Loaded([], hasNameColumn) + [RecipientOf(StripRow(x), hasNameColumn)];
      }
    }
  }

  /** The loaded list is the surviving rows, in row order, each as its trimmed address and
      its name cell. */
  lemma {:induction false} LoadedSelectsRows(rows: seq<Row>, hasNameColumn: bool)
    ensures var kept := KeptIndices(rows);
      |Loaded(rows, hasNameColumn)| == |kept| <= |rows| &&
      (forall k :: 0 <= k < |kept| ==>
         kept[k] < |rows| && Keeps(rows[kept[k]]) &&
         Loaded(rows, hasNameColumn)[k] == RecipientOf(rows[kept[k]], hasNameColumn)) &&
      (forall k, l :: 0 <= k < l < |kept| ==> kept[k] < kept[l])
    decreases |rows|
  {
    if rows != [] {
      var n := |rows| - 1;
      var init, last := rows[..n], rows[n];
      LoadedSelectsRows(init, hasNameColumn);
      var kept, before := KeptIndices(rows), KeptIndices(init);
      var loaded, loadedBefore := Loaded(rows, hasNameColumn), Loaded(init, hasNameColumn);
      assert kept == before + (if Keeps(last) then [n] else []);
      assert loaded == loadedBefore + (if Keeps(last) then [RecipientOf(last, hasNameColumn)] else []);
      forall k | 0 <= k < |before|
        ensures kept[k] == before[k] && loaded[k] == loadedBefore[k] && rows[before[k]] == init[before[k]]
      {
      }
      forall k, l | 0 <= k < l < |kept|
        ensures kept[k] < kept[l]
      {
        if l < |before| {
          assert kept[k] == before[k] && kept[l] == before[l];
        } else {
          assert kept[l] == n && kept[k] == before[k] < n;
        }
      }
    }
  }

  /** Every row that survives the filters is loaded. */
  lemma {:induction false} KeptIndicesComplete(rows: seq<Row>, i: nat)
    requires i < |rows| && Keeps(rows[i])
    ensures i in KeptIndices(rows)
    decreases |rows|
  {
    var n := |rows| - 1;
    if i < n {
      KeptIndicesComplete(rows[..n], i);
    }
  }

  /** Every loaded address is non-empty and already trimmed. */
  lemma LoadedAddressesClean(rows: seq<Row>, hasNameColumn: bool)
    ensures forall r :: r in Loaded(rows, hasNameColumn) ==> r.email != "" && Strip(r.email) == r.email
  {
    LoadedSelectsRows(rows, hasNameColumn);
    var kept := KeptIndices(rows);
    forall r | r in Loaded(rows, hasNameColumn)
      ensures r.email != "" && Strip(r.email) == r.email
    {
      var k :| 0 <= k < |kept| && Loaded(rows, hasNameColumn)[k] == r;
      StripIdempotent(rows[kept[k]].email.value);
    }
  }

  /** A loaded name is `None` exactly when the sheet has no name column or the row's name
      cell is missing; otherwise it is the cell as written. */
  lemma LoadedNames(rows: seq<Row>, hasNameColumn: bool, k: nat)
    requires k < |KeptIndices(rows)|
    ensures k < |Loaded(rows, hasNameColumn)|
    ensures var row := rows[KeptIndices(rows)[k]];
      (Loaded(rows, hasNameColumn)[k].name.None? <==> !hasNameColumn || row.name.None?) &&
      (Loaded(rows, hasNameColumn)[k].name.Some? ==> Loaded(rows, hasNameColumn)[k].name == row.name)
  {
    LoadedSelectsRows(rows, hasNameColumn);
  }

  /** A row is loaded exactly when its address cell is present and not blank once trimmed. */
  lemma LoadedIffKept(rows: seq<Row>, hasNameColumn: bool, i: nat)
    requires i < |rows|
    ensures i in KeptIndices(rows) <==> Keeps(rows[i])
  {
    LoadedSelectsRows(rows, hasNameColumn);
    if Keeps(rows[i]) {
      KeptIndicesComplete(rows, i);
    }
  }

  /** One whitespace character on each side of an otherwise clean string is removed. */
  lemma StripAround(c: char, s: string, d: char)
    requires c in Whitespace && d in Whitespace
    requires s != [] && s[0] !in Whitespace && s[|s| - 1] !in Whitespace
    ensures Strip([c] + s + [d]) == s
  {
    assert ([c] + s + [d])[1..] == s + [d];
    TrimStartOfClean(s + [d], Whitespace);
    assert (s + [d])[..|s|] == s;
    TrimEndOfClean(s, Whitespace);
  }

  lemma StripPadded()
    ensures Strip(" b@x.com ") == "b@x.com"
  {
    assert " b@x.com " == [' '] + "b@x.com" + [' '];
    StripAround(' ', "b@x.com", ' ');
  }

  function LoadedOne(row: Row, hasNameColumn: bool): seq<Recipient>
  {
    if Keeps(row) then [RecipientOf(row, hasNameColumn)] else []
  }

  lemma LoadedThree(r0: Row, r1: Row, r2: Row, hasNameColumn: bool)
    ensures Loaded([r0, r1, r2], hasNameColumn) ==
            LoadedOne(r0, hasNameColumn) + LoadedOne(r1, hasNameColumn) + LoadedOne(r2, hasNameColumn)
  {
    var rows := [r0, r1, r2];
    assert rows[..2] == [r0, r1];
    assert rows[..2][..1] == [r0];
    assert [r0][..0] == [];
    assert Loaded([r0], hasNameColumn) == LoadedOne(r0, hasNameColumn);
    assert Loaded([r0, r1], hasNameColumn) == Loaded([r0], hasNameColumn) + LoadedOne(r1, hasNameColumn);
    assert Loaded(rows, hasNameColumn) == Loaded([r0, r1], hasNameColumn) + LoadedOne(r2, hasNameColumn);
  }

  /** Three rows: a clean one, a blank address, and one padded on both sides. */
  lemma LoadExample()
    ensures Loaded([Row(Some("A@x.com"), Some("Ann")), Row(Some(""), Some("Bad")),
                    Row(Some(" b@x.com "), Some("Bob"))], true)
         == [Recipient("A@x.com", Some("Ann")), Recipient("b@x.com", Some("Bob"))]
  {
    var r0 := Row(Some("A@x.com"), Some("Ann"));
    var r1 := Row(Some(""), Some("Bad"));
    var r2 := Row(Some(" b@x.com "), Some("Bob"));
    ExampleRows(r0, r1, r2);
    LoadedThree(r0, r1, r2, true);
  }

  lemma ExampleRows(r0: Row, r1: Row, r2: Row)
    requires r0 == Row(Some("A@x.com"), Some("Ann"))
    requires r1 == Row(Some(""), Some("Bad"))
    requires r2 == Row(Some(" b@x.com "), Some("Bob"))
    ensures LoadedOne(r0, true) == [Recipient("A@x.com", Some("Ann"))]
    ensures LoadedOne(r1, true) == []
    ensures LoadedOne(r2, true) == [Recipient("b@x.com", Some("Bob"))]
  {
    ExampleClean(r0);
    ExamplePadded(r2);
  }

  lemma ExampleClean(r: Row)
    requires r == Row(Some("A@x.com"), Some("Ann"))
    ensures LoadedOne(r, true) == [Recipient("A@x.com", Some("Ann"))]
  {
    CleanRowLoaded(r, true);
  }

  /** A row whose address has no surrounding whitespace is loaded as it is. */
  lemma CleanRowLoaded(r: Row, hasNameColumn: bool)
    requires r.email.Some? && r.email.value != []
    requires r.email.value[0] !in Whitespace && r.email.value[|r.email.value| - 1] !in Whitespace
    ensures LoadedOne(r, hasNameColumn) == [Recipient(r.email.value, NameOf(r, hasNameColumn))]
  {
    var e := r.email.value;
    assert Strip(e) == e by {
      TrimStartOfClean(e, Whitespace);
      TrimEndOfClean(e, Whitespace);
    }
    assert Keeps(r);
    assert RecipientOf(r, hasNameColumn) == Recipient(e, NameOf(r, hasNameColumn));
  }

  lemma ExamplePadded(r: Row)
    requires r == Row(Some(" b@x.com "), Some("Bob"))
    ensures LoadedOne(r, true) == [Recipient("b@x.com", Some("Bob"))]
  {
    StripPadded();
  }
}
