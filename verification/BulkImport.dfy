/** The bulk import: guarded inserts row by row, with counters and an error list. */
module BulkImport {
  import opened Collections
  import opened Records
  import opened Store
  import opened Customers

  /** One parsed row; an empty cell of the sheet reads as the string "nan". */
  datatype Row = Row(name: string, phone: string, address: string)

  datatype RowError = MissingField | Rejected(name: string, reason: Refusal)

  datatype ErrorLine = ErrorLine(line: nat, error: RowError)

  datatype ImportReply =
    | MissingColumns(names: seq<string>)
    | Results(added: nat, failed: nat, errors: seq<ErrorLine>)

  const REQUIRED := ["name", "phone"]

  predicate Usable(r: Row) {
    r.name != "" && r.phone != "" && r.name != "nan" && r.phone != "nan"
  }

  // ---- What an import does to a snapshot -------------------------------------------------

  function Phones(s: State, merchant: string): set<string> {
    set k | k in s.customers && s.customers[k].merchant == merchant :: s.customers[k].phone
  }

  function UsablePhones(rows: seq<Row>): set<string> {
    set r | r in rows && Usable(r) :: r.phone
  }

  function Imported(s: State, merchant: string, rows: seq<Row>): State {
    if rows == [] then s
    else
      var before, r := Imported(s, merchant, rows[..|rows| - 1]), rows[|rows| - 1];
      if Usable(r) then Added(before, merchant, r.name, r.phone, r.address) else before
  }

  /** Row i goes in: it is complete, and neither the merchant nor an earlier row has its phone. */
  predicate Accepted(held: set<string>, rows: seq<Row>, i: nat)
    requires i < |rows|
  {
    Usable(rows[i]) && rows[i].phone !in held + UsablePhones(rows[..i])
  }

  /** The error lines of a file, in row order; the sheet's first data row is line 2. */
  function Errors(held: set<string>, rows: seq<Row>): seq<ErrorLine> {
    if rows == [] then []
    else
      var n := |rows| - 1;
      Errors(held, rows[..n])
      + if Accepted(held, rows, n) then []
        else if Usable(rows[n]) then [ErrorLine(n + 2, Rejected(rows[n].name, PhoneExists))]
        else [ErrorLine(n + 2, MissingField)]
  }

  // ---- Lemmas -------------------------------------------------------------------------------

  lemma UsablePhonesGrow(rows: seq<Row>, i: nat)
    requires i < |rows|
    ensures UsablePhones(rows[..i + 1]) == UsablePhones(rows[..i]) + if Usable(rows[i]) then {rows[i].phone} else {}
  {
  }

  lemma PhoneTakenIsHeld(s: State, merchant: string, phone: string)
    ensures PhoneTaken(s, merchant, phone) <==> phone in Phones(s, merchant)
  {
  }

  lemma AddedPhones(s: State, merchant: string, r: Row)
    requires FreshIds(s)
    ensures var s' := Added(s, merchant, r.name, r.phone, r.address);
            && Phones(s', merchant) == Phones(s, merchant) + {r.phone}
            && FreshIds(s')
            && |s'.customers| == |s.customers| + (if r.phone in Phones(s, merchant) then 0 else 1)
  {
    var c := NewCustomer(merchant, r.name, r.phone, r.address);
    PhoneTakenIsHeld(s, merchant, r.phone);
    SizePut(s.customers, s.nextCustomer, c);
    if r.phone !in Phones(s, merchant) {
      var s' := WithCustomer(s, c);
      assert s'.customers[s.nextCustomer] == c;
      forall k | k in s.customers ensures k in s'.customers && s'.customers[k] == s.customers[k] {}
      forall p | p in Phones(s, merchant) ensures p in Phones(s', merchant) {
        var k :| k in s.customers && s.customers[k].merchant == merchant && s.customers[k].phone == p;
        assert s'.customers[k].phone == p;
      }
    }
  }

  lemma NewByOne(a: set<string>, held: set<string>, p: string)
    ensures |a + {p} - held| == |a - held| + if p in held + a then 0 else 1
  {
    assert a + {p} - held == if p in held + a then a - held else (a - held) + {p};
  }

  /** An import leaves the merchant with exactly the phones it held and those of the
      usable rows, one new customer for each phone it did not hold. */
  lemma {:induction false} ImportAddsEachPhoneOnce(s: State, merchant: string, rows: seq<Row>)
    requires FreshIds(s)
    ensures var s' := Imported(s, merchant, rows);
            && FreshIds(s')
            && Phones(s', merchant) == Phones(s, merchant) + UsablePhones(rows)
            && |s'.customers| == |s.customers| + |UsablePhones(rows) - Phones(s, merchant)|
  {
    hide Phones, UsablePhones, Added, FreshIds;
    if rows == [] {
      NoRows(s, merchant);
    } else {
      var n := |rows| - 1;
      ImportAddsEachPhoneOnce(s, merchant, rows[..n]);
      UsablePhonesGrow(rows, n);
      assert rows[..n + 1] == rows;
      if Usable(rows[n]) {
        AddedPhones(Imported(s, merchant, rows[..n]), merchant, rows[n]);
        NewByOne(UsablePhones(rows[..n]), Phones(s, merchant), rows[n].phone);
      }
    }
  }

  lemma NoRows(s: State, merchant: string)
    ensures Imported(s, merchant, []) == s && UsablePhones([]) == {}
    ensures Errors(Phones(s, merchant), []) == []
  {
  }

  /** Rows whose phones are all held change nothing. */
  lemma {:induction false} ImportOfHeldPhones(s: State, merchant: string, rows: seq<Row>)
    requires UsablePhones(rows) <= Phones(s, merchant)
    ensures Imported(s, merchant, rows) == s
  {
    if rows != [] {
      var n := |rows| - 1;
      UsablePhonesGrow(rows, n);
      assert rows[..n + 1] == rows;
      ImportOfHeldPhones(s, merchant, rows[..n]);
      if Usable(rows[n]) {
        PhoneTakenIsHeld(s, merchant, rows[n].phone);
      }
    }
  }

  /** Importing the same file again leaves everything as the first import left it. */
  lemma ImportTwice(s: State, merchant: string, rows: seq<Row>)
    requires FreshIds(s)
    ensures Imported(Imported(s, merchant, rows), merchant, rows) == Imported(s, merchant, rows)
  {
    ImportAddsEachPhoneOnce(s, merchant, rows);
    ImportOfHeldPhones(Imported(s, merchant, rows), merchant, rows);
  }

  /** Customers that were there before an import are still there, unchanged. */
  lemma {:induction false} ImportKeepsCustomers(s: State, merchant: string, rows: seq<Row>, k: Id)
    requires FreshIds(s) && k in s.customers
    ensures var s' := Imported(s, merchant, rows);
            k in s'.customers && s'.customers[k] == s.customers[k] && s'.txns == s.txns
  {
    if rows != [] {
      var n := |rows| - 1;
      ImportKeepsCustomers(s, merchant, rows[..n], k);
      ImportAddsEachPhoneOnce(s, merchant, rows[..n]);
    }
  }

  /** One row of the loop: the state, the added count and the error line it contributes. */
  lemma ImportStep(s: State, merchant: string, file: seq<Row>, i: nat)
    requires FreshIds(s) && i < |file|
    ensures var before, r := Imported(s, merchant, file[..i]), file[i];
            var held := Phones(s, merchant);
            && Imported(s, merchant, file[..i + 1])
               == (if Usable(r) then Added(before, merchant, r.name, r.phone, r.address) else before)
            && (Accepted(held, file, i) <==> Usable(r) && !PhoneTaken(before, merchant, r.phone))
            && |UsablePhones(file[..i + 1]) - held|
               == |UsablePhones(file[..i]) - held| + (if Accepted(held, file, i) then 1 else 0)
            && Errors(held, file[..i + 1])
               == Errors(held, file[..i]) + (if Accepted(held, file, i) then []
                                             else if Usable(r) then [ErrorLine(i + 2, Rejected(r.name, PhoneExists))]
                                             else [ErrorLine(i + 2, MissingField)])
  {
    hide Phones, PhoneTaken, UsablePhones, Added, FreshIds;
    var held, p := Phones(s, merchant), file[i].phone;
    assert file[..i + 1][..i] == file[..i];
    UsablePhonesGrow(file, i);
    ImportAddsEachPhoneOnce(s, merchant, file[..i]);
    PhoneTakenIsHeld(Imported(s, merchant, file[..i]), merchant, p);
    NewByOne(UsablePhones(file[..i]), held, p);
  }

  /** The phone of row i was there before, or came in with a complete earlier row. */
  predicate HeldBy(held: set<string>, rows: seq<Row>, i: nat)
    requires i < |rows|
  {
    || rows[i].phone in held
    || exists j :: 0 <= j < i && rows[j].phone == rows[i].phone && rows[j].name !in ["", "nan"]
  }

  lemma AcceptedMeaning(held: set<string>, rows: seq<Row>, i: nat)
    requires i < |rows|
    ensures Usable(rows[i]) <==> rows[i].name !in ["", "nan"] && rows[i].phone !in ["", "nan"]
    ensures Accepted(held, rows, i) <==> Usable(rows[i]) && !HeldBy(held, rows, i)
  {
    var phone := rows[i].phone;
    if phone in UsablePhones(rows[..i]) {
      var r :| r in rows[..i] && Usable(r) && r.phone == phone;
    }
    forall j | 0 <= j < i && rows[j].phone == phone && Usable(rows[j]) ensures phone in UsablePhones(rows[..i]) {
      assert rows[..i][j] == rows[j];
    }
  }

  /** Every new customer is the earliest complete row with its phone. */
  lemma {:induction false} ImportedFromRow(s: State, merchant: string, rows: seq<Row>, k: Id) returns (i: nat)
    requires FreshIds(s) && k in Imported(s, merchant, rows).customers && k !in s.customers
    ensures i < |rows| && rows[i].name !in ["", "nan"] && rows[i].phone !in ["", "nan"]
    ensures Imported(s, merchant, rows).customers[k] == Customer(
              merchant, rows[i].name, rows[i].phone, rows[i].address, 0.0, 0.0, 0.0, 100, LowRisk)
    ensures !HeldBy(Phones(s, merchant), rows, i)
  {
    hide PhoneTaken, Phones, HeldBy, Accepted, Usable, UsablePhones;
    var n := |rows| - 1;
    var before := Imported(s, merchant, rows[..n]);
    ImportAddsEachPhoneOnce(s, merchant, rows[..n]);
    if k in before.customers {
      i := ImportedFromRow(s, merchant, rows[..n], k);
      HeldByPrefix(Phones(s, merchant), rows, n, i);
    } else {
      i := n;
      ImportStep(s, merchant, rows, n);
      AcceptedMeaning(Phones(s, merchant), rows, n);
    }
  }

  lemma HeldByPrefix(held: set<string>, rows: seq<Row>, n: nat, i: nat)
    requires i < n <= |rows|
    ensures HeldBy(held, rows[..n], i) == HeldBy(held, rows, i)
  {
    assert forall j :: 0 <= j < n ==> rows[..n][j] == rows[j];
  }

  /** Line a of the error list names its row by the number it has in the sheet and gives
      the reason why the row did not go in; lines come in row order. */
  lemma {:induction false} ErrorNamesRow(held: set<string>, rows: seq<Row>, a: nat)
    requires a < |Errors(held, rows)|
    ensures var e := Errors(held, rows)[a];
            && 2 <= e.line < |rows| + 2
            && (a > 0 ==> Errors(held, rows)[a - 1].line < e.line)
            && var r := rows[e.line - 2];
               if r.name in ["", "nan"] || r.phone in ["", "nan"] then e.error == MissingField
               else e.error == Rejected(r.name, PhoneExists) && HeldBy(held, rows, e.line - 2)
  {
    hide HeldBy, Accepted;
    var n := |rows| - 1;
    var earlier := Errors(held, rows[..n]);
    AcceptedMeaning(held, rows, n);
    if a < |earlier| {
      ErrorNamesRow(held, rows[..n], a);
      HeldByPrefix(held, rows, n, earlier[a].line - 2);
    } else if a > 0 {
      ErrorNamesRow(held, rows[..n], a - 1);
    }
  }

  /** And every row that did not go in has its line. */
  lemma {:induction false} FailedRowIsNamed(held: set<string>, rows: seq<Row>, i: nat) returns (a: nat)
    requires i < |rows|
    requires rows[i].name in ["", "nan"] || rows[i].phone in ["", "nan"] || HeldBy(held, rows, i)
    ensures a < |Errors(held, rows)| && Errors(held, rows)[a].line == i + 2
  {
    hide HeldBy, Accepted;
    var n := |rows| - 1;
    AcceptedMeaning(held, rows, n);
    if i < n {
      HeldByPrefix(held, rows, n, i);
      a := FailedRowIsNamed(held, rows[..n], i);
    } else {
      a := |Errors(held, rows[..n])|;
    }
  }

  // ---- The loop -------------------------------------------------------------------------------

  method ImportCustomers(db: Database, merchant: string, columns: seq<string>, rows: seq<Row>)
      returns (reply: ImportReply)
    requires FreshIds(db.Snapshot())
    modifies db
    ensures reply.Results? <==> "name" in columns && "phone" in columns
    ensures reply.Results? <==> forall c :: c in REQUIRED ==> c in columns
    ensures reply.MissingColumns? ==>
              && reply.names == (if "name" in columns then [] else ["name"])
                                + (if "phone" in columns then [] else ["phone"])
              && db.Snapshot() == old(db.Snapshot())
    ensures reply.Results? ==>
              var file := ReadRows(columns, rows);
              var held := Phones(old(db.Snapshot()), merchant);
              && db.Snapshot() == Imported(old(db.Snapshot()), merchant, file)
              && reply.added + reply.failed == |rows|
              && reply.added == |UsablePhones(file) - held|
              && reply.errors == Errors(held, file)
              && |reply.errors| == reply.failed
    ensures reply.Results? ==> forall k :: k in db.customers && k !in old(db.customers) ==>
              exists i :: 0 <= i < |rows| && rows[i].name !in ["", "nan"] && rows[i].phone !in ["", "nan"]
                && db.customers[k] == Customer(merchant, rows[i].name, rows[i].phone,
                                               if "address" in columns then rows[i].address else "",
                                               0.0, 0.0, 0.0, 100, LowRisk)
  {
    hide Phones, UsablePhones, Imported, Errors, PhoneTaken, Filter;
    var missing := Filter(REQUIRED, (c: string) => c !in columns);
    MissingMeaning(columns);
    if missing != [] {
      return MissingColumns(missing);
    }
    ghost var s := db.Snapshot();
    ghost var held := Phones(s, merchant);
    ghost var file := ReadRows(columns, rows);
    NoRows(s, merchant);
    var added, failed := 0, 0;
    var errors: seq<ErrorLine> := [];
    for i := 0 to |rows|
      invariant db.Snapshot() == Imported(s, merchant, file[..i])
      invariant added + failed == i
      invariant added == |UsablePhones(file[..i]) - held|
      invariant errors == Errors(held, file[..i])
      invariant |errors| == failed
    {
      var name, phone := rows[i].name, rows[i].phone;
      var address := if "address" in columns then rows[i].address else "";
      ImportStep(s, merchant, file, i);
      if name == "" || phone == "" || name == "nan" || phone == "nan" {
        failed := failed + 1;
        errors := errors + [ErrorLine(i + 2, MissingField)];
        continue;
      }
      var reply := AddCustomer(db, merchant, name, phone, address);
      if reply.Created? {
        added := added + 1;
      } else {
        failed := failed + 1;
        errors := errors + [ErrorLine(i + 2, Rejected(name, reply.reason))];
      }
    }
    assert file[..|rows|] == file;
    reply := Results(added, failed, errors);
    forall k | k in db.customers && k !in s.customers
      ensures exists i :: 0 <= i < |rows| && rows[i].name !in ["", "nan"] && rows[i].phone !in ["", "nan"]
                && db.customers[k] == Customer(merchant, rows[i].name, rows[i].phone,
                                               if "address" in columns then rows[i].address else "",
                                               0.0, 0.0, 0.0, 100, LowRisk)
    {
      var i := ImportedFromRow(s, merchant, file, k);
      assert file[i].name == rows[i].name;
    }
  }

  /** The rows as the loop reads them: without an address column every address is empty. */
  function ReadRows(columns: seq<string>, rows: seq<Row>): (file: seq<Row>)
    ensures |file| == |rows|
  {
    if "address" in columns then rows else seq(|rows|, i requires 0 <= i < |rows| => rows[i].(address := ""))
  }

  lemma MissingMeaning(columns: seq<string>)
    ensures (forall c :: c in REQUIRED ==> c in columns) <==> "name" in columns && "phone" in columns
    ensures Filter(REQUIRED, (c: string) => c !in columns)
         == (if "name" in columns then [] else ["name"]) + (if "phone" in columns then [] else ["phone"])
  {
    var missing := (c: string) => c !in columns;
    assert REQUIRED[..1] == ["name"] && Filter(["name"][..0], missing) == [];
    assert Filter(REQUIRED[..1], missing) == if missing("name") then ["name"] else [];
  }
}
