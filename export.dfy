/** `ExportButton`: the CSV text built from the transaction list and the
    totals printed at the head of the PDF report. Dates and numbers are
    written by the parameters `formatDate` (`toLocaleDateString`) and
    `numberText` (`String(n)`). */
module Export {
  import Text
  import Seqs
  import opened Wrappers
  import opened Ledger
  import Aggregation

  /** `headers`. */
  const CsvHeader: seq<string> := ["Date", "Type", "Category", "Description", "Amount", "Recurrence"]

  /** `` `"${s}"` ``: inner quotes are not escaped. */
  function Quoted(s: string): (r: string)
    ensures |r| == |s| + 2 && r[0] == '"' && r[|r| - 1] == '"' && r[1..|r| - 1] == s
  {
    "\"" + s + "\""
  }

  /** The six fields of a transaction's row. */
  function CsvFields(t: Transaction, formatDate: CalendarDate -> string, numberText: real -> string): (r: seq<string>)
    ensures |r| == |CsvHeader|
  {
    [formatDate(t.date), Text.Capitalize(t.kind.Text()), t.category.name, Quoted(t.description),
     numberText(Aggregation.Signed(t)), t.recurrence.Text()]
  }

  /** `row.join(',')`. */
  function CsvRow(t: Transaction, formatDate: CalendarDate -> string, numberText: real -> string): string {
    Text.Join(CsvFields(t, formatDate, numberText), ',')
  }

  /** The CSV text: `None` for an empty list, where the source stops with
      an error message; otherwise the header line and one line per
      transaction, joined by line feeds. */
  function CsvContent(ts: seq<Transaction>, formatDate: CalendarDate -> string, numberText: real -> string): (r: Option<string>)
    ensures r.None? <==> ts == []
  {
    if ts == [] then None
    else Some(Text.Join([Text.Join(CsvHeader, ',')] + CsvRows(ts, formatDate, numberText), '\n'))
  }

  /** `rows.map(row => row.join(','))`: one line per transaction, in list
      order. */
  function CsvRows(ts: seq<Transaction>, formatDate: CalendarDate -> string, numberText: real -> string): (r: seq<string>)
    ensures |r| == |ts|
    ensures forall i :: 0 <= i < |ts| ==> r[i] == CsvRow(ts[i], formatDate, numberText)
  {
    Seqs.Map(ts, t => CsvRow(t, formatDate, numberText))
  }

  /** Text made of letters and hyphens only. */
  predicate Word(s: string) {
    forall i :: 0 <= i < |s| ==> 'a' <= s[i] <= 'z' || 'A' <= s[i] <= 'Z' || s[i] == '-'
  }

  /** A word holds neither a comma nor a line feed. */
  lemma WordHasNoSeparator(s: string)
    requires Word(s)
    ensures ',' !in s && '\n' !in s
  {
    forall i | 0 <= i < |s| ensures s[i] != ',' && s[i] != '\n' {
    }
  }

  /** The Type field is the kind with a capital first letter. */
  lemma KindField(k: Kind)
    ensures Text.Capitalize(k.Text()) == (if k == Income then "Income" else "Expense")
  {
    var s := k.Text();
    assert Text.Capitalize(s) == [Text.UpperAscii(s[0])] + s[1..];
  }

  /** The written kinds and recurrences are words. */
  lemma FixedWords(t: Transaction)
    ensures Word(Text.Capitalize(t.kind.Text())) && Word(t.recurrence.Text())
  {
    KindField(t.kind);
    var k := Text.Capitalize(t.kind.Text());
    forall i | 0 <= i < |k| ensures 'a' <= k[i] <= 'z' || 'A' <= k[i] <= 'Z' || k[i] == '-' {
    }
    var r := t.recurrence.Text();
    forall i | 0 <= i < |r| ensures 'a' <= r[i] <= 'z' || 'A' <= r[i] <= 'Z' || r[i] == '-' {
    }
  }

  /** The written kinds and recurrences hold neither commas nor line
      feeds. */
  lemma FixedFields(t: Transaction)
    ensures ',' !in Text.Capitalize(t.kind.Text()) && '\n' !in Text.Capitalize(t.kind.Text())
    ensures ',' !in t.recurrence.Text() && '\n' !in t.recurrence.Text()
  {
    FixedWords(t);
    WordHasNoSeparator(Text.Capitalize(t.kind.Text()));
    WordHasNoSeparator(t.recurrence.Text());
  }

  /** Quoting adds only quote characters. */
  lemma QuotedKeepsOut(s: string, c: char)
    requires c != '"' && c !in s
    ensures c !in Quoted(s)
  {
    var r := Quoted(s);
    forall i | 0 <= i < |r| ensures r[i] != c {
      if 0 < i < |r| - 1 {
        assert r[i] == s[i - 1];
      }
    }
  }

  /** The fields of a row hold no comma when the date, category name,
      description and amount text hold none. */
  lemma FieldsWithoutComma(t: Transaction, formatDate: CalendarDate -> string, numberText: real -> string)
    requires ',' !in formatDate(t.date) && ',' !in t.category.name && ',' !in t.description
    requires ',' !in numberText(Aggregation.Signed(t))
    ensures forall k :: 0 <= k < 6 ==> ',' !in CsvFields(t, formatDate, numberText)[k]
  {
    FixedFields(t);
    QuotedKeepsOut(t.description, ',');
  }

  /** A row splits back at its commas into its six fields when the date,
      category name, description and amount text hold no comma: the date,
      the capitalised kind, the category name, the quoted description, the
      signed amount and the recurrence. */
  lemma RowFields(t: Transaction, formatDate: CalendarDate -> string, numberText: real -> string)
    requires ',' !in formatDate(t.date) && ',' !in t.category.name && ',' !in t.description
    requires ',' !in numberText(Aggregation.Signed(t))
    ensures var fs := Text.Split(CsvRow(t, formatDate, numberText), ',');
            |fs| == 6 && fs == CsvFields(t, formatDate, numberText)
            && fs[1] == (if t.kind == Income then "Income" else "Expense")
            && fs[3] == Quoted(t.description)
            && fs[4] == numberText(if t.kind == Income then t.amount else -t.amount)
  {
    FieldsWithoutComma(t, formatDate, numberText);
    Text.SplitJoin(CsvFields(t, formatDate, numberText), ',');
    KindField(t.kind);
  }

  /** A comma inside a description is not protected: the row then splits
      into seven fields, the description cut in two. */
  lemma CommaInDescription(t: Transaction, a: string, b: string, formatDate: CalendarDate -> string,
                           numberText: real -> string)
    requires t.description == a + "," + b
    requires ',' !in a && ',' !in b
    requires ',' !in formatDate(t.date) && ',' !in t.category.name
    requires ',' !in numberText(Aggregation.Signed(t))
    ensures var fs := Text.Split(CsvRow(t, formatDate, numberText), ',');
            |fs| == 7 && fs[3] == "\"" + a && fs[4] == b + "\""
  {
    var f := CsvFields(t, formatDate, numberText);
    var g := f[..3] + ["\"" + a, b + "\""] + f[4..];
    assert f[3] == ("\"" + a) + [','] + (b + "\"");
    Text.JoinCutPiece(f, 3, "\"" + a, b + "\"", ',');
    FixedFields(t);
    forall k | 0 <= k < 7 ensures ',' !in g[k] {
      if k == 3 || k == 4 {
        QuotedHalves(a, b);
      }
    }
    Text.SplitJoin(g, ',');
  }

  /** The two halves of a quoted text cut at a comma, each with its quote. */
  lemma QuotedHalves(a: string, b: string)
    requires ',' !in a && ',' !in b
    ensures ',' !in "\"" + a && ',' !in b + "\""
  {
    var l, r := "\"" + a, b + "\"";
    forall i | 0 <= i < |l| ensures l[i] != ',' {
      if i > 0 { assert l[i] == a[i - 1]; }
    }
    forall i | 0 <= i < |r| ensures r[i] != ',' {
      if i < |b| { assert r[i] == b[i]; }
    }
  }

  /** A row holds no line feed when the date, category name, description
      and amount text hold none. */
  lemma RowWithoutLineFeed(t: Transaction, formatDate: CalendarDate -> string, numberText: real -> string)
    requires '\n' !in formatDate(t.date) && '\n' !in t.category.name && '\n' !in t.description
    requires '\n' !in numberText(Aggregation.Signed(t))
    ensures '\n' !in CsvRow(t, formatDate, numberText)
  {
    FixedFields(t);
    QuotedKeepsOut(t.description, '\n');
    Text.NotInJoin(CsvFields(t, formatDate, numberText), ',', '\n');
  }

  /** Every column name is a word. */
  lemma HeaderWords()
    ensures forall k :: 0 <= k < |CsvHeader| ==> Word(CsvHeader[k])
  {
    forall k | 0 <= k < |CsvHeader| ensures Word(CsvHeader[k]) {
      var w := CsvHeader[k];
      forall i | 0 <= i < |w| ensures 'a' <= w[i] <= 'z' || 'A' <= w[i] <= 'Z' || w[i] == '-' {
      }
    }
  }

  /** The header line splits back at its commas into the six column names
      and holds no line feed. */
  lemma HeaderLine()
    ensures Text.Split(Text.Join(CsvHeader, ','), ',') == CsvHeader
    ensures '\n' !in Text.Join(CsvHeader, ',')
  {
    HeaderWords();
    forall k | 0 <= k < |CsvHeader| ensures ',' !in CsvHeader[k] && '\n' !in CsvHeader[k] {
      WordHasNoSeparator(CsvHeader[k]);
    }
    Text.SplitJoin(CsvHeader, ',');
    Text.NotInJoin(CsvHeader, ',', '\n');
  }

  /** The CSV text splits back at its line feeds into 1 + n lines: the
      header and then each transaction's row, in list order, when no field
      holds a line feed. */
  lemma CsvLines(ts: seq<Transaction>, formatDate: CalendarDate -> string, numberText: real -> string)
    requires ts != []
    requires forall t :: t in ts ==> '\n' !in formatDate(t.date) && '\n' !in t.category.name
                                     && '\n' !in t.description && '\n' !in numberText(Aggregation.Signed(t))
    ensures var lines := Text.Split(CsvContent(ts, formatDate, numberText).value, '\n');
            |lines| == 1 + |ts| && Text.Split(lines[0], ',') == CsvHeader
            && forall i :: 0 <= i < |ts| ==> lines[i + 1] == CsvRow(ts[i], formatDate, numberText)
  {
    LinesOfContent(ts, formatDate, numberText);
    HeaderLine();
  }

  lemma LinesOfContent(ts: seq<Transaction>, formatDate: CalendarDate -> string, numberText: real -> string)
    requires ts != []
    requires forall t :: t in ts ==> '\n' !in formatDate(t.date) && '\n' !in t.category.name
                                     && '\n' !in t.description && '\n' !in numberText(Aggregation.Signed(t))
    ensures Text.Split(CsvContent(ts, formatDate, numberText).value, '\n')
            == [Text.Join(CsvHeader, ',')] + CsvRows(ts, formatDate, numberText)
  {
    HeaderLine();
    RowsWithoutLineFeed(ts, formatDate, numberText);
    Text.SplitJoinLines(Text.Join(CsvHeader, ','), CsvRows(ts, formatDate, numberText), '\n');
  }

  lemma RowsWithoutLineFeed(ts: seq<Transaction>, formatDate: CalendarDate -> string, numberText: real -> string)
    requires forall t :: t in ts ==> '\n' !in formatDate(t.date) && '\n' !in t.category.name
                                     && '\n' !in t.description && '\n' !in numberText(Aggregation.Signed(t))
    ensures forall i :: 0 <= i < |ts| ==> '\n' !in CsvRows(ts, formatDate, numberText)[i]
  {
    forall i | 0 <= i < |ts| ensures '\n' !in CsvRow(ts[i], formatDate, numberText) {
      assert ts[i] in ts;
      RowWithoutLineFeed(ts[i], formatDate, numberText);
    }
  }

  /** The three figures of the PDF summary: `None` for an empty list,
      otherwise the totals of the list. */
  function PdfSummary(ts: seq<Transaction>): (r: Option<Aggregation.Totals>)
    ensures r.None? <==> ts == []
    ensures r.Some? ==> r.value.balance == r.value.income - r.value.expenses
    ensures r.Some? ==> r.value.balance == Seqs.SumBy(ts, Aggregation.Signed)
    ensures r.Some? ==> r.value.income + r.value.expenses == Seqs.SumBy(ts, Aggregation.AmountOf)
  {
    Aggregation.BalanceIsSignedSum(ts);
    Aggregation.TotalsCoverAll(ts);
    if ts == [] then None else Some(Aggregation.TotalsOf(ts))
  }

  /** The Amount column of the CSV adds up to the net balance of the PDF:
      both are the signed sum of the amounts. */
  lemma CsvAmountsSumToNet(ts: seq<Transaction>)
    requires ts != []
    ensures Seqs.SumBy(Seqs.Map(ts, Aggregation.Signed), x => x) == PdfSummary(ts).value.balance
  {
    SumMapped(ts);
  }

  lemma {:induction false} SumMapped(ts: seq<Transaction>)
    ensures Seqs.SumBy(Seqs.Map(ts, Aggregation.Signed), x => x) == Seqs.SumBy(ts, Aggregation.Signed)
  {
    if ts != [] {
      var m := Seqs.Map(ts, Aggregation.Signed);
      assert m[1..] == Seqs.Map(ts[1..], Aggregation.Signed);
      SumMapped(ts[1..]);
    }
  }
}
