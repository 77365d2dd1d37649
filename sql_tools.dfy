/** The three database tools the agents call
    (backend/services/graph/tools/sql.py): a schema describer, a read-only
    query tool and a write tool. What the database answers — the catalog of
    tables, the rows of a query, the row count of a write, or the error it
    raises — is a parameter; only the tools' own logic is modelled. */
module SqlTools {
  import opened Wrappers
  import opened Strings

  // =====================================================================
  // Statement guards

  const AllowedCommands: seq<string> := ["INSERT", "UPDATE", "DELETE"]

  /** The text the guards test: stripped, then upper-cased. */
  function Normalized(query: string): string {
    Upper(Strip(query))
  }

  /** `sql_db_query` runs a statement only when this holds. */
  predicate IsReadStatement(query: string) {
    StartsWith(Normalized(query), "SELECT")
  }

  /** `sql_db_write` runs a statement only when this holds. */
  predicate IsWriteStatement(query: string) {
    exists i :: 0 <= i < |AllowedCommands| && StartsWith(Normalized(query), AllowedCommands[i])
  }

  // ---------------------------------------------------------------------
  // Properties of the guards

  lemma IsWriteStatementCases(query: string)
    ensures IsWriteStatement(query) <==>
              StartsWith(Normalized(query), "INSERT") || StartsWith(Normalized(query), "UPDATE")
              || StartsWith(Normalized(query), "DELETE")
  {
    if StartsWith(Normalized(query), "INSERT") {
      assert StartsWith(Normalized(query), AllowedCommands[0]);
    } else if StartsWith(Normalized(query), "UPDATE") {
      assert StartsWith(Normalized(query), AllowedCommands[1]);
    } else if StartsWith(Normalized(query), "DELETE") {
      assert StartsWith(Normalized(query), AllowedCommands[2]);
    }
  }

  /** No statement is accepted by both tools. */
  lemma GuardsAreDisjoint(query: string)
    ensures !(IsReadStatement(query) && IsWriteStatement(query))
  {
    IsWriteStatementCases(query);
    var n := Normalized(query);
    if IsReadStatement(query) {
      assert n[0] == 'S';
    }
  }

  /** Removing trailing white space does not affect whether a string
      starts with a keyword, since a keyword does not end in white space. */
  lemma {:induction false} RStripKeepsPrefix(s: string, keyword: string)
    requires |keyword| > 0 && !IsSpace(keyword[|keyword| - 1])
    ensures StartsWith(RStrip(s), keyword) <==> StartsWith(s, keyword)
    decreases |s|
  {
    if |s| > 0 && IsSpace(s[|s| - 1]) {
      var init := s[..|s| - 1];
      RStripKeepsPrefix(init, keyword);
      if StartsWith(s, keyword) {
        assert s[..|keyword|] == keyword;
        assert |keyword| < |s|;
        assert init[..|keyword|] == s[..|keyword|];
      }
      if StartsWith(init, keyword) {
        assert s[..|keyword|] == init[..|keyword|];
      }
    }
  }

  /** What the guards really test: the text after the leading white space,
      upper-cased, begins with the keyword. Trailing text is irrelevant. */
  lemma GuardLooksAtLeadingText(query: string, keyword: string)
    requires |keyword| > 0 && !IsSpace(keyword[|keyword| - 1])
    ensures StartsWith(Normalized(query), keyword) <==> StartsWith(Upper(LStrip(query)), keyword)
  {
    UpperRStrip(LStrip(query));
    RStripKeepsPrefix(Upper(LStrip(query)), keyword);
  }

  lemma UpperAppend(a: string, b: string)
    ensures Upper(a + b) == Upper(a) + Upper(b)
  {
  }

  lemma {:induction false} LStripAppend(a: string, b: string)
    requires LStrip(a) != []
    ensures LStrip(a + b) == LStrip(a) + b
    decreases |a|
  {
    assert |a| > 0;
    assert (a + b)[0] == a[0];
    if IsSpace(a[0]) {
      assert (a + b)[1..] == a[1..] + b;
      LStripAppend(a[1..], b);
    }
  }

  /** The guards ignore white space around the statement. */
  lemma GuardsIgnorePadding(before: string, query: string, after: string)
    requires forall i :: 0 <= i < |before| ==> IsSpace(before[i])
    requires forall i :: 0 <= i < |after| ==> IsSpace(after[i])
    ensures Normalized(before + query + after) == Normalized(query)
    ensures IsReadStatement(before + query + after) == IsReadStatement(query)
    ensures IsWriteStatement(before + query + after) == IsWriteStatement(query)
  {
    assert before + query + after == before + (query + after);
    LStripPadding(before, query + after);
    if LStrip(query) != [] {
      LStripAppend(query, after);
      RStripPadding(LStrip(query), after);
    } else {
      LStripShape(query);
      assert forall i :: 0 <= i < |query| ==> IsSpace(query[i]);
      LStripPadding(query, after);
      LStripPadding(after, []);
      assert after + [] == after;
    }
  }

  /** The guards ignore case. */
  lemma GuardsIgnoreCase(query: string)
    ensures Normalized(Upper(query)) == Normalized(query)
    ensures IsReadStatement(Upper(query)) == IsReadStatement(query)
    ensures IsWriteStatement(Upper(query)) == IsWriteStatement(query)
  {
    UpperLStrip(query);
    UpperRStrip(LStrip(query));
    UpperRStrip(Upper(LStrip(query)));
    UpperIdempotent(RStrip(LStrip(query)));
    assert Upper(Strip(Upper(query))) == Upper(RStrip(Upper(LStrip(query))));
  }

  /** Only the beginning matters: an accepted statement stays accepted
      whatever follows it. */
  lemma GuardsLookOnlyAtPrefix(query: string, tail: string)
    ensures IsReadStatement(query) ==> IsReadStatement(query + tail)
    ensures IsWriteStatement(query) ==> IsWriteStatement(query + tail)
  {
    if IsReadStatement(query) || IsWriteStatement(query) {
      var k: string;
      if IsReadStatement(query) {
        k := "SELECT";
      } else {
        var i :| 0 <= i < |AllowedCommands| && StartsWith(Normalized(query), AllowedCommands[i]);
        k := AllowedCommands[i];
      }
      GuardLooksAtLeadingText(query, k);
      GuardLooksAtLeadingText(query + tail, k);
      assert LStrip(query) != [];
      LStripAppend(query, tail);
      UpperAppend(LStrip(query), tail);
      StartsWithAppend(Upper(LStrip(query)), k, Upper(tail));
      if IsReadStatement(query) {
        assert IsReadStatement(query + tail);
      } else {
        IsWriteStatementCases(query);
        IsWriteStatementCases(query + tail);
      }
    }
  }

  lemma SelectExample()
    ensures IsReadStatement("  select 1\n")
  {
    var q := "  select 1\n";
    assert LStrip(q) == q[2..];
    GuardLooksAtLeadingText(q, "SELECT");
    assert Upper(q[2..])[..6] == "SELECT";
  }

  /** A statement must begin with SELECT: a common table expression is
      refused although it only reads. */
  lemma WithQueryRefused()
    ensures !IsReadStatement("WITH t SELECT 1")
  {
    var w := "WITH t SELECT 1";
    assert LStrip(w) == w;
    GuardLooksAtLeadingText(w, "SELECT");
    assert Upper(w)[0] == 'W';
  }

  lemma DeleteExample()
    ensures IsWriteStatement("delete from t")
  {
    var d := "delete from t";
    assert LStrip(d) == d;
    GuardLooksAtLeadingText(d, "DELETE");
    assert Upper(d)[..6] == "DELETE";
    IsWriteStatementCases(d);
  }

  /** Statements other than the three data-changing ones are refused by the
      write tool. */
  lemma DropRefused()
    ensures !IsWriteStatement("DROP t")
  {
    var x := "DROP t";
    assert LStrip(x) == x;
    IsWriteStatementCases(x);
    GuardLooksAtLeadingText(x, "INSERT");
    GuardLooksAtLeadingText(x, "UPDATE");
    GuardLooksAtLeadingText(x, "DELETE");
    assert Upper(x)[0] == 'D' && Upper(x)[1] == 'R';
  }

  // =====================================================================
  // sql_db_query

  /** What the database returns for a statement it was asked to run. */
  datatype ExecResult<V> =
    | ExecFailed(error: string)
    | Executed(returnsRows: bool, columns: seq<string>, rows: seq<seq<V>>)

  /** The tool's reply: a fixed or error message, or rows (which the tool
      renders as JSON text). */
  datatype QueryReply<V> = Message(text: string) | Rows(rows: seq<map<string, V>>)

  const SelectOnlyMessage := "Erro: Esta ferramenta aceita apenas comandos SELECT. Use 'sql_db_write' para comandos de escrita."
  const NoResultsMessage := "Query executada com sucesso. Nenhum resultado encontrado."
  const QueryErrorPrefix := "Erro ao executar SQL (SELECT): "

  /** `dict(zip(columns, row))`: pairs up to the shorter of the two; a later
      pair overrides an earlier one with the same column name. */
  function ZipDict<V>(columns: seq<string>, row: seq<V>): map<string, V>
    decreases |columns|
  {
    if |columns| == 0 || |row| == 0 then map[]
    else map[columns[0] := row[0]] + ZipDict(columns[1..], row[1..])
  }

  function Min(a: nat, b: nat): nat {
    if a < b then a else b
  }

  /** The keys of a row's mapping are the paired column names, and each maps
      to the value at the last position carrying that name. */
  lemma {:induction false} ZipDictSpec<V>(columns: seq<string>, row: seq<V>)
    ensures forall k :: k in ZipDict(columns, row) <==>
              exists i :: 0 <= i < Min(|columns|, |row|) && columns[i] == k
    ensures forall i :: (0 <= i < Min(|columns|, |row|) &&
                         (forall j :: i < j < Min(|columns|, |row|) ==> columns[j] != columns[i]))
                        ==> ZipDict(columns, row)[columns[i]] == row[i]
    decreases |columns|
  {
    if |columns| > 0 && |row| > 0 {
      var c', r' := columns[1..], row[1..];
      ZipDictSpec(c', r');
      var n := Min(|columns|, |row|);
      assert Min(|c'|, |r'|) == n - 1;
      forall k
        ensures k in ZipDict(columns, row) <==> exists i :: 0 <= i < n && columns[i] == k
      {
        if k in ZipDict(c', r') {
          var i :| 0 <= i < n - 1 && c'[i] == k;
          assert columns[i + 1] == k;
        }
        if exists i :: 0 <= i < n && columns[i] == k {
          var i :| 0 <= i < n && columns[i] == k;
          if i > 0 {
            assert c'[i - 1] == k;
          }
        }
      }
      forall i | 0 <= i < n && (forall j :: i < j < n ==> columns[j] != columns[i])
        ensures ZipDict(columns, row)[columns[i]] == row[i]
      {
        if i > 0 {
          assert c'[i - 1] == columns[i];
          forall j | i - 1 < j < n - 1
            ensures c'[j] != c'[i - 1]
          {
            assert c'[j] == columns[j + 1];
          }
        }
      }
    }
  }

  /** The loop of `sql_db_query` that turns each result row into a mapping. */
  method CollectRows<V>(columns: seq<string>, result: seq<seq<V>>) returns (rows: seq<map<string, V>>)
    ensures |rows| == |result|
    ensures forall i :: 0 <= i < |result| ==> rows[i] == ZipDict(columns, result[i])
  {
    rows := [];
    for i := 0 to |result|
      invariant |rows| == i
      invariant forall j :: 0 <= j < i ==> rows[j] == ZipDict(columns, result[j])
    {
      rows := rows + [ZipDict(columns, result[i])];
    }
  }

  /** `sql_db_query`: anything but a SELECT is refused before the database
      is consulted; an empty result is reported by a fixed message. */
  method SqlDbQuery<V>(query: string, exec: ExecResult<V>) returns (reply: QueryReply<V>)
    ensures !IsReadStatement(query) ==> reply == Message(SelectOnlyMessage)
    ensures IsReadStatement(query) && exec.ExecFailed? ==> reply == Message(QueryErrorPrefix + exec.error)
    ensures IsReadStatement(query) && exec.Executed? ==>
              if exec.returnsRows && |exec.rows| > 0
              then reply.Rows? && |reply.rows| == |exec.rows|
                   && forall i :: 0 <= i < |exec.rows| ==> reply.rows[i] == ZipDict(exec.columns, exec.rows[i])
              else reply == Message(NoResultsMessage)
  {
    if !IsReadStatement(query) {
      return Message(SelectOnlyMessage);
    }
    if exec.ExecFailed? {
      return Message(QueryErrorPrefix + exec.error);
    }
    var rows: seq<map<string, V>> := [];
    if exec.returnsRows {
      rows := CollectRows(exec.columns, exec.rows);
    }
    if |rows| == 0 {
      return Message(NoResultsMessage);
    }
    reply := Rows(rows);
  }

  // =====================================================================
  // sql_db_write

  /** What the database reports for a write it was asked to run. */
  datatype WriteResult = WriteFailed(error: string) | Written(rowCount: int)

  const WriteErrorPrefix := "Erro ao executar SQL (WRITE): "
  const WriteSuccessPrefix := "Comando de escrita SQL executado com sucesso. Linhas afetadas: "

  /** The refusal names the accepted commands, joined by commas. */
  const WriteOnlyMessage := "Erro: Esta ferramenta aceita apenas " + Join(", ", AllowedCommands) + ". Use 'sql_db_query' para SELECT."

  lemma AllowedCommandsText()
    ensures Join(", ", AllowedCommands) == "INSERT, UPDATE, DELETE"
  {
    var tail := AllowedCommands[1..];
    assert tail == ["UPDATE", "DELETE"];
    assert tail[1..] == ["DELETE"];
    assert Join(", ", tail[1..]) == "DELETE";
    assert Join(", ", tail) == "UPDATE" + ", " + "DELETE";
    assert Join(", ", AllowedCommands) == "INSERT" + ", " + ("UPDATE" + ", " + "DELETE");
  }

  /** `sql_db_write`: only INSERT, UPDATE and DELETE reach the database. */
  function SqlDbWrite(query: string, exec: WriteResult): (r: string)
    ensures !IsWriteStatement(query) ==> r == WriteOnlyMessage
    ensures IsWriteStatement(query) && exec.WriteFailed? ==> r == WriteErrorPrefix + exec.error
    ensures IsWriteStatement(query) && exec.Written? ==> r == WriteSuccessPrefix + IntToString(exec.rowCount)
  {
    if !IsWriteStatement(query) then WriteOnlyMessage
    else match exec
      case WriteFailed(e) => WriteErrorPrefix + e
      case Written(n) => WriteSuccessPrefix + IntToString(n)
  }

  // =====================================================================
  // sql_db_schema

  datatype Column = Column(name: string, typeName: string, nullable: bool, default: Option<string>, primaryKey: bool)

  datatype ForeignKey = ForeignKey(constrainedColumns: seq<string>, referredTable: string, referredColumns: seq<string>)

  datatype TableInfo = TableInfo(columns: seq<Column>, foreignKeys: seq<ForeignKey>)

  const SchemaErrorPrefix := "❌ Erro ao obter esquema: "
  const Rule := "--------------------------------------------------"

  /** The table names: the argument split at commas, each piece stripped. */
  function TableList(tables: string): (r: seq<string>)
    ensures |r| == |Split(tables, ',')| >= 1
    ensures forall i :: 0 <= i < |r| ==> r[i] == Strip(Split(tables, ',')[i])
  {
    var parts := Split(tables, ',');
    seq(|parts|, i requires 0 <= i < |parts| => Strip(parts[i]))
  }

  /** The list of names written with commas in between is read back as the
      same names, as long as none contains a comma or surrounding white
      space. */
  lemma TableListRoundTrip(names: seq<string>)
    requires |names| >= 1
    requires forall i :: 0 <= i < |names| ==> ',' !in names[i] && IsStripped(names[i])
    ensures TableList(Join(",", names)) == names
  {
    assert "," == [','];
    JoinThenSplit(names, ',');
    var r := TableList(Join(",", names));
    forall i | 0 <= i < |names|
      ensures r[i] == names[i]
    {
      StripStripped(names[i]);
    }
  }

  /** Every name the list yields is stripped and has no comma. */
  lemma TableListNames(tables: string)
    ensures forall i :: 0 <= i < |TableList(tables)| ==>
              IsStripped(TableList(tables)[i]) && ',' !in TableList(tables)[i]
  {
    var parts := Split(tables, ',');
    SplitPiecesHaveNoSeparator(tables, ',');
    forall i | 0 <= i < |parts|
      ensures IsStripped(Strip(parts[i])) && ',' !in Strip(parts[i])
    {
      LStripShape(parts[i]);
      StripShape(parts[i], |parts[i]| - |LStrip(parts[i])|);
    }
  }

  /** `default` is shown only when it is present and not empty. */
  function DefaultText(c: Column): string {
    if c.default.Some? && c.default.value != "" then ", default=" + c.default.value else ""
  }

  /** The description line of one column. */
  function ColumnLine(c: Column): string {
    "  • " + c.name + ": " + c.typeName + " " + (if c.nullable then "NULL" else "NOT NULL")
    + DefaultText(c) + (if c.primaryKey then "PRIMARY KEY" else "") + "\n"
  }

  function ForeignKeyLine(fk: ForeignKey): string {
    "    • " + Join(", ", fk.constrainedColumns) + " → " + fk.referredTable
    + "(" + Join(", ", fk.referredColumns) + ")\n"
  }

  function TableHeader(name: string): string {
    "\nTabela: " + name + "\n" + Rule + "\n"
  }

  /** The column lines of `cols`, in order. */
  function ColumnLines(cols: seq<Column>): string
    decreases |cols|
  {
    if |cols| == 0 then "" else ColumnLines(cols[..|cols| - 1]) + ColumnLine(cols[|cols| - 1])
  }

  function ForeignKeyLines(fks: seq<ForeignKey>): string
    decreases |fks|
  {
    if |fks| == 0 then "" else ForeignKeyLines(fks[..|fks| - 1]) + ForeignKeyLine(fks[|fks| - 1])
  }

  function ForeignKeySection(fks: seq<ForeignKey>): string {
    if |fks| == 0 then "" else "\nForeign Keys:\n" + ForeignKeyLines(fks)
  }

  /** The block that describes one table. */
  function TableBlock(name: string, info: TableInfo): string {
    TableHeader(name) + ColumnLines(info.columns) + ForeignKeySection(info.foreignKeys)
  }

  /** The first name that the catalog does not know, if any. */
  function FirstMissing(names: seq<string>, catalog: map<string, TableInfo>): (r: Option<string>)
    ensures r.None? <==> forall i :: 0 <= i < |names| ==> names[i] in catalog
    ensures r.Some? ==> exists i :: 0 <= i < |names| && names[i] == r.value && r.value !in catalog
                          && forall j :: 0 <= j < i ==> names[j] in catalog
  {
    if |names| == 0 then None
    else if names[0] !in catalog then Some(names[0])
    else
      var rest := FirstMissing(names[1..], catalog);
      if rest.Some? then
        var i :| 0 <= i < |names[1..]| && names[1..][i] == rest.value && rest.value !in catalog
                 && forall j :: 0 <= j < i ==> names[1..][j] in catalog;
        assert names[i + 1] == rest.value;
        rest
      else rest
  }

  /** The blocks of the named tables, in order. */
  function Blocks(names: seq<string>, catalog: map<string, TableInfo>): seq<string>
    requires forall i :: 0 <= i < |names| ==> names[i] in catalog
  {
    seq(|names|, i requires 0 <= i < |names| => TableBlock(names[i], catalog[names[i]]))
  }

  /** What `sql_db_schema` returns: the blocks of all tables joined by
      newlines, or the error for the first table that does not exist. */
  function SchemaText(tables: string, catalog: map<string, TableInfo>): string {
    var names := TableList(tables);
    var missing := FirstMissing(names, catalog);
    if missing.Some? then SchemaErrorPrefix + missing.value
    else Join("\n", Blocks(names, catalog))
  }

  lemma AppendAssociates(a: string, b: string, c: string)
    ensures (a + b) + c == a + (b + c)
  {
  }

  lemma ColumnLinesStep(cols: seq<Column>, c: nat)
    requires c < |cols|
    ensures ColumnLines(cols[..c + 1]) == ColumnLines(cols[..c]) + ColumnLine(cols[c])
  {
    assert cols[..c + 1][..c] == cols[..c];
  }

  lemma ForeignKeyLinesStep(fks: seq<ForeignKey>, f: nat)
    requires f < |fks|
    ensures ForeignKeyLines(fks[..f + 1]) == ForeignKeyLines(fks[..f]) + ForeignKeyLine(fks[f])
  {
    assert fks[..f + 1][..f] == fks[..f];
  }

  /** The column loop of `sql_db_schema`: a line per column appended to
      what was built so far. */
  method AppendColumnLines(prefix: string, cols: seq<Column>) returns (s: string)
    ensures s == prefix + ColumnLines(cols)
  {
    s := prefix;
    for c := 0 to |cols|
      invariant s == prefix + ColumnLines(cols[..c])
    {
      var line := ColumnLine(cols[c]);
      ColumnLinesStep(cols, c);
      AppendAssociates(prefix, ColumnLines(cols[..c]), line);
      s := s + line;
    }
    assert cols[..|cols|] == cols;
  }

  /** The foreign-key loop of `sql_db_schema`. */
  method AppendForeignKeyLines(prefix: string, fks: seq<ForeignKey>) returns (s: string)
    ensures s == prefix + ForeignKeyLines(fks)
  {
    s := prefix;
    for f := 0 to |fks|
      invariant s == prefix + ForeignKeyLines(fks[..f])
    {
      var line := ForeignKeyLine(fks[f]);
      ForeignKeyLinesStep(fks, f);
      AppendAssociates(prefix, ForeignKeyLines(fks[..f]), line);
      s := s + line;
    }
    assert fks[..|fks|] == fks;
  }

  /** The body of the loop of `sql_db_schema` for one known table: the
      header, a line per column, then the foreign keys if there are any. */
  method DescribeTable(tableName: string, info: TableInfo) returns (tableSchema: string)
    ensures tableSchema == TableBlock(tableName, info)
  {
    tableSchema := AppendColumnLines(TableHeader(tableName), info.columns);
    if |info.foreignKeys| > 0 {
      tableSchema := AppendForeignKeyLines(tableSchema + "\nForeign Keys:\n", info.foreignKeys);
    }
  }

  /** `sql_db_schema`: a block per table, in the order given. */
  method SqlDbSchema(tables: string, catalog: map<string, TableInfo>) returns (out: string)
    ensures out == SchemaText(tables, catalog)
  {
    var tableList := TableList(tables);
    var schemaInfo: seq<string> := [];
    for t := 0 to |tableList|
      invariant forall j :: 0 <= j < t ==> tableList[j] in catalog
      invariant schemaInfo == Blocks(tableList[..t], catalog)
    {
      var tableName := tableList[t];
      if tableName !in catalog {
        // the inspector raises for an unknown table; the handler reports it
        FirstMissingIs(tableList, catalog, t);
        SchemaTextOfMissing(tables, catalog, tableName);
        return SchemaErrorPrefix + tableName;
      }
      var block := DescribeTable(tableName, catalog[tableName]);
      BlocksStep(tableList, catalog, t);
      schemaInfo := schemaInfo + [block];
    }
    assert tableList[..|tableList|] == tableList;
    SchemaTextOfKnown(tables, catalog);
    out := Join("\n", schemaInfo);
  }

  lemma BlocksStep(names: seq<string>, catalog: map<string, TableInfo>, t: nat)
    requires t < |names|
    requires forall j :: 0 <= j <= t ==> names[j] in catalog
    ensures Blocks(names[..t + 1], catalog) == Blocks(names[..t], catalog) + [TableBlock(names[t], catalog[names[t]])]
  {
  }

  lemma SchemaTextOfMissing(tables: string, catalog: map<string, TableInfo>, name: string)
    requires FirstMissing(TableList(tables), catalog) == Some(name)
    ensures SchemaText(tables, catalog) == SchemaErrorPrefix + name
  {
  }

  lemma SchemaTextOfKnown(tables: string, catalog: map<string, TableInfo>)
    requires forall i :: 0 <= i < |TableList(tables)| ==> TableList(tables)[i] in catalog
    ensures SchemaText(tables, catalog) == Join("\n", Blocks(TableList(tables), catalog))
  {
  }

  lemma FirstMissingIs(names: seq<string>, catalog: map<string, TableInfo>, t: nat)
    requires t < |names| && names[t] !in catalog
    requires forall j :: 0 <= j < t ==> names[j] in catalog
    ensures FirstMissing(names, catalog) == Some(names[t])
  {
    var r := FirstMissing(names, catalog);
    var i :| 0 <= i < |names| && names[i] == r.value && r.value !in catalog
             && forall j :: 0 <= j < i ==> names[j] in catalog;
  }

  /** A primary-key column that is not nullable and has no default: the key
      marker follows NOT NULL with no separator. */
  lemma PrimaryKeyLineExample()
    ensures ColumnLine(Column("id", "INT", false, None, true)) == "  • id: INT NOT NULLPRIMARY KEY\n"
  {
  }

  /** An empty default is not shown. */
  lemma DefaultLineExamples()
    ensures ColumnLine(Column("p", "T", true, Some(""), false)) == "  • p: T NULL\n"
  {
  }

  /** A non-empty default is shown after the nullability. */
  lemma DefaultShownExample()
    ensures ColumnLine(Column("a", "T", false, Some("0"), false)) == "  • a: T NOT NULL" + ", default=0" + "\n"
  {
  }

  /** The key marker and the default appear exactly when asked for: a line
      ends in PRIMARY KEY for a key column, and in NULL or NOT NULL for a
      column that is neither a key nor has a default. */
  lemma ColumnLineEnding(c: Column)
    ensures c.primaryKey ==> ColumnLine(c)[|ColumnLine(c)| - 12..] == "PRIMARY KEY\n"
    ensures !c.primaryKey && DefaultText(c) == "" && c.nullable ==> ColumnLine(c)[|ColumnLine(c)| - 5..] == "NULL\n"
    ensures !c.primaryKey && DefaultText(c) == "" && !c.nullable ==> ColumnLine(c)[|ColumnLine(c)| - 9..] == "NOT NULL\n"
    ensures DefaultText(c) != "" <==> c.default.Some? && c.default.value != ""
  {
  }
}
