/**
 * The scenarios of the `columns` package's tests, replayed against the
 * contracts of the model: whatever they assert follows from those contracts.
 */
module ColumnsScenarios {
  import opened Columns

  /** The test record: FirstName tagged first_name, LastName untagged, Email
      tagged email_address, Unwanted tagged "-". */
  function FooFields(): seq<Field> {
    [Field("FirstName", "first_name"), Field("LastName", ""),
     Field("Email", "email_address"), Field("Unwanted", "-")]
  }

  /** The columns of the test record are first_name, LastName, email_address. */
  lemma FooColumns()
    ensures ColumnsOf(FooFields()) == ["first_name", "LastName", "email_address"]
  {
    var fs := FooFields();
    assert Contribution(fs[0]) == ["first_name"];
    assert Contribution(fs[1]) == ["LastName"];
    assert Contribution(fs[2]) == ["email_address"];
    assert Contribution(fs[3]) == [];
    assert fs[..1][..0] == [] && fs[..2][..1] == fs[..1] && fs[..3][..2] == fs[..2];
    assert fs[..4] == fs && fs[..4][..3] == fs[..3];
    assert FieldColumns(fs[..1]) == ["first_name"];
    assert FieldColumns(fs[..2]) == ["first_name", "LastName"];
    assert FieldColumns(fs[..3]) == ["first_name", "LastName", "email_address"];
    assert NoDuplicates(["first_name", "LastName", "email_address"]);
    ColumnsOfFields(fs);
  }

  lemma Renderings2(a: string, b: string)
    ensures Join([a, b], Separator) == a + ", " + b
    ensures Symbolized([a, b]) == [":" + a, ":" + b]
    ensures Updates([a, b]) == [a + " = :" + a, b + " = :" + b]
  {
    assert [a, b][..1] == [a];
    assert Updates([a, b])[0] == a + " = :" + a;
    assert Updates([a, b])[1] == b + " = :" + b;
  }

  lemma Renderings3(a: string, b: string, c: string)
    ensures Join([a, b, c], Separator) == a + ", " + b + ", " + c
    ensures Symbolized([a, b, c]) == [":" + a, ":" + b, ":" + c]
    ensures Updates([a, b, c]) == [a + " = :" + a, b + " = :" + b, c + " = :" + c]
  {
    assert [a, b, c][..2] == [a, b];
    Renderings2(a, b);
    assert Updates([a, b, c])[0] == a + " = :" + a;
    assert Updates([a, b, c])[1] == b + " = :" + b;
    assert Updates([a, b, c])[2] == c + " = :" + c;
  }

  lemma Renderings4(a: string, b: string, c: string, d: string)
    ensures Join([a, b, c, d], Separator) == a + ", " + b + ", " + c + ", " + d
    ensures Symbolized([a, b, c, d]) == [":" + a, ":" + b, ":" + c, ":" + d]
    ensures Updates([a, b, c, d]) == [a + " = :" + a, b + " = :" + b, c + " = :" + c, d + " = :" + d]
  {
    assert [a, b, c, d][..3] == [a, b, c];
    Renderings3(a, b, c);
    assert Updates([a, b, c, d])[0] == a + " = :" + a;
    assert Updates([a, b, c, d])[1] == b + " = :" + b;
    assert Updates([a, b, c, d])[2] == c + " = :" + c;
    assert Updates([a, b, c, d])[3] == d + " = :" + d;
  }

  // Facts about string literals, one concatenation per lemma so that each
  // stays small for the solver.

  lemma SymbolFirstName()
    ensures ":" + "first_name" == ":first_name"
  {
  }

  lemma UpdateFirstName()
    ensures "first_name" + " = :" + "first_name" == "first_name = :first_name"
  {
  }

  lemma SymbolLastName()
    ensures ":" + "LastName" == ":LastName"
  {
  }

  lemma UpdateLastName()
    ensures "LastName" + " = :" + "LastName" == "LastName = :LastName"
  {
  }

  lemma SymbolEmailAddress()
    ensures ":" + "email_address" == ":email_address"
  {
  }

  lemma UpdateEmailAddress()
    ensures "email_address" + " = :" + "email_address" == "email_address = :email_address"
  {
  }

  lemma SymbolBar()
    ensures ":" + "bar" == ":bar"
  {
  }

  lemma UpdateBar()
    ensures "bar" + " = :" + "bar" == "bar = :bar"
  {
  }

  lemma NamesText2()
    ensures "first_name" + ", " + "LastName" == "first_name, LastName"
  {
  }

  lemma NamesText3()
    ensures "first_name, LastName" + ", " + "email_address" == "first_name, LastName, email_address"
  {
  }

  lemma NamesText4()
    ensures "first_name, LastName, email_address" + ", " + "bar" == "first_name, LastName, email_address, bar"
  {
  }

  lemma SymbolsText2()
    ensures ":first_name" + ", " + ":LastName" == ":first_name, :LastName"
  {
  }

  lemma SymbolsText3()
    ensures ":first_name, :LastName" + ", " + ":email_address" == ":first_name, :LastName, :email_address"
  {
  }

  lemma SymbolsText4()
    ensures ":first_name, :LastName, :email_address" + ", " + ":bar" == ":first_name, :LastName, :email_address, :bar"
  {
  }

  lemma UpdatesText2()
    ensures "first_name = :first_name" + ", " + "LastName = :LastName" == "first_name = :first_name, LastName = :LastName"
  {
  }

  lemma UpdatesText3()
    ensures "first_name = :first_name, LastName = :LastName" + ", " + "email_address = :email_address" == "first_name = :first_name, LastName = :LastName, email_address = :email_address"
  {
  }

  lemma UpdatesText4()
    ensures "first_name = :first_name, LastName = :LastName, email_address = :email_address" + ", " + "bar = :bar" == "first_name = :first_name, LastName = :LastName, email_address = :email_address, bar = :bar"
  {
  }

  /** What the test expects of a collection holding the test record's
      columns: its symbolized names and its three renderings. */
  lemma FooRenderings(c: Columns)
    requires c.Valid() && c.Names == ["first_name", "LastName", "email_address"]
    ensures c.SymbolizedNames == [":first_name", ":LastName", ":email_address"]
    ensures c.NamesString() == "first_name, LastName, email_address"
    ensures c.SymbolizedNamesString() == ":first_name, :LastName, :email_address"
    ensures c.UpdatesString() == "first_name = :first_name, LastName = :LastName, email_address = :email_address"
  {
    Renderings3("first_name", "LastName", "email_address");
    Renderings3(":first_name", ":LastName", ":email_address");
    Renderings3("first_name = :first_name", "LastName = :LastName", "email_address = :email_address");
    SymbolFirstName(); UpdateFirstName();
    SymbolLastName(); UpdateLastName();
    SymbolEmailAddress(); UpdateEmailAddress();
    NamesText2(); SymbolsText2(); UpdatesText2();
    NamesText3(); SymbolsText3(); UpdatesText3();
  }

  /** The same after adding bar. */
  lemma FooBarRenderings(c: Columns)
    requires c.Valid() && c.Names == ["first_name", "LastName", "email_address", "bar"]
    ensures c.SymbolizedNames == [":first_name", ":LastName", ":email_address", ":bar"]
    ensures c.NamesString() == "first_name, LastName, email_address, bar"
    ensures c.SymbolizedNamesString() == ":first_name, :LastName, :email_address, :bar"
    ensures c.UpdatesString() == "first_name = :first_name, LastName = :LastName, email_address = :email_address, bar = :bar"
  {
    Renderings4("first_name", "LastName", "email_address", "bar");
    Renderings4(":first_name", ":LastName", ":email_address", ":bar");
    Renderings4("first_name = :first_name", "LastName = :LastName", "email_address = :email_address", "bar = :bar");
    SymbolFirstName(); UpdateFirstName();
    SymbolLastName(); UpdateLastName();
    SymbolEmailAddress(); UpdateEmailAddress();
    SymbolBar(); UpdateBar();
    NamesText2(); SymbolsText2(); UpdatesText2();
    NamesText3(); SymbolsText3(); UpdatesText3();
    NamesText4(); SymbolsText4(); UpdatesText4();
  }

  /** The same after removing bar and email_address. */
  lemma FirstLastRenderings(c: Columns)
    requires c.Valid() && c.Names == ["first_name", "LastName"]
    ensures c.SymbolizedNames == [":first_name", ":LastName"]
    ensures c.NamesString() == "first_name, LastName"
    ensures c.SymbolizedNamesString() == ":first_name, :LastName"
    ensures c.UpdatesString() == "first_name = :first_name, LastName = :LastName"
  {
    Renderings2("first_name", "LastName");
    Renderings2(":first_name", ":LastName");
    Renderings2("first_name = :first_name", "LastName = :LastName");
    SymbolFirstName(); UpdateFirstName();
    SymbolLastName(); UpdateLastName();
    NamesText2(); SymbolsText2(); UpdatesText2();
  }

  /** Adding bar to the test record's columns appends it. */
  lemma AddBar()
    ensures AddAll(["first_name", "LastName", "email_address"], ["bar"]) == ["first_name", "LastName", "email_address", "bar"]
  {
    assert ["bar"][..0] == [];
  }

  /** Removing bar and email_address leaves first_name and LastName. */
  lemma RemoveBarAndEmail()
    ensures Without(["first_name", "LastName", "email_address", "bar"], ["bar", "email_address"]) == ["first_name", "LastName"]
  {
    var before := ["first_name", "LastName", "email_address", "bar"];
    assert before[1..][1..][1..][1..] == [];
  }

  /** columns_test.go, Test_ColumnsForStruct: every assertion of the test. */
  method ColumnsForStructScenario()
  {
    var columns := ColumnsForStruct(ByValue(FooFields()));
    FooColumns();
    FooRenderings(columns);
    assert columns.Names == ["first_name", "LastName", "email_address"];
    assert columns.SymbolizedNames == [":first_name", ":LastName", ":email_address"];
    assert columns.NamesString() == "first_name, LastName, email_address";
    assert columns.SymbolizedNamesString() == ":first_name, :LastName, :email_address";
    assert columns.UpdatesString() == "first_name = :first_name, LastName = :LastName, email_address = :email_address";

    columns.Add(["bar"]);
    AddBar();
    FooBarRenderings(columns);
    assert columns.Names == ["first_name", "LastName", "email_address", "bar"];
    assert columns.SymbolizedNames == [":first_name", ":LastName", ":email_address", ":bar"];
    assert columns.NamesString() == "first_name, LastName, email_address, bar";
    assert columns.SymbolizedNamesString() == ":first_name, :LastName, :email_address, :bar";
    assert columns.UpdatesString() == "first_name = :first_name, LastName = :LastName, email_address = :email_address, bar = :bar";

    columns.Remove(["bar", "email_address"]);
    RemoveBarAndEmail();
    FirstLastRenderings(columns);
    assert columns.Names == ["first_name", "LastName"];
    assert columns.SymbolizedNames == [":first_name", ":LastName"];
    assert columns.NamesString() == "first_name, LastName";
    assert columns.SymbolizedNamesString() == ":first_name, :LastName";
    assert columns.UpdatesString() == "first_name = :first_name, LastName = :LastName";
  }

  /** columns_test.go, Test_Columns_Add_Duplicates. */
  method AddDuplicatesScenario()
  {
    var columns := new Columns();
    columns.Add(["foo"]);
    assert columns.Names == ["foo"];
    columns.Add(["foo"]);
    assert columns.Names == ["foo"];
  }

  /** columns_test.go, Test_ColumnsForStruct_WithPointer. */
  method WithPointerScenario()
  {
    var columns := ColumnsForStruct(ByPointer(FooFields()));
    FooColumns();
    FooRenderings(columns);
    assert columns.Names == ["first_name", "LastName", "email_address"];
    assert columns.SymbolizedNames == [":first_name", ":LastName", ":email_address"];
  }
}
