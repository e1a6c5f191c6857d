/**
 * The `columns` package: an ordered, duplicate-free list of column names taken
 * from a mapped record's fields, grown and shrunk in place by Add and Remove,
 * and rendered into the comma-separated fragments a SQL statement is built from.
 *
 * The first half of the module holds the specification functions on plain
 * sequences and the lemmas about them; the class Columns at the end keeps its
 * two stored sequences in step and is proved against those functions.
 */
module Columns {
  import opened Wrappers

  /** The `db` tag value that excludes a field from the columns. */
  const Excluded := "-"
  /** What every rendering puts between two entries. */
  const Separator := ", "
  /** The bind-parameter marker in front of a symbolized name. */
  const Marker := ":"

  /** One field of a record as reflection reports it: the field's own name and
      the value of its `db` tag, which is "" when the field has no such tag. */
  datatype Field = Field(name: string, dbTag: string)

  /** What ColumnsForStruct is handed: a record value or a pointer to one.
      Either way the fields are those of the record itself. */
  datatype StructArg = ByValue(fields: seq<Field>) | ByPointer(fields: seq<Field>)

  predicate NoDuplicates(s: seq<string>) {
    forall i, j :: 0 <= i < j < |s| ==> s[i] != s[j]
  }

  /** `a` is `b` with some entries deleted and the rest kept in order. */
  predicate IsSubsequence(a: seq<string>, b: seq<string>) {
    if a == [] then true
    else if b == [] then false
    else if a[0] == b[0] then IsSubsequence(a[1..], b[1..])
    else IsSubsequence(a, b[1..])
  }

  // ---------------------------------------------------------------------------
  // Deriving the columns of a record
  // ---------------------------------------------------------------------------

  /** The column a field names: none when it is tagged "-", its tag when it has
      one, and otherwise the field's own name. */
  function ColumnName(f: Field): Option<string> {
    if f.dbTag == Excluded then None
    else if f.dbTag == "" then Some(f.name)
    else Some(f.dbTag)
  }

  function Contribution(f: Field): seq<string> {
    match ColumnName(f)
    case None => []
    case Some(n) => [n]
  }

  /** The column names of the fields in declaration order, repeats included. */
  function FieldColumns(fields: seq<Field>): seq<string> {
    if fields == [] then []
    else FieldColumns(fields[..|fields| - 1]) + Contribution(fields[|fields| - 1])
  }

  /** The names a collection built from `fields` holds: each field's column
      added in declaration order to an empty collection. */
  function ColumnsOf(fields: seq<Field>): seq<string> {
    AddAll([], FieldColumns(fields))
  }

  // ---------------------------------------------------------------------------
  // Add and Remove on the sequence of names
  // ---------------------------------------------------------------------------

  /** Adding one name: appended when absent, ignored when present. */
  function AddOne(names: seq<string>, name: string): seq<string> {
    if name in names then names else names + [name]
  }

  /** Adding `added` one after another, in argument order. */
  function AddAll(names: seq<string>, added: seq<string>): seq<string> {
    if added == [] then names
    else AddOne(AddAll(names, added[..|added| - 1]), added[|added| - 1])
  }

  /** The names that are not among `removed`, in their original order. */
  function Without(names: seq<string>, removed: seq<string>): seq<string> {
    if names == [] then []
    else (if names[0] in removed then [] else [names[0]]) + Without(names[1..], removed)
  }

  lemma {:induction false} AddAllMembers(names: seq<string>, added: seq<string>)
    ensures forall x :: x in AddAll(names, added) <==> x in names || x in added
  {
    if added != [] {
      var init := added[..|added| - 1];
      AddAllMembers(names, init);
      assert added == init + [added[|added| - 1]];
    }
  }

  /** Adding never disturbs the names already there nor their order. */
  lemma {:induction false} AddAllExtends(names: seq<string>, added: seq<string>)
    ensures |names| <= |AddAll(names, added)|
    ensures AddAll(names, added)[..|names|] == names
  {
    if added != [] {
      var init := added[..|added| - 1];
      AddAllExtends(names, init);
      var before := AddAll(names, init);
      assert (before + [added[|added| - 1]])[..|names|] == before[..|names|];
    }
  }

  lemma {:induction false} AddAllNoDuplicates(names: seq<string>, added: seq<string>)
    requires NoDuplicates(names)
    ensures NoDuplicates(AddAll(names, added))
  {
    if added != [] {
      AddAllNoDuplicates(names, added[..|added| - 1]);
    }
  }

  /** Adding names that are all present already changes nothing. */
  lemma {:induction false} AddAllPresent(names: seq<string>, added: seq<string>)
    requires forall i :: 0 <= i < |added| ==> added[i] in names
    ensures AddAll(names, added) == names
  {
    if added != [] {
      AddAllPresent(names, added[..|added| - 1]);
    }
  }

  /** Adding N distinct new names appends exactly them, in argument order. */
  lemma {:induction false} AddAllFresh(names: seq<string>, added: seq<string>)
    requires NoDuplicates(names + added)
    ensures AddAll(names, added) == names + added
  {
    if added != [] {
      var init := added[..|added| - 1];
      var last := added[|added| - 1];
      assert names + added == (names + init) + [last];
      assert NoDuplicates(names + init) by {
        forall i, j | 0 <= i < j < |names + init|
          ensures (names + init)[i] != (names + init)[j]
        {
          assert (names + init)[i] == (names + added)[i];
          assert (names + init)[j] == (names + added)[j];
        }
      }
      AddAllFresh(names, init);
      assert last !in names + init by {
        forall i | 0 <= i < |names + init|
          ensures (names + init)[i] != last
        {
          assert (names + added)[i] == (names + init)[i];
          assert (names + added)[|names + added| - 1] == last;
        }
      }
    }
  }

  lemma {:induction false} AddAllConcat(names: seq<string>, a: seq<string>, b: seq<string>)
    ensures AddAll(names, a + b) == AddAll(AddAll(names, a), b)
  {
    if b == [] {
      assert a + b == a;
    } else {
      var init := b[..|b| - 1];
      AddAllConcat(names, a, init);
      assert (a + b)[..|a + b| - 1] == a + init;
      assert (a + b)[|a + b| - 1] == b[|b| - 1];
    }
  }

  /** Adding the same names twice is the same as adding them once. */
  lemma AddAllIdempotent(names: seq<string>, added: seq<string>)
    ensures AddAll(AddAll(names, added), added) == AddAll(names, added)
  {
    AddAllMembers(names, added);
    AddAllPresent(AddAll(names, added), added);
  }

  lemma {:induction false} WithoutMembers(names: seq<string>, removed: seq<string>)
    ensures forall x :: x in Without(names, removed) <==> x in names && x !in removed
  {
    if names != [] {
      WithoutMembers(names[1..], removed);
      assert names == [names[0]] + names[1..];
    }
  }

  /** The names that survive a removal keep their relative order. */
  lemma {:induction false} WithoutIsSubsequence(names: seq<string>, removed: seq<string>)
    ensures IsSubsequence(Without(names, removed), names)
  {
    if names != [] {
      WithoutIsSubsequence(names[1..], removed);
      if names[0] !in removed {
        assert Without(names, removed)[1..] == Without(names[1..], removed);
      } else {
        assert Without(names, removed) == Without(names[1..], removed);
        SubsequenceOfTail(Without(names, removed), names);
      }
    }
  }

  lemma {:induction false} SubsequenceOfTail(a: seq<string>, b: seq<string>)
    requires b != [] && IsSubsequence(a, b[1..])
    ensures IsSubsequence(a, b)
  {
    if a != [] && a[0] == b[0] {
      SubsequenceDropFirst(a, b[1..]);
    }
  }

  lemma {:induction false} SubsequenceDropFirst(a: seq<string>, b: seq<string>)
    requires a != [] && IsSubsequence(a, b)
    ensures IsSubsequence(a[1..], b)
  {
    if b != [] {
      if a[0] == b[0] {
        SubsequenceOfTail(a[1..], b);
      } else {
        SubsequenceDropFirst(a, b[1..]);
        SubsequenceOfTail(a[1..], b);
      }
    }
  }

  lemma {:induction false} WithoutNoDuplicates(names: seq<string>, removed: seq<string>)
    requires NoDuplicates(names)
    ensures NoDuplicates(Without(names, removed))
  {
    if names != [] {
      WithoutNoDuplicates(names[1..], removed);
      WithoutMembers(names[1..], removed);
      assert names[0] !in names[1..] by {
        forall j | 0 <= j < |names[1..]| ensures names[1..][j] != names[0] {
          assert names[1..][j] == names[j + 1];
        }
      }
    }
  }

  /** Which names are removed depends only on which names are listed, not on
      their order or repetition. */
  lemma {:induction false} WithoutSameNames(names: seq<string>, r1: seq<string>, r2: seq<string>)
    requires forall x :: x in r1 <==> x in r2
    ensures Without(names, r1) == Without(names, r2)
  {
    if names != [] {
      WithoutSameNames(names[1..], r1, r2);
    }
  }

  /** Removing names that are absent changes nothing. */
  lemma {:induction false} WithoutAbsent(names: seq<string>, removed: seq<string>)
    requires forall i :: 0 <= i < |names| ==> names[i] !in removed
    ensures Without(names, removed) == names
  {
    if names != [] {
      WithoutAbsent(names[1..], removed);
      assert names == [names[0]] + names[1..];
    }
  }

  /** Removing one more name removes it from what is left. */
  lemma {:induction false} WithoutSnoc(names: seq<string>, removed: seq<string>, x: string)
    ensures Without(names, removed + [x]) == Without(Without(names, removed), [x])
  {
    if names != [] {
      WithoutSnoc(names[1..], removed, x);
      var rest := Without(names[1..], removed);
      var head := names[0];
      if head in removed {
        assert head in removed + [x];
        assert Without(names, removed) == rest;
      } else {
        assert Without(names, removed) == [head] + rest;
        assert ([head] + rest)[1..] == rest;
        assert Without([head] + rest, [x]) == (if head in [x] then [] else [head]) + Without(rest, [x]);
        assert head in removed + [x] <==> head in [x];
      }
    }
  }

  /** Deleting the one position that holds `x` is removing `x`. */
  lemma {:induction false} WithoutDeleteAt(names: seq<string>, i: nat)
    requires NoDuplicates(names) && i < |names|
    ensures names[..i] + names[i + 1..] == Without(names, [names[i]])
  {
    var x := names[i];
    if i == 0 {
      WithoutAbsent(names[1..], [x]);
    } else {
      var tail := names[1..];
      assert NoDuplicates(tail);
      assert tail[i - 1] == x;
      WithoutDeleteAt(tail, i - 1);
      assert names[..i] + names[i + 1..] == [names[0]] + (tail[..i - 1] + tail[i..]);
    }
  }

  /** Deleting position i from both sequences removes Names[i] and keeps them in step. */
  lemma DeleteKeepsValid(names: seq<string>, symbols: seq<string>, i: nat)
    requires NoDuplicates(names) && symbols == Symbolized(names) && i < |names|
    ensures names[..i] + names[i + 1..] == Without(names, [names[i]])
    ensures NoDuplicates(names[..i] + names[i + 1..])
    ensures symbols[..i] + symbols[i + 1..] == Symbolized(names[..i] + names[i + 1..])
  {
    WithoutDeleteAt(names, i);
    WithoutNoDuplicates(names, [names[i]]);
    SymbolizedDeleteAt(names, i);
  }

  lemma SymbolizedDeleteAt(names: seq<string>, i: nat)
    requires i < |names|
    ensures Symbolized(names)[..i] + Symbolized(names)[i + 1..] == Symbolized(names[..i] + names[i + 1..])
  {
    var rest := names[..i] + names[i + 1..];
    var symbols := Symbolized(names);
    var lhs := symbols[..i] + symbols[i + 1..];
    assert |lhs| == |rest|;
    forall k | 0 <= k < |rest|
      ensures lhs[k] == Marker + rest[k]
    {
      if k < i {
        assert lhs[k] == symbols[k];
        assert rest[k] == names[k];
      } else {
        assert lhs[k] == symbols[k + 1];
        assert rest[k] == names[k + 1];
      }
    }
  }

  lemma ColumnsOfSnoc(fields: seq<Field>, f: Field)
    ensures ColumnsOf(fields + [f]) == AddAll(ColumnsOf(fields), Contribution(f))
  {
    assert (fields + [f])[..|fields|] == fields;
    AddAllConcat([], FieldColumns(fields), Contribution(f));
  }

  /** A record's columns: duplicate-free, exactly the names its non-excluded
      fields give, and, when those names are distinct, all of them in field
      declaration order. */
  lemma ColumnsOfFields(fields: seq<Field>)
    ensures NoDuplicates(ColumnsOf(fields))
    ensures forall x :: x in ColumnsOf(fields) <==> x in FieldColumns(fields)
    ensures NoDuplicates(FieldColumns(fields)) ==> ColumnsOf(fields) == FieldColumns(fields)
  {
    AddAllNoDuplicates([], FieldColumns(fields));
    AddAllMembers([], FieldColumns(fields));
    if NoDuplicates(FieldColumns(fields)) {
      assert [] + FieldColumns(fields) == FieldColumns(fields);
      AddAllFresh([], FieldColumns(fields));
    }
  }

  /** A field contributes a column exactly when it is not tagged "-". */
  lemma {:induction false} FieldColumnsMembers(fields: seq<Field>)
    ensures forall x :: x in FieldColumns(fields) <==>
      exists k :: 0 <= k < |fields| && ColumnName(fields[k]) == Some(x)
  {
    if fields != [] {
      var init := fields[..|fields| - 1];
      FieldColumnsMembers(init);
      forall x ensures x in FieldColumns(fields) <==>
        exists k :: 0 <= k < |fields| && ColumnName(fields[k]) == Some(x)
      {
        if x in FieldColumns(init) {
          var k :| 0 <= k < |init| && ColumnName(init[k]) == Some(x);
          assert fields[k] == init[k];
        }
        if exists k :: 0 <= k < |fields| && ColumnName(fields[k]) == Some(x) {
          var k :| 0 <= k < |fields| && ColumnName(fields[k]) == Some(x);
          if k < |init| {
            assert init[k] == fields[k];
          }
        }
      }
    }
  }

  // ---------------------------------------------------------------------------
  // Renderings
  // ---------------------------------------------------------------------------

  function TotalLength(parts: seq<string>): nat {
    if parts == [] then 0 else TotalLength(parts[..|parts| - 1]) + |parts[|parts| - 1]|
  }

  /** strings.Join: the parts with `sep` between each neighbouring pair, so
      there are |parts| - 1 separators and nothing else added. */
  function Join(parts: seq<string>, sep: string): (s: string)
    ensures parts == [] ==> s == ""
    ensures parts != [] ==> |s| == TotalLength(parts) + |sep| * (|parts| - 1)
  {
    if parts == [] then ""
    else if |parts| == 1 then parts[0]
    else
      var init := parts[..|parts| - 1];
      assert init[..|init| - 1] == parts[..|parts| - 2];
      Join(init, sep) + sep + parts[|parts| - 1]
  }

  /** Appending a new name to a non-empty collection appends the separator and
      that name to its rendering. */
  lemma JoinAddFresh(names: seq<string>, x: string)
    requires names != [] && x !in names
    ensures Join(AddAll(names, [x]), Separator) == Join(names, Separator) + Separator + x
  {
    assert [x][..0] == [];
    assert (names + [x])[..|names|] == names;
  }

  /** The symbolized form of every name: ":" in front of it. */
  function Symbolized(names: seq<string>): seq<string> {
    seq(|names|, i requires 0 <= i < |names| => Marker + names[i])
  }

  /** The assignment each name contributes to an update: `<name> = :<name>`. */
  function Updates(names: seq<string>): seq<string> {
    seq(|names|, i requires 0 <= i < |names| => names[i] + " = " + Marker + names[i])
  }

  /** Each name paired with the symbol at the same position. */
  function Assignments(names: seq<string>, symbols: seq<string>): seq<string>
    requires |names| == |symbols|
  {
    seq(|names|, i requires 0 <= i < |names| => names[i] + " = " + symbols[i])
  }

  // ---------------------------------------------------------------------------
  // The collection itself
  // ---------------------------------------------------------------------------

  class Columns {
    var Names: seq<string>
    var SymbolizedNames: seq<string>

    /** Names has no repeats and SymbolizedNames holds ":" + Names[i] at each i. */
    ghost predicate Valid()
      reads this
    {
      NoDuplicates(Names) && SymbolizedNames == Symbolized(Names)
    }

    /** NewColumns: a collection with no names. */
    constructor ()
      ensures Valid()
      ensures Names == [] && SymbolizedNames == []
    {
      Names := [];
      SymbolizedNames := [];
    }

    /** The position of `name` in Names, or -1 when it is not there. */
    method IndexOf(name: string) returns (i: int)
      ensures -1 <= i < |Names|
      ensures i == -1 <==> name !in Names
      ensures 0 <= i ==> Names[i] == name
    {
      i := 0;
      while i < |Names|
        invariant 0 <= i <= |Names|
        invariant name !in Names[..i]
      {
        if Names[i] == name {
          return;
        }
        assert Names[..i + 1] == Names[..i] + [Names[i]];
        i := i + 1;
      }
      assert Names[..i] == Names;
      i := -1;
    }

    /** Append one name at the end, unless it is already present. */
    method AddName(name: string)
      requires Valid()
      modifies this
      ensures Valid()
      ensures Names == AddOne(old(Names), name)
    {
      var i := IndexOf(name);
      if i == -1 {
        Names := Names + [name];
        SymbolizedNames := SymbolizedNames + [Marker + name];
      }
    }

    /** Add each name in turn: appended at the end when absent, ignored when
        already present. */
    method Add(names: seq<string>)
      requires Valid()
      modifies this
      ensures Valid()
      ensures Names == AddAll(old(Names), names)
      ensures SymbolizedNames == Symbolized(Names)
    {
      var k := 0;
      while k < |names|
        invariant 0 <= k <= |names|
        invariant Valid()
        invariant Names == AddAll(old(Names), names[..k])
      {
        assert names[..k + 1][..k] == names[..k];
        AddName(names[k]);
        k := k + 1;
      }
      assert names[..k] == names;
    }

    /** Delete one name where it stands, if present. */
    method RemoveOne(name: string)
      requires Valid()
      modifies this
      ensures Valid()
      ensures Names == Without(old(Names), [name])
    {
      var i := IndexOf(name);
      if i == -1 {
        WithoutAbsent(Names, [name]);
      } else {
        DeleteKeepsValid(Names, SymbolizedNames, i);
        Names, SymbolizedNames := Names[..i] + Names[i + 1..], SymbolizedNames[..i] + SymbolizedNames[i + 1..];
      }
    }

    /** Remove each name in turn: deleted where it stands when present, the
        others keeping their order; ignored when absent. */
    method Remove(names: seq<string>)
      requires Valid()
      modifies this
      ensures Valid()
      ensures Names == Without(old(Names), names)
      ensures SymbolizedNames == Symbolized(Names)
    {
      var k := 0;
      assert Without(Names, []) == Names by {
        WithoutAbsent(Names, []);
      }
      while k < |names|
        invariant 0 <= k <= |names|
        invariant Valid()
        invariant Names == Without(old(Names), names[..k])
      {
        assert names[..k + 1] == names[..k] + [names[k]];
        WithoutSnoc(old(Names), names[..k], names[k]);
        RemoveOne(names[k]);
        k := k + 1;
      }
      assert names[..k] == names;
    }

    /** The names joined with ", ". */
    function NamesString(): (s: string)
      reads this
      ensures s == Join(Names, Separator)
      ensures Names == [] ==> s == ""
      ensures Names != [] ==> |s| == TotalLength(Names) + 2 * (|Names| - 1)
    {
      Join(Names, Separator)
    }

    /** The symbolized names joined with ", ": ":" + Names[i] at position i. */
    function SymbolizedNamesString(): (s: string)
      requires Valid()
      reads this
      ensures s == Join(Symbolized(Names), Separator)
    {
      Join(SymbolizedNames, Separator)
    }

    /** `Names[i] = :Names[i]` for each i in order, joined with ", ": every name
        paired with its own symbol. */
    function UpdatesString(): (s: string)
      requires Valid()
      reads this
      ensures s == Join(Updates(Names), Separator)
    {
      assert Assignments(Names, SymbolizedNames) == Updates(Names) by {
        forall i | 0 <= i < |Names|
          ensures Assignments(Names, SymbolizedNames)[i] == Updates(Names)[i]
        {
          assert SymbolizedNames[i] == Marker + Names[i];
          assert Names[i] + " = " + (Marker + Names[i]) == Names[i] + " = " + Marker + Names[i];
        }
      }
      Join(Assignments(Names, SymbolizedNames), Separator)
    }
  }

  /** Add the column of one field, if it has one, to c. */
  method AddFieldColumn(c: Columns, f: Field)
    requires c.Valid()
    modifies c
    ensures c.Valid()
    ensures c.Names == AddAll(old(c.Names), Contribution(f))
  {
    match ColumnName(f) {
      case None =>
      case Some(n) =>
        assert [n][..0] == [];
        c.AddName(n);
    }
  }

  /** ColumnsForStruct: a collection holding, in declaration order, the column
      of every field of the record that is not tagged "-", each once. A record
      passed by value and by pointer give the same result. */
  method ColumnsForStruct(arg: StructArg) returns (c: Columns)
    ensures fresh(c) && c.Valid()
    ensures c.Names == ColumnsOf(arg.fields)
    ensures c.SymbolizedNames == Symbolized(ColumnsOf(arg.fields))
  {
    c := new Columns();
    var fields := arg.fields;
    var k := 0;
    while k < |fields|
      invariant 0 <= k <= |fields|
      invariant fresh(c) && c.Valid()
      invariant c.Names == ColumnsOf(fields[..k])
    {
      assert fields[..k + 1] == fields[..k] + [fields[k]];
      ColumnsOfSnoc(fields[..k], fields[k]);
      AddFieldColumn(c, fields[k]);
      k := k + 1;
    }
    assert fields[..k] == fields;
  }
}
