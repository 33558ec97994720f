/** Prepared statements assembled from optional parts: the text and the parameters are built apart. */
module Binding {
  import opened Basics
  import opened Tables

  datatype Value = Text(s: string) | Number(n: int)

  // ---- UPDATE sys_apps SET ... -----------------------------------------------------------------------

  datatype Column = Name | Description | Status

  function Set(app: App, column: Column, value: Value): App {
    match (column, value)
    case (Name, Text(s)) => app.(name := s)
    case (Description, Text(s)) => app.(description := s)
    case (Status, Number(n)) => app.(status := n)
    case _ => app
  }

  /** The i-th placeholder is the i-th column's and reads the i-th parameter. */
  function Assign(app: App, columns: seq<Column>, values: seq<Value>): App
    decreases |columns|
  {
    if columns == [] || values == [] then app
    else Assign(Set(app, columns[0], values[0]), columns[1..], values[1..])
  }

  /**
   * Strings and integers are collected in separate vectors and a third remembers their types; the
   * binding loop walks the types and takes the next string or the next integer.
   */
  method BuildUpdate(patch: Patch) returns (columns: seq<Column>, values: seq<Value>)
    ensures |values| == |columns| && (columns == [] <==> patch == Patch(None, None, None))
    ensures forall app :: Assign(app, columns, values) == Patched(app, patch)
  {
    columns := [];
    var params: seq<string>, intParams: seq<int>, paramTypes: seq<int> := [], [], [];
    if patch.name.Some? {
      columns, params, paramTypes := columns + [Name], params + [patch.name.value], paramTypes + [0];
    }
    if patch.description.Some? {
      columns, params, paramTypes := columns + [Description], params + [patch.description.value], paramTypes + [0];
    }
    if patch.status.Some? {
      columns, intParams, paramTypes := columns + [Status], intParams + [patch.status.value], paramTypes + [1];
    }
    assert columns == Columns(patch) && Values(patch) == Texts(params) + Numbers(intParams);
    assert paramTypes == Zeros(|params|) + Ones(|intParams|);
    values := Bind(params, intParams, paramTypes);
    forall app { AssignIsPatch(app, patch); }
  }

  /** The binding loop. */
  method Bind(params: seq<string>, intParams: seq<int>, paramTypes: seq<int>) returns (values: seq<Value>)
    requires paramTypes == Zeros(|params|) + Ones(|intParams|)
    ensures values == Texts(params) + Numbers(intParams)
  {
    values := [];
    var strIdx, intIdx := 0, 0;
    for i := 0 to |paramTypes|
      invariant strIdx == (if i <= |params| then i else |params|) && intIdx == i - strIdx
      invariant |values| == i
      invariant forall j :: 0 <= j < i ==> values[j] == (Texts(params) + Numbers(intParams))[j]
    {
      if paramTypes[i] == 0 {
        values := values + [Text(params[strIdx])];
        strIdx := strIdx + 1;
      } else {
        values := values + [Number(intParams[intIdx])];
        intIdx := intIdx + 1;
      }
    }
  }

  function Texts(params: seq<string>): seq<Value> { seq(|params|, i requires 0 <= i < |params| => Text(params[i])) }
  function Numbers(params: seq<int>): seq<Value> { seq(|params|, i requires 0 <= i < |params| => Number(params[i])) }
  function Zeros(n: nat): seq<int> { seq(n, _ => 0) }
  function Ones(n: nat): seq<int> { seq(n, _ => 1) }

  /** The UPDATE with its parameters bound is the update meant. */
  lemma AssignUpdatesApps(db: DB, code: string, patch: Patch, columns: seq<Column>, values: seq<Value>)
    requires forall app :: Assign(app, columns, values) == Patched(app, patch)
    ensures db.(apps := AssignApps(db, code, columns, values)) == UpdateApps(db, code, patch)
  {
    assert AssignApps(db, code, columns, values) == UpdateApps(db, code, patch).apps;
  }

  function AssignApps(db: DB, code: string, columns: seq<Column>, values: seq<Value>): map<nat, App> {
    map a | a in db.apps :: if db.apps[a].code == code then Assign(db.apps[a], columns, values) else db.apps[a]
  }

  function Columns(patch: Patch): seq<Column> {
    (if patch.name.Some? then [Name] else []) + (if patch.description.Some? then [Description] else [])
    + (if patch.status.Some? then [Status] else [])
  }

  function Values(patch: Patch): seq<Value> {
    (if patch.name.Some? then [Text(patch.name.value)] else [])
    + (if patch.description.Some? then [Text(patch.description.value)] else [])
    + (if patch.status.Some? then [Number(patch.status.value)] else [])
  }

  lemma AssignIsPatch(app: App, patch: Patch)
    ensures Assign(app, Columns(patch), Values(patch)) == Patched(app, patch)
  {
    var noName := patch.(name := None);
    var noText := noName.(description := None);
    var named := if patch.name.Some? then app.(name := patch.name.value) else app;
    var described := if patch.description.Some? then named.(description := patch.description.value) else named;
    if patch.name.Some? {
      assert Columns(patch)[1..] == Columns(noName) && Values(patch)[1..] == Values(noName);
    }
    assert Assign(app, Columns(patch), Values(patch)) == Assign(named, Columns(noName), Values(noName));
    if patch.description.Some? {
      assert Columns(noName)[1..] == Columns(noText) && Values(noName)[1..] == Values(noText);
    }
    assert Assign(named, Columns(noName), Values(noName)) == Assign(described, Columns(noText), Values(noText));
    assert Assign(described, Columns(noText), Values(noText)) == Patched(app, patch);
  }

  // ---- SELECT ... FROM sys_apps WHERE 1=1 ... -----------------------------------------------------------

  datatype Filter = Filter(name: Option<string>, status: Option<int>)

  datatype Clause = NameLike | StatusIs

  const BACKSLASH := '\\'

  /** SQL LIKE: `%` is any run of characters, `_` any one, and a backslash before a character means that character. */
  predicate Like(s: string, pattern: string)
    decreases |s| + |pattern|
  {
    if pattern == "" then s == ""
    else if pattern[0] == '%' then Like(s, pattern[1..]) || (s != "" && Like(s[1..], pattern))
    else if pattern[0] == BACKSLASH && |pattern| > 1 then
      s != "" && s[0] == pattern[1] && Like(s[1..], pattern[2..])
    else s != "" && (pattern[0] == '_' || pattern[0] == s[0]) && Like(s[1..], pattern[1..])
  }

  /** A row passes when every placeholder, read from its own position, holds of it. */
  predicate Passes(app: App, clauses: seq<Clause>, values: seq<Value>) {
    clauses == [] ||
    (values != [] && Passes(app, clauses[1..], values[1..]) &&
     match clauses[0]
     case NameLike => values[0].Text? && Like(app.name, values[0].s)
     case StatusIs => values[0].Number? && app.status == values[0].n)
  }

  predicate Matches(app: App, f: Filter) {
    && (f.name.Some? ==> Like(app.name, "%" + f.name.value + "%"))
    && (f.status.Some? ==> app.status == f.status.value)
  }

  /** Text and parameters are built by separate tests of the same filter, in the same order. */
  method BuildWhere(f: Filter) returns (clauses: seq<Clause>, values: seq<Value>)
    ensures forall app :: Passes(app, clauses, values) <==> Matches(app, f)
  {
    clauses := [];
    if f.name.Some? { clauses := clauses + [NameLike]; }
    if f.status.Some? { clauses := clauses + [StatusIs]; }
    values := [];
    if f.name.Some? { values := values + [Text("%" + f.name.value + "%")]; }
    if f.status.Some? { values := values + [Number(f.status.value)]; }
    forall app ensures Passes(app, clauses, values) <==> Matches(app, f) {
      PassesInOrder(app, f, clauses, values);
    }
  }

  lemma PassesInOrder(app: App, f: Filter, clauses: seq<Clause>, values: seq<Value>)
    requires clauses == (if f.name.Some? then [NameLike] else []) + (if f.status.Some? then [StatusIs] else [])
    requires values == (if f.name.Some? then [Text("%" + f.name.value + "%")] else [])
                       + (if f.status.Some? then [Number(f.status.value)] else [])
    ensures Passes(app, clauses, values) <==> Matches(app, f)
  {
    var status := if f.status.Some? then [StatusIs] else [];
    var number := if f.status.Some? then [Number(f.status.value)] else [];
    assert Passes(app, status, number) <==> (f.status.Some? ==> app.status == f.status.value);
    if f.name.Some? {
      assert clauses[1..] == status && values[1..] == number;
    } else {
      assert clauses == status && values == number;
    }
  }

  // ---- what the name filter finds -------------------------------------------------------------------------

  predicate Plain(name: string) {
    '%' !in name && '_' !in name && BACKSLASH !in name
  }

  predicate OccursAt(s: string, name: string, i: nat) {
    i + |name| <= |s| && s[i..i + |name|] == name
  }

  lemma {:induction false} AnythingIsLikePercent(s: string)
    ensures Like(s, "%")
  {
    if s != "" { AnythingIsLikePercent(s[1..]); }
  }

  lemma {:induction false} LikeStartsWith(s: string, name: string)
    requires Plain(name)
    ensures Like(s, name + "%") <==> name <= s
  {
    if name == "" {
      assert name + "%" == "%";
      AnythingIsLikePercent(s);
    } else if s != "" {
      assert (name + "%")[1..] == name[1..] + "%";
      LikeStartsWith(s[1..], name[1..]);
      assert name == [name[0]] + name[1..] && s == [s[0]] + s[1..];
    }
  }

  ghost predicate Contains(s: string, name: string) {
    exists i :: OccursAt(s, name, i)
  }

  lemma {:induction false} PlainIsSubstring(s: string, name: string)
    requires Plain(name)
    ensures Like(s, "%" + name + "%") <==> Contains(s, name)
  {
    assert ("%" + name + "%")[1..] == name + "%";
    LikeStartsWith(s, name);
    if name <= s { assert OccursAt(s, name, 0); }
    if OccursAt(s, name, 0) { assert name <= s; }
    if s != "" {
      PlainIsSubstring(s[1..], name);
      forall i: nat ensures OccursAt(s[1..], name, i) <==> OccursAt(s, name, i + 1) {
        if i + |name| <= |s[1..]| { assert s[1..][i..i + |name|] == s[i + 1..i + 1 + |name|]; }
      }
      if i: nat :| OccursAt(s, name, i) && i > 0 {
        assert OccursAt(s[1..], name, i - 1);
      }
    }
  }

  /** A string the filter finds: runs are empty, any character is an 'x', an escaped character stands for itself. */
  function Found(name: string): (s: string)
    ensures |s| <= |name| && (s == name ==> Plain(name))
  {
    if name == "" then ""
    else if name[0] == '%' then Found(name[1..])
    else if name[0] == BACKSLASH then if |name| == 1 then "%" else [name[1]] + Found(name[2..])
    else
      var rest := Found(name[1..]);
      var s := [if name[0] == '_' then 'x' else name[0]] + rest;
      assert s[1..] == rest && (s == name ==> rest == name[1..] && name == [name[0]] + name[1..]);
      s
  }

  lemma {:induction false} FoundIsLike(name: string)
    ensures Like(Found(name), name + "%")
  {
    if name == "" {
      AnythingIsLikePercent("");
      assert name + "%" == "%";
    } else if name[0] == BACKSLASH && |name| > 1 {
      assert (name + "%")[2..] == name[2..] + "%";
      FoundIsLike(name[2..]);
    } else if name == [BACKSLASH] {
      assert (name + "%")[1] == '%' && (name + "%")[2..] == "" && Found(name)[1..] == "";
    } else {
      assert (name + "%")[1..] == name[1..] + "%";
      FoundIsLike(name[1..]);
    }
  }

  /** The name filter is a substring search if and only if the name is free of wildcards and backslashes. */
  lemma NameFilterIsSubstringIff(name: string)
    ensures (forall app :: Matches(app, Filter(Some(name), None)) <==> Contains(app.name, name)) <==> Plain(name)
  {
    if Plain(name) {
      forall app ensures Matches(app, Filter(Some(name), None)) <==> Contains(app.name, name) {
        PlainIsSubstring(app.name, name);
      }
    } else {
      var app := App(Found(name), "", "", 0);
      FoundIsLike(name);
      assert ("%" + name + "%")[1..] == name + "%";
      assert Matches(app, Filter(Some(name), None)) && !Contains(app.name, name);
    }
  }

  /** The filters narrow independently, the status one by equality. */
  lemma FiltersCombine(app: App, name: Option<string>, status: int)
    ensures Matches(app, Filter(name, Some(status))) <==> Matches(app, Filter(name, None)) && app.status == status
    ensures Matches(app, Filter(None, None))
  {
  }
}
