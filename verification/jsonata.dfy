/**
 * The string shapes of data-set sources and debugger queries, declared as
 * template-literal types, and the data-set profile record.
 */
module Jsonata {
  import opened Common
  import opened Strings
  import opened Json

  /** `DocHubJSONataQuerySimple`: `(${string})` or `jsonata(${string})`. */
  predicate IsInlineQuery(s: string)
  {
    || (|s| >= 2 && StartsWith(s, "(") && EndsWith(s, ")"))
    || (|s| >= 9 && StartsWith(s, "jsonata(") && EndsWith(s, ")"))
  }

  /** `DocHubJSONataFile`: `${string}.jsonata`. */
  predicate IsQueryFile(s: string)
  {
    EndsWith(s, ".jsonata")
  }

  /** The `$${string}` alternative of `DocHubDebuggerQuery`: a read of a context variable. */
  predicate IsVariableRead(s: string)
  {
    StartsWith(s, "$")
  }

  /** `DocHubDebuggerQuery`: a variable read or a JSONata query. */
  predicate IsDebuggerQuery(s: string)
  {
    IsVariableRead(s) || IsInlineQuery(s)
  }

  /** `DocHubJSONataQueryObject`: a query string that also remembers where it was declared. */
  datatype QueryObject = QueryObject(query: string, uri: Option<string>, path: Option<string>) {

    /** The `String` value the object extends. */
    function Value(): string { query }

    /** The `__uri__` getter. */
    function Uri(): Option<string> { uri }

    /** The `__path__` getter. */
    function Path(): Option<string> { path }
  }

  /** The constructor: its `query` parameter is typed as a simple JSONata query. */
  function NewQueryObject(query: string, uri: Option<string>, path: Option<string>): (q: QueryObject)
    requires IsInlineQuery(query)
    ensures IsInlineQuery(q.Value())
    ensures q.Value() == query && q.Uri() == uri && q.Path() == path
  {
    QueryObject(query, uri, path)
  }

  /** `DocHubDataSetData = object`: data that is never a primitive (an array is an object too). */
  type DataObject = j: Json | j.JArray? || j.JObject? witness JObject(map[])

  /** A value of `DocHubDataSetProfileSource`: a string, a query object, or data used as is. */
  datatype Source =
    | Text(text: string)
    | Query(obj: QueryObject)
    | Data(data: DataObject)

  /** `DocHubDataSetProfileOrigin`: one source, or named sources (`DocHubDataSetProfileOriginSet`). */
  datatype Origin =
    | Single(source: Source)
    | Named(sources: map<string, Source>)

  /** `IDocHubDataSetProfile`: `source` is mandatory, `origin` may be absent. */
  datatype Profile = Profile(origin: Option<Origin>, source: Source)

  /** `DocHubDataLakeDebuggerHandleActions` */
  datatype DebuggerAction = Run | Next | Into | Stop

  function ActionName(a: DebuggerAction): string
  {
    match a
    case Run => "run"
    case Next => "next"
    case Into => "into"
    case Stop => "stop"
  }

  /** Reads an action back from its string value. */
  function ParseAction(s: string): (r: Option<DebuggerAction>)
    ensures r.Some? ==> ActionName(r.value) == s
  {
    if s == "run" then Some(Run)
    else if s == "next" then Some(Next)
    else if s == "into" then Some(Into)
    else if s == "stop" then Some(Stop)
    else None
  }

  /** The closed union of source shapes, computed once. */
  datatype SourceKind =
    | InlineQuery   // `(…)` or `jsonata(…)`, or a query object
    | QueryFile     // `….jsonata`
    | OtherText     // a data-set ID or a data-file reference
    | Literal       // data used as is

  function Kind(s: Source): (k: SourceKind)
    ensures k == InlineQuery <==> (s.Text? && IsInlineQuery(s.text)) || s.Query?
    ensures k == QueryFile <==> s.Text? && IsQueryFile(s.text)
    ensures k == Literal <==> s.Data?
  {
    match s
    case Text(t) =>
      QueryNotFile(t);
      if IsInlineQuery(t) then InlineQuery
      else if IsQueryFile(t) then QueryFile
      else OtherText
    case Query(_) => InlineQuery
    case Data(_) => Literal
  }

  /** How the debugger treats a query string. */
  datatype DebuggerQueryKind =
    | ReadVariable(name: string)  // the value of `$name` in the current frame
    | Evaluate(query: string)     // a fresh JSONata evaluation

  function ClassifyDebuggerQuery(q: string): (r: Option<DebuggerQueryKind>)
    ensures r.None? <==> !IsDebuggerQuery(q)
    ensures r.Some? && r.value.ReadVariable? ==> q == "$" + r.value.name
    ensures r.Some? && r.value.Evaluate? ==> IsInlineQuery(q) && r.value.query == q
  {
    if IsVariableRead(q) then Some(ReadVariable(q[1..]))
    else if IsInlineQuery(q) then Some(Evaluate(q))
    else None
  }

  /** `DocHubDebuggerQuery` as a value: a string, or a query object carrying its string. */
  datatype DebuggerQuery = QueryText(text: string) | QueryObj(obj: QueryObject)

  /** A query object is read through its `String` value, like the query it was built from. */
  function ClassifyDebuggerExpression(e: DebuggerQuery): (r: Option<DebuggerQueryKind>)
    ensures e.QueryObj? && IsInlineQuery(e.obj.query) ==> r == Some(Evaluate(e.obj.query))
    ensures e.QueryText? ==> r == ClassifyDebuggerQuery(e.text)
  {
    match e
    case QueryText(t) => ClassifyDebuggerQuery(t)
    case QueryObj(o) =>
      VariableReadNotQuery(o.Value());
      ClassifyDebuggerQuery(o.Value())
  }

  // ---------------------------------------------------------------------------

  /** The inline-query shape is exactly the two template literals. */
  lemma InlineQueryForm(s: string)
    ensures IsInlineQuery(s) <==> exists x :: s == "(" + x + ")" || s == "jsonata(" + x + ")"
  {
    if IsInlineQuery(s) {
      if |s| >= 2 && StartsWith(s, "(") && EndsWith(s, ")") {
        var x := s[1..|s| - 1];
        assert s == "(" + x + ")";
      } else {
        var x := s[8..|s| - 1];
        assert s == "jsonata(" + x + ")";
      }
    }
    if exists x :: s == "(" + x + ")" || s == "jsonata(" + x + ")" {
      var x :| s == "(" + x + ")" || s == "jsonata(" + x + ")";
      if s == "(" + x + ")" {
        assert StartsWith(s, "(") && EndsWith(s, ")");
      } else {
        assert StartsWith(s, "jsonata(") && EndsWith(s, ")");
      }
    }
  }

  /** The query-file shape is exactly `${string}.jsonata`. */
  lemma QueryFileForm(s: string)
    ensures IsQueryFile(s) <==> exists x :: s == x + ".jsonata"
  {
    if IsQueryFile(s) {
      var x := s[..|s| - 8];
      assert s == x + ".jsonata";
    }
    if exists x :: s == x + ".jsonata" {
      var x :| s == x + ".jsonata";
      assert s[|s| - 8..] == ".jsonata";
    }
  }

  /** No string is both an inline query and a query file: one ends in `)`, the other in `a`. */
  lemma QueryNotFile(s: string)
    ensures !(IsInlineQuery(s) && IsQueryFile(s))
  {
    if IsQueryFile(s) {
      assert s[|s| - 8..][7] == 'a';
      assert s[|s| - 1] == 'a';
    }
  }

  /** A variable read is never also an inline query, so the debugger's reading is unambiguous. */
  lemma VariableReadNotQuery(s: string)
    ensures !(IsVariableRead(s) && IsInlineQuery(s))
  {
  }

  /** `$name` always reads the variable `name`. */
  lemma DollarReadsVariable(name: string)
    ensures ClassifyDebuggerQuery("$" + name) == Some(ReadVariable(name))
  {
    assert ("$" + name)[1..] == name;
  }

  /** Every action's string value reads back as that action, and only those four strings do. */
  lemma ActionRoundTrip(a: DebuggerAction, s: string)
    ensures ParseAction(ActionName(a)) == Some(a)
    ensures ParseAction(s).Some? <==> s in {"run", "next", "into", "stop"}
  {
  }

  /** A query object built by the constructor is itself an inline query of kind `InlineQuery`. */
  lemma QueryObjectIsInline(query: string, uri: Option<string>, path: Option<string>)
    requires IsInlineQuery(query)
    ensures Kind(Query(NewQueryObject(query, uri, path))) == Kind(Text(query)) == InlineQuery
  {
  }

  /** A query object handed to the debugger is evaluated, exactly as its query string would be. */
  lemma QueryObjectIsEvaluated(query: string, uri: Option<string>, path: Option<string>)
    requires IsInlineQuery(query)
    ensures ClassifyDebuggerExpression(QueryObj(NewQueryObject(query, uri, path)))
         == ClassifyDebuggerExpression(QueryText(query)) == Some(Evaluate(query))
  {
    VariableReadNotQuery(query);
  }
}
