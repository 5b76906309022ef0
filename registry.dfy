/**
 * The function registry of function_registry.py: an ordered table of function
 * declarations loaded once, to which implementations are bound by name, with a
 * memoised public schema ("descriptions"), a memoised token length, and
 * first-match dispatch by name.
 */
module Registry {
  import opened Wrappers

  /** A JSON value as the JSON loader produces it; numbers are integers here. */
  datatype Json =
    | JNull
    | JBool(b: bool)
    | JNum(n: int)
    | JStr(s: string)
    | JArray(items: seq<Json>)
    | JObject(members: map<string, Json>)

  /** Keyword arguments, as the parsed argument object of a function call. */
  type Args = map<string, Json>

  /** A bound implementation: called with the arguments as keyword parameters. */
  type Impl = Args -> Json

  /** One declaration of the JSON file; also the shape of one public description. */
  datatype Declaration = Declaration(name: string, description: string, parameters: Json)

  /** One record of the `functions` list; `func` is None while the "func" key is absent. */
  datatype Entry = Entry(name: string, description: string, parameters: Json, func: Option<Impl>)

  /** The exceptions the registry raises. */
  datatype Error = ValueError(message: string) | KeyError(key: string)

  /** The result `execute_function` returns for a name no entry carries. */
  function NotFound(name: string): string
  {
    "Function " + name + " not found."
  }

  /** The message of the ValueError `register_function` raises for an unknown name. */
  function NotRegistered(name: string): string
  {
    "Function with name '" + name + "' not found in the registry."
  }

  /** The loaded table: one entry per declaration, none of them bound. */
  function Load(decls: seq<Declaration>): seq<Entry>
  {
    seq(|decls|, i requires 0 <= i < |decls| =>
      Entry(decls[i].name, decls[i].description, decls[i].parameters, None))
  }

  /** The public schema: each entry without its implementation, in table order. */
  function Describe(entries: seq<Entry>): seq<Declaration>
  {
    seq(|entries|, i requires 0 <= i < |entries| =>
      Declaration(entries[i].name, entries[i].description, entries[i].parameters))
  }

  /** Two tables that differ at most in their bound implementations. */
  predicate SameDeclarations(a: seq<Entry>, b: seq<Entry>)
  {
    && |a| == |b|
    && forall j :: 0 <= j < |a| ==>
         a[j].name == b[j].name && a[j].description == b[j].description
         && a[j].parameters == b[j].parameters
  }

  /** The index of the first entry named `name`, if there is one. */
  function FirstMatch(entries: seq<Entry>, name: string): (r: Option<nat>)
    ensures r.Some? ==>
      && r.value < |entries|
      && entries[r.value].name == name
      && forall j :: 0 <= j < r.value ==> entries[j].name != name
    ensures r.None? ==> forall j :: 0 <= j < |entries| ==> entries[j].name != name
  {
    if entries == [] then None
    else if entries[0].name == name then Some(0)
    else match FirstMatch(entries[1..], name)
      case None => None
      case Some(k) => Some(k + 1)
  }

  /** What `register_function` leaves in the table, or the error it raises. */
  function Bind(entries: seq<Entry>, name: string, f: Impl): Result<seq<Entry>, Error>
  {
    match FirstMatch(entries, name)
    case None => Failure(ValueError(NotRegistered(name)))
    case Some(i) => Success(entries[i := entries[i].(func := Some(f))])
  }

  /**
   * What `execute_function` returns: the first entry with the name is called;
   * if it has no "func" key the lookup raises KeyError; a name no entry carries
   * yields the not-found sentence as a result.
   */
  function Execute(entries: seq<Entry>, name: string, args: Args): (r: Result<Json, Error>)
    ensures (forall j :: 0 <= j < |entries| ==> entries[j].name != name) ==>
      r == Success(JStr(NotFound(name)))
    ensures forall i ::
      (0 <= i < |entries| && entries[i].name == name &&
       forall j :: 0 <= j < i ==> entries[j].name != name) ==>
      r == (if entries[i].func.Some? then Success(entries[i].func.value(args))
            else Failure(KeyError("func")))
    ensures r.Failure? ==> r.error == KeyError("func")
    ensures r.Failure? ==>
      exists i :: 0 <= i < |entries| && entries[i].name == name && entries[i].func.None?
  {
    match FirstMatch(entries, name)
    case None => Success(JStr(NotFound(name)))
    case Some(i) =>
      match entries[i].func
      case Some(f) => Success(f(args))
      case None => Failure(KeyError("func"))
  }

  // ---------------------------------------------------------------------------
  // Properties of the table operations

  /** The schema of a freshly loaded table is exactly the declarations read. */
  lemma DescribeLoad(decls: seq<Declaration>)
    ensures Describe(Load(decls)) == decls
    ensures forall j :: 0 <= j < |Load(decls)| ==> Load(decls)[j].func.None?
  {
  }

  /** The schema depends only on names, descriptions and parameters. */
  lemma DescribeSameDeclarations(a: seq<Entry>, b: seq<Entry>)
    requires SameDeclarations(a, b)
    ensures Describe(a) == Describe(b)
  {
  }

  /** First-match lookup depends only on the names, so binding never moves it. */
  lemma FirstMatchSameDeclarations(a: seq<Entry>, b: seq<Entry>, name: string)
    requires SameDeclarations(a, b)
    ensures FirstMatch(a, name) == FirstMatch(b, name)
  {
  }

  /** Binding succeeds exactly when some entry carries the name; otherwise ValueError. */
  lemma BindFailsIffUnknown(entries: seq<Entry>, name: string, f: Impl)
    ensures Bind(entries, name, f).Failure? <==>
      forall j :: 0 <= j < |entries| ==> entries[j].name != name
    ensures Bind(entries, name, f).Failure? ==>
      Bind(entries, name, f).error == ValueError(NotRegistered(name))
  {
  }

  /**
   * Binding sets `func` on the first entry with the name only: every other
   * entry is untouched and no name, description or parameters change.
   */
  lemma BindFirstOnly(entries: seq<Entry>, name: string, f: Impl, i: nat)
    requires i < |entries| && entries[i].name == name
    requires forall j :: 0 <= j < i ==> entries[j].name != name
    ensures Bind(entries, name, f).Success?
    ensures SameDeclarations(Bind(entries, name, f).value, entries)
    ensures Bind(entries, name, f).value[i].func == Some(f)
    ensures forall j :: 0 <= j < |entries| && j != i ==> Bind(entries, name, f).value[j] == entries[j]
  {
  }

  /** Binding never changes the public schema. */
  lemma BindKeepsDescriptions(entries: seq<Entry>, name: string, f: Impl)
    requires Bind(entries, name, f).Success?
    ensures Describe(Bind(entries, name, f).value) == Describe(entries)
  {
  }

  /** Binding a name twice is the same as binding only the second implementation. */
  lemma BindTwiceLastWins(entries: seq<Entry>, name: string, f: Impl, g: Impl)
    requires Bind(entries, name, f).Success?
    ensures Bind(Bind(entries, name, f).value, name, g) == Bind(entries, name, g)
  {
    var bound := Bind(entries, name, f).value;
    FirstMatchSameDeclarations(bound, entries, name);
    var i := FirstMatch(entries, name).value;
    assert bound[i := bound[i].(func := Some(g))] == entries[i := entries[i].(func := Some(g))];
  }

  /** After binding `f` to a name, dispatching that name calls `f`. */
  lemma ExecuteAfterBind(entries: seq<Entry>, name: string, f: Impl, args: Args)
    requires Bind(entries, name, f).Success?
    ensures Execute(Bind(entries, name, f).value, name, args) == Success(f(args))
  {
    FirstMatchSameDeclarations(Bind(entries, name, f).value, entries, name);
  }

  /**
   * On a freshly loaded table dispatch never calls anything: a declared name
   * raises KeyError and any other name yields the not-found sentence.
   */
  lemma ExecuteAfterLoad(decls: seq<Declaration>, name: string, args: Args)
    ensures Execute(Load(decls), name, args) ==
      if exists j :: 0 <= j < |decls| && decls[j].name == name
      then Failure(KeyError("func"))
      else Success(JStr(NotFound(name)))
  {
    var entries := Load(decls);
    match FirstMatch(entries, name)
    case None =>
      assert forall j :: 0 <= j < |decls| ==> decls[j].name == entries[j].name;
    case Some(i) =>
      assert decls[i].name == name;
  }

  /** The registry object; `functions` is updated in place, the two caches filled once. */
  class FunctionRegistry {
    var functions: seq<Entry>
    var functionDescriptions: Option<seq<Declaration>>
    var tokenLength: Option<nat>

    /** A filled descriptions cache is the schema of the table; the length is measured after it. */
    ghost predicate Valid()
      reads this
    {
      && (functionDescriptions.Some? ==> functionDescriptions.value == Describe(functions))
      && (tokenLength.Some? ==> functionDescriptions.Some?)
    }

    constructor (decls: seq<Declaration>)
      ensures Valid()
      ensures functions == Load(decls)
      ensures functionDescriptions == None && tokenLength == None
    {
      functions := Load(decls);
      functionDescriptions := None;
      tokenLength := None;
    }

    method RegisterFunction(name: string, func: Impl) returns (outcome: Result<(), Error>)
      requires Valid()
      modifies this`functions
      ensures Valid()
      ensures Bind(old(functions), name, func).Failure? ==>
        outcome == Failure(Bind(old(functions), name, func).error) && functions == old(functions)
      ensures Bind(old(functions), name, func).Success? ==>
        outcome == Success(()) && functions == Bind(old(functions), name, func).value
    {
      var i := 0;
      while i < |functions|
        invariant 0 <= i <= |functions|
        invariant functions == old(functions)
        invariant forall j :: 0 <= j < i ==> functions[j].name != name
      {
        if functions[i].name == name {
          BindKeepsDescriptions(functions, name, func);
          functions := functions[i := functions[i].(func := Some(func))];
          return Success(());
        }
        i := i + 1;
      }
      return Failure(ValueError(NotRegistered(name)));
    }

    method GetFunctionDescriptions() returns (descriptions: seq<Declaration>)
      requires Valid()
      modifies this`functionDescriptions
      ensures Valid()
      ensures descriptions == Describe(functions)
      ensures functionDescriptions == Some(descriptions)
      ensures old(functionDescriptions).Some? ==> descriptions == old(functionDescriptions).value
    {
      if functionDescriptions.None? {
        functionDescriptions := Some(Describe(functions));
      }
      descriptions := functionDescriptions.value;
    }

    /**
     * `measure` stands for serialising the descriptions and counting the
     * tokens the given encoding produces for them.
     */
    method GetTokenLength(measure: seq<Declaration> -> nat) returns (length: nat)
      requires Valid()
      modifies this`functionDescriptions, this`tokenLength
      ensures Valid()
      ensures tokenLength == Some(length)
      ensures functionDescriptions == Some(Describe(functions))
      ensures old(tokenLength).Some? ==> length == old(tokenLength).value
      ensures old(tokenLength).None? ==> length == measure(Describe(functions))
    {
      if tokenLength.None? {
        var descriptions := GetFunctionDescriptions();
        tokenLength := Some(measure(descriptions));
      }
      length := tokenLength.value;
    }

    function ExecuteFunction(name: string, arguments: Args): (r: Result<Json, Error>)
      reads this
      ensures r == Execute(functions, name, arguments)
    {
      Execute(functions, name, arguments)
    }
  }
}
