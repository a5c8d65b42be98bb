/** The query function runtime: the function tree, the execution context,
    `Exec`, `QueryTargets`, and the registry that builds functions and bound
    methods by name. */
module Query {
  import opened Values
  import opened TargetPaths

  /** A record of the batch: its raw content, its body as a structured
      document (`None` when the content is not a JSON document), and its
      string-to-string metadata. */
  datatype Message = Message(content: string, doc: Option<Value>, meta: map<string, string>)

  /** The per-call context: named variables, the message batch, and the
      index of the current message. */
  datatype Ctx = Ctx(vars: map<string, Value>, batch: seq<Message>, index: int)

  /** A function tree. `Literal` is what a static argument of a method
      becomes; `Method` binds an operation to a receiver. */
  datatype Function =
    | Throw(msg: string)
    | Literal(v: Value)
    | Var(name: string)
    | Meta(key: string)
    | Field(path: seq<string>)
    | Method(receiver: Function, op: MethodOp)

  /** The operations a method binding applies to its receiver's result. */
  datatype MethodOp =
    | Catch(fallback: Function)
    | Uppercase
    | Get(path: seq<string>)

  /** The part returned for an index outside the batch: no content, no
      document, no metadata. */
  const EmptyMessage := Message("", None, map[])

  /** The message that `index` refers to. */
  function Current(ctx: Ctx): Message
  {
    if 0 <= ctx.index < |ctx.batch| then ctx.batch[ctx.index] else EmptyMessage
  }

  // Failure messages.

  function UndefinedVariable(name: string): string
  {
    "variable '" + name + "' undefined"
  }

  function MetadataNotFound(key: string): string
  {
    "metadata value '" + key + "' not found"
  }

  function PathNotFound(path: seq<string>): string
  {
    "path '" + JoinDots(path) + "' not found"
  }

  const NotJson := "message is not a JSON document"

  function ExpectedString(v: Value): string
  {
    "expected string value, found " + KindName(v)
  }

  /** ASCII upper-casing of one character. */
  function UpperChar(c: char): char
  {
    if 'a' <= c <= 'z' then (c as int - 32) as char else c
  }

  /** ASCII upper-casing of a string: same length, each character mapped,
      and no lower-case ASCII letter left. */
  function UpperAscii(s: string): (r: string)
    ensures |r| == |s|
    ensures forall i :: 0 <= i < |s| ==> r[i] == UpperChar(s[i])
    ensures forall i :: 0 <= i < |r| ==> !('a' <= r[i] <= 'z')
  {
    if s == [] then [] else [UpperChar(s[0])] + UpperAscii(s[1..])
  }

  /** Reads `path` out of a message document. */
  function ReadPath(doc: Option<Value>, path: seq<string>): Result<Value, string>
  {
    match doc
    case None => Err(NotJson)
    case Some(d) =>
      match Lookup(d, path)
      case None => Err(PathNotFound(path))
      case Some(v) => Ok(v)
  }

  /** Projects `path` out of a receiver's value. */
  function Project(v: Value, path: seq<string>): Result<Value, string>
  {
    match Lookup(v, path)
    case None => Err(PathNotFound(path))
    case Some(w) => Ok(w)
  }

  /** Upper-cases a string value; any other kind is a type mismatch. */
  function Uppercased(v: Value): Result<Value, string>
  {
    match v
    case VString(s) => Ok(VString(UpperAscii(s)))
    case _ => Err(ExpectedString(v))
  }

  /** The failures `uppercase` reports for the two non-string kinds. */
  const TypeMismatches: set<string> :=
    {ExpectedString(VInt(0)), ExpectedString(VObject(map[]))}

  /** The failure messages a tree can produce, read off the tree alone: a
      `throw` its own message, an accessor its lookup failure, a method its
      receiver's failures and its own; `catch` only its fallback's. */
  function Failures(f: Function): set<string>
  {
    match f
    case Throw(msg) => {msg}
    case Literal(_) => {}
    case Var(name) => {UndefinedVariable(name)}
    case Meta(key) => {MetadataNotFound(key)}
    case Field(path) => {NotJson, PathNotFound(path)}
    case Method(receiver, op) =>
      match op
      case Catch(fallback) => Failures(fallback)
      case Uppercase => Failures(receiver) + TypeMismatches
      case Get(path) => Failures(receiver) + {PathNotFound(path)}
  }

  /** Evaluates a function against a context. The context is a value and is
      never changed; failures propagate unchanged through every method
      except `catch`, so every failure is one the tree can be seen to produce. */
  function Exec(f: Function, ctx: Ctx): (r: Result<Value, string>)
    ensures r.Err? ==> r.error in Failures(f)
  {
    match f
    case Throw(msg) => Err(msg)
    case Literal(v) => Ok(v)
    case Var(name) =>
      if name in ctx.vars then Ok(ctx.vars[name]) else Err(UndefinedVariable(name))
    case Meta(key) =>
      var meta := Current(ctx).meta;
      if key in meta then Ok(VString(meta[key])) else Err(MetadataNotFound(key))
    case Field(path) => ReadPath(Current(ctx).doc, path)
    case Method(receiver, op) =>
      var r := Exec(receiver, ctx);
      match op
      case Catch(fallback) => if r.Err? then Exec(fallback, ctx) else r
      case Uppercase => if r.Err? then r else Uppercased(r.value)
      case Get(path) => if r.Err? then r else Project(r.value, path)
  }

  /** What a function may read: one path per accessor leaf; a bound method
      reports its receiver's paths followed by those of a function-valued
      argument. */
  function QueryTargets(f: Function): (r: seq<TargetPath>)
    ensures forall t :: t in r && t.kind != TargetValue ==> |t.path| == 1
  {
    match f
    case Throw(_) => []
    case Literal(_) => []
    case Var(name) => [TargetPath(TargetVariable, [name])]
    case Meta(key) => [TargetPath(TargetMetadata, [key])]
    case Field(path) => [TargetPath(TargetValue, path)]
    case Method(receiver, op) =>
      QueryTargets(receiver) + (if op.Catch? then QueryTargets(op.fallback) else [])
  }

  // The registry.

  /** A constructor argument: a static literal or a function (dynamic). */
  datatype Arg = Lit(v: Value) | Dyn(f: Function)

  /** Construction-time failures. */
  datatype InitError =
    | UnknownFunction(name: string)
    | UnknownMethod(name: string)
    | InvalidArguments(name: string)

  const FunctionNames: set<string> := {"throw", "var", "meta", "json"}
  const MethodNames: set<string> := {"catch", "uppercase", "get"}

  /** The string of a single static string argument, if that is what `args` is. */
  function StringArg(args: seq<Arg>): (r: Option<string>)
    ensures r.Some? ==> args == [Lit(VString(r.value))]
  {
    if |args| == 1 && args[0].Lit? && args[0].v.VString? then Some(args[0].v.s) else None
  }

  /** A field function reading the dotted `path` of the current message. */
  function NewFieldFunction(path: string): (f: Function)
    ensures f.Field? && JoinDots(f.path) == path
    ensures forall i :: 0 <= i < |f.path| ==> '.' !in f.path[i]
    ensures path == "" <==> f.path == []
  {
    DotPathRoundTrip(path, []);
    Field(DotPath(path))
  }

  /** The function an argument stands for. */
  function ArgFunction(a: Arg): (f: Function)
    ensures a.Lit? ==> QueryTargets(f) == []
  {
    match a
    case Lit(v) => Literal(v)
    case Dyn(g) => g
  }

  /** Builds the named function. Each of `throw`, `var`, `meta` and `json`
      takes exactly one static string; the arguments are checked here, once. */
  function InitFunction(name: string, args: seq<Arg>): (r: Result<Function, InitError>)
    ensures r.Ok? <==> name in FunctionNames && StringArg(args).Some?
    ensures name !in FunctionNames ==> r == Err(UnknownFunction(name))
    ensures name in FunctionNames && StringArg(args).None? ==> r == Err(InvalidArguments(name))
    ensures r.Ok? && name == "throw" ==> r.value == Throw(StringArg(args).value)
    ensures r.Ok? && name == "var" ==> r.value == Var(StringArg(args).value)
    ensures r.Ok? && name == "meta" ==> r.value == Meta(StringArg(args).value)
    ensures r.Ok? && name == "json" ==> r.value == NewFieldFunction(StringArg(args).value)
  {
    if name !in FunctionNames then Err(UnknownFunction(name))
    else match StringArg(args)
      case None => Err(InvalidArguments(name))
      case Some(s) =>
        if name == "throw" then Ok(Throw(s))
        else if name == "var" then Ok(Var(s))
        else if name == "meta" then Ok(Meta(s))
        else Ok(NewFieldFunction(s))
  }

  /** The targets of the function-valued arguments in `args`. */
  function ArgTargets(args: seq<Arg>): seq<TargetPath>
  {
    if args == [] then []
    else (if args[0].Dyn? then QueryTargets(args[0].f) else []) + ArgTargets(args[1..])
  }

  /** Binds the named method to `receiver`: `catch` takes one argument of
      either kind, `uppercase` none, `get` one static dotted path. The bound
      method reads what its receiver reads and what its dynamic arguments read. */
  function InitMethod(name: string, receiver: Function, args: seq<Arg>): (r: Result<Function, InitError>)
    ensures r.Ok? <==>
      (&& name in MethodNames
       && (name == "catch" ==> |args| == 1)
       && (name == "uppercase" ==> args == [])
       && (name == "get" ==> StringArg(args).Some?))
    ensures name !in MethodNames ==> r == Err(UnknownMethod(name))
    ensures r.Err? && name in MethodNames ==> r == Err(InvalidArguments(name))
    ensures r.Ok? ==> r.value.Method? && r.value.receiver == receiver
    ensures r.Ok? && name == "catch" ==> r.value.op == Catch(ArgFunction(args[0]))
    ensures r.Ok? && name == "uppercase" ==> r.value.op == Uppercase
    ensures r.Ok? && name == "get" ==> r.value.op == Get(DotPath(StringArg(args).value))
    ensures r.Ok? ==> QueryTargets(r.value) == QueryTargets(receiver) + ArgTargets(args)
  {
    if name !in MethodNames then Err(UnknownMethod(name))
    else if name == "catch" then
      if |args| == 1 then
        assert ArgTargets(args) == (if args[0].Dyn? then QueryTargets(args[0].f) else []) + [];
        Ok(Method(receiver, Catch(ArgFunction(args[0]))))
      else Err(InvalidArguments(name))
    else if name == "uppercase" then
      if args == [] then Ok(Method(receiver, Uppercase)) else Err(InvalidArguments(name))
    else
      match StringArg(args)
      case None => Err(InvalidArguments(name))
      case Some(p) =>
        assert ArgTargets(args) == [] + [];
        Ok(Method(receiver, Get(DotPath(p))))
  }
}
