/** The concrete behaviours the runtime is held to: functions and methods
    built through the registry, evaluated against the contexts that pin
    down their results, and the targets they report. */
module QueryCases {
  import opened Values
  import opened TargetPaths
  import opened Query
  import opened QueryLaws

  /** A static string argument. */
  function Str(s: string): (a: Arg)
    ensures StringArg([a]) == Some(s)
  {
    Lit(VString(s))
  }

  /** `throw("foo")` fails with "foo" whatever the context. */
  lemma ThrowCase(ctx: Ctx)
    ensures InitFunction("throw", [Str("foo")]) == Ok(Throw("foo"))
    ensures Exec(Throw("foo"), ctx) == Err("foo")
  {
  }

  /** `throw("foo").catch("bar")` gives "bar" whatever the context. */
  lemma ThrowCatchCase(ctx: Ctx)
    ensures InitMethod("catch", Throw("foo"), [Str("bar")]) ==
            Ok(Method(Throw("foo"), Catch(Literal(VString("bar")))))
    ensures Exec(Method(Throw("foo"), Catch(Literal(VString("bar")))), ctx) == Ok(VString("bar"))
  {
    ThrowCatchRecovers("foo", Literal(VString("bar")), ctx);
  }

  /** `var("foo").uppercase()` with `foo` set to "foobar" gives "FOOBAR". */
  lemma VarUppercaseCase(ctx: Ctx)
    requires ctx.vars == map["foo" := VString("foobar")]
    ensures InitFunction("var", [Str("foo")]) == Ok(Var("foo"))
    ensures InitMethod("uppercase", Var("foo"), []) == Ok(Method(Var("foo"), Uppercase))
    ensures Exec(Method(Var("foo"), Uppercase), ctx) == Ok(VString("FOOBAR"))
  {
    assert UpperAscii("foobar") == "FOOBAR";
  }

  /** `get("bar")` binds a projection along the one-segment path `["bar"]`. */
  lemma GetBindCase()
    ensures InitMethod("get", Var("foo"), [Str("bar")]) == Ok(Method(Var("foo"), Get(["bar"])))
  {
    DotPathSingle("bar");
    assert "get" in MethodNames;
    assert StringArg([Str("bar")]) == Some("bar");
  }

  /** `var("foo").get("bar").uppercase()` with `foo` an object whose field
      `bar` is "foobar" gives "FOOBAR". */
  lemma VarGetUppercaseCase(ctx: Ctx)
    requires ctx.vars == map["foo" := VObject(map["bar" := VString("foobar")])]
    ensures Exec(Method(Method(Var("foo"), Get(["bar"])), Uppercase), ctx) == Ok(VString("FOOBAR"))
  {
    var obj := VObject(map["bar" := VString("foobar")]);
    assert Exec(Var("foo"), ctx) == Ok(obj);
    GetField(Var("foo"), "bar", ctx);
    assert UpperAscii("foobar") == "FOOBAR";
  }

  /** `var("foo")` with no variables fails with "variable 'foo' undefined". */
  lemma VarUndefinedCase(ctx: Ctx)
    requires ctx.vars == map[]
    ensures Exec(Var("foo"), ctx) == Err("variable 'foo' undefined")
  {
    VarLookup("foo", ctx);
    assert "variable '" + "foo" + "' undefined" == "variable 'foo' undefined";
  }

  /** `meta("foo")` on a one-message batch whose metadata maps `foo` to
      "foobar" gives "foobar". */
  lemma MetaCase(ctx: Ctx)
    requires ctx.batch == [Message("", None, map["foo" := "foobar"])] && ctx.index == 0
    ensures InitFunction("meta", [Str("foo")]) == Ok(Meta("foo"))
    ensures Exec(Meta("foo"), ctx) == Ok(VString("foobar"))
  {
  }

  /** `meta("foo")` on an empty batch fails with "metadata value 'foo' not
      found" rather than reading outside the batch. */
  lemma MetaMissingCase(ctx: Ctx)
    requires ctx.batch == [] && ctx.index == 0
    ensures Exec(Meta("foo"), ctx) == Err("metadata value 'foo' not found")
  {
    MetaLookup("foo", ctx);
    assert "metadata value '" + "foo" + "' not found" == "metadata value 'foo' not found";
  }

  /** "foo.bar.baz" splits into the segments "foo", "bar" and "baz". */
  lemma FooBarBazSegments()
    ensures DotPath("foo.bar.baz") == ["foo", "bar", "baz"]
  {
    var segs := ["foo", "bar", "baz"];
    assert JoinDots(segs[2..]) == "baz";
    assert JoinDots(segs[1..]) == "bar.baz";
    assert JoinDots(segs) == "foo.bar.baz";
    DotPathRoundTrip("", segs);
  }

  /** `throw` reports no targets. */
  lemma ThrowTargetsCase()
    ensures QueryTargets(Throw("foo")) == []
  {
  }

  /** `json("foo.bar.baz")` reports one value path with segments "foo", "bar", "baz". */
  lemma JsonTargetsCase()
    ensures InitFunction("json", [Str("foo.bar.baz")]).Ok?
    ensures QueryTargets(InitFunction("json", [Str("foo.bar.baz")]).value) ==
            [TargetPath(TargetValue, ["foo", "bar", "baz"])]
  {
    var args := [Str("foo.bar.baz")];
    assert "json" in FunctionNames;
    assert StringArg(args) == Some("foo.bar.baz");
    FieldTargetsCase();
  }

  /** A field function of "foo.bar.baz" reports the same single value path. */
  lemma FieldTargetsCase()
    ensures QueryTargets(NewFieldFunction("foo.bar.baz")) ==
            [TargetPath(TargetValue, ["foo", "bar", "baz"])]
  {
    FooBarBazSegments();
  }

  /** `meta("foo")` reports one metadata path and `var("foo")` one variable path. */
  lemma MetaVarTargetsCase()
    ensures QueryTargets(Meta("foo")) == [TargetPath(TargetMetadata, ["foo"])]
    ensures QueryTargets(Var("foo")) == [TargetPath(TargetVariable, ["foo"])]
  {
  }
}
