/** Laws of the query runtime: deliberate failure and recovery, failure
    propagation through bound methods, the accessors' lookups, chained
    projection, and the soundness of `QueryTargets` as a description of
    what `Exec` reads. */
module QueryLaws {
  import opened Values
  import opened TargetPaths
  import opened Query

  // Deliberate failure and recovery.

  /** `throw(msg)` fails in every context with exactly `msg`, and reads nothing. */
  lemma ThrowAlwaysFails(msg: string, ctx: Ctx)
    ensures Exec(Throw(msg), ctx) == Err(msg)
    ensures QueryTargets(Throw(msg)) == []
  {
  }

  /** `catch` replaces a failing receiver by its fallback and passes a
      succeeding receiver through unchanged; it fails only when both the
      receiver and the fallback fail, and then with the fallback's failure. */
  lemma CatchLaw(f: Function, fallback: Function, ctx: Ctx)
    ensures Exec(f, ctx).Err? ==> Exec(Method(f, Catch(fallback)), ctx) == Exec(fallback, ctx)
    ensures Exec(f, ctx).Ok? ==> Exec(Method(f, Catch(fallback)), ctx) == Exec(f, ctx)
    ensures Exec(Method(f, Catch(fallback)), ctx).Err? <==>
              Exec(f, ctx).Err? && Exec(fallback, ctx).Err?
  {
  }

  /** The recovery law for a deliberate failure: `throw(x).catch(y)` is `y`. */
  lemma ThrowCatchRecovers(x: string, y: Function, ctx: Ctx)
    ensures Exec(Method(Throw(x), Catch(y)), ctx) == Exec(y, ctx)
  {
    ThrowAlwaysFails(x, ctx);
    CatchLaw(Throw(x), y, ctx);
  }

  /** Every method other than `catch` is skipped when its receiver fails,
      and the receiver's failure comes out unchanged. */
  lemma MethodPropagatesFailure(f: Function, op: MethodOp, ctx: Ctx)
    requires !op.Catch?
    requires Exec(f, ctx).Err?
    ensures Exec(Method(f, op), ctx) == Exec(f, ctx)
  {
  }

  /** `uppercase` is applied to the receiver's success value: it succeeds
      exactly on a string, which it upper-cases, and is a type mismatch on
      any other kind. */
  lemma UppercaseOnValue(f: Function, ctx: Ctx)
    ensures Exec(Method(f, Uppercase), ctx).Ok? <==>
              Exec(f, ctx).Ok? && Exec(f, ctx).value.VString?
    ensures Exec(f, ctx).Ok? && Exec(f, ctx).value.VString? ==>
              Exec(Method(f, Uppercase), ctx) == Ok(VString(UpperAscii(Exec(f, ctx).value.s)))
    ensures Exec(f, ctx).Ok? && !Exec(f, ctx).value.VString? ==>
              Exec(Method(f, Uppercase), ctx) == Err(ExpectedString(Exec(f, ctx).value))
  {
  }

  /** Upper-casing twice is upper-casing once. */
  lemma UppercaseIdempotent(s: string)
    ensures UpperAscii(UpperAscii(s)) == UpperAscii(s)
  {
    var u := UpperAscii(s);
    assert forall i :: 0 <= i < |u| ==> UpperChar(u[i]) == u[i];
  }

  // Accessors.

  /** `var(name)` yields the variable's value when it is defined and otherwise
      fails with exactly "variable '<name>' undefined". */
  lemma VarLookup(name: string, ctx: Ctx)
    ensures Exec(Var(name), ctx).Ok? <==> name in ctx.vars
    ensures name in ctx.vars ==> Exec(Var(name), ctx) == Ok(ctx.vars[name])
    ensures name !in ctx.vars ==> Exec(Var(name), ctx) == Err("variable '" + name + "' undefined")
  {
  }

  /** `meta(key)` yields the metadata value of the message at the index when
      there is such a message holding `key`, and otherwise, an out-of-range
      index included, fails with exactly "metadata value '<key>' not found". */
  lemma MetaLookup(key: string, ctx: Ctx)
    ensures Exec(Meta(key), ctx).Ok? <==>
              0 <= ctx.index < |ctx.batch| && key in ctx.batch[ctx.index].meta
    ensures Exec(Meta(key), ctx).Ok? ==>
              Exec(Meta(key), ctx).value == VString(ctx.batch[ctx.index].meta[key])
    ensures Exec(Meta(key), ctx).Err? ==>
              Exec(Meta(key), ctx).error == "metadata value '" + key + "' not found"
  {
  }

  /** `get(k)` on a receiver that yields an object holding `k` gives that
      field's value; on any other success value it fails with the
      path-not-found message. */
  lemma GetField(f: Function, k: string, ctx: Ctx)
    requires Exec(f, ctx).Ok?
    ensures var v := Exec(f, ctx).value;
      v.VObject? && k in v.fields ==> Exec(Method(f, Get([k])), ctx) == Ok(v.fields[k])
    ensures var v := Exec(f, ctx).value;
      !(v.VObject? && k in v.fields) ==> Exec(Method(f, Get([k])), ctx) == Err(PathNotFound([k]))
  {
  }

  /** A field read of `[k]` gives the field `k` of the current message's
      document; it fails with the path-not-found message when the document
      has no such field, and with the not-JSON message when there is no
      document. */
  lemma FieldKey(k: string, ctx: Ctx)
    ensures Current(ctx).doc.None? ==> Exec(Field([k]), ctx) == Err(NotJson)
    ensures var d := Current(ctx).doc;
      d.Some? && d.value.VObject? && k in d.value.fields ==>
        Exec(Field([k]), ctx) == Ok(d.value.fields[k])
    ensures var d := Current(ctx).doc;
      d.Some? && !(d.value.VObject? && k in d.value.fields) ==>
        Exec(Field([k]), ctx) == Err(PathNotFound([k]))
  {
  }

  /** With an index outside the batch, every metadata read fails with the
      not-found message and every field read with the not-JSON message. */
  lemma OutOfRangeIndex(ctx: Ctx, k: string, p: seq<string>)
    requires !(0 <= ctx.index < |ctx.batch|)
    ensures Exec(Meta(k), ctx) == Err(MetadataNotFound(k))
    ensures Exec(Field(p), ctx) == Err(NotJson)
  {
  }

  /** A tree with no possible failure always succeeds: for example any
      receiver followed by `catch` with a literal fallback. */
  lemma NoFailuresNeverFails(f: Function, ctx: Ctx)
    requires Failures(f) == {}
    ensures Exec(f, ctx).Ok?
  {
  }

  /** `catch` with a literal fallback never fails, whatever its receiver. */
  lemma CatchLiteralNeverFails(f: Function, v: Value, ctx: Ctx)
    ensures Exec(Method(f, Catch(Literal(v))), ctx) == if Exec(f, ctx).Ok? then Exec(f, ctx) else Ok(v)
  {
    NoFailuresNeverFails(Method(f, Catch(Literal(v))), ctx);
  }

  /** `get(p).get(q)` projects exactly what `get(p + q)` projects: both
      succeed together, with the same value. */
  lemma GetChain(f: Function, p: seq<string>, q: seq<string>, ctx: Ctx)
    ensures Exec(Method(Method(f, Get(p)), Get(q)), ctx).Ok? <==>
              Exec(Method(f, Get(p + q)), ctx).Ok?
    ensures Exec(Method(f, Get(p + q)), ctx).Ok? ==>
              Exec(Method(Method(f, Get(p)), Get(q)), ctx) == Exec(Method(f, Get(p + q)), ctx)
  {
    if Exec(f, ctx).Ok? {
      LookupAppend(Exec(f, ctx).value, p, q);
    }
  }

  /** A field read followed by `get(q)` is the field read of the longer path. */
  lemma FieldThenGet(p: seq<string>, q: seq<string>, ctx: Ctx)
    ensures Exec(Method(Field(p), Get(q)), ctx).Ok? <==> Exec(Field(p + q), ctx).Ok?
    ensures Exec(Field(p + q), ctx).Ok? ==>
              Exec(Method(Field(p), Get(q)), ctx) == Exec(Field(p + q), ctx)
  {
    var doc := Current(ctx).doc;
    if doc.Some? {
      LookupAppend(doc.value, p, q);
    }
  }

  // Static dependency analysis.

  /** Two maps agree on key `k`: both lack it, or both map it to the same value. */
  ghost predicate SameKey<V>(m1: map<string, V>, m2: map<string, V>, k: string)
  {
    (k in m1 <==> k in m2) && (k in m1 ==> m1[k] == m2[k])
  }

  /** Two message documents agree at `path`: neither is a document, or both
      are and the same thing (or nothing) sits at `path` in each. */
  ghost predicate SameDocAt(d1: Option<Value>, d2: Option<Value>, path: seq<string>)
  {
    (d1.None? && d2.None?) || (d1.Some? && d2.Some? && Lookup(d1.value, path) == Lookup(d2.value, path))
  }

  /** Two contexts agree on the location a target path names. A metadata
      or variable path names its first segment as key, and the whole map
      when it is empty. */
  ghost predicate Agrees(t: TargetPath, c1: Ctx, c2: Ctx)
  {
    match t.kind
    case TargetValue => SameDocAt(Current(c1).doc, Current(c2).doc, t.path)
    case TargetMetadata =>
      if t.path == [] then Current(c1).meta == Current(c2).meta
      else SameKey(Current(c1).meta, Current(c2).meta, t.path[0])
    case TargetVariable =>
      if t.path == [] then c1.vars == c2.vars
      else SameKey(c1.vars, c2.vars, t.path[0])
  }

  ghost predicate AgreesOnAll(ts: seq<TargetPath>, c1: Ctx, c2: Ctx)
  {
    forall t :: t in ts ==> Agrees(t, c1, c2)
  }

  /** Soundness of `QueryTargets`: two contexts that agree on every location
      a function reports give that function the same result, so what it
      reports covers everything it reads. */
  lemma {:induction false} TargetsSound(f: Function, c1: Ctx, c2: Ctx)
    requires AgreesOnAll(QueryTargets(f), c1, c2)
    ensures Exec(f, c1) == Exec(f, c2)
  {
    match f
    case Throw(_) =>
    case Literal(_) =>
    case Var(name) =>
      assert Agrees(TargetPath(TargetVariable, [name]), c1, c2);
    case Meta(key) =>
      assert Agrees(TargetPath(TargetMetadata, [key]), c1, c2);
    case Field(path) =>
      assert Agrees(TargetPath(TargetValue, path), c1, c2);
    case Method(receiver, op) =>
      var rest := if op.Catch? then QueryTargets(op.fallback) else [];
      assert QueryTargets(f) == QueryTargets(receiver) + rest;
      assert AgreesOnAll(QueryTargets(receiver), c1, c2) by {
        forall t | t in QueryTargets(receiver) ensures Agrees(t, c1, c2) {
          assert t in QueryTargets(f);
        }
      }
      TargetsSound(receiver, c1, c2);
      if op.Catch? {
        assert AgreesOnAll(QueryTargets(op.fallback), c1, c2) by {
          forall t | t in QueryTargets(op.fallback) ensures Agrees(t, c1, c2) {
            assert t in QueryTargets(f);
          }
        }
        TargetsSound(op.fallback, c1, c2);
      }
  }

  /** A function that reports no targets gives the same result in every
      context, so its result can be computed once and reused. */
  lemma NoTargetsConstant(f: Function, c1: Ctx, c2: Ctx)
    requires QueryTargets(f) == []
    ensures Exec(f, c1) == Exec(f, c2)
  {
    TargetsSound(f, c1, c2);
  }

  /** Replacing any message other than the one at the index changes no result. */
  lemma OnlyCurrentMessageRead(f: Function, ctx: Ctx, j: int, m: Message)
    requires 0 <= j < |ctx.batch| && j != ctx.index
    ensures Exec(f, ctx.(batch := ctx.batch[j := m])) == Exec(f, ctx)
  {
    var c2 := ctx.(batch := ctx.batch[j := m]);
    assert Current(c2) == Current(ctx);
    TargetsSound(f, c2, ctx);
  }

  /** For an accessor the reported target is exact: the result is the same in
      two contexts if and only if they agree on that one location. */
  lemma AccessorTargetExact(f: Function, c1: Ctx, c2: Ctx)
    requires f.Var? || f.Meta? || f.Field?
    ensures |QueryTargets(f)| == 1
    ensures Agrees(QueryTargets(f)[0], c1, c2) <==> Exec(f, c1) == Exec(f, c2)
  {
    if f.Field? {
      var d1, d2 := Current(c1).doc, Current(c2).doc;
      assert NotJson[0] == 'm';
      assert PathNotFound(f.path)[0] == 'p';
      if d1.Some? && d2.Some? {
        assert Lookup(d1.value, f.path) == Lookup(d2.value, f.path) <==>
               ReadPath(d1, f.path) == ReadPath(d2, f.path);
      }
    } else if f.Var? {
      VarTargetExact(f.name, c1, c2);
    } else {
      MetaTargetExact(f.key, c1, c2);
    }
  }

  /** `var(name)` gives equal results in two contexts exactly when they agree on `name`. */
  lemma VarTargetExact(name: string, c1: Ctx, c2: Ctx)
    ensures SameKey(c1.vars, c2.vars, name) <==> Exec(Var(name), c1) == Exec(Var(name), c2)
  {
  }

  /** `meta(key)` gives equal results in two contexts exactly when their
      current messages agree on `key`. */
  lemma MetaTargetExact(key: string, c1: Ctx, c2: Ctx)
    ensures SameKey(Current(c1).meta, Current(c2).meta, key) <==>
            Exec(Meta(key), c1) == Exec(Meta(key), c2)
  {
  }

  /** The targets of a registered function: none for `throw`, and exactly one
      of the accessor's kind for `var`, `meta` and `json`, the last with the
      segments of its dotted path. */
  lemma InitFunctionTargets(name: string, s: string)
    requires name in FunctionNames
    ensures InitFunction(name, [Lit(VString(s))]).Ok?
    ensures var ts := QueryTargets(InitFunction(name, [Lit(VString(s))]).value);
      && (name == "throw" ==> ts == [])
      && (name == "var" ==> ts == [TargetPath(TargetVariable, [s])])
      && (name == "meta" ==> ts == [TargetPath(TargetMetadata, [s])])
      && (name == "json" ==> ts == [TargetPath(TargetValue, DotPath(s))])
  {
  }
}
