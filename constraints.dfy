/**
 The `constraints` decorator of small_text/query_strategies/base.py. The decorated
 strategy's `query` checks the declared classification type against the label argument
 `y` and then delegates to the undecorated `query` with every argument unchanged.

 The undecorated strategy is an opaque function from a call to its outcome; the
 decorated one is that function composed with the check.
 */
module Constraints {
  import opened Exceptions
  import opened ClassificationTypes

  /** The `classification_type` argument of `constraints`: `None`, a string or a member. */
  datatype Declared = Unconstrained | Str(name: string) | Enum(member: ClassificationType)

  /**
   The label argument `y`, reduced to the one fact the check looks at: whether it is a
   `scipy.sparse.csr_matrix`. Neither its shape nor its contents are inspected.
   */
  datatype Labels = CsrMatrix | NotCsrMatrix

  datatype Option<+T> = None | Some(value: T)

  /**
   The arguments of `query(clf, datasets, indices_unlabeled, indices_labeled, y, *args,
   n=10, **kwargs)`. `extra` bundles `*args` and `**kwargs`. `n` is keyword-only; `None`
   means the caller left it out, so the callee's own default applies.
   */
  datatype QueryCall<Clf, Data, Extra> = QueryCall(
    clf: Clf,
    datasets: Data,
    indicesUnlabeled: seq<int>,
    indicesLabeled: seq<int>,
    y: Labels,
    extra: Extra,
    nameonly n: Option<int> := None)

  /** The decorated `query`'s own default for `n`. */
  const DefaultN := 10

  /**
   The call the decorated `query` passes to `super().query`: every argument as it came,
   and `n` always given explicitly, as the caller's `n` or else the decorator's default.
   */
  function Forwarded<Clf, Data, Extra>(call: QueryCall<Clf, Data, Extra>): (c: QueryCall<Clf, Data, Extra>)
    ensures c.clf == call.clf && c.datasets == call.datasets
    ensures c.indicesUnlabeled == call.indicesUnlabeled && c.indicesLabeled == call.indicesLabeled
    ensures c.y == call.y && c.extra == call.extra
    ensures c.n.Some?
    ensures call.n.Some? ==> c == call
    ensures call.n.None? ==> c.n == Some(DefaultN)
  {
    match call.n
    case Some(_) => call
    case None => call.(n := Some(DefaultN))
  }

  /** A query strategy's `query`: it returns the selected indices or raises. */
  type Strategy<!Clf, !Data, !Extra> = QueryCall<Clf, Data, Extra> -> Result<seq<int>>

  /** The setting the label data reveals: a `csr_matrix` is multi-label, anything else single-label. */
  function ActualType(y: Labels): ClassificationType {
    if y.CsrMatrix? then MultiLabel else SingleLabel
  }

  /**
   Reference definition of a call the decorated strategy lets through: no declared type,
   a declared member equal to the setting the data reveals, or a declared string that is
   the `.value` of that setting.
   */
  predicate Admits(declared: Declared, y: Labels) {
    match declared
    case Unconstrained => true
    case Enum(t) => t == ActualType(y)
    case Str(s) => s == ActualType(y).Value()
  }

  /** The `RuntimeError` message for a declared type `t` that met `data` ("... data"). */
  function MismatchMessage(t: ClassificationType, data: string): string {
    "Invalid configuration: This query strategy requires classification_type="
      + t.Value() + " but " + data + " was encountered"
  }

  /** The mismatch message names the declared type's `.value` and the data encountered. */
  lemma {:induction false} MismatchMessageMentions(t: ClassificationType, data: string)
    ensures Mentions(MismatchMessage(t, data), t.Value())
    ensures Mentions(MismatchMessage(t, data), data)
  {
    var head := "Invalid configuration: This query strategy requires classification_type=";
    var value, but, tail := t.Value(), " but ", " was encountered";
    MentionsInfix(head, value, but);
    MentionsExtended(head + value + but, value, data);
    MentionsExtended(head + value + but + data, value, tail);
    MentionsInfix(head + value + but, data, tail);
  }

  /** The two label checks of `query`, on an already parsed declared type. */
  function CheckType(t: ClassificationType, y: Labels): (r: Result<()>)
    ensures r.Ok? <==> t == ActualType(y)
    ensures r.Err? ==> r.error.RuntimeError?
  {
    if t == SingleLabel && y.CsrMatrix? then
      Err(RuntimeError(MismatchMessage(t, "multi-label data")))
    else if t == MultiLabel && !y.CsrMatrix? then
      Err(RuntimeError(MismatchMessage(t, "single-label data")))
    else
      assert t == ActualType(y);
      Ok(())
  }

  /**
   Everything `query` does before it delegates: a declared string is parsed on every
   call, then the label checks run. `Ok(())` lets the call through.
   */
  function Check(declared: Declared, y: Labels): (r: Result<()>)
    ensures r.Ok? <==> Admits(declared, y)
    ensures r.Err? && r.error.ValueError? <==> declared.Str? && FromStr(declared.name).Err?
    ensures r.Err? ==> r.error.ValueError? || r.error.RuntimeError?
  {
    match declared
    case Unconstrained => Ok(())
    case Enum(t) => CheckType(t, y)
    case Str(s) =>
      var parsed := FromStr(s);
      if parsed.Err? then Err(parsed.error)
      else CheckType(parsed.value, y)
  }

  /**
   `QueryStrategyConstraints.query`: the check, then `super().query` on the same
   arguments, whose outcome (a result or a raised error) is returned as it is.
   */
  function Query<Clf, Data, Extra>(
    declared: Declared, parent: Strategy<Clf, Data, Extra>, call: QueryCall<Clf, Data, Extra>)
    : (r: Result<seq<int>>)
    ensures Admits(declared, call.y) ==> r == parent(Forwarded(call))
    ensures !Admits(declared, call.y) ==> r == Err(Check(declared, call.y).error)
    ensures !Admits(declared, call.y) ==>
      (r.error.ValueError? <==> declared.Str? && FromStr(declared.name).Err?) &&
      (r.error.RuntimeError? <==> !(declared.Str? && FromStr(declared.name).Err?))
  {
    match Check(declared, call.y)
    case Ok(_) => parent(Forwarded(call))
    case Err(e) => Err(e)
  }

  /**
   `constraints(cls, classification_type=declared)`: the strategy class it returns, whose
   `query` lets through exactly the admitted calls and forwards them to `cls`.
   */
  function Constrain<Clf(!new), Data(!new), Extra(!new)>(declared: Declared, parent: Strategy<Clf, Data, Extra>)
    : (s: Strategy<Clf, Data, Extra>)
    ensures forall c: QueryCall<Clf, Data, Extra> :: Admits(declared, c.y) ==> s(c) == parent(Forwarded(c))
    ensures forall c: QueryCall<Clf, Data, Extra> :: !Admits(declared, c.y) ==> s(c) == Err(Check(declared, c.y).error)
  {
    call => Query(declared, parent, call)
  }

  /**
   Without a declared type (also the bare `@constraints`) every call is delegated; a call
   that gives `n` reaches the undecorated strategy exactly as it was made.
   */
  lemma UnconstrainedDelegates<Clf(!new), Data(!new), Extra(!new)>(
    parent: Strategy<Clf, Data, Extra>, call: QueryCall<Clf, Data, Extra>)
    ensures Constrain(Unconstrained, parent)(call) == parent(Forwarded(call))
    ensures call.n.Some? ==> Constrain(Unconstrained, parent)(call) == parent(call)
  {
  }

  /** A strategy that answers with the `n` it sees, using `ownDefault` when none is given. */
  function EchoN(ownDefault: int, c: QueryCall<int, int, int>): Result<seq<int>> {
    match c.n
    case Some(k) => Ok([k])
    case None => Ok([ownDefault])
  }

  /**
   Even unconstrained, decorating is not invisible when the caller leaves `n` out: the
   undecorated strategy then receives `n = 10`, not its own default, so a strategy whose
   own default is not 10 answers differently once decorated.
   */
  lemma {:induction false} UnconstrainedOverridesDefaultN(ownDefault: int, call: QueryCall<int, int, int>)
    requires call.n.None? && ownDefault != DefaultN
    ensures Constrain(Unconstrained, c => EchoN(ownDefault, c))(call) != EchoN(ownDefault, call)
  {
    var parent: Strategy<int, int, int> := c => EchoN(ownDefault, c);
    assert Constrain(Unconstrained, parent)(call) == Ok([DefaultN]);
  }

  /** Declared single-label, a `csr_matrix` `y` raises `RuntimeError` naming both settings. */
  lemma {:induction false} SingleLabelRejectsCsr<Clf, Data, Extra>(
    parent: Strategy<Clf, Data, Extra>, call: QueryCall<Clf, Data, Extra>)
    requires call.y == CsrMatrix
    ensures var r := Query(Enum(SingleLabel), parent, call);
      r.Err? && r.error.RuntimeError?
      && Mentions(r.error.msg, "single-label") && Mentions(r.error.msg, "multi-label data")
  {
    MismatchMessageMentions(SingleLabel, "multi-label data");
  }

  /** Declared multi-label, any other `y` raises `RuntimeError` naming both settings. */
  lemma {:induction false} MultiLabelRejectsOther<Clf, Data, Extra>(
    parent: Strategy<Clf, Data, Extra>, call: QueryCall<Clf, Data, Extra>)
    requires call.y == NotCsrMatrix
    ensures var r := Query(Enum(MultiLabel), parent, call);
      r.Err? && r.error.RuntimeError?
      && Mentions(r.error.msg, "multi-label") && Mentions(r.error.msg, "single-label data")
  {
    MismatchMessageMentions(MultiLabel, "single-label data");
  }

  /** A rejected call never reaches the undecorated strategy: its outcome does not depend on it. */
  lemma RejectionIgnoresStrategy<Clf, Data, Extra>(
    declared: Declared, parent: Strategy<Clf, Data, Extra>, other: Strategy<Clf, Data, Extra>,
    call: QueryCall<Clf, Data, Extra>)
    requires !Admits(declared, call.y)
    ensures Query(declared, parent, call) == Query(declared, other, call)
  {
  }

  /** A declared string acts exactly as the member it parses to. */
  lemma StrActsAsEnum<Clf, Data, Extra>(
    s: string, t: ClassificationType, parent: Strategy<Clf, Data, Extra>,
    call: QueryCall<Clf, Data, Extra>)
    requires FromStr(s) == Ok(t)
    ensures Query(Str(s), parent, call) == Query(Enum(t), parent, call)
  {
  }

  /**
   An unparsable declared string raises the parser's `ValueError` at call time, whatever
   `y` is and without consulting the undecorated strategy.
   */
  lemma InvalidStrRaisesOnQuery<Clf, Data, Extra>(
    s: string, parent: Strategy<Clf, Data, Extra>, call: QueryCall<Clf, Data, Extra>)
    requires s != "single-label" && s != "multi-label"
    ensures Query(Str(s), parent, call) == Err(ValueError(ConversionMessage(s)))
  {
  }

  /**
   A call that passes the check reaches the undecorated strategy with the same
   arguments, `n` defaulting to 10 when the caller leaves it out.
   */
  lemma DelegatesDefaultN<Clf, Data, Extra>(
    declared: Declared, parent: Strategy<Clf, Data, Extra>, clf: Clf, datasets: Data,
    indicesUnlabeled: seq<int>, indicesLabeled: seq<int>, y: Labels, extra: Extra)
    requires Admits(declared, y)
    ensures Query(declared, parent, QueryCall(clf, datasets, indicesUnlabeled, indicesLabeled, y, extra))
      == parent(QueryCall(clf, datasets, indicesUnlabeled, indicesLabeled, y, extra, n := Some(10)))
  {
  }

  /** Decorating twice with the same declared type behaves as decorating once. */
  lemma ConstrainIdempotent<Clf(!new), Data(!new), Extra(!new)>(
    declared: Declared, parent: Strategy<Clf, Data, Extra>, call: QueryCall<Clf, Data, Extra>)
    ensures Constrain(declared, Constrain(declared, parent))(call) == Constrain(declared, parent)(call)
  {
  }
}
