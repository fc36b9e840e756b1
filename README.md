# Query strategy constraints of small-text, in Dafny

This project models `small_text/query_strategies/base.py` of small-text, an
active-learning library. The file holds two things:

- `ClassificationType`, the closed enumeration `SINGLE_LABEL = 'single-label'` and
  `MULTI_LABEL = 'multi-label'`, with its parser `from_str`.
- The `constraints` decorator. It wraps a query strategy's `query` so that every call
  first checks the declared classification type against the label argument `y`. A
  mismatch raises; otherwise the call goes to the undecorated `query` unchanged.

The source is pure apart from raising, so the model is datatypes, functions and lemmas:

- `exceptions.dfy` (module `Exceptions`): Python's `ValueError` and `RuntimeError` as
  values, `Other` for any other exception a strategy itself raises, a `Result` for
  "returns or raises", and `Mentions`, Python's `part in msg`.
- `classification_type.dfy` (module `ClassificationTypes`): the enumeration, its `.value`
  and `FromStr`.
- `constraints.dfy` (module `Constraints`): the declared type (`None`, a string or a
  member), the label argument reduced to "is a `csr_matrix`" or not, the call's arguments
  with `n` optional, and the check-then-delegate `Query`. The decorated `query` always
  passes `n` on explicitly, as the caller's value or its own default 10 (`Forwarded`).
  The undecorated strategy is an opaque function from a call to a `Result`, so the
  errors it raises pass through as they are. `Constrain` is the decorated strategy.

The check is related to a reference definition, `Admits`: a call is let through exactly
when nothing is declared, or the declared member (or the string naming it) is the setting
the data reveals. Only a `csr_matrix` reveals multi-label data; anything else counts as
single-label data.

A declared string is parsed inside `query`, on every call
(small_text/query_strategies/base.py:50-51), not when the decorator is applied. So an
invalid string raises `ValueError` on the first `query` call, not at decoration.

## Model

| member | source | states |
|---|---|---|
| `ClassificationTypes.ClassificationType.Value` | small_text/query_strategies/base.py:12-13 | `.value` is `'single-label'` exactly for `SINGLE_LABEL` and `'multi-label'` exactly for `MULTI_LABEL` |
| `ClassificationTypes.FromStr` | small_text/query_strategies/base.py:15-29 | succeeds exactly for `'single-label'` and `'multi-label'`, and then returns the member whose `.value` is the input; every other string raises `ValueError` |
| `ClassificationTypes.FromStrValue` | small_text/query_strategies/base.py:23-26 | round-trip: parsing a member's `.value` gives that member back |
| `ClassificationTypes.ValueInjective` | small_text/query_strategies/base.py:12-13 | the two `.value` strings are distinct: equal values exactly when equal members |
| `ClassificationTypes.FromStrInverse` | small_text/query_strategies/base.py:23-26 | a string parses to a member if and only if it is that member's `.value` |
| `ClassificationTypes.FromStrRejects` | small_text/query_strategies/base.py:27-29 | any other string raises `ValueError` whose message contains the offending string |
| `ClassificationTypes.FromStrRejectsVariants` | small_text/query_strategies/base.py:27-29 | `'SINGLE_LABEL'`, `'MULTI_LABEL'`, `'single_label'`, `'multi_label'`, `'Single-Label'` and `''` are all rejected |
| `Constraints.CheckType` | small_text/query_strategies/base.py:55-63 | the two label checks pass exactly when the declared member is the setting `y` reveals; a failure is a `RuntimeError` |
| `Constraints.MismatchMessageMentions` | small_text/query_strategies/base.py:56-63 | a mismatch message contains the declared member's `.value` and the kind of data met |
| `Constraints.Check` | small_text/query_strategies/base.py:49-63 | the whole pre-check passes exactly when `Admits` holds; it raises `ValueError` exactly when the declared type is a string that does not parse, and `RuntimeError` on every other rejection |
| `Constraints.Forwarded` | small_text/query_strategies/base.py:47-66 | the call passed to `super().query` keeps every argument; `n` is always given, the caller's `n` if there was one and 10 otherwise |
| `Constraints.Query` | small_text/query_strategies/base.py:47-66 | an admitted call returns the undecorated strategy's outcome on the forwarded call; any other call raises exactly the pre-check's error, `ValueError` for an unparsable declared string and `RuntimeError` otherwise |
| `Constraints.Constrain` | small_text/query_strategies/base.py:32-68 | the decorated strategy answers every admitted call with the undecorated strategy's outcome on the forwarded call, and every other call with the pre-check's error |
| `Constraints.UnconstrainedDelegates` | small_text/query_strategies/base.py:49-66 | with no declared type every call is delegated whatever `y` is; a call that gives `n` reaches the undecorated strategy exactly as made |
| `Constraints.UnconstrainedOverridesDefaultN` | small_text/query_strategies/base.py:47-66 | with `n` left out, a strategy whose own default is not 10 answers differently once decorated, even without a declared type |
| `Constraints.SingleLabelRejectsCsr` | small_text/query_strategies/base.py:55-58 | declared single-label with a `csr_matrix` `y` raises `RuntimeError` naming `single-label` and "multi-label data" |
| `Constraints.MultiLabelRejectsOther` | small_text/query_strategies/base.py:59-63 | declared multi-label with any other `y` raises `RuntimeError` naming `multi-label` and "single-label data" |
| `Constraints.RejectionIgnoresStrategy` | small_text/query_strategies/base.py:49-66 | a rejected call does not depend on the undecorated strategy: it is never consulted |
| `Constraints.StrActsAsEnum` | small_text/query_strategies/base.py:50-53 | a declared string behaves exactly like the member it parses to, on every call |
| `Constraints.InvalidStrRaisesOnQuery` | small_text/query_strategies/base.py:50-51 | an unparsable declared string raises the parser's `ValueError` at `query` time, whatever `y` is, before any label check or delegation |
| `Constraints.DelegatesDefaultN` | small_text/query_strategies/base.py:47-66 | a call that omits `n` and passes the check reaches the undecorated strategy with the same arguments and `n = 10` |
| `Constraints.ConstrainIdempotent` | small_text/query_strategies/base.py:42-66 | decorating twice with the same declared type behaves as decorating once |

## Left out

- The class machinery of `constraints`: `functools.wraps`, the dynamic subclass
  `QueryStrategyConstraints` and its pass-through `__init__`. The decorated strategy is
  modelled as the composition `Constrain(declared, parent)`.
- The decorator-factory path through `functools.partial` (lines 38-39). When `cls` is not
  callable, `constraints` returns a partial that later makes the same call with the
  class. The model starts from that later call. A classification type passed
  positionally, whether a string (`@constraints('multi-label')`) or a member
  (`@constraints(ClassificationType.SINGLE_LABEL)`), lands in `cls`, is not callable, and
  so yields a partial with `classification_type=None`: an unconstrained decorator. The
  model does not represent that path.
- UnconstrainedDelegates: equates decorated and undecorated outcomes only for calls that
  give `n`. The decorated `query` never leaves `n` out: it passes its own default 10,
  so an undecorated strategy with a different default of its own answers differently
  once decorated (`UnconstrainedOverridesDefaultN`). The model does not give a strategy
  a default of its own: it receives `n` as given or left out and decides itself.
- `scipy.sparse.csr_matrix`: only the `isinstance` test matters, so `y` is the two-case
  `Labels`. Shapes and contents of label data are not inspected by the source either.
- The query-selection algorithms behind `super().query`, the classifier and the datasets:
  they are opaque type parameters and an opaque `Strategy` function.
- Python's `*args` and `**kwargs` are one opaque `extra` argument, passed through as a
  whole.
