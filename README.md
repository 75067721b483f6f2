# SoftLayer object filter, modelled in Dafny

`SoftLayer_ObjectFilter` is the fluent builder a SoftLayer API client uses
to describe object filters. A caller walks a property path on a root node
(`$filter->users->createdDate`). Every property access lazily creates a
child node. At any node the caller then attaches a comparison: equality,
containment, set membership, a date range, a sort order, a null test, an
aggregate count test or a merged-field match. Each node keeps at most one
operation (the last write wins) and an ordered, append-only list of
options. The finished tree goes to a serializer that is not part of this
model.

The project has three modules:

- `FilterState` (`filter_state.dfy`) holds the values: `Value` (null,
  string, integer, array), `Entry` (a named option, or the null
  placeholder a sort appends) and `NodeState` (operation and options). It
  also holds the effect of every builder as a function of the state before
  the call (`AfterSort`, `AfterContains`, ..., `AfterDateRange`). Each
  function's `ensures` states what the builder promises: which operation it
  leaves, and exactly which entries it appends and in what order. A term
  that PHP's loose `$term != null` treats as absent (null or `""`) is
  `!Present(term)`.
- `FilterChains` (`filter_chains.dfy`) folds lists of builder calls over a
  node state (`Run`). It proves what whole chains promise. Options are only
  ever appended. Each call appends entries that depend only on the call,
  not on what the node held before (`Appended`, a table of the entries each
  builder's code appends, lines 31-42, 152, 165, 224-227, 242-246,
  263-269 and 284).
  An unconditional write of the operation wins. A sort or a count test
  keeps an operation that is already set. Builders with absent terms
  change nothing.
- `ObjectFilter` (`object_filter.dfy`) is the mutable node itself: `class
  Filter` with fields `children`, `operation` and `options`. Each method
  `modifies this` only, keeps `children` unchanged (except `Get`), and is
  proved to leave `State()` exactly as the matching `FilterState` function
  says. `_addOptions` keeps its `foreach` loop. `Chain` connects a sequence
  of method calls to `FilterChains.Run`, so the chain lemmas hold of real
  nodes.

`_createOption` (lines 99-105) is the `Entry` constructor `Opt(name, value)`,
so it has no member of its own.

Where the code does less or more than its doc comments suggest, the model follows
the code:

- `dateRange(null, end)` changes nothing. Line 269 hands the absent START
  date to `_endDate`, and `_endDate` ignores an absent date (line 297). So
  no `lessThanDate` operation and no `date` option appear.
  `AfterDateRange`'s `ensures !Present(startDate) ==> r == st` states this.
- A sort whose `sortAs` lower-cases to `init` still appends two entries. The
  second is a null placeholder (`NullEntry`), because `$sort2` stays `null`
  (line 32) and is still handed to `_addOptions` (line 42).
- `contains`, `equals`, `notEquals` and the date helpers ignore the empty
  string as well as null, because PHP's loose `!=` treats `""` as null.

## Model

| member | source | states |
|---|---|---|
| FilterState.Lower | SoftLayer/Common/ObjectFilter.class.php:34 | `strtolower` keeps the length and lower-cases each character independently |
| FilterState.Present | SoftLayer/Common/ObjectFilter.class.php:137 | a string term counts as given exactly when it is neither null nor "", as PHP's loose `$term != null` decides (also at lines 177, 189, 260, 268, 282 and 297) |
| FilterState.SortsAsInit | SoftLayer/Common/ObjectFilter.class.php:34-36 | the `'init'` case of the sort switch is taken exactly for four-letter words spelling "init" in any letter case; a null `sortAs` never takes it |
| FilterState.AfterSort | SoftLayer/Common/ObjectFilter.class.php:25-44 | a sort keeps a string operation and otherwise sets "orderBy"; it appends exactly `sort=[direction]` and then `lower=null`, or the null placeholder for `init` |
| FilterState.AfterContains | SoftLayer/Common/ObjectFilter.class.php:135-141 | `contains` sets "*=" + term and never touches options; a null or empty term leaves the node unchanged |
| FilterState.AfterIn | SoftLayer/Common/ObjectFilter.class.php:149-154 | `in` sets "in" and appends exactly one entry, `data` holding the data set unchanged |
| FilterState.AfterNotIn | SoftLayer/Common/ObjectFilter.class.php:162-167 | `notIn` sets "not in" and appends exactly one entry, `data` holding the data set unchanged |
| FilterState.AfterEquals | SoftLayer/Common/ObjectFilter.class.php:175-179 | `equals` makes the term itself the operation and never touches options; a null or empty term changes nothing |
| FilterState.AfterNotEquals | SoftLayer/Common/ObjectFilter.class.php:187-191 | `notEquals` sets "!= " + term, with the space; a null or empty term changes nothing |
| FilterState.AfterIsNull | SoftLayer/Common/ObjectFilter.class.php:198-202 | `isNull` always sets "is null" and keeps the options |
| FilterState.AfterNotNull | SoftLayer/Common/ObjectFilter.class.php:209-213 | `notNull` always sets "not null" and keeps the options |
| FilterState.AfterCountEquals | SoftLayer/Common/ObjectFilter.class.php:222-230 | `countEquals` keeps the operation and appends exactly `itemCount=[count]` then `countOperator=[operator]` |
| FilterState.AfterMergeEquals | SoftLayer/Common/ObjectFilter.class.php:239-248 | `mergeEquals` sets "implodeLike" and appends exactly `properties=fields` unwrapped, `glue=[glue]`, `value=[value]`, in that order |
| FilterState.AfterDateRange | SoftLayer/Common/ObjectFilter.class.php:258-272 | both dates: "betweenDate" with `startDate=[s]`, `endDate=[e]`; start only: "greaterThanDate" with one `date=[s]`; absent start: the node is unchanged, an end date included |
| FilterState.AfterStartDate | SoftLayer/Common/ObjectFilter.class.php:280-287 | a present date sets "greaterThanDate" and appends one `date=[date]`; an absent one changes nothing |
| FilterState.AfterEndDate | SoftLayer/Common/ObjectFilter.class.php:295-302 | a present date sets "lessThanDate" and appends one `date=[date]`; an absent one changes nothing |
| FilterChains.ApplyAppends | SoftLayer/Common/ObjectFilter.class.php:114-272 | every builder appends exactly the entries the table `Appended` lists for the call, whatever the node held before |
| FilterChains.ApplyOperation | SoftLayer/Common/ObjectFilter.class.php:114-272 | every builder leaves the operation it writes unconditionally, "orderBy" for a sort of a node without one, or else the old operation |
| FilterChains.RunConcat | SoftLayer/Common/ObjectFilter.class.php:114-272 | running one chain of builder calls after another is running their concatenation |
| FilterChains.RunAppends | SoftLayer/Common/ObjectFilter.class.php:64-90 | a chain of calls appends exactly its calls' entries, in call order, behind the old options |
| FilterChains.RunNeverDropsOptions | SoftLayer/Common/ObjectFilter.class.php:82-90 | options are append-only: the old options are a prefix of the options after any chain |
| FilterChains.LastWriteWins | SoftLayer/Common/ObjectFilter.class.php:135-272 | after any chain, a builder that writes the operation unconditionally decides it |
| FilterChains.SortKeepsOperation | SoftLayer/Common/ObjectFilter.class.php:27-29 | a sort after any chain that set an operation keeps that operation and still appends its two entries |
| FilterChains.CountEqualsKeepsOperation | SoftLayer/Common/ObjectFilter.class.php:222-230 | a count test never changes the operation a chain has set |
| FilterChains.AbsentTermsAreIgnored | SoftLayer/Common/ObjectFilter.class.php:135-302 | `contains`, `equals`, `notEquals` with an absent term, and `dateRange` with an absent start date, leave the node as the chain left it |
| FilterChains.SortUpTwiceAccumulates | SoftLayer/Common/ObjectFilter.class.php:114-117 | two `sortUp()` calls on a fresh node give "orderBy" and four entries, not deduplicated |
| ObjectFilter.Filter.constructor | SoftLayer/Common/ObjectFilter.class.php:54 | a new node has no children, no operation and no options |
| ObjectFilter.Filter.Get | SoftLayer/Common/ObjectFilter.class.php:52-56 | the first access of a name stores a fresh empty node under it and returns it; later accesses return that stored node; operation and options are unchanged; the node never becomes its own child |
| ObjectFilter.Filter.AddOption | SoftLayer/Common/ObjectFilter.class.php:82-90 | appends exactly one entry and changes nothing else |
| ObjectFilter.Filter.AddOptions | SoftLayer/Common/ObjectFilter.class.php:64-74 | a non-empty list is appended in order; an empty one fails with 'Invalid option!' and changes nothing |
| ObjectFilter.Filter.Sort | SoftLayer/Common/ObjectFilter.class.php:25-44 | the node ends in the state `AfterSort` gives; children unchanged |
| ObjectFilter.Filter.SortUp | SoftLayer/Common/ObjectFilter.class.php:114-117 | sorts with direction "ASC" and returns the node itself |
| ObjectFilter.Filter.SortDown | SoftLayer/Common/ObjectFilter.class.php:124-127 | sorts with direction "DESC" and returns the node itself |
| ObjectFilter.Filter.Contains | SoftLayer/Common/ObjectFilter.class.php:135-141 | the node ends in the state `AfterContains` gives and is returned |
| ObjectFilter.Filter.In | SoftLayer/Common/ObjectFilter.class.php:149-154 | the node ends in the state `AfterIn` gives and is returned |
| ObjectFilter.Filter.NotIn | SoftLayer/Common/ObjectFilter.class.php:162-167 | the node ends in the state `AfterNotIn` gives and is returned |
| ObjectFilter.Filter.Equals | SoftLayer/Common/ObjectFilter.class.php:175-179 | the node ends in the state `AfterEquals` gives and is returned |
| ObjectFilter.Filter.NotEquals | SoftLayer/Common/ObjectFilter.class.php:187-191 | the node ends in the state `AfterNotEquals` gives and is returned |
| ObjectFilter.Filter.IsNull | SoftLayer/Common/ObjectFilter.class.php:198-202 | the node ends in the state `AfterIsNull` gives and is returned |
| ObjectFilter.Filter.NotNull | SoftLayer/Common/ObjectFilter.class.php:209-213 | the node ends in the state `AfterNotNull` gives and is returned |
| ObjectFilter.Filter.CountEquals | SoftLayer/Common/ObjectFilter.class.php:222-230 | with defaults 1 and "=", the node ends in the state `AfterCountEquals` gives and is returned |
| ObjectFilter.Filter.MergeEquals | SoftLayer/Common/ObjectFilter.class.php:239-248 | the node ends in the state `AfterMergeEquals` gives and is returned |
| ObjectFilter.Filter.DateRange | SoftLayer/Common/ObjectFilter.class.php:258-272 | the node ends in the state `AfterDateRange` gives, through `_startDate` and `_endDate` as written, and is returned |
| ObjectFilter.Filter.StartDate | SoftLayer/Common/ObjectFilter.class.php:280-287 | the node ends in the state `AfterStartDate` gives |
| ObjectFilter.Filter.EndDate | SoftLayer/Common/ObjectFilter.class.php:295-302 | the node ends in the state `AfterEndDate` gives |
| ObjectFilter.Filter.Perform | SoftLayer/Common/ObjectFilter.class.php:114-272 | calling the builder a `Call` names leaves the state `FilterChains.Apply` gives and returns the node itself |
| ObjectFilter.Chain | SoftLayer/Common/ObjectFilter.class.php:114-272 | a chain of builder calls on one node leaves the state `FilterChains.Run` gives, with children unchanged |
| ObjectFilter.SameChildTwice | SoftLayer/Common/ObjectFilter.class.php:52-56 | for a node that is not its own child: two accesses of one name return the same child, the one already stored under that name if there is one and a fresh node otherwise; a builder applied through the first handle is seen through the second, and the parent keeps its state and gains at most that child; no sibling changes |

## Left out

- The parent class `SoftLayer_ObjectMask` and everything it declares: its source is not part of this model. A node here has only children, operation and options.
- PHP's shared property namespace: a child named `operation` or `options` would overwrite the node's own state in PHP. Children and state are kept apart here.
- Reading `operation` or `options` before either is set goes through `__get` in PHP and creates a throw-away child. The model treats such a value as absent (`None`, `[]`), which gives the same behaviour.
- `$sortNullsFirst` (line 40) is computed and never used, so it has no observable effect and is not modelled.
- The value domain is restricted: `Value` has null, strings, integers and lists, but no floats, booleans, objects or keyed PHP arrays. `in`, `notIn`, `mergeEquals` and `countEquals` store their arguments without inspecting them, so no builder behaviour depends on the missing kinds.
- PHP's loose comparison beyond null and `""`: `0`, `false` or `[]` as terms. Terms are strings or absent, so `equals` with an integer term is not modelled either.
- A non-array argument to `_addOptions`: the types rule it out. Every caller passes two or three entries, so the 'Invalid option!' exception is unreachable from the public builders (each of `Sort`, `CountEquals`, `MergeEquals` and `DateRange` asserts a `Pass` outcome); `AddOptions` still models it as a `Fail` outcome.
- FilterState.Lower: `strtolower` is modelled as ASCII-only lower-casing (PHP 8.2 and later); older locale-dependent lower-casing of other bytes is not modelled.
- Serialising the tree to the API wire format, HTTP transport and authentication happen outside this class.
