/**
 * Chains of builder calls on one filter node.
 *
 * A caller of `SoftLayer_ObjectFilter` chains builder calls on the same
 * node; `Run` folds a list of such calls over a node state.  The lemmas say
 * what the whole chain promises: options are only ever appended, and each
 * call appends the same entries whatever the node held before; an
 * operation written unconditionally wins over everything before it; a sort
 * keeps an operation that is already set; and repeated calls accumulate.
 */
module FilterChains {
  import opened FilterState

  /** One public builder call, with its arguments. */
  datatype Call =
    | SortUp(sortAs: Option<string>)
    | SortDown(sortAs: Option<string>)
    | Contains(term: Option<string>)
    | In(dataSet: Value)
    | NotIn(dataSet: Value)
    | Equals(term: Option<string>)
    | NotEquals(term: Option<string>)
    | IsNull
    | NotNull
    | CountEquals(count: int, operator: string)
    | MergeEquals(fields: Value, glue: string, value: Value)
    | DateRange(startDate: Option<string>, endDate: Option<string>)

  /** The state one call leaves behind. */
  function Apply(st: NodeState, c: Call): (r: NodeState)
  {
    match c
    case SortUp(sortAs) => AfterSort(st, "ASC", sortAs)
    case SortDown(sortAs) => AfterSort(st, "DESC", sortAs)
    case Contains(term) => AfterContains(st, term)
    case In(dataSet) => AfterIn(st, dataSet)
    case NotIn(dataSet) => AfterNotIn(st, dataSet)
    case Equals(term) => AfterEquals(st, term)
    case NotEquals(term) => AfterNotEquals(st, term)
    case IsNull => AfterIsNull(st)
    case NotNull => AfterNotNull(st)
    case CountEquals(count, operator) => AfterCountEquals(st, count, operator)
    case MergeEquals(fields, glue, value) => AfterMergeEquals(st, fields, glue, value)
    case DateRange(startDate, endDate) => AfterDateRange(st, startDate, endDate)
  }

  /** The state a chain of calls leaves behind, first call first. */
  function Run(st: NodeState, calls: seq<Call>): (r: NodeState)
    decreases |calls|
  {
    if calls == [] then st else Run(Apply(st, calls[0]), calls[1..])
  }

  /**
   * The entries each builder's code appends, as a table over the call
   * alone: two for a sort, the second a null placeholder for 'init' (lines
   * 31-42); one `data` entry for a set membership test (lines 152, 165);
   * two for a count test (lines 224-227); three for a merged-field test
   * (lines 242-246); two, one or none for a date range (lines 263-269, the start-only
   * entry appended by `_startDate` at line 284, and the end-only case
   * appending nothing because line 269 passes the start date); none for
   * the rest.
   */
  function Appended(c: Call): (entries: seq<Entry>)
  {
    match c
    case SortUp(sortAs) => SortEntries("ASC", sortAs)
    case SortDown(sortAs) => SortEntries("DESC", sortAs)
    case In(dataSet) => [Opt("data", dataSet)]
    case NotIn(dataSet) => [Opt("data", dataSet)]
    case CountEquals(count, operator) =>
      [Opt("itemCount", List([Int(count)])), Opt("countOperator", List([Str(operator)]))]
    case MergeEquals(fields, glue, value) =>
      [Opt("properties", fields), Opt("glue", List([Str(glue)])), Opt("value", List([value]))]
    case DateRange(startDate, endDate) =>
      if Present(startDate) && Present(endDate) then
        [Opt("startDate", List([Str(startDate.value)])), Opt("endDate", List([Str(endDate.value)]))]
      else if Present(startDate) then
        [Opt("date", List([Str(startDate.value)]))]
      else
        []
    case _ => []
  }

  function SortEntries(direction: string, sortAs: Option<string>): (entries: seq<Entry>)
  {
    [Opt("sort", List([Str(direction)])), if SortsAsInit(sortAs) then NullEntry else Opt("lower", Null)]
  }

  /** The entries a whole chain appends, call by call. */
  function AllAppended(calls: seq<Call>): (entries: seq<Entry>)
    decreases |calls|
  {
    if calls == [] then [] else Appended(calls[0]) + AllAppended(calls[1..])
  }

  /**
   * The operation a call writes whatever the node held before, or None when
   * it keeps the current one (a sort, a count test, and a builder whose
   * terms are absent).
   */
  function Written(c: Call): (operation: Option<string>)
  {
    match c
    case Contains(term) => if Present(term) then Some("*=" + term.value) else None
    case In(_) => Some("in")
    case NotIn(_) => Some("not in")
    case Equals(term) => if Present(term) then term else None
    case NotEquals(term) => if Present(term) then Some("!= " + term.value) else None
    case IsNull => Some("is null")
    case NotNull => Some("not null")
    case MergeEquals(_, _, _) => Some("implodeLike")
    case DateRange(startDate, endDate) =>
      if Present(startDate) && Present(endDate) then Some("betweenDate")
      else if Present(startDate) then Some("greaterThanDate")
      else None
    case _ => None
  }

  predicate IsSort(c: Call)
  {
    c.SortUp? || c.SortDown?
  }

  /**
   * The options a call leaves are the old ones followed by exactly
   * `Appended(c)`, whatever the node held before.
   */
  lemma ApplyAppends(st: NodeState, c: Call)
    ensures Apply(st, c).options == st.options + Appended(c)
  {
  }

  /**
   * The operation a call leaves is `Written(c)` when that is set,
   * "orderBy" for a sort of a node without an operation, and otherwise
   * the old one.
   */
  lemma ApplyOperation(st: NodeState, c: Call)
    ensures Apply(st, c).operation ==
              if Written(c).Some? then Written(c)
              else if IsSort(c) && st.operation.None? then Some("orderBy")
              else st.operation
  {
  }

  /** Running two chains one after the other is running their concatenation. */
  lemma {:induction false} RunConcat(st: NodeState, a: seq<Call>, b: seq<Call>)
    ensures Run(st, a + b) == Run(Run(st, a), b)
    decreases |a|
  {
    if a == [] {
      assert a + b == b;
    } else {
      assert (a + b)[1..] == a[1..] + b;
      RunConcat(Apply(st, a[0]), a[1..], b);
    }
  }

  /** A chain appends exactly the entries of its calls, in call order, behind the old options. */
  lemma {:induction false} RunAppends(st: NodeState, calls: seq<Call>)
    ensures Run(st, calls).options == st.options + AllAppended(calls)
    decreases |calls|
  {
    if calls != [] {
      var next := Apply(st, calls[0]);
      var rest := calls[1..];
      ApplyAppends(st, calls[0]);
      RunAppends(next, rest);
      assert Run(st, calls) == Run(next, rest);
      assert AllAppended(calls) == Appended(calls[0]) + AllAppended(rest);
      assert (st.options + Appended(calls[0])) + AllAppended(rest) ==
             st.options + (Appended(calls[0]) + AllAppended(rest));
    }
  }

  /** Options are append-only: the old options are always a prefix of the new ones. */
  lemma RunNeverDropsOptions(st: NodeState, calls: seq<Call>)
    ensures st.options <= Run(st, calls).options
    ensures |Run(st, calls).options| == |st.options| + |AllAppended(calls)|
  {
    RunAppends(st, calls);
  }

  /** The last unconditional write of the operation wins, whatever the chain before it did. */
  lemma LastWriteWins(st: NodeState, calls: seq<Call>, c: Call)
    requires Written(c).Some?
    ensures Run(st, calls + [c]).operation == Written(c)
  {
    RunConcat(st, calls, [c]);
    ApplyOperation(Run(st, calls), c);
  }

  /** A sort keeps an operation that is already set, "orderBy" from an earlier sort included. */
  lemma SortKeepsOperation(st: NodeState, calls: seq<Call>, c: Call)
    requires IsSort(c) && Run(st, calls).operation.Some?
    ensures Run(st, calls + [c]).operation == Run(st, calls).operation
    ensures Run(st, calls + [c]).options == Run(st, calls).options + Appended(c)
  {
    RunConcat(st, calls, [c]);
    ApplyOperation(Run(st, calls), c);
    ApplyAppends(Run(st, calls), c);
  }

  /** A count test never changes the operation the chain has set so far. */
  lemma CountEqualsKeepsOperation(st: NodeState, calls: seq<Call>, count: int, operator: string)
    ensures Run(st, calls + [CountEquals(count, operator)]).operation == Run(st, calls).operation
  {
    RunConcat(st, calls, [CountEquals(count, operator)]);
  }

  /**
   * A builder with absent terms, `dateRange` with an absent start date
   * among them, leaves the node exactly as the chain before it left it.
   */
  lemma AbsentTermsAreIgnored(st: NodeState, calls: seq<Call>, c: Call)
    requires ((c.Contains? || c.Equals? || c.NotEquals?) && !Present(c.term)) ||
             (c.DateRange? && !Present(c.startDate))
    ensures Run(st, calls + [c]) == Run(st, calls)
  {
    RunConcat(st, calls, [c]);
  }

  /**
   * Calling `sortUp()` twice on a fresh node: "orderBy" from the first call
   * stays, and the second appends its two entries again rather than being
   * merged with the first.
   */
  lemma SortUpTwiceAccumulates()
    ensures Run(Empty, [SortUp(None), SortUp(None)]) ==
              NodeState(Some("orderBy"), [Opt("sort", List([Str("ASC")])), Opt("lower", Null),
                                          Opt("sort", List([Str("ASC")])), Opt("lower", Null)])
  {
    assert Lower("") == "";
    assert Apply(Empty, SortUp(None)) == NodeState(Some("orderBy"), [Opt("sort", List([Str("ASC")])), Opt("lower", Null)]);
    assert [SortUp(None), SortUp(None)][1..] == [SortUp(None)];
  }
}
