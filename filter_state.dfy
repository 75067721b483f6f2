/**
 * The values a filter node holds and the effect of each builder of
 * `SoftLayer_ObjectFilter` on a node's operation and options.
 *
 * A node's state apart from its children is a `NodeState`: at most one
 * operation string and an ordered list of option entries.  Each `After...`
 * function gives the state a builder leaves behind, as a function of the
 * state before the call; the class in module ObjectFilter is proved to
 * follow these functions.
 */
module FilterState {

  datatype Option<T> = None | Some(value: T)

  /** A value stored in an option: PHP null, a string, an integer or an array of values. */
  datatype Value = Null | Str(s: string) | Int(i: int) | List(items: seq<Value>)

  /**
   * One element of a node's option list: a record with a name and a value,
   * as `_createOption` builds it, or the null placeholder that a sort with
   * `sortAs` equal to "init" appends in place of its `lower` option.
   */
  datatype Entry = Opt(name: string, value: Value) | NullEntry

  /** The operation and the options of one node. */
  datatype NodeState = NodeState(operation: Option<string>, options: seq<Entry>)

  /** The state of a freshly created node: no operation, no options. */
  const Empty := NodeState(None, [])

  /** The result of `_addOptions`: it either appends or throws. */
  datatype Outcome = Pass | Fail(error: string)

  const InvalidOption := "Invalid option!"

  /**
   * PHP's loose test `$term != null` on a string term: both null and the
   * empty string count as absent.
   */
  function Present(term: Option<string>): (given: bool)
    ensures term.None? ==> !given
    ensures term == Some("") ==> !given
    ensures term.Some? && term.value != "" ==> given
  {
    term.Some? && term.value != ""
  }

  /** `strtolower` on one character: ASCII upper-case letters become lower-case, all else is kept. */
  function LowerChar(c: char): (lower: char)
  {
    if 'A' <= c <= 'Z' then (c as int + 32) as char else c
  }

  /** `strtolower`: lower-cases every character and keeps the length. */
  function Lower(s: string): (r: string)
    ensures |r| == |s|
    ensures forall i :: 0 <= i < |s| ==> r[i] == LowerChar(s[i])
  {
    if s == [] then [] else [LowerChar(s[0])] + Lower(s[1..])
  }

  /**
   * The `switch(strtolower($sortAs))` of `_sort` takes its 'init' case.
   * `strtolower(null)` is the empty string, which is not "init".  The
   * comparison ignores letter case, and only a four-letter word can match.
   */
  function SortsAsInit(sortAs: Option<string>): (init: bool)
    ensures init <==>
              sortAs.Some? && |sortAs.value| == 4 &&
              LowerChar(sortAs.value[0]) == 'i' && LowerChar(sortAs.value[1]) == 'n' &&
              LowerChar(sortAs.value[2]) == 'i' && LowerChar(sortAs.value[3]) == 't'
  {
    Lower(if sortAs.Some? then sortAs.value else "") == "init"
  }

  /**
   * `_sort(direction, sortAs)`: keeps an operation that is already a
   * string and otherwise sets "orderBy"; appends exactly two entries,
   * `sort=[direction]` and then either `lower=null` or, when `sortAs`
   * lower-cases to "init", the null placeholder.
   */
  function AfterSort(st: NodeState, direction: string, sortAs: Option<string>): (r: NodeState)
    ensures st.operation.Some? ==> r.operation == st.operation
    ensures st.operation.None? ==> r.operation == Some("orderBy")
    ensures |r.options| == |st.options| + 2 && r.options[..|st.options|] == st.options
    ensures r.options[|st.options|] == Opt("sort", List([Str(direction)]))
    ensures SortsAsInit(sortAs) ==> r.options[|st.options| + 1] == NullEntry
    ensures !SortsAsInit(sortAs) ==> r.options[|st.options| + 1] == Opt("lower", Null)
  {
    var operation := if st.operation.Some? then st.operation else Some("orderBy");
    var sort1 := Opt("sort", List([Str(direction)]));
    var sort2 := if SortsAsInit(sortAs) then NullEntry else Opt("lower", Null);
    NodeState(operation, st.options + [sort1, sort2])
  }

  /** `contains(term)`: operation "*=" followed by the term; a null or empty term changes nothing. */
  function AfterContains(st: NodeState, term: Option<string>): (r: NodeState)
    ensures r.options == st.options
    ensures Present(term) ==> r.operation == Some("*=" + term.value)
    ensures !Present(term) ==> r == st
  {
    if Present(term) then st.(operation := Some("*=" + term.value)) else st
  }

  /** `in(dataSet)`: operation "in" and exactly one appended entry, `data=dataSet`, unwrapped; an empty set is allowed. */
  function AfterIn(st: NodeState, dataSet: Value): (r: NodeState)
    ensures r.operation == Some("in")
    ensures |r.options| == |st.options| + 1 && r.options[..|st.options|] == st.options
    ensures r.options[|st.options|] == Opt("data", dataSet)
  {
    NodeState(Some("in"), st.options + [Opt("data", dataSet)])
  }

  /** `notIn(dataSet)`: operation "not in" and exactly one appended entry, `data=dataSet`, unwrapped. */
  function AfterNotIn(st: NodeState, dataSet: Value): (r: NodeState)
    ensures r.operation == Some("not in")
    ensures |r.options| == |st.options| + 1 && r.options[..|st.options|] == st.options
    ensures r.options[|st.options|] == Opt("data", dataSet)
  {
    NodeState(Some("not in"), st.options + [Opt("data", dataSet)])
  }

  /** `equals(term)`: the operation becomes the term itself; a null or empty term changes nothing. */
  function AfterEquals(st: NodeState, term: Option<string>): (r: NodeState)
    ensures r.options == st.options
    ensures Present(term) ==> r.operation == term
    ensures !Present(term) ==> r == st
  {
    if Present(term) then st.(operation := term) else st
  }

  /** `notEquals(term)`: operation "!= " (with a space) followed by the term; a null or empty term changes nothing. */
  function AfterNotEquals(st: NodeState, term: Option<string>): (r: NodeState)
    ensures r.options == st.options
    ensures Present(term) ==> r.operation == Some("!= " + term.value)
    ensures !Present(term) ==> r == st
  {
    if Present(term) then st.(operation := Some("!= " + term.value)) else st
  }

  /** `isNull()` and `notNull()`: always overwrite the operation and never touch the options. */
  function AfterIsNull(st: NodeState): (r: NodeState)
    ensures r.options == st.options && r.operation == Some("is null")
  {
    st.(operation := Some("is null"))
  }

  function AfterNotNull(st: NodeState): (r: NodeState)
    ensures r.options == st.options && r.operation == Some("not null")
  {
    st.(operation := Some("not null"))
  }

  /** `countEquals(count, operator)`: appends `itemCount=[count]`, then `countOperator=[operator]`; keeps the operation. */
  function AfterCountEquals(st: NodeState, count: int, operator: string): (r: NodeState)
    ensures r.operation == st.operation
    ensures |r.options| == |st.options| + 2 && r.options[..|st.options|] == st.options
    ensures r.options[|st.options|] == Opt("itemCount", List([Int(count)]))
    ensures r.options[|st.options| + 1] == Opt("countOperator", List([Str(operator)]))
  {
    st.(options := st.options + [Opt("itemCount", List([Int(count)])),
                                 Opt("countOperator", List([Str(operator)]))])
  }

  /**
   * `mergeEquals(fields, glue, value)`: operation "implodeLike" and three
   * appended entries, `properties=fields` as given, `glue=[glue]`, `value=[value]`.
   */
  function AfterMergeEquals(st: NodeState, fields: Value, glue: string, value: Value): (r: NodeState)
    ensures r.operation == Some("implodeLike")
    ensures |r.options| == |st.options| + 3 && r.options[..|st.options|] == st.options
    ensures r.options[|st.options|] == Opt("properties", fields)
    ensures r.options[|st.options| + 1] == Opt("glue", List([Str(glue)]))
    ensures r.options[|st.options| + 2] == Opt("value", List([value]))
  {
    NodeState(Some("implodeLike"),
              st.options + [Opt("properties", fields),
                            Opt("glue", List([Str(glue)])),
                            Opt("value", List([value]))])
  }

  /** `_startDate(date)`: operation "greaterThanDate" and one entry `date=[date]`, unless the date is absent. */
  function AfterStartDate(st: NodeState, date: Option<string>): (r: NodeState)
    ensures !Present(date) ==> r == st
    ensures Present(date) ==> r.operation == Some("greaterThanDate") &&
                              r.options == st.options + [Opt("date", List([Str(date.value)]))]
  {
    if Present(date) then NodeState(Some("greaterThanDate"), st.options + [Opt("date", List([Str(date.value)]))])
    else st
  }

  /** `_endDate(date)`: operation "lessThanDate" and one entry `date=[date]`, unless the date is absent. */
  function AfterEndDate(st: NodeState, date: Option<string>): (r: NodeState)
    ensures !Present(date) ==> r == st
    ensures Present(date) ==> r.operation == Some("lessThanDate") &&
                              r.options == st.options + [Opt("date", List([Str(date.value)]))]
  {
    if Present(date) then NodeState(Some("lessThanDate"), st.options + [Opt("date", List([Str(date.value)]))])
    else st
  }

  /**
   * `dateRange(startDate, endDate)` as written: with both dates present,
   * "betweenDate" with `startDate=[start]` then `endDate=[end]`; with only
   * the start, the effect of `_startDate`; otherwise `_endDate` is handed
   * the absent START date, so an end date alone changes nothing.
   */
  function AfterDateRange(st: NodeState, startDate: Option<string>, endDate: Option<string>): (r: NodeState)
    ensures Present(startDate) && Present(endDate) ==>
              r.operation == Some("betweenDate") &&
              |r.options| == |st.options| + 2 && r.options[..|st.options|] == st.options &&
              r.options[|st.options|] == Opt("startDate", List([Str(startDate.value)])) &&
              r.options[|st.options| + 1] == Opt("endDate", List([Str(endDate.value)]))
    ensures Present(startDate) && !Present(endDate) ==>
              r.operation == Some("greaterThanDate") &&
              r.options == st.options + [Opt("date", List([Str(startDate.value)]))]
    ensures !Present(startDate) ==> r == st
  {
    if Present(startDate) && Present(endDate) then
      NodeState(Some("betweenDate"),
                st.options + [Opt("startDate", List([Str(startDate.value)])),
                              Opt("endDate", List([Str(endDate.value)]))])
    else
      var afterStart := if Present(startDate) then AfterStartDate(st, startDate) else st;
      if Present(endDate) then AfterEndDate(afterStart, startDate) else afterStart
  }
}
