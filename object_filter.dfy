/**
 * The mutable filter node of `SoftLayer_ObjectFilter`.
 *
 * A `Filter` keeps its lazily created children, at most one operation and
 * an append-only list of options.  Every builder changes only `this`
 * (never a child) and is proved to leave `State()` as the corresponding
 * function of module FilterState prescribes, with the children untouched.
 * The public builders return the node itself, so calls can be chained.
 */
module ObjectFilter {
  import opened FilterState
  import FilterChains

  class Filter {
    /** The child nodes, keyed by property name; PHP keeps them as dynamic properties. */
    var children: map<string, Filter>
    /** The operation to perform on this path, if one is set. */
    var operation: Option<string>
    /** The options of the operation, in the order they were added. */
    var options: seq<Entry>

    /** A new node: no children, no operation, no options. */
    constructor ()
      ensures children == map[] && State() == Empty
    {
      children := map[];
      operation := None;
      options := [];
    }

    /** The operation and options of this node, as a value. */
    function State(): (st: NodeState)
      reads this
    {
      NodeState(operation, options)
    }

    /**
     * `__get(name)`: the first access of a property stores a fresh, empty
     * node under that name and returns it; the property then exists, so
     * every later access returns the node stored the first time.  The
     * child is never the node itself, so a node that is not its own child
     * stays so.
     */
    method Get(name: string) returns (child: Filter)
      modifies this
      ensures State() == old(State())
      ensures name in children && children[name] == child
      ensures old(this !in children.Values) ==> this !in children.Values
      ensures name in old(children) ==> children == old(children) && child == old(children[name])
      ensures name !in old(children) ==>
                fresh(child) && child.children == map[] && child.State() == Empty &&
                children == old(children)[name := child]
    {
      if name in children {
        child := children[name];
      } else {
        child := new Filter();
        children := children[name := child];
      }
    }

    /** `_addOption(option)`: appends one entry to the options. */
    method AddOption(option: Entry)
      modifies this
      ensures children == old(children) && operation == old(operation)
      ensures options == old(options) + [option]
    {
      options := options + [option];
    }

    /**
     * `_addOptions(list)`: appends every entry of a non-empty list, in
     * order; an empty list throws 'Invalid option!' before anything changes.
     */
    method AddOptions(list: seq<Entry>) returns (outcome: Outcome)
      modifies this
      ensures outcome == if |list| > 0 then Pass else Fail(InvalidOption)
      ensures children == old(children) && operation == old(operation)
      ensures options == if outcome.Pass? then old(options) + list else old(options)
    {
      if |list| == 0 {
        return Fail(InvalidOption);
      }
      var i := 0;
      while i < |list|
        invariant 0 <= i <= |list|
        invariant children == old(children) && operation == old(operation)
        invariant options == old(options) + list[..i]
      {
        AddOption(list[i]);
        i := i + 1;
      }
      assert list[..i] == list;
      outcome := Pass;
    }

    /** `_sort(direction, sortAs)`. */
    method Sort(direction: string, sortAs: Option<string>)
      modifies this
      ensures children == old(children)
      ensures State() == AfterSort(old(State()), direction, sortAs)
    {
      if operation.None? {
        operation := Some("orderBy");
      }
      var sort1 := Opt("sort", List([Str(direction)]));
      var sort2 := NullEntry;
      if !SortsAsInit(sortAs) {
        sort2 := Opt("lower", Null);
      }
      var outcome := AddOptions([sort1, sort2]);
      assert outcome == Pass;
    }

    /** `sortUp(sortAs)`: sorts ascending. */
    method SortUp(sortAs: Option<string> := None) returns (self: Filter)
      modifies this
      ensures self == this && children == old(children)
      ensures State() == AfterSort(old(State()), "ASC", sortAs)
    {
      Sort("ASC", sortAs);
      self := this;
    }

    /** `sortDown(sortAs)`: sorts descending. */
    method SortDown(sortAs: Option<string> := None) returns (self: Filter)
      modifies this
      ensures self == this && children == old(children)
      ensures State() == AfterSort(old(State()), "DESC", sortAs)
    {
      Sort("DESC", sortAs);
      self := this;
    }

    /** `contains(term)`. */
    method Contains(term: Option<string> := None) returns (self: Filter)
      modifies this
      ensures self == this && children == old(children)
      ensures State() == AfterContains(old(State()), term)
    {
      if Present(term) {
        operation := Some("*=" + term.value);
      }
      self := this;
    }

    /** `in(dataSet)`. */
    method In(dataSet: Value) returns (self: Filter)
      modifies this
      ensures self == this && children == old(children)
      ensures State() == AfterIn(old(State()), dataSet)
    {
      operation := Some("in");
      AddOption(Opt("data", dataSet));
      self := this;
    }

    /** `notIn(dataSet)`. */
    method NotIn(dataSet: Value) returns (self: Filter)
      modifies this
      ensures self == this && children == old(children)
      ensures State() == AfterNotIn(old(State()), dataSet)
    {
      operation := Some("not in");
      AddOption(Opt("data", dataSet));
      self := this;
    }

    /** `equals(term)`. */
    method Equals(term: Option<string>) returns (self: Filter)
      modifies this
      ensures self == this && children == old(children)
      ensures State() == AfterEquals(old(State()), term)
    {
      if Present(term) {
        operation := term;
      }
      self := this;
    }

    /** `notEquals(term)`. */
    method NotEquals(term: Option<string>) returns (self: Filter)
      modifies this
      ensures self == this && children == old(children)
      ensures State() == AfterNotEquals(old(State()), term)
    {
      if Present(term) {
        operation := Some("!= " + term.value);
      }
      self := this;
    }

    /** `isNull()`. */
    method IsNull() returns (self: Filter)
      modifies this
      ensures self == this && children == old(children)
      ensures State() == AfterIsNull(old(State()))
    {
      operation := Some("is null");
      self := this;
    }

    /** `notNull()`. */
    method NotNull() returns (self: Filter)
      modifies this
      ensures self == this && children == old(children)
      ensures State() == AfterNotNull(old(State()))
    {
      operation := Some("not null");
      self := this;
    }

    /** `countEquals(count, operator)`, with the source's defaults 1 and "=". */
    method CountEquals(count: int := 1, operator: string := "=") returns (self: Filter)
      modifies this
      ensures self == this && children == old(children)
      ensures State() == AfterCountEquals(old(State()), count, operator)
    {
      var outcome := AddOptions([Opt("itemCount", List([Int(count)])),
                                 Opt("countOperator", List([Str(operator)]))]);
      assert outcome == Pass;
      self := this;
    }

    /** `mergeEquals(fields, glue, value)`. */
    method MergeEquals(fields: Value, glue: string, value: Value) returns (self: Filter)
      modifies this
      ensures self == this && children == old(children)
      ensures State() == AfterMergeEquals(old(State()), fields, glue, value)
    {
      operation := Some("implodeLike");
      var outcome := AddOptions([Opt("properties", fields),
                                 Opt("glue", List([Str(glue)])),
                                 Opt("value", List([value]))]);
      assert outcome == Pass;
      self := this;
    }

    /** `dateRange(startDate, endDate)`, including its hand-off of the start date to `_endDate`. */
    method DateRange(startDate: Option<string> := None, endDate: Option<string> := None) returns (self: Filter)
      modifies this
      ensures self == this && children == old(children)
      ensures State() == AfterDateRange(old(State()), startDate, endDate)
    {
      if Present(startDate) && Present(endDate) {
        operation := Some("betweenDate");
        var outcome := AddOptions([Opt("startDate", List([Str(startDate.value)])),
                                   Opt("endDate", List([Str(endDate.value)]))]);
        assert outcome == Pass;
      } else {
        if Present(startDate) {
          StartDate(startDate);
        }
        if Present(endDate) {
          EndDate(startDate);
        }
      }
      self := this;
    }

    /** `_startDate(date)`. */
    method StartDate(date: Option<string>)
      modifies this
      ensures children == old(children)
      ensures State() == AfterStartDate(old(State()), date)
    {
      if Present(date) {
        operation := Some("greaterThanDate");
        AddOption(Opt("date", List([Str(date.value)])));
      }
    }

    /** `_endDate(date)`. */
    method EndDate(date: Option<string>)
      modifies this
      ensures children == old(children)
      ensures State() == AfterEndDate(old(State()), date)
    {
      if Present(date) {
        operation := Some("lessThanDate");
        AddOption(Opt("date", List([Str(date.value)])));
      }
    }

    /** One builder call, dispatched to the method of that name; like the builders it returns the node. */
    method Perform(c: FilterChains.Call) returns (self: Filter)
      modifies this
      ensures self == this && children == old(children)
      ensures State() == FilterChains.Apply(old(State()), c)
    {
      match c
      case SortUp(sortAs) => self := SortUp(sortAs);
      case SortDown(sortAs) => self := SortDown(sortAs);
      case Contains(term) => self := Contains(term);
      case In(dataSet) => self := In(dataSet);
      case NotIn(dataSet) => self := NotIn(dataSet);
      case Equals(term) => self := Equals(term);
      case NotEquals(term) => self := NotEquals(term);
      case IsNull => self := IsNull();
      case NotNull => self := NotNull();
      case CountEquals(count, operator) => self := CountEquals(count, operator);
      case MergeEquals(fields, glue, value) => self := MergeEquals(fields, glue, value);
      case DateRange(startDate, endDate) => self := DateRange(startDate, endDate);
    }
  }

  /**
   * A chain of builder calls on one node ends in the state `Run` gives, so
   * the lemmas of module FilterChains (append-only options, last write
   * wins, sorts keep an operation) hold of the node itself.
   */
  method Chain(node: Filter, calls: seq<FilterChains.Call>)
    modifies node
    ensures node.children == old(node.children)
    ensures node.State() == FilterChains.Run(old(node.State()), calls)
  {
    var i := 0;
    while i < |calls|
      invariant 0 <= i <= |calls|
      invariant node.children == old(node.children)
      invariant FilterChains.Run(node.State(), calls[i..]) == FilterChains.Run(old(node.State()), calls)
    {
      assert calls[i..][1..] == calls[i + 1..];
      var self := node.Perform(calls[i]);
      i := i + 1;
    }
  }

  /**
   * Two accesses of the same property through one node give the same
   * child: the one already stored under that name, or else a fresh one.
   * Operations applied through either handle meet in it; the parent keeps
   * its own state and gains at most that one child, and no other node
   * changes.  A node that is not its own child is all `Get` ever builds.
   */
  method SameChildTwice(node: Filter, name: string) returns (first: Filter, second: Filter)
    requires node !in node.children.Values
    modifies node, if name in node.children then {node.children[name]} else {}
    ensures first == second && name in node.children && node.children[name] == first
    ensures name in old(node.children) ==> first == old(node.children[name])
    ensures name !in old(node.children) ==> fresh(first)
    ensures node.State() == old(node.State())
    ensures node.children == old(node.children)[name := first]
    ensures first.State() == AfterIsNull(old(if name in node.children then node.children[name].State() else Empty))
  {
    first := node.Get(name);
    var self := first.IsNull();
    second := node.Get(name);
  }
}
