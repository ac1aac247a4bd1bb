/**
 * The plugin's extension object: three tree sets of check names (error,
 * warn, disabled), the generated-code switch and the live list of excluded
 * path patterns.
 */
module PluginExtension {
  import opened SortedNames
  import opened Flags

  /** One `error(name)`, `warn(name)` or `off(name)` call. */
  datatype Call = Call(level: Level, name: string)

  /** The contents of the three buckets, each in iteration order. */
  datatype Overrides = Overrides(error: seq<string>, warn: seq<string>, disabled: seq<string>)
  {
    ghost predicate Valid()
    {
      StrictlySorted(error) && StrictlySorted(warn) && StrictlySorted(disabled)
    }

    function Bucket(level: Level): seq<string>
    {
      match level
      case ERROR => error
      case WARN => warn
      case OFF => disabled
    }
  }

  /** The effect of one call: the name joins its own bucket only. */
  function Apply(o: Overrides, c: Call): (r: Overrides)
    requires o.Valid()
    ensures r.Valid()
    ensures Elements(r.Bucket(c.level)) == Elements(o.Bucket(c.level)) + {c.name}
    ensures forall l :: l != c.level ==> r.Bucket(l) == o.Bucket(l)
  {
    match c.level
    case ERROR => o.(error := Insert(o.error, c.name))
    case WARN => o.(warn := Insert(o.warn, c.name))
    case OFF => o.(disabled := Insert(o.disabled, c.name))
  }

  /** The effect of a series of calls, made in order. */
  function ApplyAll(o: Overrides, calls: seq<Call>): (r: Overrides)
    requires o.Valid()
    ensures r.Valid()
  {
    if calls == [] then o
    else Apply(ApplyAll(o, calls[..|calls| - 1]), calls[|calls| - 1])
  }

  /** A call made twice leaves the state it leaves when made once. */
  lemma ApplyIdempotent(o: Overrides, c: Call)
    requires o.Valid()
    ensures Apply(Apply(o, c), c) == Apply(o, c)
  {
    match c.level
    case ERROR => InsertIdempotent(o.error, c.name);
    case WARN => InsertIdempotent(o.warn, c.name);
    case OFF => InsertIdempotent(o.disabled, c.name);
  }

  /**
   * After a series of calls, a name is in a bucket exactly when it was there
   * before or some call put it there.
   */
  lemma {:induction false} ApplyAllMembership(o: Overrides, calls: seq<Call>, level: Level, name: string)
    requires o.Valid()
    ensures name in ApplyAll(o, calls).Bucket(level) <==> name in o.Bucket(level) || Call(level, name) in calls
  {
    if calls != [] {
      var init, last := calls[..|calls| - 1], calls[|calls| - 1];
      ApplyAllMembership(o, init, level, name);
      assert calls == init + [last];
      assert name in ApplyAll(o, calls).Bucket(level) <==> name in Elements(ApplyAll(o, calls).Bucket(level));
      assert name in ApplyAll(o, init).Bucket(level) <==> name in Elements(ApplyAll(o, init).Bucket(level));
    }
  }

  /**
   * The final buckets do not depend on the order of the calls, nor on how
   * often each is repeated: only on which calls were made.
   */
  lemma ApplyAllOrderIndependent(o: Overrides, calls: seq<Call>, calls': seq<Call>)
    requires o.Valid()
    requires forall c :: c in calls <==> c in calls'
    ensures ApplyAll(o, calls) == ApplyAll(o, calls')
  {
    var r, r' := ApplyAll(o, calls), ApplyAll(o, calls');
    forall level: Level ensures r.Bucket(level) == r'.Bucket(level) {
      forall name ensures name in Elements(r.Bucket(level)) <==> name in Elements(r'.Bucket(level)) {
        ApplyAllMembership(o, calls, level, name);
        ApplyAllMembership(o, calls', level, name);
      }
      SortedUnique(r.Bucket(level), r'.Bucket(level));
    }
    assert r.error == r'.error && r.warn == r'.warn && r.disabled == r'.disabled by {
      assert r.Bucket(ERROR) == r'.Bucket(ERROR);
      assert r.Bucket(WARN) == r'.Bucket(WARN);
      assert r.Bucket(OFF) == r'.Bucket(OFF);
    }
  }

  /** No exclusivity between buckets: one name can sit in all three. */
  lemma BucketsIndependent(o: Overrides, name: string)
    requires o.Valid()
    ensures var r := ApplyAll(o, [Call(ERROR, name), Call(WARN, name), Call(OFF, name)]);
      name in r.error && name in r.warn && name in r.disabled
  {
    var calls := [Call(ERROR, name), Call(WARN, name), Call(OFF, name)];
    ApplyAllMembership(o, calls, ERROR, name);
    ApplyAllMembership(o, calls, WARN, name);
    ApplyAllMembership(o, calls, OFF, name);
  }

  /** A java.util.ArrayList<String> that is handed out and mutated in place. */
  class StringList {
    var items: seq<string>

    constructor ()
      ensures items == []
    {
      items := [];
    }

    method Add(s: string)
      modifies this
      ensures items == old(items) + [s]
    {
      items := items + [s];
    }
  }

  class ErrorPronePluginExtension {
    var errorPatternNames: seq<string>
    var warnPatternNames: seq<string>
    var disabledPatternNames: seq<string>
    var disableWarningsInGeneratedCode: bool
    /** Never reassigned; callers change it through GetExcludedPaths. */
    const excludedPaths: StringList

    function Buckets(): Overrides
      reads this
    {
      Overrides(errorPatternNames, warnPatternNames, disabledPatternNames)
    }

    /** Each bucket is a tree set: ascending and free of duplicates. */
    ghost predicate Valid()
      reads this
    {
      Buckets().Valid()
    }

    constructor ()
      ensures Valid()
      ensures errorPatternNames == [] && warnPatternNames == [] && disabledPatternNames == []
      ensures disableWarningsInGeneratedCode
      ensures fresh(excludedPaths) && excludedPaths.items == []
    {
      errorPatternNames := [];
      warnPatternNames := [];
      disabledPatternNames := [];
      disableWarningsInGeneratedCode := true;
      excludedPaths := new StringList();
    }

    method SetDisableWarningsInGeneratedCode(disable: bool)
      modifies this`disableWarningsInGeneratedCode
      ensures disableWarningsInGeneratedCode == disable
      ensures Buckets() == old(Buckets())
      ensures excludedPaths.items == old(excludedPaths.items)
    {
      disableWarningsInGeneratedCode := disable;
    }

    method DisableWarningsInGeneratedCode() returns (disable: bool)
      ensures disable == disableWarningsInGeneratedCode
    {
      disable := disableWarningsInGeneratedCode;
    }

    /** Hands out the live list itself, not a copy. */
    method GetExcludedPaths() returns (paths: StringList)
      ensures paths == excludedPaths
    {
      paths := excludedPaths;
    }

    method Error(patternName: string)
      requires Valid()
      modifies this`errorPatternNames
      ensures Valid()
      ensures Buckets() == Apply(old(Buckets()), Call(ERROR, patternName))
      ensures Elements(errorPatternNames) == Elements(old(errorPatternNames)) + {patternName}
      ensures warnPatternNames == old(warnPatternNames) && disabledPatternNames == old(disabledPatternNames)
      ensures disableWarningsInGeneratedCode == old(disableWarningsInGeneratedCode)
      ensures excludedPaths.items == old(excludedPaths.items)
    {
      errorPatternNames := Insert(errorPatternNames, patternName);
    }

    method Warn(patternName: string)
      requires Valid()
      modifies this`warnPatternNames
      ensures Valid()
      ensures Buckets() == Apply(old(Buckets()), Call(WARN, patternName))
      ensures Elements(warnPatternNames) == Elements(old(warnPatternNames)) + {patternName}
      ensures errorPatternNames == old(errorPatternNames) && disabledPatternNames == old(disabledPatternNames)
      ensures disableWarningsInGeneratedCode == old(disableWarningsInGeneratedCode)
      ensures excludedPaths.items == old(excludedPaths.items)
    {
      warnPatternNames := Insert(warnPatternNames, patternName);
    }

    method Off(patternName: string)
      requires Valid()
      modifies this`disabledPatternNames
      ensures Valid()
      ensures Buckets() == Apply(old(Buckets()), Call(OFF, patternName))
      ensures Elements(disabledPatternNames) == Elements(old(disabledPatternNames)) + {patternName}
      ensures errorPatternNames == old(errorPatternNames) && warnPatternNames == old(warnPatternNames)
      ensures disableWarningsInGeneratedCode == old(disableWarningsInGeneratedCode)
      ensures excludedPaths.items == old(excludedPaths.items)
    {
      disabledPatternNames := Insert(disabledPatternNames, patternName);
    }

    method GetErrorPatternNames() returns (names: seq<string>)
      requires Valid()
      ensures names == errorPatternNames && StrictlySorted(names)
    {
      names := errorPatternNames;
    }

    method GetWarnPatternNames() returns (names: seq<string>)
      requires Valid()
      ensures names == warnPatternNames && StrictlySorted(names)
    {
      names := warnPatternNames;
    }

    method GetDisabledPatternNames() returns (names: seq<string>)
      requires Valid()
      ensures names == disabledPatternNames && StrictlySorted(names)
    {
      names := disabledPatternNames;
    }
  }
}
