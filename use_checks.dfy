/** The checks one mounted component runs: the state `useChecks` keeps in its
    refs, `logResult`, which folds a check's result into that state, and the
    adapters that call it under each check's name. */
module UseChecks {
  import opened LoggerRules
  import opened Aggregator

  /** The checks that call logResult; each is tracked under its own name. */
  datatype Adapter =
    | NoUndefinedProperty(property: string)
    | ContrastChecker
    | CheckMinimumSize
    | AccessibilityLabelChecker
    | UppercaseChecker
    | CheckFocusTrap

  const UndefinedPropertyPrefix: string := "noUndefinedProperty "

  /** The name an adapter's results are tracked under; only the property
      checks' names start with the property-check prefix. */
  function CheckName(a: Adapter): (name: string)
    ensures UndefinedPropertyPrefix <= name <==> a.NoUndefinedProperty?
  {
    match a
    case NoUndefinedProperty(p) => UndefinedPropertyPrefix + p
    case ContrastChecker => "contrastChecker"
    case CheckMinimumSize => "checkMinimumSize"
    case AccessibilityLabelChecker =>
      assert "accessibilityLabelChecker"[0] != UndefinedPropertyPrefix[0];
      "accessibilityLabelChecker"
    case UppercaseChecker => "uppercaseChecker"
    case CheckFocusTrap => "checkFocusTrap"
  }

  /** Two adapters share a name only when they are the same adapter: the
      fixed names differ from each other and from every property check, and
      two property checks share a name only for the same property. */
  lemma CheckNamesDistinct(a: Adapter, b: Adapter)
    ensures CheckName(a) == CheckName(b) <==> a == b
  {
    if a.NoUndefinedProperty? && b.NoUndefinedProperty? {
      if CheckName(a) == CheckName(b) {
        var n := |UndefinedPropertyPrefix|;
        assert a.property == CheckName(a)[n..];
        assert b.property == CheckName(b)[n..];
      }
    } else if a != b {
      // the names already differ in their first character or their length
      assert CheckName(a)[0] != CheckName(b)[0] || |CheckName(a)| != |CheckName(b)|;
    }
  }

  /** The state of one component's checks. React's refs become fields; the
      deferred host calls become the queue `pending`; the logger becomes the
      trace `log`. */
  class Checks {
    /** The instance's token; in `useChecks` it is drawn once from
        `Date.now()` and `Math.random()`. */
    const token: string
    /** Whether a rule's action is the blocking one. */
    const isBlocking: Rule -> bool
    /** Whether the logger throws when it logs a blocking report. */
    const throwOnBlocking: bool

    var failed: seq<string>
    var hasErrors: bool
    var pending: seq<Notification>
    var log: seq<LogEntry>

    function Cfg(): Config
    {
      Config(token, isBlocking, throwOnBlocking)
    }

    function State(): Snapshot
      reads this
    {
      Snapshot(failed, hasErrors, pending, log)
    }

    ghost predicate Valid()
      reads this
    {
      Consistent(State(), token)
    }

    /** A freshly mounted component: nothing failed, nothing queued. */
    constructor (token: string, isBlocking: Rule -> bool, throwOnBlocking: bool)
      ensures Valid()
      ensures Cfg() == Config(token, isBlocking, throwOnBlocking)
      ensures State() == Initial
    {
      this.token := token;
      this.isBlocking := isBlocking;
      this.throwOnBlocking := throwOnBlocking;
      failed := [];
      hasErrors := false;
      pending := [];
      log := [];
    }

    /** logResult(name, result): fold one check's result into the state and
        return whether the error style applies, or throw with the blocking
        report the logger stopped on. */
    method LogResult(name: string, result: CheckResult) returns (o: Outcome)
      requires Valid()
      modifies this
      ensures Valid()
      ensures (State(), o) == Observe(old(State()), name, result, Cfg())
    {
      ghost var before := State();
      var index := IndexOf(failed, name);

      if result.Null? && index >= 0 && hasErrors {
        failed := failed[..index];
        hasErrors := false;
        pending := pending + [Remove(token)];
      }

      var items := Items(result);
      ghost var goal := Process(State(), index, name, Cfg(), items);
      var i := 0;
      while i < |items|
        invariant 0 <= i <= |items|
        invariant Process(State(), index, name, Cfg(), items[i..]) == goal
      {
        assert items[i..] == [items[i]] + items[i + 1..];
        if items[i].Some? {
          var rep := items[i].value;
          var blocking := isBlocking(rep.rule);
          log := log + [LogEntry(rep, blocking)];
          if blocking && throwOnBlocking {
            ObserveKeepsConsistent(before, name, result, Cfg());
            return Threw(rep);
          }
          if blocking && index < 0 {
            failed := failed + [name];
            pending := pending + [Track(token)];
            hasErrors := true;
          }
        }
        i := i + 1;
      }
      ObserveKeepsConsistent(before, name, result, Cfg());
      o := Returned(hasErrors);
    }

    /** The check that a property is defined, tracked per property name. */
    method NoUndefinedPropertyCheck(property: string, result: CheckResult) returns (o: Outcome)
      requires Valid()
      modifies this
      ensures Valid()
      ensures (State(), o) == Observe(old(State()), CheckName(NoUndefinedProperty(property)), result, Cfg())
    {
      o := LogResult(CheckName(NoUndefinedProperty(property)), result);
    }

    method ContrastCheck(result: CheckResult) returns (o: Outcome)
      requires Valid()
      modifies this
      ensures Valid()
      ensures (State(), o) == Observe(old(State()), CheckName(ContrastChecker), result, Cfg())
    {
      o := LogResult(CheckName(ContrastChecker), result);
    }

    method MinimumSizeCheck(result: CheckResult) returns (o: Outcome)
      requires Valid()
      modifies this
      ensures Valid()
      ensures (State(), o) == Observe(old(State()), CheckName(CheckMinimumSize), result, Cfg())
    {
      o := LogResult(CheckName(CheckMinimumSize), result);
    }

    method AccessibilityLabelCheck(result: CheckResult) returns (o: Outcome)
      requires Valid()
      modifies this
      ensures Valid()
      ensures (State(), o) == Observe(old(State()), CheckName(AccessibilityLabelChecker), result, Cfg())
    {
      o := LogResult(CheckName(AccessibilityLabelChecker), result);
    }

    method UppercaseCheck(result: CheckResult) returns (o: Outcome)
      requires Valid()
      modifies this
      ensures Valid()
      ensures (State(), o) == Observe(old(State()), CheckName(UppercaseChecker), result, Cfg())
    {
      o := LogResult(CheckName(UppercaseChecker), result);
    }

    /** The focus-trap check, once its traversal has settled; its style is
        discarded. A throw, if any, ends the settled callback. */
    method FocusTrapCheck(result: CheckResult)
      requires Valid()
      modifies this
      ensures Valid()
      ensures State() == Observe(old(State()), CheckName(CheckFocusTrap), result, Cfg()).0
    {
      var _ := LogResult(CheckName(CheckFocusTrap), result);
    }
  }
}
