# Rule registry and failure aggregator of react-native-ama

react-native-ama runs accessibility checks on React Native components. This
project models the two parts that decide what happens to a check's result:

- **The rule registry** (`lib/internal/logger.rules.ts`) is the closed set of
  rules. It gives the severity of each rule (`warn` or `throw`), the rules
  whose severity a caller may not override, and the help link of each rule.
  Module `LoggerRules` models it with a datatype, total functions and lemmas.
- **The per-component aggregator** (`logResult` in `lib/internal/useChecks.ts`)
  takes a check's name and its result. The result is null, one report, or an
  array of possibly-null reports. `logResult` logs every report and keeps a
  list of failed check names, `failedTests`, and one error flag, `hasErrors`.
  It queues `trackError`/`removeError` calls for after the current
  interaction, and it returns the error style while the flag is up.
  - Class `UseChecks.Checks` holds that state in fields: `failed`,
    `hasErrors`, the notification queue `pending`, and the trace `log` that
    stands for the logger.
  - Its method `LogResult` implements the `forEach` as a `while` loop. It is
    proved equal to the value-level function `Aggregator.Observe`, which
    folds the results with `Aggregator.Process`.
  - The lemmas in `Aggregator` state what a call does in each case.
  - The six adapters are methods that call `LogResult` under their check's
    name. `UseChecks.CheckName` gives that name.

The model follows the code. Three things the code does differ from a
per-check "failing / clean" state machine, and the lemmas state each of them:

- The flag `hasErrors` is shared by every check name. When a second name
  passes, the flag goes down while the first name is still listed. After
  that, neither a pass nor a new failure of the first name sends a
  notification (`SharedFlagHidesOtherFailure`).
- A pass cuts the list at the name's first index. It also drops every name
  listed after it (`PassDropsLaterNames`).
- The name's index is read once, at the start of the call. A batch with k
  blocking reports, for a name that is not listed, therefore appends the
  name k times and queues k Track notifications
  (`AbsentNameTrackedPerReport`).

The logger's blocking decision (`getRuleAction(rule) === 'MUST_NOT'`) is
the parameter `isBlocking: Rule -> bool` given to the constructor. The
logger may throw on a blocking report. The model covers that only when the
constructor's `throwOnBlocking` flag is set. A call then logs the reports up
to the first blocking one and ends with `Threw(report)`. Because the throw
comes before the `push`, nothing else changes (`ThrowStopsTheBatch`).

## Model

| member | source | states |
|---|---|---|
| `LoggerRules.AllRulesEnumerated` | lib/internal/logger.rules.ts:1-8 | There are exactly seven rules, each listed once. |
| `LoggerRules.LoggerRule` | lib/internal/logger.rules.ts:16-24 | The severity table is total, with one value per rule, and the value is `warn` exactly for `CONTRAST_FAILED_AAA`. |
| `LoggerRules.CanRuleBeOverridden` | lib/internal/logger.rules.ts:45-47 | Gives false exactly for `NO_ACCESSIBILITY_ROLE` and `NO_ACCESSIBILITY_LABEL`, and true for the other five rules. |
| `LoggerRules.NonOverridableRulesThrow` | lib/internal/logger.rules.ts:11-24 | Every rule that cannot be overridden, and every rule other than the AAA contrast rule, has severity `throw`. |
| `LoggerRules.RuleHelp` | lib/internal/logger.rules.ts:28-43 | Gives the help link of each rule, and every link starts with `https://formidable.com/open-source/react-native-ama`. |
| `LoggerRules.RuleHelpInjective` | lib/internal/logger.rules.ts:28-43 | Two rules have the same help link only if they are the same rule. |
| `Aggregator.IndexOf` | lib/internal/useChecks.ts:42 | Gives -1 exactly when the name is absent. Otherwise it gives a position holding the name, with no earlier occurrence. |
| `Aggregator.Items` | lib/internal/useChecks.ts:56 | A null result gives no report to log, a single report gives a batch of that one report, and an array is used as it is. |
| `Aggregator.PresentMembers` | lib/internal/useChecks.ts:58-61 | As a set, the reports taken from an array are exactly its non-null entries. |
| `Aggregator.PresentCounts` | lib/internal/useChecks.ts:58-61 | Each report is taken from an array exactly as many times as it occurs there as a non-null entry. |
| `Aggregator.PresentAppend` | lib/internal/useChecks.ts:58-61 | Taking the reports respects concatenation, so they keep the array's order. |
| `Aggregator.Entries` | lib/internal/useChecks.ts:63-66 | Gives one log entry per report, in order, each with the report and its blocking decision. |
| `Aggregator.BlockingCount` | lib/internal/useChecks.ts:63-64 | Counts at most one per report, and is zero exactly when no report is blocking. |
| `Aggregator.UpToFirstBlocking` | lib/internal/useChecks.ts:58-66 | Gives the prefix of the reports that ends at the first blocking report. |
| `Aggregator.Process` | lib/internal/useChecks.ts:58-81 | Models the `forEach`. With no throwing logger it never stops early, and when it stops, it stops on a blocking report. |
| `Aggregator.ProcessInOrder` | lib/internal/useChecks.ts:58-81 | With no throw, the loop logs every report once, in order. For a name absent at the start of the call, it appends the name and queues a Track once per blocking report. |
| `Aggregator.ProcessStopsAtFirstBlocking` | lib/internal/useChecks.ts:58-66 | With a throwing logger, the loop logs up to the first blocking report and stops there. The list, the flag and the queue stay as they were. |
| `Aggregator.Observe` | lib/internal/useChecks.ts:42-83 | Models one call. The index is taken once, a null result then retracts, and the results are processed. The call returns the error style exactly when `hasErrors` is set at the end. With no throwing logger it always returns; a throw is on a blocking report. |
| `Aggregator.NullRetracts` | lib/internal/useChecks.ts:42-53 | A null result for a listed name while the flag is set cuts the list just before the name's first occurrence. It clears the flag, queues exactly one `Remove(token)`, logs nothing and returns the empty style. |
| `Aggregator.NullOtherwiseChangesNothing` | lib/internal/useChecks.ts:42-61 | A null result for an absent name, or while the flag is clear, changes nothing. |
| `Aggregator.ReportsInOrder` | lib/internal/useChecks.ts:42-83 | Gives the whole new state of a non-null call with no throw. Every report is logged once, in order. The name is appended and a Track queued once per blocking report, unless the name was listed when the call began. |
| `Aggregator.NonBlockingOnlyLogs` | lib/internal/useChecks.ts:63-69 | Non-blocking reports change only the log. |
| `Aggregator.ListedNameOnlyLogs` | lib/internal/useChecks.ts:42-72 | Reports for a name listed when the call began leave the list, the flag and the queue unchanged. This holds with or without a throw. The log only grows. |
| `Aggregator.AbsentNameTrackedPerReport` | lib/internal/useChecks.ts:42-80 | For an absent name, k blocking reports append the name k times and queue k `Track(token)`. When k > 0 they also set the flag. |
| `Aggregator.ThrowStopsTheBatch` | lib/internal/useChecks.ts:63-66 | With a throwing logger, a blocking report ends the call with `Threw`. Only the reports up to that one are logged. |
| `Aggregator.ObserveKeepsConsistent` | lib/internal/useChecks.ts:32-80 | Every call keeps two facts. The flag is set only while some name is listed. Every queued notification carries the instance's one token. |
| `Aggregator.FirstFailure` | lib/internal/useChecks.ts:74-80 | One blocking report for an absent name appends it, queues one Track, sets the flag and returns the error style. |
| `Aggregator.RepeatedReport` | lib/internal/useChecks.ts:70-72 | A report for a listed name is logged and changes nothing else. |
| `Aggregator.RepeatedFailureTrackedOnce` | lib/internal/useChecks.ts:42-81 | A check that fails twice is logged twice and tracked once. |
| `Aggregator.FailTwiceThenRecover` | lib/internal/useChecks.ts:42-81 | Fail, fail, pass queues exactly one Track and one Remove. A further pass changes nothing. |
| `Aggregator.SharedFlagHidesOtherFailure` | lib/internal/useChecks.ts:44-83 | a fails, then b fails, then b passes. a stays listed while the flag is clear and the call returns the empty style. A later pass of a changes nothing, and a later failure of a queues no Track. |
| `Aggregator.PassDropsLaterNames` | lib/internal/useChecks.ts:42-80 | a fails, then b fails, then a passes. The list becomes empty, and b's next failure is tracked again. |
| `UseChecks.CheckName` | lib/internal/useChecks.ts:86-114 | Gives the name each adapter tracks its results under. Only the property checks' names start with `"noUndefinedProperty "`. |
| `UseChecks.CheckNamesDistinct` | lib/internal/useChecks.ts:86-114 | Two adapters share a check name exactly when they are the same adapter. So two property checks are tracked apart unless their properties are equal. |
| `UseChecks.Checks.constructor` | lib/internal/useChecks.ts:32-34 | A new instance has nothing listed, the flag clear, nothing queued and nothing logged. |
| `UseChecks.Checks.LogResult` | lib/internal/useChecks.ts:38-84 | The new state and the outcome are those of `Observe` for the old state, and the instance stays consistent. |
| `UseChecks.Checks.NoUndefinedPropertyCheck` | lib/internal/useChecks.ts:86-90 | Forwards the result under `"noUndefinedProperty " + property`. |
| `UseChecks.Checks.ContrastCheck` | lib/internal/useChecks.ts:92-93 | Forwards the result under `contrastChecker`. |
| `UseChecks.Checks.MinimumSizeCheck` | lib/internal/useChecks.ts:95-100 | Forwards the result under `checkMinimumSize`. |
| `UseChecks.Checks.AccessibilityLabelCheck` | lib/internal/useChecks.ts:102-106 | Forwards the result under `accessibilityLabelChecker`. |
| `UseChecks.Checks.UppercaseCheck` | lib/internal/useChecks.ts:108-109 | Forwards the result under `uppercaseChecker`. |
| `UseChecks.Checks.FocusTrapCheck` | lib/internal/useChecks.ts:111-115 | Once the traversal settles, forwards the result under `checkFocusTrap` and discards the style. |

## Left out

- React's hook machinery (`useRef`, identity across re-renders): the refs are plain fields set up by the constructor.
- The token drawn from `Date.now()` and `Math.random()`: it is a constructor argument.
- `InteractionManager.runAfterInteractions` and the host callbacks `trackError` and `removeError`: each deferred call is an entry appended to `pending`. The queue is never run, because scheduling and the host are not part of this model.
- `getRuleAction` and `logFailure` (in `lib/internal/logger.ts`, which is not part of this model). The blocking decision is the parameter `isBlocking`. A logged diagnostic is a `LogEntry` holding the report and its blocking flag. Message formatting, terminal colours (`SHELL_COLORS`) and the help link in the message are not modelled.
- The throw of `logFailure` on a blocking action is modelled only when `throwOnBlocking` is set, because that logger's behaviour is not part of this model.
- The override of a rule's severity by a caller, and the resolution of a rule to an action, happen in the logger, which is not part of this model. `CanRuleBeOverridden` is modelled. The registry is not wired to `isBlocking`, because the mapping from a severity to an action lives in that logger too.
- The contents of `ERROR_STYLE`: the outcome records only whether the error style is returned.
- The check predicates (contrast, minimum size, labels, upper case, focus trap): their results are inputs to `LogResult`. A report carries its rule and a message. Other diagnostic fields are left out.
- The asynchronous focus-trap traversal: `FocusTrapCheck` is the later call that its settled promise makes.
- `CONTRAST_CHECKER_MAX_DEPTH`: the constant is declared, but the contrast checker that uses it is not part of this model.
