/** The rule registry of the accessibility checker: the closed set of rules,
    the severity each rule is configured with, the rules whose severity a
    caller may not override, and the help page quoted for each rule. Nothing
    in it is ever changed. */
module LoggerRules {

  /** The accessibility rules a check can report. */
  datatype Rule =
    | ContrastFailed
    | ContrastFailedAAA
    | MinimumSize
    | UppercaseTextNoAccessibilityLabel
    | UppercaseAccessibilityLabel
    | NoAccessibilityRole
    | NoAccessibilityLabel

  /** The configured severity of a rule: 'warn' or 'throw'. */
  datatype RuleValue = Warn | Throw

  /** Every rule, in declaration order. */
  const AllRules: seq<Rule> := [
    ContrastFailed,
    ContrastFailedAAA,
    MinimumSize,
    UppercaseTextNoAccessibilityLabel,
    UppercaseAccessibilityLabel,
    NoAccessibilityRole,
    NoAccessibilityLabel
  ]

  /** The rules whose severity a caller may not change. */
  const NonOverridableRules: seq<Rule> := [NoAccessibilityRole, NoAccessibilityLabel]

  /** How deep the contrast checker descends into a component's children. */
  const ContrastCheckerMaxDepth: nat := 5

  /** The documentation site every help link points into. */
  const HelpSite: string := "https://formidable.com/open-source/react-native-ama"

  /** The severity table; a total function, so every rule has exactly one
      severity. Only the AAA contrast level is advisory. */
  function LoggerRule(rule: Rule): (v: RuleValue)
    ensures v == Warn <==> rule == ContrastFailedAAA
  {
    match rule
    case ContrastFailed => Throw
    case ContrastFailedAAA => Warn
    case MinimumSize => Throw
    case UppercaseTextNoAccessibilityLabel => Throw
    case UppercaseAccessibilityLabel => Throw
    case NoAccessibilityLabel => Throw
    case NoAccessibilityRole => Throw
  }

  /** The help links, one per rule, each written as the documentation site
      followed by the page within it. */
  const ContrastFailedHelp: string :=
    HelpSite + "/docs/advanced/contrast#contrast_failed"
  const ContrastFailedAAAHelp: string :=
    HelpSite + "/docs/advanced/contrast#contrast_failed_aaa"
  const MinimumSizeHelp: string :=
    HelpSite + "/docs/advanced/minimum-size"
  const UppercaseTextNoAccessibilityLabelHelp: string :=
    HelpSite + "//docs/rules/uppercase-text#uppercase_text_no_accessibility_label"
  const UppercaseAccessibilityLabelHelp: string :=
    HelpSite + "//docs/rules/uppercase-text#uppercase_accessibility_label"
  const NoAccessibilityLabelHelp: string :=
    HelpSite + "/docs/rules/accessibility-labels#no_accessibility_label"
  const NoAccessibilityRoleHelp: string :=
    HelpSite + "/docs/rules/accessibility-role#no_accessibility_role"

  /** The help page quoted in a diagnostic for a rule; every one lies under
      the documentation site. */
  function RuleHelp(rule: Rule): (url: string)
    ensures HelpSite <= url
  {
    match rule
    case ContrastFailed => ContrastFailedHelp
    case ContrastFailedAAA => ContrastFailedAAAHelp
    case MinimumSize => MinimumSizeHelp
    case UppercaseTextNoAccessibilityLabel => UppercaseTextNoAccessibilityLabelHelp
    case UppercaseAccessibilityLabel => UppercaseAccessibilityLabelHelp
    case NoAccessibilityLabel => NoAccessibilityLabelHelp
    case NoAccessibilityRole => NoAccessibilityRoleHelp
  }

  /** A rule can be overridden unless it is listed as non-overridable. */
  function CanRuleBeOverridden(rule: Rule): (b: bool)
    ensures b <==> rule != NoAccessibilityRole && rule != NoAccessibilityLabel
  {
    rule !in NonOverridableRules
  }

  /** The rule type has exactly the seven members of AllRules, each once. */
  lemma AllRulesEnumerated()
    ensures |AllRules| == 7
    ensures forall r: Rule :: r in AllRules
    ensures forall i, j :: 0 <= i < j < |AllRules| ==> AllRules[i] != AllRules[j]
  {
    forall r: Rule
      ensures r in AllRules
    {
      match r
      case ContrastFailed => assert AllRules[0] == r;
      case ContrastFailedAAA => assert AllRules[1] == r;
      case MinimumSize => assert AllRules[2] == r;
      case UppercaseTextNoAccessibilityLabel => assert AllRules[3] == r;
      case UppercaseAccessibilityLabel => assert AllRules[4] == r;
      case NoAccessibilityRole => assert AllRules[5] == r;
      case NoAccessibilityLabel => assert AllRules[6] == r;
    }
  }

  /** Exactly two rules are protected, and both are configured to throw. */
  lemma NonOverridableRulesThrow()
    ensures forall r: Rule :: !CanRuleBeOverridden(r) ==> LoggerRule(r) == Throw
    ensures forall r: Rule :: r != ContrastFailedAAA ==> LoggerRule(r) == Throw
  {
  }

  /** No two rules share a help page. */
  lemma RuleHelpInjective(a: Rule, b: Rule)
    ensures RuleHelp(a) == RuleHelp(b) <==> a == b
  {
  }
}
