/**
 * The parts of the rule engine a single rule touches: the registration
 * record, the finding it returns, the severity scale and the context value.
 */
module Scanner {
  import opened Parser

  type RuleCode = string

  datatype Severity = Info | Warning | Error

  /** The order of the severities: Info < Warning < Error. */
  function Rank(s: Severity): nat
  {
    match s
    case Info => 0
    case Warning => 1
    case Error => 2
  }

  const AwsProvider: string := "aws"

  /** Documentation text; opaque to the engine. */
  datatype Documentation = Documentation(summary: string, links: seq<string>)

  /** The registration record of one rule (its check function is kept beside it). */
  datatype Check = Check(
    code: RuleCode,
    documentation: Documentation,
    provider: string,
    requiredTypes: seq<string>,
    requiredLabels: seq<string>)

  /** One finding. */
  datatype Result = Result(code: RuleCode, description: string, range: Range, severity: Severity)

  /** The cross-block lookup surface handed to every check function. */
  datatype Context = Context(blocks: seq<Block>)

  /** A finding of `check` with the given text, location and severity. */
  function NewResult(check: Check, description: string, range: Range, severity: Severity): Result
  {
    Result(check.code, description, range, severity)
  }

  /**
   * Whether the dispatcher hands `block` to `check`: an empty list of required
   * types or labels matches anything; otherwise the block's type must be one
   * of the required types and the required labels a prefix of its labels.
   */
  predicate RequiredForBlock(check: Check, block: Block)
  {
    && (check.requiredTypes == [] || block.blockType in check.requiredTypes)
    && (check.requiredLabels == [] || check.requiredLabels <= block.labels)
  }
}
