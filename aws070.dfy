/**
 * Rule AWS070: an `aws_elasticsearch_domain` resource that declares
 * `log_publishing_options` blocks must have one whose `log_type` is
 * "AUDIT_LOGS".
 */
module Aws070 {
  import opened Wrappers
  import opened Parser
  import opened Scanner

  const Code: RuleCode := "AWS070"
  const LogPublishingOptions: string := "log_publishing_options"
  const LogType: string := "log_type"
  const AuditLogs: string := "AUDIT_LOGS"

  /** The registration record of the rule. */
  const Rule: Check := Check(
    Code,
    Documentation(
      "AWS ES Domain should have logging enabled",
      ["https://registry.terraform.io/providers/hashicorp/aws/latest/docs/resources/elasticsearch_domain#log_publishing_options"]),
    AwsProvider,
    ["resource"],
    ["aws_elasticsearch_domain"])

  /** A `log_publishing_options` block enables audit logs when its `log_type` is set and equals "AUDIT_LOGS". */
  predicate IsAuditLogOption(option: Block)
  {
    match GetAttribute(option, LogType)
    case None => false
    case Some(logType) => EqualsString(logType, AuditLogs)
  }

  /** Some direct child is a `log_publishing_options` block. */
  predicate DeclaresLogPublishing(block: Block)
  {
    exists c :: c in block.children && c.blockType == LogPublishingOptions
  }

  /** Some direct `log_publishing_options` child enables audit logs. */
  predicate EnablesAuditLogs(block: Block)
  {
    exists c :: c in block.children && c.blockType == LogPublishingOptions && IsAuditLogOption(c)
  }

  predicate AnyAuditLog(options: seq<Block>)
  {
    exists i :: 0 <= i < |options| && IsAuditLogOption(options[i])
  }

  const MissingAuditLogsText: string :=
    "' is missing 'AUDIT_LOGS` in one of the `log_publishing_options`-`log_type` attributes so audit log is not enabled"

  /** The finding's text, which names the resource by its full name. */
  function MissingAuditLogsMessage(block: Block): string
  {
    "Resource '" + FullName(block) + MissingAuditLogsText
  }

  /** The one finding the rule can report: severity error, at the resource block itself. */
  function MissingAuditLogsResult(check: Check, block: Block): Result
  {
    NewResult(check, MissingAuditLogsMessage(block), block.range, Error)
  }

  /**
   * What the rule reports for `block`: at most one finding, and one exactly
   * when some direct child is a `log_publishing_options` block and no such
   * child enables audit logs. A block with no such child passes.
   */
  function Evaluate(check: Check, block: Block): (r: seq<Result>)
    ensures r == [] || r == [MissingAuditLogsResult(check, block)]
    ensures r != [] <==> DeclaresLogPublishing(block) && !EnablesAuditLogs(block)
    ensures forall i :: 0 <= i < |r| ==>
      r[i].code == check.code && r[i].severity == Error && r[i].range == block.range
  {
    var options := GetBlocks(block, LogPublishingOptions);
    AnyAuditLogAmongChildren(block, options);
    if |options| > 0 && !AnyAuditLog(options) then [MissingAuditLogsResult(check, block)] else []
  }

  /** An audit-log option among the filtered children is one among the direct children of that type. */
  lemma AnyAuditLogAmongChildren(block: Block, options: seq<Block>)
    requires options == GetBlocks(block, LogPublishingOptions)
    ensures AnyAuditLog(options) <==> EnablesAuditLogs(block)
    ensures |options| > 0 <==> DeclaresLogPublishing(block)
  {
    if AnyAuditLog(options) {
      var i :| 0 <= i < |options| && IsAuditLogOption(options[i]);
      assert options[i] in options;
    }
    if c :| c in block.children && c.blockType == LogPublishingOptions && IsAuditLogOption(c) {
      var i :| 0 <= i < |options| && options[i] == c;
    }
    if |options| > 0 {
      assert options[0] in options;
    }
  }

  /**
   * The rule's check function. It walks every `log_publishing_options` child,
   * skipping those without a `log_type`, and raises a flag that is never
   * lowered once one of them enables audit logs. The context is not used.
   */
  method CheckFunc(check: Check, block: Block, ctx: Context) returns (results: seq<Result>)
    ensures results == Evaluate(check, block)
  {
    var options := GetBlocks(block, LogPublishingOptions);
    results := [];
    if |options| > 0 {
      var auditLogFound := false;
      for i := 0 to |options|
        invariant auditLogFound <==> exists j :: 0 <= j < i && IsAuditLogOption(options[j])
      {
        var logType := GetAttribute(options[i], LogType);
        if logType.Some? {
          if EqualsString(logType.value, AuditLogs) {
            auditLogFound := true;
          }
        }
      }
      if !auditLogFound {
        results := [NewResult(check, MissingAuditLogsMessage(block), block.range, Error)];
      }
    }
  }

  /** A block without a direct `log_publishing_options` child is not reported. */
  lemma NoLogPublishingOptionsPasses(check: Check, block: Block)
    requires forall c :: c in block.children ==> c.blockType != LogPublishingOptions
    ensures Evaluate(check, block) == []
  {
  }

  /** One `log_publishing_options` child with `log_type` "AUDIT_LOGS" is enough to pass. */
  lemma AuditLogOptionPasses(check: Check, block: Block, option: Block)
    requires option in block.children && option.blockType == LogPublishingOptions
    requires IsAuditLogOption(option)
    ensures Evaluate(check, block) == []
  {
  }

  /** Options present but none with audit logs: exactly the one error finding at the block's own range. */
  lemma MissingAuditLogsFails(check: Check, block: Block, option: Block)
    requires option in block.children && option.blockType == LogPublishingOptions
    requires forall c :: c in block.children && c.blockType == LogPublishingOptions ==> !IsAuditLogOption(c)
    ensures Evaluate(check, block) == [MissingAuditLogsResult(check, block)]
    ensures Evaluate(check, block)[0].severity == Error
    ensures Evaluate(check, block)[0].range == block.range
  {
  }

  /** An option whose `log_type` is unset is skipped, and does not count as an audit log. */
  lemma UnsetLogTypeIsNotAuditLog(option: Block)
    requires LogType !in option.attributes
    ensures !IsAuditLogOption(option)
  {
  }

  /** Only the string "AUDIT_LOGS" counts; any other value or kind of value, a list included, does not. */
  lemma AuditLogOptionIff(option: Block)
    ensures IsAuditLogOption(option) <==>
      LogType in option.attributes && option.attributes[LogType].value == StringValue(AuditLogs)
  {
  }

  /** The outcome does not depend on the order of the children. */
  lemma {:induction false} OrderIndependent(check: Check, block: Block, reordered: seq<Block>)
    requires multiset(reordered) == multiset(block.children)
    ensures Evaluate(check, block.(children := reordered)) == Evaluate(check, block)
  {
    var moved := block.(children := reordered);
    forall c
      ensures c in reordered <==> c in block.children
    {
      calc {
        c in reordered;
        c in multiset(reordered);
        c in multiset(block.children);
        c in block.children;
      }
    }
    assert MissingAuditLogsResult(check, moved) == MissingAuditLogsResult(check, block);
    assert (Evaluate(check, moved) != []) == (Evaluate(check, block) != []);
  }

  /** The record declares code AWS070, the AWS provider, type `resource` and label `aws_elasticsearch_domain`. */
  lemma RuleDeclaration()
    ensures Rule.code == "AWS070"
    ensures Rule.provider == AwsProvider
    ensures Rule.requiredTypes == ["resource"]
    ensures Rule.requiredLabels == ["aws_elasticsearch_domain"]
  {
  }

  /** The rule is dispatched exactly to `resource` blocks whose first label is `aws_elasticsearch_domain`. */
  lemma RuleAppliesTo(block: Block)
    ensures RequiredForBlock(Rule, block) <==>
      block.blockType == "resource" && |block.labels| >= 1 && block.labels[0] == "aws_elasticsearch_domain"
  {
  }

  /** An `aws_elasticsearch_domain` resource with one `log_publishing_options` block of the given log type. */
  function ExampleDomain(logType: string): Block
  {
    var at := Range("main.tf", 1, 6);
    var option := Block(
      LogPublishingOptions, [],
      map[LogType := Attribute(LogType, StringValue(logType), Range("main.tf", 4, 4))],
      [], Range("main.tf", 3, 5));
    Block("resource", ["aws_elasticsearch_domain", "example"], map[], [option], at)
  }

  /** The bad example yields one error finding; the good example yields none. */
  lemma ExampleDomains()
    ensures RequiredForBlock(Rule, ExampleDomain("INDEX_SLOW_LOGS"))
    ensures |Evaluate(Rule, ExampleDomain("INDEX_SLOW_LOGS"))| == 1
    ensures Evaluate(Rule, ExampleDomain("INDEX_SLOW_LOGS"))[0].severity == Error
    ensures Evaluate(Rule, ExampleDomain("AUDIT_LOGS")) == []
  {
  }
}
