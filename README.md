# AWS070 — Elasticsearch domains must publish audit logs

This project models tfsec's rule AWS070 and proves what it reports. The rule is
a check over one parsed Terraform block. It applies to `resource` blocks labelled
`aws_elasticsearch_domain`. It looks at the block's direct `log_publishing_options`
children. If there is at least one such child and none of them has `log_type`
equal to `"AUDIT_LOGS"`, it reports one finding. That finding has severity error
and lies at the resource block's own range. In every other case it reports
nothing. A block with no `log_publishing_options` child at all passes.

Modules, leaf first:

- `Wrappers` (wrappers.dfy): `Option`, the explicit "absent" result of an attribute lookup.
- `Parser` (parser.dfy): the block tree. It defines `Block`, `Attribute`, `Value` and `Range`,
  plus the three accessors the rule uses. `GetBlocks` keeps the direct children of one type,
  in order. `GetAttribute` returns an `Option`. `EqualsString` is a strict, total comparison
  with a string literal.
- `Scanner` (scanner.dfy): the registration record `Check`, the finding `Result`, the
  ordered `Severity`, the `Context` handed to every check, and the applicability
  predicate `RequiredForBlock`.
- `Aws070` (aws070.dfy): the rule's record `Rule` and its check.
  - `Evaluate` is a pure specification of the check.
  - `CheckFunc` is the check itself, an imperative method. Its for-loop sets a flag
    that is never cleared, and it is proved equal to `Evaluate`.
  - The file ends with lemmas about `Evaluate`.

## Model

| member | source | states |
|---|---|---|
| Parser.BlocksOfType | internal/app/tfsec/checks/aws070.go:53 | the filtered children are exactly the given blocks of the requested type (both directions), and there are no more of them than blocks |
| Parser.BlocksOfTypeAppend | internal/app/tfsec/checks/aws070.go:53 | filtering distributes over concatenation, so the children's order is kept |
| Parser.GetBlocks | internal/app/tfsec/checks/aws070.go:53 | a block is returned iff it is a direct child of the requested type; grandchildren are never returned |
| Parser.GetAttribute | internal/app/tfsec/checks/aws070.go:57-58 | the lookup is absent exactly when the attribute is not set, and otherwise yields the block's attribute of that name |
| Parser.EqualsString | internal/app/tfsec/checks/aws070.go:59 | the comparison is true iff the value is exactly that string; a value of any other kind compares unequal and never fails |
| Aws070.AnyAuditLogAmongChildren | internal/app/tfsec/checks/aws070.go:53-63 | looking for an audit-log option in the filtered list is the same as looking among the direct `log_publishing_options` children; the list is non-empty iff such a child exists |
| Aws070.Evaluate | internal/app/tfsec/checks/aws070.go:52-77 | the result is empty or the single error finding at the block's range carrying the check's code; it is non-empty iff a `log_publishing_options` child exists and none enables audit logs |
| Aws070.CheckFunc | internal/app/tfsec/checks/aws070.go:52-77 | the loop with its one-way `auditLogFound` flag returns exactly what `Evaluate` specifies, whatever the context |
| Aws070.NoLogPublishingOptionsPasses | internal/app/tfsec/checks/aws070.go:53-54 | a block with no direct `log_publishing_options` child gets no finding |
| Aws070.AuditLogOptionPasses | internal/app/tfsec/checks/aws070.go:56-65 | one child with `log_type` "AUDIT_LOGS" is enough for no finding |
| Aws070.MissingAuditLogsFails | internal/app/tfsec/checks/aws070.go:65-72 | options present but none with audit logs gives exactly one finding, with severity error and the enclosing block's range |
| Aws070.UnsetLogTypeIsNotAuditLog | internal/app/tfsec/checks/aws070.go:57-58 | an option without `log_type` is skipped and does not count as an audit log |
| Aws070.AuditLogOptionIff | internal/app/tfsec/checks/aws070.go:57-61 | an option enables audit logs iff its `log_type` is set to the string "AUDIT_LOGS" |
| Aws070.OrderIndependent | internal/app/tfsec/checks/aws070.go:55-63 | reordering the children (any permutation) does not change the outcome |
| Aws070.RuleDeclaration | internal/app/tfsec/checks/aws070.go:38-51 | the record declares code AWS070, the AWS provider, required type `resource` and required label `aws_elasticsearch_domain` |
| Aws070.RuleAppliesTo | internal/app/tfsec/checks/aws070.go:49-51 | the rule applies exactly to `resource` blocks whose first label is `aws_elasticsearch_domain` |
| Aws070.ExampleDomains | internal/app/tfsec/checks/aws070.go:14-35 | the documented bad example (INDEX_SLOW_LOGS) yields one error finding and the good example (AUDIT_LOGS) yields none |

## Left out

- Registration: `scanner.RegisterCheck` adds the record to a process-wide registry. That registry is not part of this model, so `Rule` is a plain constant.
- Dispatch: the scanner's matching code is not part of this model. `RequiredForBlock` assumes a type must be one of the required types. It assumes the required labels must be a prefix of the block's labels. For AWS070's single label this means the first label must equal `aws_elasticsearch_domain`. Provider matching is not modelled.
- Parser accessors: their source is not part of this model. `GetBlocks` is modelled as an order-preserving filter of the direct children by type. `GetAttribute` is a map lookup. `Equals` is strict equality with a string value.
- `FullName` is assumed to join the labels with "."; the finding's text is formatted by `fmt.Sprintf`, and the model keeps it only as an opaque string that embeds that name.
- Documentation: the explanation and the good and bad example texts are left out because they have no behaviour. Only the summary and the link are kept.
- Numbers in attribute values are unbounded integers: floating point is not modelled (the rule only compares strings).
- The check returns Go's `nil` for "no findings"; the model uses the empty sequence, which callers cannot tell apart from it.
- `Context` holds only the scanned blocks: suppression directives and cross-resource lookups are not modelled, because the rule never reads its context.
