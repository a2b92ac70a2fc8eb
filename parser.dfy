/**
 * A minimal model of the configuration tree the rules are evaluated against:
 * blocks with a type, labels, attributes and nested blocks, and the three
 * accessors a rule uses (GetBlocks, GetAttribute, Equals).
 */
module Parser {
  import opened Wrappers

  /** A source location: file and first and last line. */
  datatype Range = Range(filename: string, startLine: nat, endLine: nat)

  /** The value of an attribute; its kind is fixed when it is parsed. */
  datatype Value =
    | StringValue(s: string)
    | NumberValue(n: int)
    | BoolValue(b: bool)
    | ListValue(items: seq<Value>)
    | MapValue(entries: map<string, Value>)
    | Reference(path: string)

  datatype Attribute = Attribute(name: string, value: Value, range: Range)

  /** One configuration block; `children` are its directly nested blocks, in source order. */
  datatype Block = Block(
    blockType: string,
    labels: seq<string>,
    attributes: map<string, Attribute>,
    children: seq<Block>,
    range: Range)

  /** The blocks of `blocks` whose type is `name`, in their original order. */
  function BlocksOfType(blocks: seq<Block>, name: string): (r: seq<Block>)
    ensures |r| <= |blocks|
    ensures forall c :: c in r <==> c in blocks && c.blockType == name
  {
    if blocks == [] then []
    else if blocks[0].blockType == name then [blocks[0]] + BlocksOfType(blocks[1..], name)
    else BlocksOfType(blocks[1..], name)
  }

  /** Filtering distributes over concatenation: the filter keeps the children's order. */
  lemma {:induction false} BlocksOfTypeAppend(a: seq<Block>, b: seq<Block>, name: string)
    ensures BlocksOfType(a + b, name) == BlocksOfType(a, name) + BlocksOfType(b, name)
  {
    if a == [] {
      assert a + b == b;
    } else {
      assert (a + b)[1..] == a[1..] + b;
      BlocksOfTypeAppend(a[1..], b, name);
    }
  }

  /** The direct child blocks of `block` whose type is `name`; grandchildren are not searched. */
  function GetBlocks(block: Block, name: string): (r: seq<Block>)
    ensures forall c :: c in r <==> c in block.children && c.blockType == name
    ensures forall i :: 0 <= i < |r| ==> r[i].blockType == name
  {
    BlocksOfType(block.children, name)
  }

  /** The attribute called `name`, or None when the block does not set it. */
  function GetAttribute(block: Block, name: string): (r: Option<Attribute>)
    ensures r.None? <==> name !in block.attributes
    ensures r.Some? ==> r.value == block.attributes[name]
  {
    if name in block.attributes then Some(block.attributes[name]) else None
  }

  /**
   * Strict, total comparison of an attribute with a string literal: only a
   * string value can be equal, and a value of any other kind (including a
   * one-element list holding that string) compares unequal rather than failing.
   */
  function EqualsString(attr: Attribute, literal: string): (r: bool)
    ensures r <==> attr.value == StringValue(literal)
    ensures !attr.value.StringValue? ==> !r
  {
    match attr.value
    case StringValue(s) => s == literal
    case _ => false
  }

  /** The labels joined with ".", the block's name in messages. */
  function FullName(block: Block): string
  {
    Join(block.labels, ".")
  }

  function Join(parts: seq<string>, separator: string): string
  {
    if parts == [] then ""
    else if |parts| == 1 then parts[0]
    else parts[0] + separator + Join(parts[1..], separator)
  }
}
