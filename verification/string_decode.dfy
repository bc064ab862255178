/**
 * B502: a string literal whose parent node is an attribute access named
 * `decode`, as in `"...".decode(...)`. Unlike the call rules this one checks
 * string-literal nodes, and it supplies no line of its own.
 */
module StringDecodePlugin {
  import opened Wrappers
  import opened Core

  /** The parent of a string-literal node: an attribute access, or anything else. */
  datatype Parent = Attribute(attr: string) | Other

  /** A string-literal node: its contents and its parent. */
  datatype StrNode = StrNode(contents: string, parent: Parent)

  /** B502: report a MEDIUM/MEDIUM issue when the parent is `.decode`. */
  function StringDecode(node: StrNode): (r: Option<Issue>)
    ensures r.Some? <==> node.parent == Attribute("decode")
    ensures r.Some? ==> r.value == Issue(MEDIUM, MEDIUM, "string_decode", None)
  {
    match node.parent
    case Attribute(attr) =>
      if attr == "decode" then Some(Issue(MEDIUM, MEDIUM, "string_decode", None)) else None
    case Other => None
  }

  /** The literal's own contents never influence the outcome. */
  lemma StringDecodeIgnoresContents(a: StrNode, b: StrNode)
    requires a.parent == b.parent
    ensures StringDecode(a) == StringDecode(b)
  {
  }

  /** Other attribute names, such as `encode`, are not reported. */
  lemma StringDecodeExamples(s: string)
    ensures StringDecode(StrNode(s, Attribute("decode"))).Some?
    ensures StringDecode(StrNode(s, Attribute("encode"))).None?
    ensures StringDecode(StrNode(s, Other)).None?
  {
  }
}
