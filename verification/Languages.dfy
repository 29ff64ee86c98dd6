/** Language tags, variants and the policy that grades them. */
module Languages {
  /** A canonical tag; "" is the zero tag, which names no language. */
  type Tag = string

  datatype Variant = Standard | HearingImpaired | Forced
  datatype Flags = Flags(hi: bool, forced: bool) {
    predicate Serves(v: Variant) {
      match v
      case Standard => !hi && !forced
      case HearingImpaired => hi
      case Forced => forced
    }
  }

  datatype Class = Unrelated | ManualOnly | Substitute | Exact
  datatype Target = Target(tag: Tag, variants: seq<Variant>)

  /** A language policy: how a tag grades for a target, and the targets an
      item of an original language and audio languages wants. Both are left
      open. The digest names the policy. */
  datatype Policy = Policy(
    digest: nat,
    grade: (Tag, Tag) -> Class,
    targets: (Tag, seq<Tag>) -> seq<Target>)
}
