/** The event shape shared by the attention resolver and the slice helpers
    (src/construct/attention.rs, src/util/slice.rs).

    The tokenizer emits a flat list of events: entering or exiting a named
    span at a point of the input. */
module Events {
  /** An input byte. */
  newtype byte = b: int | 0 <= b < 256

  /** `*` */
  const Asterisk: byte := 42
  /** `_` */
  const Underscore: byte := 95
  /** ` ` */
  const Space: byte := 32

  datatype Kind = Enter | Exit

  /** The span names the modelled code creates or looks at; every other
      name is `Unlisted`. */
  datatype Name =
    | AttentionSequence
    | Emphasis
    | EmphasisSequence
    | EmphasisText
    | Strong
    | StrongSequence
    | StrongText
    | Data
    | Unlisted(id: nat)

  /** A place in the input: 1-based line and column, byte offset `index`,
      and `vs`, the number of virtual spaces of a partly consumed tab. */
  datatype Point = Point(line: nat, column: nat, index: nat, vs: nat)

  datatype Event = Event(kind: Kind, name: Name, point: Point)
}
