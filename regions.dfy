/** The optional value the model uses for `null`/`undefined` and for an
    asynchronous step that may reject. */
module Options {
  datatype Option<T> = None | Some(value: T)
}

/** The region model of the selector: a committed box over the source image. */
module Regions {

  /** The two categories a region can be tagged with. */
  datatype Category = Ingredient | Instruction

  /** A committed region. Coordinates are in source-image pixels; `id` is the
      clock reading taken at commit and `imageUrl` the encoded crop, both
      opaque here; `text` holds the recognized lines. */
  datatype Box = Box(
    id: string,
    x: real,
    y: real,
    width: real,
    height: real,
    kind: Category,
    text: seq<string>,
    imageUrl: string)
}
