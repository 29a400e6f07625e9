/** Values shared by the exercise screens: the exercise record as the listing
    returns it, the optional-value wrapper and the kinds of toast notice. */
module Domain {

  datatype Option<+T> = None | Some(value: T)

  /** An exercise record as the client holds it. An absent `id` or
      `createdAt` is the empty string: the source only ever tests them for
      truthiness. */
  datatype Exercise = Exercise(
    id: string,
    name: string,
    description: string,
    difficulty: string,
    muscleGroups: seq<string>,
    equipments: seq<string>,
    active: bool,
    createdAt: string)

  /** The kinds of toast the screens raise; the text is left out. */
  datatype Notice = Info | Success | Warning | Error

  /** JavaScript truthiness of an optional string: `undefined` and `""` are falsy. */
  predicate Truthy(v: Option<string>) {
    v.Some? && v.value != ""
  }
}
