/** Values shared by every part of the model: ids, replies and results. */
module Common {

  datatype Option<+T> = None | Some(value: T)

  /** A document id (a MongoDB ObjectId); ids are never reused. */
  type Id = nat

  /** An id as it arrives in a URL segment or a request body: either text
      that parses as an ObjectId or text that does not. */
  datatype IdParam = ObjectId(id: Id) | NotAnId(text: string)

  /** mongoose.isValidObjectId, kept abstract: only the two shapes above matter. */
  predicate IsValidObjectId(p: IdParam) {
    p.ObjectId?
  }

  /** What a handler answers: the HTTP status and the `message` (or `error`)
      of its JSON body. Messages that interpolate a value are abbreviated. */
  datatype Reply = Reply(code: int, message: string)

  /** The outcome of a gate or of a step that may end the request early. */
  datatype Result<+T> = Ok(value: T) | Fail(reply: Reply)

  /** JavaScript truthiness of a string field of a request body or query:
      an absent field is modelled as "", and both are falsy. */
  predicate Truthy(s: string) {
    s != ""
  }

  /** JavaScript `s || fallback` on string fields. */
  function OrElse(s: string, fallback: string): string {
    if Truthy(s) then s else fallback
  }

  /** Mongoose's update semantics for one field: an undefined value is
      stripped from the update, any other value replaces the old one. */
  function UpdatedField(requested: Option<string>, current: string): string {
    if requested.Some? then requested.value else current
  }

  /** Every key of the table lies below the next id to be handed out. */
  ghost predicate KeysBelow<V>(m: map<Id, V>, bound: Id) {
    forall k :: k in m ==> k < bound
  }
}
