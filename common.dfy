/** Vocabulary shared by every part of the model: optional values, document ids,
    the authenticated caller and what a request handler answers. */
module Common {

  datatype Option<+T> = None | Some(value: T)

  /** A value, or the message of the error thrown instead. */
  datatype Result<+T> = Ok(value: T) | Err(error: string)

  /** A MongoDB ObjectId. All collections draw their ids from one space, so an id
      names at most one document of any kind. */
  type Id = nat

  /** A path parameter that still has to pass `ObjectId.isValid`. */
  datatype RawId = Malformed | WellFormed(id: Id)

  /** `req.user` as the authentication middleware attaches it: the id of the
      login record (`_id`), the id of the account it stands for (`linkedId`)
      and the role name. */
  datatype Principal = Principal(userId: Option<Id>, linkedId: Option<Id>, role: string)

  /** The HTTP status of a handler's reply and the message of its JSON body. */
  datatype Response = Response(code: int, message: string)

  /** JavaScript truthiness of a string field of a request; an absent field is
      modelled as the empty string, which is falsy as well. */
  predicate Present(s: string)
  {
    s != ""
  }

  /** One field of a multipart upload: its name and, for each of its files in
      order, the URL the image host returned, or `None` where the upload threw. */
  datatype FileField = FileField(key: string, uploads: seq<Option<string>>)

  /** `x || fallback` for an optional value. */
  function OrElse<T>(x: Option<T>, fallback: T): T
  {
    if x.Some? then x.value else fallback
  }
}
