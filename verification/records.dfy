/** The plain records exchanged with the meme service, and the errors the
    client surfaces. They carry no behaviour of their own. */
module Records {

  /** One meme template as listed by the service: an opaque unique id, a
      non-unique human-readable name, the base image and its size. */
  datatype Meme = Meme(id: string, name: string, url: string, width: int, height: int)

  /** The payload of a response. A listing fills `memes`; a caption request
      fills `url` and `pageUrl`. Fields that do not apply are empty. */
  datatype ResponseData = ResponseData(memes: seq<Meme>, url: string, pageUrl: string)

  /** The envelope every call returns. `errorMessage` is meaningful only when
      `success` is false. */
  datatype Response = Response(success: bool, data: ResponseData, errorMessage: string)

  /** The exceptions that leave the client.
      - Transport: the network failure rethrown once retries are exhausted;
      - Decode: the payload arrived but did not parse as a `Response`;
      - InvalidOperation: the service answered with `success == false`;
      - NoMatch: no cached meme name matches the requested name. */
  datatype ApiError =
    | Transport
    | Decode
    | InvalidOperation(message: string)
    | NoMatch(message: string)

  /** The message of the exception raised when a name resolves to nothing. */
  const NoMatchMessage: string := "No meme currently matches this name."
}
