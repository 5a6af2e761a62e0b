// Option, Result and the failures the interview code raises.

module Wrappers {

  datatype Option<+T> = None | Some(value: T) {
    function GetOr(default: T): T {
      match this
      case Some(v) => v
      case None => default
    }
  }

  /** The exceptions the modelled code raises or lets through, one constructor per kind. */
  datatype Error =
    | HttpError(status: int, detail: string)   // fastapi.HTTPException(status_code, detail)
    | NoResultFound                            // sqlalchemy Query.one() with no row
    | MultipleResultsFound                     // sqlalchemy Query.one() with several rows
    | IntegrityError                           // insert of a duplicate primary key
    | ConversionError                          // ValueError/TypeError/AttributeError of a Python conversion
    | ReprNotModelled                          // str() of a JSON list or object (see README)
    | IndexError                               // Python list index out of range
    | TransportError(reason: string)           // urllib failure of the scorer call
    | MissingFilename                          // Path(None) on an upload without a file name

  datatype Result<+T> = Ok(value: T) | Err(error: Error)

  datatype Outcome = Pass | Fail(error: Error)
}
