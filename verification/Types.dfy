/** Values shared by every component of the object store. */
module Types {
  datatype Option<+T> = None | Some(value: T) {
    function GetOr(default: T): T {
      match this
      case Some(v) => v
      case None => default
    }
  }

  datatype Result<+T, +E> = Ok(value: T) | Err(error: E) {
    function GetOr(default: T): T {
      match this
      case Ok(v) => v
      case Err(_) => default
    }
  }

  type byte = x: int | 0 <= x < 256

  type bytes = seq<byte>

  /** Visibility of an object or of a bucket. */
  datatype AccessLevel = Public | Private

  /** The storage layer's errors; the texts they carry are not modelled. */
  datatype StorageError =
    | NotFound
    | BucketNotFound
    | BucketNotEmpty
    | ObjectExists
    | EtagMismatch
    | InvalidKey
    | InvalidValue
    | UploadNotFound
    | InvalidPart
    | XattrError
    | IoError
}
