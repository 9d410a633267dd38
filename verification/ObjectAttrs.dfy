/** An object's metadata as extended attributes of its file. */
module ObjectAttrs {
  import opened Types
  import opened BucketAccess

  const ETAG := "user.etag"
  const CONTENT_TYPE := "user.content-type"
  const ACCESS := "user.access"
  const METADATA := "user.metadata"

  type XAttrs = map<string, string>

  type UserMetadata = map<string, string>

  datatype Attrs = Attrs(etag: string, contentType: Option<string>, access: Option<AccessLevel>, userMetadata: UserMetadata)

  /** The JSON codec is a parameter. */
  datatype Codec = Codec(encode: UserMetadata -> string, decode: string -> Option<UserMetadata>)

  ghost predicate Lossless(json: Codec) {
    forall m :: json.decode(json.encode(m)) == Some(m)
  }

  function Get(x: XAttrs, name: string): Option<string> {
    if name in x then Some(x[name]) else None
  }

  /** `read_object`; reading through an open handle differs only in refusing an empty etag. */
  function ReadObject(json: Codec, x: XAttrs, byHandle: bool): Result<Attrs, StorageError> {
    if byHandle && Get(x, ETAG) == Some("") then Err(XattrError)
    else
      match ReadAccessAttr(x)
      case Err(e) => Err(e)
      case Ok(access) =>
        match ReadMetadata(json, x)
        case None => Err(XattrError)
        case Some(meta) => Ok(Attrs(Get(x, ETAG).GetOr(""), Get(x, CONTENT_TYPE), access, meta))
  }

  function ReadAccessAttr(x: XAttrs): Result<Option<AccessLevel>, StorageError> {
    match Get(x, ACCESS)
    case None => Ok(None)
    case Some(text) => Effective(FromStr(text))
  }

  function ReadMetadata(json: Codec, x: XAttrs): Option<UserMetadata> {
    match Get(x, METADATA)
    case None => Some(map[])
    case Some(text) => json.decode(text)
  }

  /** The access attribute is missing or one of the two levels. */
  predicate GoodAccess(x: XAttrs) {
    ACCESS in x ==> x[ACCESS] == "public" || x[ACCESS] == "private"
  }

  predicate GoodMetadata(json: Codec, x: XAttrs) {
    METADATA in x ==> json.decode(x[METADATA]).Some?
  }

  /** Attributes can be read exactly when each is missing or well formed; what is missing has a default. */
  lemma ReadExactly(json: Codec, x: XAttrs, byHandle: bool)
    ensures var r := ReadObject(json, x, byHandle);
            && (r.Ok? <==> GoodAccess(x) && GoodMetadata(json, x) && !(byHandle && ETAG in x && x[ETAG] == ""))
            && (r.Ok? ==>
                  && r.value.etag == (if ETAG in x then x[ETAG] else "")
                  && r.value.contentType == (if CONTENT_TYPE in x then Some(x[CONTENT_TYPE]) else None)
                  && r.value.access == (if ACCESS !in x then None
                                        else if x[ACCESS] == "public" then Some(Public) else Some(Private))
                  && r.value.userMetadata == if METADATA in x then json.decode(x[METADATA]).value else map[])
  {
  }

  /** Nothing is left from before in the attributes that the new object does not set. */
  ghost predicate NoLeftovers(json: Codec, x: XAttrs, a: Attrs) {
    && (a.contentType.None? ==> CONTENT_TYPE !in x)
    && (a.access.None? ==> ACCESS !in x)
    && (a.userMetadata == map[] ==> METADATA in x ==> json.decode(x[METADATA]) == Some(map[]))
  }

  function With(x: XAttrs, name: string, value: Option<string>): XAttrs {
    if value.Some? then x[name := value.value] else x
  }

  function AccessText(access: Option<AccessLevel>): Option<string> {
    if access.Some? then Some(AsStr(access.value)) else None
  }

  function MetadataText(json: Codec, m: UserMetadata): Option<string> {
    if m == map[] then None else Some(json.encode(m))
  }

  /** The attributes after writing an object's metadata over `x`; absent ones are left as they were. */
  function Written(json: Codec, x: XAttrs, a: Attrs): XAttrs {
    With(With(With(x[ETAG := a.etag], CONTENT_TYPE, a.contentType), ACCESS, AccessText(a.access)),
         METADATA, MetadataText(json, a.userMetadata))
  }

  lemma WrittenAttributes(json: Codec, x: XAttrs, a: Attrs)
    ensures var t := Written(json, x, a);
            && Get(t, ETAG) == Some(a.etag)
            && Get(t, CONTENT_TYPE) == (if a.contentType.Some? then a.contentType else Get(x, CONTENT_TYPE))
            && Get(t, ACCESS) == (if a.access.Some? then AccessText(a.access) else Get(x, ACCESS))
            && Get(t, METADATA) == (if a.userMetadata != map[] then MetadataText(json, a.userMetadata) else Get(x, METADATA))
  {
  }

  /**
   * What is read back is what was written, exactly when the file carried no leftovers and, by
   * handle, the etag is not empty. Every other attribute of the file is left alone.
   */
  lemma AttributesRoundTrip(json: Codec, x: XAttrs, a: Attrs)
    requires Lossless(json)
    ensures ReadObject(json, Written(json, x, a), false) == Ok(a) <==> NoLeftovers(json, x, a)
    ensures ReadObject(json, Written(json, x, a), true) == Ok(a) <==> NoLeftovers(json, x, a) && a.etag != ""
    ensures forall name :: name !in {ETAG, CONTENT_TYPE, ACCESS, METADATA} ==> Get(Written(json, x, a), name) == Get(x, name)
  {
    WrittenAttributes(json, x, a);
  }

  class AttrFile {
    var attrs: XAttrs

    constructor ()
      ensures attrs == map[]
    {
      attrs := map[];
    }

    /** Attributes are written one by one; without leftovers, reading the file gives them back. */
    method SetObject(json: Codec, a: Attrs)
      modifies this
      ensures attrs == Written(json, old(attrs), a)
      ensures Lossless(json) ==> (ReadObject(json, attrs, false) == Ok(a) <==> NoLeftovers(json, old(attrs), a))
      ensures Lossless(json) && old(attrs) == map[] ==> ReadObject(json, attrs, false) == Ok(a)
    {
      if Lossless(json) {
        AttributesRoundTrip(json, attrs, a);
      }
      ghost var before := attrs;
      attrs := attrs[ETAG := a.etag];
      if a.contentType.Some? {
        attrs := attrs[CONTENT_TYPE := a.contentType.value];
      }
      if a.access.Some? {
        attrs := attrs[ACCESS := AsStr(a.access.value)];
      }
      if a.userMetadata != map[] {
        attrs := attrs[METADATA := json.encode(a.userMetadata)];
      }
      assert attrs == Written(json, before, a);
    }
  }
}
