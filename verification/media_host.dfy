/**
 * The image host that profile pictures are uploaded to. It is external:
 * the model keeps the data it has received, the error it rejects uploads
 * with while unavailable, and the address it serves an upload under.
 */
module MediaHost {
  import opened Wrappers
  import opened JsValues

  class ImageHost {
    var uploads: seq<string>
    var failure: Option<Thrown>
    /** The `secure_url` the host reports for uploaded data. */
    const secureUrl: string -> string

    constructor (secureUrl: string -> string, failure: Option<Thrown>)
      ensures this.secureUrl == secureUrl && this.failure == failure && uploads == []
    {
      this.secureUrl := secureUrl;
      this.failure := failure;
      uploads := [];
    }

    /** `uploader.upload(data)`: resolves with the secure address of the
        stored image, or rejects. */
    method Upload(data: string) returns (r: Result<string, Thrown>)
      modifies this`uploads
      ensures failure.Some? ==> r == Err(failure.value) && uploads == old(uploads)
      ensures failure.None? ==> r == Ok(secureUrl(data)) && uploads == old(uploads) + [data]
    {
      if failure.Some? {
        r := Err(failure.value);
      } else {
        uploads := uploads + [data];
        r := Ok(secureUrl(data));
      }
    }
  }
}
