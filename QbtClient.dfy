/** The torrent client's global transfer limits as the daemon sees them
    through the two setters it calls. Whether a setter call fails (network
    error, rejected login, ...) is decided outside the model and passed in. */
module QbtClient {

  /** One setter call received by the client, successful or not. */
  datatype Call = SetUploadLimit(limit: int) | SetDownloadLimit(limit: int)

  /** The client's limits and every setter call it has received, oldest first. */
  datatype ClientState = ClientState(upload: int, download: int, calls: seq<Call>)

  class Client {
    var uploadLimit: int
    var downloadLimit: int
    var calls: seq<Call>

    constructor (upload: int, download: int)
      ensures State() == ClientState(upload, download, [])
    {
      uploadLimit, downloadLimit, calls := upload, download, [];
    }

    function State(): ClientState
      reads this
    {
      ClientState(uploadLimit, downloadLimit, calls)
    }

    /** `transfer_set_upload_limit`: a call that fails raises and changes no limit. */
    method TransferSetUploadLimit(limit: int, fails: bool) returns (ok: bool)
      modifies this
      ensures ok == !fails
      ensures uploadLimit == (if fails then old(uploadLimit) else limit)
      ensures downloadLimit == old(downloadLimit)
      ensures calls == old(calls) + [SetUploadLimit(limit)]
    {
      calls := calls + [SetUploadLimit(limit)];
      if !fails {
        uploadLimit := limit;
      }
      ok := !fails;
    }

    /** `transfer_set_download_limit`: a call that fails raises and changes no limit. */
    method TransferSetDownloadLimit(limit: int, fails: bool) returns (ok: bool)
      modifies this
      ensures ok == !fails
      ensures uploadLimit == old(uploadLimit)
      ensures downloadLimit == (if fails then old(downloadLimit) else limit)
      ensures calls == old(calls) + [SetDownloadLimit(limit)]
    {
      calls := calls + [SetDownloadLimit(limit)];
      if !fails {
        downloadLimit := limit;
      }
      ok := !fails;
    }
  }
}
