/**
 * The first, history-less server (server.py): `POST /track` only remembers the
 * current URL and its domain, `GET /status` reports the domain.
 */
module PlainServer {
  import opened Domains

  /** The outcome of `track_url` here: there is no body check, so a missing body raises. */
  datatype PlainReply = Ok | ServerError

  datatype Status = Status(status: string, domain: string)

  class Server {
    var currentUrl: string
    var currentDomain: string

    constructor ()
      ensures currentUrl == "unknown" && currentDomain == "unknown"
    {
      currentUrl := "unknown";
      currentDomain := "unknown";
    }

    /**
     * `track_url`. With no JSON body `data.get` raises before any global is
     * assigned (Flask answers 500); an empty object is accepted and treated as
     * the URL "unknown".
     */
    method TrackUrl(body: Body, netloc: string -> string) returns (reply: PlainReply)
      modifies this
      ensures body.NoJson? ==> reply == ServerError && unchanged(this)
      ensures body.Json? ==>
        && reply == Ok
        && currentUrl == UrlOf(body.fields)
        && currentDomain == DomainRoot(netloc(currentUrl))
    {
      if body.NoJson? {
        return ServerError;
      }
      var url := UrlOf(body.fields);
      var domain := DomainRoot(netloc(url));
      currentUrl := url;
      currentDomain := domain;
      reply := Ok;
    }

    /** `get_status`: reports the current domain and changes nothing. */
    method GetStatus() returns (s: Status)
      ensures s == Status("running", currentDomain)
    {
      s := Status("running", currentDomain);
    }
  }
}
