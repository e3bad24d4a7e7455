/**
 * The browser-extension server (chrome/server.py): `POST /track` records the
 * active tab's domain in `domain_history`, `GET /domains` lists the history.
 */
module ChromeServer {
  import opened Domains

  class Server {
    var currentUrl: string
    var currentDomain: string
    var history: History

    /** The module's globals before any request. */
    constructor ()
      ensures currentUrl == "unknown" && currentDomain == "unknown" && history == map[]
    {
      currentUrl := "unknown";
      currentDomain := "unknown";
      history := map[];
    }

    /**
     * `track_url`. `netloc` stands for `urlparse(url).netloc` and `now` for
     * `datetime.now()`. A missing or empty body is refused with 400 before
     * anything changes.
     */
    method TrackUrl(body: Body, netloc: string -> string, now: real) returns (reply: TrackReply)
      modifies this
      ensures !HasData(body) ==> reply == NoDataReply && unchanged(this)
      ensures HasData(body) ==>
        && reply == Accepted
        && currentUrl == UrlOf(body.fields)
        && currentDomain == DomainRoot(netloc(currentUrl))
        && history == Record(old(history), currentDomain, now)
    {
      if !HasData(body) {
        return NoDataReply;
      }
      var url := UrlOf(body.fields);
      var domain := DomainRoot(netloc(url));
      currentUrl := url;
      currentDomain := domain;
      if domain in history {
        var v := history[domain];
        history := history[domain := Visit(v.firstSeen, now, v.count + 1)];
      } else {
        history := history[domain := Visit(now, now, 1)];
      }
      reply := Accepted;
    }

    /** `get_domains`, with `stamp` standing for `strftime('%Y-%m-%d %H:%M:%S')`. */
    method GetDomains(stamp: real -> string) returns (out: map<string, VisitView>)
      ensures out.Keys == history.Keys
      ensures forall d :: d in history ==> out[d] == View(history[d], stamp)
    {
      out := Project(history, stamp);
    }
  }
}
