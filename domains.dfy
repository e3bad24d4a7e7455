/**
 * The visit-history bookkeeping that the three Flask servers share: the
 * normalised domain of a tracked URL, the upsert of a domain's visit record,
 * and the `/domains` projection of the history.
 */
module Domains {
  import opened Text

  const WwwPrefix: string := "www."

  /**
   * `get_domain_root` applied to the host part (`netloc`) of a URL: lower-case
   * the host, then remove one leading "www." if the lowered host has it.
   */
  function DomainRoot(netloc: string): (r: string)
    ensures NoUpper(r)
    ensures |r| <= |netloc|
    ensures Lower(netloc) == if StartsWith(Lower(netloc), WwwPrefix) then WwwPrefix + r else r
  {
    var host := Lower(netloc);
    if StartsWith(host, WwwPrefix) then host[|WwwPrefix|..] else host
  }

  /**
   * Only one "www." is removed: the root still starts with "www." exactly when
   * the lowered host starts with "www.www.".
   */
  lemma DomainRootStripsOnce(netloc: string)
    ensures StartsWith(DomainRoot(netloc), WwwPrefix) <==> StartsWith(Lower(netloc), WwwPrefix + WwwPrefix)
  {
    var host := Lower(netloc);
    var r := DomainRoot(netloc);
    if StartsWith(host, WwwPrefix) {
      assert host == WwwPrefix + r;
      if StartsWith(r, WwwPrefix) {
        assert host[..8] == WwwPrefix + r[..4];
      }
      if StartsWith(host, WwwPrefix + WwwPrefix) {
        assert r[..4] == host[4..8];
      }
    } else {
      assert r == host;
    }
  }

  /** The root does not depend on the case of the host. */
  lemma DomainRootIgnoresCase(netloc: string)
    ensures DomainRoot(Lower(netloc)) == DomainRoot(netloc)
  {
    LowerFixpoint(netloc);
  }

  /** Normalising a root again changes nothing unless it still starts with "www.". */
  lemma DomainRootFixpoint(netloc: string)
    ensures !StartsWith(DomainRoot(netloc), WwwPrefix) ==> DomainRoot(DomainRoot(netloc)) == DomainRoot(netloc)
  {
    LowerFixpoint(DomainRoot(netloc));
  }

  /** A visit record: `first_seen`, `last_seen` (clock readings) and `count`. */
  datatype Visit = Visit(firstSeen: real, lastSeen: real, count: nat)

  type History = map<string, Visit>

  /**
   * The history upsert of `track_url`: a known domain gets one more visit and a
   * fresh `last_seen`; a new domain enters with one visit seen now.
   */
  function Record(h: History, domain: string, now: real): (h': History)
    ensures h'.Keys == h.Keys + {domain}
    ensures domain in h ==> h'[domain] == Visit(h[domain].firstSeen, now, h[domain].count + 1)
    ensures domain !in h ==> h'[domain] == Visit(now, now, 1)
    ensures forall d :: d in h && d != domain ==> h'[d] == h[d]
  {
    if domain in h then
      h[domain := h[domain].(lastSeen := now, count := h[domain].count + 1)]
    else
      h[domain := Visit(now, now, 1)]
  }

  /** Recording grows the history by one entry exactly when the domain is new. */
  lemma RecordSize(h: History, domain: string, now: real)
    ensures |Record(h, domain, now)| == if domain in h then |h| else |h| + 1
  {
    var h' := Record(h, domain, now);
    if domain in h {
      assert h'.Keys == h.Keys;
    } else {
      assert h'.Keys == h.Keys + {domain};
      assert |h.Keys + {domain}| == |h.Keys| + 1;
    }
  }

  /** One call of `track_url` that got past the body check. */
  datatype Hit = Hit(domain: string, at: real)

  /** The history after the given hits, oldest first. */
  function Replay(h: History, hits: seq<Hit>): History
  {
    if hits == [] then h
    else
      var last := hits[|hits| - 1];
      Record(Replay(h, hits[..|hits| - 1]), last.domain, last.at)
  }

  function Occurrences(hits: seq<Hit>, d: string): nat
  {
    if hits == [] then 0
    else Occurrences(hits[..|hits| - 1], d) + if hits[|hits| - 1].domain == d then 1 else 0
  }

  /** Clock reading of the first hit on `d`. */
  function FirstHit(hits: seq<Hit>, d: string): real
    requires Occurrences(hits, d) > 0
  {
    var prefix := hits[..|hits| - 1];
    if Occurrences(prefix, d) > 0 then FirstHit(prefix, d) else hits[|hits| - 1].at
  }

  /** Clock reading of the most recent hit on `d`. */
  function LastHit(hits: seq<Hit>, d: string): real
    requires Occurrences(hits, d) > 0
  {
    if hits[|hits| - 1].domain == d then hits[|hits| - 1].at else LastHit(hits[..|hits| - 1], d)
  }

  /**
   * Starting from the empty history of a fresh server, a domain is in the
   * history exactly when it was hit; its count is the number of hits, its
   * `first_seen` the first hit and its `last_seen` the last one.
   */
  lemma {:induction false} ReplayFromEmpty(hits: seq<Hit>, d: string)
    ensures d in Replay(map[], hits) <==> Occurrences(hits, d) > 0
    ensures d in Replay(map[], hits) ==>
      Replay(map[], hits)[d] == Visit(FirstHit(hits, d), LastHit(hits, d), Occurrences(hits, d))
  {
    if hits != [] {
      ReplayFromEmpty(hits[..|hits| - 1], d);
    }
  }

  /** A history entry as `get_domains` serialises it, timestamps formatted by `strftime`. */
  datatype VisitView = VisitView(firstSeen: string, lastSeen: string, count: nat)

  function View(v: Visit, stamp: real -> string): VisitView
  {
    VisitView(stamp(v.firstSeen), stamp(v.lastSeen), v.count)
  }

  /**
   * `get_domains`: builds the serialisable history entry by entry; it has the
   * same domains as the history, and each keeps its count.
   */
  method Project(h: History, stamp: real -> string) returns (out: map<string, VisitView>)
    ensures out.Keys == h.Keys
    ensures forall d :: d in h ==> out[d] == View(h[d], stamp) && out[d].count == h[d].count
  {
    out := map[];
    var todo := h.Keys;
    while todo != {}
      invariant todo <= h.Keys
      invariant out.Keys == h.Keys - todo
      invariant forall d :: d in out ==> out[d] == View(h[d], stamp)
      decreases todo
    {
      var d :| d in todo;
      out := out[d := View(h[d], stamp)];
      todo := todo - {d};
    }
  }

  /** The request body of `POST /track`: no JSON at all, or a JSON object. */
  datatype Body = NoJson | Json(fields: map<string, string>)

  /** Python truthiness of the decoded body: `None` and `{}` are both falsy. */
  predicate HasData(body: Body)
    ensures body == NoJson || body == Json(map[]) ==> !HasData(body)
    ensures body.Json? && "url" in body.fields ==> HasData(body)
  {
    body.Json? && body.fields != map[]
  }

  /** `data.get('url', 'unknown')`. */
  function UrlOf(fields: map<string, string>): (url: string)
    ensures "url" in fields ==> url == fields["url"]
    ensures "url" !in fields ==> url == "unknown"
  {
    if "url" in fields then fields["url"] else "unknown"
  }

  /** What `track_url` answers: `{"status": "ok"}`, or an error with its HTTP status. */
  datatype TrackReply = Accepted | Rejected(status: nat, message: string)

  const NoDataReply: TrackReply := Rejected(400, "No data received")
}
