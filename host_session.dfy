/**
 * The host page's session handling (src/pages/Host.tsx): the URL guard and
 * scheme normalisation of `createSession`, the stored session fields, and
 * the viewer link of `copyShareLink`. The database insert is external: the
 * insert request is recorded, and its reply is a parameter.
 */
module HostSession {
  import opened Wrappers

  predicate StartsWith(s: string, prefix: string) {
    |prefix| <= |s| && s[..|prefix|] == prefix
  }

  /** The scheme check is only a prefix test against "http". */
  const SchemePrefix: string := "http"
  const DefaultScheme: string := "https://"

  /**
   * The URL stored for a session: anything starting with "http" (which
   * includes "httpbin.org") is kept, anything else gets "https://" in front.
   * The result always starts with "http" and always ends with the input.
   */
  function NormalizeUrl(url: string): (r: string)
    ensures StartsWith(r, SchemePrefix)
    ensures |r| >= |url| && r[|r| - |url|..] == url
    ensures StartsWith(url, SchemePrefix) <==> r == url
    ensures !StartsWith(url, SchemePrefix) ==> r == DefaultScheme + url
  {
    if StartsWith(url, SchemePrefix) then url else DefaultScheme + url
  }

  /** Normalising twice is normalising once. */
  lemma NormalizeIdempotent(url: string)
    ensures NormalizeUrl(NormalizeUrl(url)) == NormalizeUrl(url)
  {
  }

  /** The viewer link `<origin>/view/<sessionId>`. */
  function ShareLink(origin: string, sessionId: string): (link: string)
    ensures StartsWith(link, origin)
    ensures |link| == |origin| + 6 + |sessionId|
    ensures link[|origin|..|origin| + 6] == "/view/" && link[|origin| + 6..] == sessionId
  {
    origin + "/view/" + sessionId
  }

  /** Distinct sessions of one origin get distinct links. */
  lemma ShareLinkInjective(origin: string, a: string, b: string)
    ensures ShareLink(origin, a) == ShareLink(origin, b) ==> a == b
  {
    if ShareLink(origin, a) == ShareLink(origin, b) {
      assert ShareLink(origin, a)[|origin| + 6..] == a;
    }
  }

  /** The row `createSession` asks the database to insert. */
  datatype SessionInsert = SessionInsert(url: string, hostId: string, active: bool)

  /** The database's reply: the inserted record, or an error. */
  datatype InsertReply = Created(id: string, url: string) | Failed(message: string)

  /** The host page's state: the URL field, the stored session, the inserts sent. */
  class HostPage {
    const hostId: string
    var url: string
    var sessionId: Option<string>
    var targetUrl: Option<string>
    var inserts: seq<SessionInsert>

    constructor (hostId: string)
      ensures this.hostId == hostId && url == ""
      ensures sessionId.None? && targetUrl.None? && inserts == []
    {
      this.hostId := hostId;
      url := "";
      sessionId, targetUrl := None, None;
      inserts := [];
    }

    /** Typing into the URL field. */
    method EditUrl(text: string)
      modifies this`url
      ensures url == text
    {
      url := text;
    }

    /**
     * `createSession`: an empty URL sends nothing and changes nothing;
     * otherwise one active session with the normalised URL is requested, and
     * only a successful reply stores its `id` and `url`.
     */
    method CreateSession(reply: InsertReply)
      modifies this`sessionId, this`targetUrl, this`inserts
      ensures url == "" ==> unchanged(this)
      ensures url != "" ==> inserts == old(inserts) + [SessionInsert(NormalizeUrl(url), hostId, true)]
      ensures url != "" && reply.Created? ==> sessionId == Some(reply.id) && targetUrl == Some(reply.url)
      ensures url != "" && reply.Failed? ==> sessionId == old(sessionId) && targetUrl == old(targetUrl)
    {
      if url == "" {
        return;
      }
      inserts := inserts + [SessionInsert(NormalizeUrl(url), hostId, true)];
      match reply
      case Created(id, stored) =>
        sessionId, targetUrl := Some(id), Some(stored);
      case Failed(_) =>
    }

    /**
     * `copyShareLink`: the link to copy, or nothing when there is no session
     * id (an empty id is falsy too).
     */
    method CopyShareLink(origin: string) returns (link: Option<string>)
      ensures link.None? <==> (sessionId.None? || sessionId.value == "")
      ensures link.Some? ==> link.value == ShareLink(origin, sessionId.value)
    {
      if sessionId.None? || sessionId.value == "" {
        return None;
      }
      link := Some(ShareLink(origin, sessionId.value));
    }
  }
}
