/**
 * vless_api.py: the client of the 3x-ui panel. It holds a session cookie, logs in on
 * demand, re-logs in once when the panel says the session is gone, adds clients to an
 * inbound and builds their VLESS links.
 *
 * The HTTP client is modelled as `panel`, the sequence of replies the panel will give to
 * the exchanges the client makes, in order; once it is used up every further exchange
 * fails as a refused connection. The ghost `log` records every exchange made, with the
 * cookie it carried and the reply it got. Each method is specified by a pure step
 * function over `State`, and the properties are proved about the step functions.
 */
module XuiPanel {
  import opened Wrappers
  import opened Text
  import opened Units
  import opened VlessLink

  // ---------------------------------------------------------------------------
  // Wire values

  datatype Cookie = Cookie(name: string, value: string)

  /** The decoded JSON body of a 3x-ui reply: its `success`, `msg` and `obj` keys. */
  datatype Answer = Answer(success: bool, msg: Option<string>, obj: Option<Inbound>)

  /**
   * One HTTP exchange as the client sees it: a JSON body together with the cookies the
   * reply sets, or an exception (no connection, a timeout, a body that is not JSON).
   */
  datatype Reply = Json(answer: Answer, cookies: seq<Cookie>) | Broken(reason: string)

  /** What an exchange gets once the modelled panel has no replies left. */
  const Refused: Reply := Broken("connection refused")

  function Nth(panel: seq<Reply>, i: nat): Reply {
    if i < |panel| then panel[i] else Refused
  }

  /** One entry of the `clients` list of an addClient request. */
  datatype ClientEntry = ClientEntry(
    id: string, flow: string, email: string, limitIp: int, totalGB: real,
    expiryTime: int, enable: bool, tgId: string, subId: string, reset: int)

  /** The `settings` JSON of an addClient request. */
  datatype ClientSettings = ClientSettings(clients: seq<ClientEntry>)

  /** The API calls of the model, under /panel/api/inbounds. */
  datatype Call =
    | AddClient(inboundId: int, settings: ClientSettings)   // POST /addClient
    | GetInbound(inboundId: int)                            // GET /get/<id>

  datatype Exchange =
    | LoginPost(reply: Reply)
    | ApiRequest(cookie: Option<string>, call: Call, reply: Reply)

  /**
   * The client's own state: the session cookie it holds and how many exchanges it has
   * made so far (its position among the panel's replies).
   */
  datatype State = State(cookie: Option<string>, sent: nat)

  /** An exception escaping `_request`, or the IndexError of get_client_link. */
  datatype Failure = AuthFailed | Transport(reason: string) | MalformedPanelUrl

  /** What `_request` does: returns the decoded body, or raises. */
  datatype Outcome = Answered(answer: Answer) | Raised(failure: Failure)

  // ---------------------------------------------------------------------------
  // Session

  /** Python truthiness of `session_cookie`: present and non-empty. */
  predicate Held(cookie: Option<string>) {
    cookie.Some? && cookie.value != ""
  }

  predicate LoginSucceeds(reply: Reply) {
    reply.Json? && reply.answer.success
  }

  /** `response.cookies.get(name)`: the first cookie of that name. */
  function CookieNamed(cookies: seq<Cookie>, name: string): Option<string> {
    if cookies == [] then None
    else if cookies[0].name == name then Some(cookies[0].value)
    else CookieNamed(cookies[1..], name)
  }

  lemma {:induction false} CookieNamedFound(cookies: seq<Cookie>, name: string)
    requires CookieNamed(cookies, name).Some?
    ensures exists i :: 0 <= i < |cookies| && cookies[i] == Cookie(name, CookieNamed(cookies, name).value)
  {
    if cookies[0].name != name {
      CookieNamedFound(cookies[1..], name);
      var i :| 0 <= i < |cookies[1..]| && cookies[1..][i] == Cookie(name, CookieNamed(cookies, name).value);
      assert cookies[i + 1] == cookies[1..][i];
    }
  }

  /** The cookie a successful login keeps: the `3x-ui` cookie, or else the first cookie set. */
  function StoredCookie(cookies: seq<Cookie>): Option<string> {
    var named := CookieNamed(cookies, "3x-ui");
    if Held(named) then named
    else if cookies != [] then Some(cookies[0].value)
    else named
  }

  /** The cookie the most recent successful login in `log` stored, if there was one. */
  function LastLogin(log: seq<Exchange>): Option<Option<string>>
    decreases |log|
  {
    if log == [] then None
    else
      var e := log[|log| - 1];
      if e.LoginPost? && LoginSucceeds(e.reply) then Some(StoredCookie(e.reply.cookies))
      else LastLogin(log[..|log| - 1])
  }

  /**
   * The session invariant: every API request in `log` carried exactly the cookie stored
   * by the most recent successful login before it (so some login came first), and a
   * cookie the client holds is the one the most recent login stored.
   */
  ghost predicate SessionOk(log: seq<Exchange>, cookie: Option<string>) {
    (forall i :: 0 <= i < |log| && log[i].ApiRequest? ==> LastLogin(log[..i]) == Some(log[i].cookie))
    && (Held(cookie) ==> LastLogin(log) == Some(cookie))
  }

  /** Every exchange in `log` got the panel's reply for its position. */
  ghost predicate Replayed(panel: seq<Reply>, log: seq<Exchange>) {
    forall i :: 0 <= i < |log| ==> log[i].reply == Nth(panel, i)
  }

  /** The session expired: an unsuccessful answer whose `msg`, lower-cased, mentions "login". */
  predicate Expired(a: Answer) {
    !a.success && Contains(Lower(a.msg.GetOr("")), "login")
  }

  // ---------------------------------------------------------------------------
  // Steps: each returns its result, the new state and the exchanges it made

  /** The reply the next exchange gets. */
  function Next(panel: seq<Reply>, s: State): Reply {
    Nth(panel, s.sent)
  }

  /** `login()`: post the credentials; on success keep the cookie the reply set. */
  function LoginStep(panel: seq<Reply>, s: State): (bool, State, seq<Exchange>) {
    var reply := Next(panel, s);
    var s1 := s.(sent := s.sent + 1);
    if LoginSucceeds(reply) then (true, s1.(cookie := StoredCookie(reply.cookies)), [LoginPost(reply)])
    else (false, s1, [LoginPost(reply)])
  }

  /** `_ensure_logged_in()`: log in unless a cookie is held; false stands for the raise. */
  function EnsureStep(panel: seq<Reply>, s: State): (bool, State, seq<Exchange>) {
    if Held(s.cookie) then (true, s, []) else LoginStep(panel, s)
  }

  /** One request to the API, carrying the cookie currently held. */
  function SendStep(panel: seq<Reply>, s: State, call: Call): (Reply, State, seq<Exchange>) {
    var reply := Next(panel, s);
    (reply, s.(sent := s.sent + 1), [ApiRequest(s.cookie, call, reply)])
  }

  /** `_request()`: ensure a session, send, and on an expired session log in again and resend once. */
  function RequestStep(panel: seq<Reply>, s: State, call: Call): (Outcome, State, seq<Exchange>) {
    var (ok, s1, t1) := EnsureStep(panel, s);
    if !ok then (Raised(AuthFailed), s1, t1)
    else
      var (first, s2, t2) := SendStep(panel, s1, call);
      if first.Broken? then (Raised(Transport(first.reason)), s2, t1 + t2)
      else if !Expired(first.answer) then (Answered(first.answer), s2, t1 + t2)
      else
        var (ok2, s3, t3) := EnsureStep(panel, s2.(cookie := None));
        if !ok2 then (Raised(AuthFailed), s3, t1 + t2 + t3)
        else
          var (second, s4, t4) := SendStep(panel, s3, call);
          if second.Broken? then (Raised(Transport(second.reason)), s4, t1 + t2 + t3 + t4)
          else (Answered(second.answer), s4, t1 + t2 + t3 + t4)
  }

  // ---------------------------------------------------------------------------
  // Login

  /**
   * A refused login leaves the cookie as it was. A successful one keeps a cookie exactly
   * when the reply set one, and the cookie kept is one the reply set: its non-empty
   * `3x-ui` cookie if it has one, and otherwise the first.
   */
  lemma LoginFacts(panel: seq<Reply>, s: State)
    ensures var (ok, s', t) := LoginStep(panel, s); var reply := Next(panel, s);
      && t == [LoginPost(reply)] && s'.sent == s.sent + 1
      && (ok <==> LoginSucceeds(reply))
      && (!ok ==> s'.cookie == s.cookie)
      && (ok ==> (s'.cookie.Some? <==> reply.cookies != []))
      && (ok && s'.cookie.Some? ==>
            exists i :: 0 <= i < |reply.cookies| && reply.cookies[i].value == s'.cookie.value)
      && (ok && Held(CookieNamed(reply.cookies, "3x-ui")) ==> s'.cookie == CookieNamed(reply.cookies, "3x-ui"))
      && (ok && !Held(CookieNamed(reply.cookies, "3x-ui")) && reply.cookies != [] ==>
            s'.cookie == Some(reply.cookies[0].value))
  {
    var reply := Next(panel, s);
    if LoginSucceeds(reply) {
      var named := CookieNamed(reply.cookies, "3x-ui");
      if named.Some? {
        CookieNamedFound(reply.cookies, "3x-ui");
      }
      if reply.cookies == [] {
        assert named == None;
      }
    }
  }

  // ---------------------------------------------------------------------------
  // Properties of one request

  /**
   * No request without a session: with no cookie held, `_request` logs in first, and
   * when the panel refuses that login it raises AuthFailed having sent nothing and
   * leaving the cookie as it was. With a cookie held it sends that cookie first.
   */
  lemma RequestNeedsSession(panel: seq<Reply>, s: State, call: Call)
    ensures var (out, s', t) := RequestStep(panel, s, call);
      && |t| > 0
      && (!Held(s.cookie) ==> t[0] == LoginPost(Next(panel, s)))
      && (!Held(s.cookie) && !LoginSucceeds(Next(panel, s)) ==>
            t == [LoginPost(Next(panel, s))] && out == Raised(AuthFailed) && s'.cookie == s.cookie)
      && (Held(s.cookie) ==> t[0] == ApiRequest(s.cookie, call, Next(panel, s)))
  {
  }

  /** `_request` sends only the call it was given. */
  lemma RequestSendsCall(panel: seq<Reply>, s: State, call: Call)
    ensures var (out, s', t) := RequestStep(panel, s, call);
      forall i :: 0 <= i < |t| && t[i].ApiRequest? ==> t[i].call == call
  {
    var (out, s', t) := RequestStep(panel, s, call);
    var (ok, s1, t1) := EnsureStep(panel, s);
    if ok {
      var (first, s2, t2) := SendStep(panel, s1, call);
      if !first.Broken? && Expired(first.answer) {
        var (ok2, s3, t3) := EnsureStep(panel, s2.(cookie := None));
        if ok2 {
          var (second, s4, t4) := SendStep(panel, s3, call);
          assert t == t1 + t2 + t3 + t4;
        } else {
          assert t == t1 + t2 + t3;
        }
      } else {
        assert t == t1 + t2;
      }
    }
  }

  /**
   * A trace in which the call is sent at most twice: a request that follows another is
   * the last exchange, made right after the earlier one was answered with an expired
   * session and a new login then succeeded, and it carries that login's cookie.
   */
  ghost predicate SentAtMostTwice(t: seq<Exchange>) {
    forall i, j :: 0 <= i < j < |t| && t[i].ApiRequest? && t[j].ApiRequest? ==>
      && j == i + 2 == |t| - 1
      && t[i].reply.Json? && Expired(t[i].reply.answer)
      && t[i + 1].LoginPost? && LoginSucceeds(t[i + 1].reply)
      && t[j].cookie == StoredCookie(t[i + 1].reply.cookies)
  }

  /** `_request` retries once at most, and only after an expired session and a successful new login. */
  lemma RequestRetriesOnce(panel: seq<Reply>, s: State, call: Call)
    ensures SentAtMostTwice(RequestStep(panel, s, call).2)
  {
    var t := RequestStep(panel, s, call).2;
    var e := EnsureStep(panel, s);
    assert forall i :: 0 <= i < |e.2| ==> e.2[i].LoginPost?;
    if e.0 {
      var f := SendStep(panel, e.1, call);
      if !f.0.Broken? && Expired(f.0.answer) {
        var e2 := EnsureStep(panel, f.1.(cookie := None));
        if e2.0 {
          var g := SendStep(panel, e2.1, call);
          assert t == e.2 + [f.2[0], e2.2[0], g.2[0]];
          RetryAt(e.2, f.2[0], e2.2[0], g.2[0]);
        } else {
          assert t == e.2 + [f.2[0]] + e2.2;
          SingleRequestAt(e.2, f.2[0], e2.2);
        }
      } else {
        assert t == e.2 + [f.2[0]] + [];
        SingleRequestAt(e.2, f.2[0], []);
      }
    } else {
      assert t == [] + [LoginPost(Next(panel, s))] + [];
      SingleRequestAt([], LoginPost(Next(panel, s)), []);
    }
  }

  /** A trace with one request at most, between logins: no request follows another. */
  lemma SingleRequestAt(before: seq<Exchange>, x: Exchange, after: seq<Exchange>)
    requires forall i :: 0 <= i < |before| ==> before[i].LoginPost?
    requires forall i :: 0 <= i < |after| ==> after[i].LoginPost?
    ensures SentAtMostTwice(before + [x] + after)
  {
    var t := before + [x] + after;
    assert forall i :: 0 <= i < |t| && t[i].ApiRequest? ==> i == |before|;
  }

  /** Logins, then a request answered with an expired session, a successful login and the resent request. */
  lemma RetryAt(before: seq<Exchange>, first: Exchange, login: Exchange, second: Exchange)
    requires forall i :: 0 <= i < |before| ==> before[i].LoginPost?
    requires first.ApiRequest? && first.reply.Json? && Expired(first.reply.answer)
    requires login.LoginPost? && LoginSucceeds(login.reply)
    requires second.ApiRequest? && second.cookie == StoredCookie(login.reply.cookies)
    ensures SentAtMostTwice(before + [first, login, second])
  {
    var t := before + [first, login, second];
    var k := |before|;
    forall i, j | 0 <= i < j < |t| && t[i].ApiRequest? && t[j].ApiRequest?
      ensures i == k && j == k + 2
    {
      assert i >= k && j >= k;
    }
  }

  /**
   * What `_request` returns: an answer is the answer to the last request sent, and an
   * answer to the first request is never an expired one; AuthFailed means the last
   * login was refused; a Transport failure carries the reason of the last request's
   * exception.
   */
  lemma RequestResult(panel: seq<Reply>, s: State, call: Call)
    ensures var (out, s', t) := RequestStep(panel, s, call);
      && |t| > 0
      && (out.Answered? ==>
            t[|t| - 1].ApiRequest? && t[|t| - 1].reply.Json? && t[|t| - 1].reply.answer == out.answer)
      && (out.Answered? && (forall i :: 0 <= i < |t| - 1 ==> !t[i].ApiRequest?) ==> !Expired(out.answer))
      && (out == Raised(AuthFailed) <==> t[|t| - 1].LoginPost? && !LoginSucceeds(t[|t| - 1].reply))
      && (out.Raised? && out.failure.Transport? ==>
            t[|t| - 1].ApiRequest? && t[|t| - 1].reply == Broken(out.failure.reason))
      && out != Raised(MalformedPanelUrl)
  {
    var (out, s', t) := RequestStep(panel, s, call);
    var (ok, s1, t1) := EnsureStep(panel, s);
    if ok {
      var (first, s2, t2) := SendStep(panel, s1, call);
      if !first.Broken? && Expired(first.answer) {
        assert t[|t1|] == t2[0];
      }
    }
  }

  /** The exchanges of a request take the panel's next replies, one each, in order. */
  lemma EnsureReplays(panel: seq<Reply>, s: State, log: seq<Exchange>)
    requires |log| == s.sent && Replayed(panel, log)
    ensures var r := EnsureStep(panel, s); r.1.sent == |log + r.2| && Replayed(panel, log + r.2)
  {
    if EnsureStep(panel, s).2 == [] {
      assert log + [] == log;
    }
  }

  lemma SendReplays(panel: seq<Reply>, s: State, call: Call, log: seq<Exchange>)
    requires |log| == s.sent && Replayed(panel, log)
    ensures var r := SendStep(panel, s, call); r.1.sent == |log + r.2| && Replayed(panel, log + r.2)
  {
  }

  lemma RequestReplays(panel: seq<Reply>, s: State, call: Call, log: seq<Exchange>)
    requires |log| == s.sent && Replayed(panel, log)
    ensures var (out, s', t) := RequestStep(panel, s, call);
      s'.sent == |log + t| && Replayed(panel, log + t)
  {
    var (ok, s1, t1) := EnsureStep(panel, s);
    EnsureReplays(panel, s, log);
    if ok {
      var (first, s2, t2) := SendStep(panel, s1, call);
      SendReplays(panel, s1, call, log + t1);
      AppendAssoc(log, t1, t2);
      if !first.Broken? && Expired(first.answer) {
        var (ok2, s3, t3) := EnsureStep(panel, s2.(cookie := None));
        EnsureReplays(panel, s2.(cookie := None), log + t1 + t2);
        AppendAssoc(log, t1 + t2, t3);
        if ok2 {
          var (second, s4, t4) := SendStep(panel, s3, call);
          SendReplays(panel, s3, call, log + t1 + t2 + t3);
          AppendAssoc(log, t1 + t2 + t3, t4);
        }
      }
    }
  }

  // ---------------------------------------------------------------------------
  // The session invariant is kept

  lemma LastLoginAppend(l: seq<Exchange>, e: Exchange)
    ensures LastLogin(l + [e]) ==
      if e.LoginPost? && LoginSucceeds(e.reply) then Some(StoredCookie(e.reply.cookies)) else LastLogin(l)
  {
    assert (l + [e])[..|l|] == l;
  }

  lemma SessionLogin(panel: seq<Reply>, s: State, log: seq<Exchange>)
    requires SessionOk(log, s.cookie)
    ensures var (ok, s', t) := EnsureStep(panel, s);
      SessionOk(log + t, s'.cookie) && (ok ==> LastLogin(log + t) == Some(s'.cookie))
  {
    var (ok, s', t) := EnsureStep(panel, s);
    if t == [] {
      assert log + t == log;
    } else {
      var l := log + t;
      LastLoginAppend(log, t[0]);
      forall i | 0 <= i < |l| && l[i].ApiRequest? ensures LastLogin(l[..i]) == Some(l[i].cookie) {
        assert i < |log|;
        assert l[..i] == log[..i];
      }
    }
  }

  lemma SessionSend(panel: seq<Reply>, s: State, call: Call, log: seq<Exchange>)
    requires SessionOk(log, s.cookie) && LastLogin(log) == Some(s.cookie)
    ensures var (reply, s', t) := SendStep(panel, s, call);
      SessionOk(log + t, s'.cookie) && LastLogin(log + t) == Some(s'.cookie)
  {
    var (reply, s', t) := SendStep(panel, s, call);
    var l := log + t;
    LastLoginAppend(log, t[0]);
    forall i | 0 <= i < |l| && l[i].ApiRequest? ensures LastLogin(l[..i]) == Some(l[i].cookie) {
      if i < |log| {
        assert l[..i] == log[..i];
      } else {
        assert l[..i] == log;
      }
    }
  }

  /**
   * No request goes out without a session: the session invariant holds after every
   * request, so each request the client ever sends carries the cookie of the most
   * recent successful login before it.
   */
  lemma RequestKeepsSession(panel: seq<Reply>, s: State, call: Call, log: seq<Exchange>)
    requires SessionOk(log, s.cookie)
    ensures var r := RequestStep(panel, s, call); SessionOk(log + r.2, r.1.cookie)
  {
    var e := EnsureStep(panel, s);
    SessionLogin(panel, s, log);
    if e.0 {
      var f := SendStep(panel, e.1, call);
      SessionSend(panel, e.1, call, log + e.2);
      AppendAssoc(log, e.2, f.2);
      if !f.0.Broken? && Expired(f.0.answer) {
        var s2c := f.1.(cookie := None);
        var e2 := EnsureStep(panel, s2c);
        SessionLogin(panel, s2c, log + e.2 + f.2);
        AppendAssoc(log, e.2 + f.2, e2.2);
        if e2.0 {
          var g := SendStep(panel, e2.1, call);
          SessionSend(panel, e2.1, call, log + e.2 + f.2 + e2.2);
          AppendAssoc(log, e.2 + f.2 + e2.2, g.2);
        }
      }
    }
  }

  // ---------------------------------------------------------------------------
  // create_client and get_client_link

  /** The addClient payload: exactly one client, identified by `clientUuid`. */
  function NewClientSettings(clientUuid: string, email: string, totalGb: real, expiryDays: int, limitIp: int, now: real)
    : ClientSettings
  {
    ClientSettings([ClientEntry(clientUuid, "", email, limitIp, CapBytes(totalGb), ExpiryMillis(now, expiryDays),
                                true, "", "", 0)])
  }

  /** The panel's answer to the last exchange of a trace, when that was a request it answered. */
  function FinalAnswer(t: seq<Exchange>): Option<Answer> {
    if |t| > 0 && t[|t| - 1].ApiRequest? && t[|t| - 1].reply.Json? then Some(t[|t| - 1].reply.answer) else None
  }

  /** The dictionary create_client returns, or the exception it lets through. */
  datatype Created =
    | ClientCreated(uuid: string, email: string, limitIp: int, totalGb: real, expiryDays: int)
    | CreateFailed(error: string)
    | CreateRaised(failure: Failure)

  function CreateClientStep(panel: seq<Reply>, s: State, email: string, totalGb: real, expiryDays: int,
                            limitIp: int, inboundId: int, clientUuid: string, now: real)
    : (Created, State, seq<Exchange>)
  {
    var settings := NewClientSettings(clientUuid, email, totalGb, expiryDays, limitIp, now);
    var (out, s', t) := RequestStep(panel, s, AddClient(inboundId, settings));
    var created :=
      match out
      case Raised(f) => CreateRaised(f)
      case Answered(a) =>
        if a.success then ClientCreated(clientUuid, email, limitIp, totalGb, expiryDays)
        else CreateFailed(a.msg.GetOr("Unknown error"));
    (created, s', t)
  }

  /**
   * create_client sends only addClient requests to `inboundId` whose one client carries
   * the generated uuid, the label as email, the device limit, the cap in bytes and the
   * expiry in milliseconds. It reports success, with that same uuid, exactly when the
   * panel's last answer says success; otherwise it reports the panel's `msg`, or
   * "Unknown error" when there is none.
   */
  lemma CreateClientFacts(panel: seq<Reply>, s: State, email: string, totalGb: real, expiryDays: int,
                          limitIp: int, inboundId: int, clientUuid: string, now: real)
    ensures var (created, s', t) := CreateClientStep(panel, s, email, totalGb, expiryDays, limitIp, inboundId, clientUuid, now);
      && |t| > 0
      && (forall i :: 0 <= i < |t| && t[i].ApiRequest? ==>
            && t[i].call.AddClient? && t[i].call.inboundId == inboundId
            && |t[i].call.settings.clients| == 1
            && var c := t[i].call.settings.clients[0];
               c.id == clientUuid && c.email == email && c.limitIp == limitIp && c.enable
               && c.totalGB == CapBytes(totalGb) && c.expiryTime == ExpiryMillis(now, expiryDays)
               && c.flow == "" && c.tgId == "" && c.subId == "" && c.reset == 0)
      && (created.ClientCreated? <==> FinalAnswer(t).Some? && FinalAnswer(t).value.success)
      && (created.ClientCreated? ==> created.uuid == clientUuid && created.email == email)
      && (created.CreateFailed? <==> FinalAnswer(t).Some? && !FinalAnswer(t).value.success)
      && (created.CreateFailed? ==> created.error == FinalAnswer(t).value.msg.GetOr("Unknown error"))
  {
    var settings := NewClientSettings(clientUuid, email, totalGb, expiryDays, limitIp, now);
    RequestSendsCall(panel, s, AddClient(inboundId, settings));
    RequestResult(panel, s, AddClient(inboundId, settings));
  }

  /** A client create_client reports as created echoes the values it was created with. */
  lemma CreateClientEchoes(panel: seq<Reply>, s: State, email: string, totalGb: real, expiryDays: int,
                           limitIp: int, inboundId: int, clientUuid: string, now: real)
    ensures var r := CreateClientStep(panel, s, email, totalGb, expiryDays, limitIp, inboundId, clientUuid, now);
      r.0.ClientCreated? ==>
        && r.0.uuid == clientUuid && r.0.email == email
        && r.0.limitIp == limitIp && r.0.totalGb == totalGb && r.0.expiryDays == expiryDays
  {
  }

  /** The string get_client_link returns, None, or the exception it lets through. */
  datatype LinkResult = LinkFound(uri: string) | NoLink | LinkRaised(failure: Failure)

  function GetClientLinkStep(panel: seq<Reply>, s: State, panelUrl: string, clientUuid: string, inboundId: int)
    : (LinkResult, State, seq<Exchange>)
  {
    var (out, s', t) := RequestStep(panel, s, GetInbound(inboundId));
    var link :=
      match out
      case Raised(f) => LinkRaised(f)
      case Answered(a) =>
        if !a.success then NoLink
        else match ServerAddress(panelUrl)
          case None => LinkRaised(MalformedPanelUrl)
          case Some(server) => LinkFound(ClientLink(clientUuid, server, a.obj.GetOr(EmptyInbound)));
    (link, s', t)
  }

  /** A link get_client_link finds is a VLESS link for the uuid it was given. */
  lemma GetClientLinkPrefix(panel: seq<Reply>, s: State, panelUrl: string, clientUuid: string, inboundId: int)
    ensures var l := GetClientLinkStep(panel, s, panelUrl, clientUuid, inboundId);
      l.0.LinkFound? ==> StartsWith(l.0.uri, "vless://" + clientUuid + "@")
  {
    var l := GetClientLinkStep(panel, s, panelUrl, clientUuid, inboundId);
    if l.0.LinkFound? {
      var prefix := "vless://" + clientUuid + "@";
      assert l.0.uri[..|prefix|] == prefix;
    }
  }

  /**
   * get_client_link fetches inbound `inboundId` and nothing else. It gives None exactly
   * when the panel's last answer is unsuccessful, raises on a panel URL without "://",
   * and otherwise gives the link of the inbound the panel sent (an empty one when it
   * sent none), for the host named in the panel URL, which reads back to its parts when
   * the uuid has no `@` and no value holds `&` or `#`.
   */
  lemma GetClientLinkFacts(panel: seq<Reply>, s: State, panelUrl: string, clientUuid: string, inboundId: int)
    ensures var (link, s', t) := GetClientLinkStep(panel, s, panelUrl, clientUuid, inboundId);
      && |t| > 0
      && (forall i :: 0 <= i < |t| && t[i].ApiRequest? ==> t[i].call == GetInbound(inboundId))
      && (link == NoLink <==> FinalAnswer(t).Some? && !FinalAnswer(t).value.success)
      && (link == LinkRaised(MalformedPanelUrl) <==>
            FinalAnswer(t).Some? && FinalAnswer(t).value.success && !Contains(panelUrl, "://"))
      && (link.LinkFound? ==>
            && FinalAnswer(t).Some? && ServerAddress(panelUrl).Some?
            && var inbound := FinalAnswer(t).value.obj.GetOr(EmptyInbound);
               var server := ServerAddress(panelUrl).value;
               && ':' !in server
               && link.uri == ClientLink(clientUuid, server, inbound)
               && ('@' !in clientUuid && PlainValues(inbound.streamSettings, server) ==>
                     ParseLink(link.uri) == Some(ParsedLink(clientUuid, server, IntToString(PortOf(inbound)),
                                                            CanonicalParams(inbound.streamSettings, server),
                                                            RemarkOf(inbound)))))
  {
    var (link, s', t) := GetClientLinkStep(panel, s, panelUrl, clientUuid, inboundId);
    RequestSendsCall(panel, s, GetInbound(inboundId));
    RequestResult(panel, s, GetInbound(inboundId));
    if link.LinkFound? {
      var inbound := FinalAnswer(t).value.obj.GetOr(EmptyInbound);
      var server := ServerAddress(panelUrl).value;
      if '@' !in clientUuid && PlainValues(inbound.streamSettings, server) {
        LinkRoundTrip(clientUuid, server, inbound);
      }
    }
  }

  // ---------------------------------------------------------------------------
  // The client object

  class VlessClient {
    const baseUrl: string
    /** The replies the panel gives, in order (it stands for `http_client`). */
    const panel: seq<Reply>
    var sessionCookie: Option<string>
    /** How many exchanges the client has made. */
    var sent: nat
    ghost var log: seq<Exchange>

    function St(): State
      reads this
    {
      State(sessionCookie, sent)
    }

    /** The exchange counter and the log agree with the panel's replies. */
    ghost predicate Wired()
      reads this
    {
      sent == |log| && Replayed(panel, log)
    }

    ghost predicate Valid()
      reads this
    {
      Wired() && SessionOk(log, sessionCookie)
    }

    constructor(baseUrl: string, panel: seq<Reply>)
      ensures this.baseUrl == baseUrl && this.panel == panel
      ensures sessionCookie == None && log == []
      ensures Valid()
    {
      this.baseUrl := baseUrl;
      this.panel := panel;
      sessionCookie := None;
      sent := 0;
      log := [];
    }

    /** `login()`. */
    method Login() returns (ok: bool)
      requires Wired()
      modifies this
      ensures var (ok', s', t) := LoginStep(panel, old(St())); ok == ok' && St() == s' && log == old(log) + t
      ensures Wired() && (old(Valid()) ==> Valid())
    {
      ghost var s0, log0 := St(), log;
      var reply := Nth(panel, sent);
      sent := sent + 1;
      log := log + [LoginPost(reply)];
      if reply.Json? && reply.answer.success {
        sessionCookie := CookieNamed(reply.cookies, "3x-ui");
        if !Held(sessionCookie) && |reply.cookies| > 0 {
          // the loop over response.cookies that stops at its first item
          sessionCookie := Some(reply.cookies[0].value);
        }
        ok := true;
      } else {
        ok := false;
      }
      if SessionOk(log0, s0.cookie) {
        if ok {
          SessionLogin(panel, s0.(cookie := None), log0);
          LastLoginAppend(log0, LoginPost(reply));
        } else {
          assert LastLogin(log) == LastLogin(log0) by { LastLoginAppend(log0, LoginPost(reply)); }
          forall i | 0 <= i < |log| && log[i].ApiRequest? ensures LastLogin(log[..i]) == Some(log[i].cookie) {
            assert log[..i] == log0[..i];
          }
        }
      }
    }

    /** `_ensure_logged_in()`: false stands for the exception it raises. */
    method EnsureLoggedIn() returns (ok: bool)
      requires Wired()
      modifies this
      ensures var (ok', s', t) := EnsureStep(panel, old(St())); ok == ok' && St() == s' && log == old(log) + t
      ensures Wired() && (old(Valid()) ==> Valid())
      ensures old(Valid()) && ok ==> LastLogin(log) == Some(sessionCookie)
    {
      ghost var s0, log0 := St(), log;
      if Held(sessionCookie) {
        ok := true;
        assert log == log0 + [];
      } else {
        ok := Login();
      }
      if SessionOk(log0, s0.cookie) {
        SessionLogin(panel, s0, log0);
      }
    }

    /** One `http_client.request` with the held cookie. */
    method Send(call: Call) returns (reply: Reply)
      requires Wired()
      modifies this
      ensures var (reply', s', t) := SendStep(panel, old(St()), call); reply == reply' && St() == s' && log == old(log) + t
      ensures Wired()
    {
      reply := Nth(panel, sent);
      log := log + [ApiRequest(sessionCookie, call, reply)];
      sent := sent + 1;
    }

    /** `_request()`. */
    method Request(call: Call) returns (out: Outcome)
      requires Valid()
      modifies this
      ensures var (out', s', t) := RequestStep(panel, old(St()), call); out == out' && St() == s' && log == old(log) + t
      ensures Valid()
    {
      ghost var s0, log0 := St(), log;
      RequestKeepsSession(panel, s0, call, log0);
      ghost var e1 := EnsureStep(panel, St());
      var ok := EnsureLoggedIn();
      if !ok {
        return Raised(AuthFailed);
      }
      ghost var d2 := SendStep(panel, St(), call);
      var first := Send(call);
      AppendAssoc(log0, e1.2, d2.2);
      if first.Broken? {
        return Raised(Transport(first.reason));
      }
      if !Expired(first.answer) {
        return Answered(first.answer);
      }
      sessionCookie := None;
      ghost var e3 := EnsureStep(panel, St());
      ok := EnsureLoggedIn();
      AppendAssoc(log0, e1.2 + d2.2, e3.2);
      if !ok {
        return Raised(AuthFailed);
      }
      ghost var d4 := SendStep(panel, St(), call);
      var second := Send(call);
      AppendAssoc(log0, e1.2 + d2.2 + e3.2, d4.2);
      if second.Broken? {
        return Raised(Transport(second.reason));
      }
      return Answered(second.answer);
    }

    /** `create_client()`; `clientUuid` and `now` stand for `uuid.uuid4()` and `time.time()`. */
    method CreateClient(email: string, totalGb: real, expiryDays: int, limitIp: int, inboundId: int,
                        clientUuid: string, now: real) returns (created: Created)
      requires Valid()
      modifies this
      ensures var (c, s', t) := CreateClientStep(panel, old(St()), email, totalGb, expiryDays, limitIp, inboundId, clientUuid, now);
        created == c && St() == s' && log == old(log) + t
      ensures Valid()
    {
      var settings := NewClientSettings(clientUuid, email, totalGb, expiryDays, limitIp, now);
      var out := Request(AddClient(inboundId, settings));
      match out
      case Raised(f) =>
        created := CreateRaised(f);
      case Answered(a) =>
        if a.success {
          created := ClientCreated(clientUuid, email, limitIp, totalGb, expiryDays);
        } else {
          created := CreateFailed(a.msg.GetOr("Unknown error"));
        }
    }

    /** `get_client_link()`, building the query with the source's step-by-step list. */
    method GetClientLink(clientUuid: string, inboundId: int) returns (link: LinkResult)
      requires Valid()
      modifies this
      ensures var (l, s', t) := GetClientLinkStep(panel, old(St()), baseUrl, clientUuid, inboundId);
        link == l && St() == s' && log == old(log) + t
      ensures Valid()
    {
      var out := Request(GetInbound(inboundId));
      if out.Raised? {
        return LinkRaised(out.failure);
      }
      if !out.answer.success {
        return NoLink;
      }
      var inbound := out.answer.obj.GetOr(EmptyInbound);
      var port := PortOf(inbound);
      var remark := RemarkOf(inbound);
      var address := ServerAddress(baseUrl);
      if address.None? {
        return LinkRaised(MalformedPanelUrl);
      }
      var server := address.value;
      var params := BuildParams(inbound.streamSettings, server);
      link := LinkFound(Link(clientUuid, server, IntToString(port), params, remark));
    }
  }
}
