/**
 * marzban_api.py: the client of the Marzban panel, which hands out the Shadowsocks
 * ("Outline") keys. It holds a bearer token, logs in on demand, logs in again once when
 * a request is answered 401, maps the final status to a result, and creates users whose
 * proxies are chosen from the panel's protocol catalogue.
 *
 * As for the 3x-ui client, the HTTP client is modelled as `panel`, the sequence of
 * replies the panel gives to the client's exchanges in order (a refused connection once
 * it is used up), the ghost `log` records every exchange, and each method is specified
 * by a pure step function over `State`.
 */
module MarzbanPanel {
  import opened Wrappers
  import opened Text
  import opened Units

  // ---------------------------------------------------------------------------
  // Wire values

  /**
   * One element of a catalogue tag list: a JSON object, with or without a string "tag"
   * key, or any other JSON value, which the client passes on untouched.
   */
  datatype Tag = TagObject(tag: Option<string>) | TagValue(value: string)

  /** One `protocol: [tags]` item of the /inbounds catalogue. */
  datatype CatalogueEntry = CatalogueEntry(protocol: string, tags: seq<Tag>)

  /**
   * A decoded JSON body, by the keys the client reads from it: a token object, a
   * catalogue object, a user object, or a JSON value that is not an object at all.
   */
  datatype Data =
    | TokenData(accessToken: Option<string>)
    | CatalogueData(entries: seq<CatalogueEntry>)
    | UserData(subscriptionUrl: Option<string>, links: Option<seq<string>>)
    | NonObject

  /** A reply body: JSON, or text that `response.json()` refuses. */
  datatype Body = JsonBody(data: Data) | NotJson

  /** One HTTP exchange as the client sees it, or the exception the HTTP client raised. */
  datatype Reply = Response(status: int, body: Body, text: string) | Broken(reason: string)

  const Refused: Reply := Broken("connection refused")

  function Nth(panel: seq<Reply>, i: nat): Reply {
    if i < |panel| then panel[i] else Refused
  }

  /** The protocols create_user knows about. */
  datatype Protocol = Shadowsocks | Vless | Vmess | Trojan

  /** The `proxies` and `inbounds` maps of a new user. */
  datatype ProxyConfig = ProxyConfig(proxies: map<Protocol, map<string, string>>, inbounds: map<Protocol, seq<Tag>>)

  /** The JSON body of POST /api/user. */
  datatype UserPayload = UserPayload(
    username: string, proxies: map<Protocol, map<string, string>>, inbounds: map<Protocol, seq<Tag>>,
    expire: int, dataLimit: real, resetStrategy: string, status: string)

  /** The API calls of the model, under /api. */
  datatype Call = ListInbounds | AddUser(payload: UserPayload)   // GET /inbounds, POST /user

  datatype Exchange =
    | TokenPost(reply: Reply)
    | ApiCall(token: Option<string>, call: Call, reply: Reply)

  /** The client's own state: the access token it holds and how many exchanges it has made. */
  datatype State = State(token: Option<string>, sent: nat)

  /** An exception escaping `_request` or create_user. */
  datatype Failure =
    | AuthFailed           // _ensure_logged_in could not log in
    | Transport(reason: string)
    | BadJson              // a 200 or 201 whose body is not JSON
    | NotAnObject          // a created user that is not a JSON object

  /** The dictionary `_request` returns, or the exception it raises. */
  datatype Outcome = Ok(data: Data) | HttpError(error: string) | Raised(failure: Failure)

  // ---------------------------------------------------------------------------
  // Session

  /** Python truthiness of `access_token`: present and non-empty. */
  predicate Held(token: Option<string>) {
    token.Some? && token.value != ""
  }

  /** `login()` returns True: a 200 whose body is a JSON object. */
  predicate LoginSucceeds(reply: Reply) {
    reply.Response? && reply.status == 200 && reply.body.JsonBody? && !reply.body.data.NonObject?
  }

  /** `result.get("access_token")`. */
  function StoredToken(data: Data): Option<string> {
    if data.TokenData? then data.accessToken else None
  }

  /** The token the most recent successful login in `log` stored, if there was one. */
  function LastLogin(log: seq<Exchange>): Option<Option<string>>
    decreases |log|
  {
    if log == [] then None
    else
      var e := log[|log| - 1];
      if e.TokenPost? && LoginSucceeds(e.reply) then Some(StoredToken(e.reply.body.data))
      else LastLogin(log[..|log| - 1])
  }

  /**
   * The session invariant: every API call in `log` carried exactly the token stored by
   * the most recent successful login before it, and a token the client holds is the one
   * the most recent login stored.
   */
  ghost predicate SessionOk(log: seq<Exchange>, token: Option<string>) {
    (forall i :: 0 <= i < |log| && log[i].ApiCall? ==> LastLogin(log[..i]) == Some(log[i].token))
    && (Held(token) ==> LastLogin(log) == Some(token))
  }

  ghost predicate Replayed(panel: seq<Reply>, log: seq<Exchange>) {
    forall i :: 0 <= i < |log| ==> log[i].reply == Nth(panel, i)
  }

  /** `"HTTP <code>: <text>"`. */
  function HttpErrorText(status: int, text: string): string {
    "HTTP " + IntToString(status) + ": " + text
  }

  /** The error text tells the status and the body apart again: they meet at its first ':'. */
  lemma HttpErrorParts(status: int, text: string)
    ensures SplitFirst(HttpErrorText(status, text), ':') == Some(("HTTP " + IntToString(status), " " + text))
  {
    var head := "HTTP " + IntToString(status);
    assert ':' !in head by {
      forall k | 0 <= k < |head| ensures head[k] != ':' {
        if k >= 5 {
          assert head[k] == IntToString(status)[k - 5];
        }
      }
    }
    assert HttpErrorText(status, text) == head + [':'] + (" " + text);
    SplitFirstGlued(head, ':', " " + text);
  }

  /** The status mapping of `_request` for a reply that arrived. */
  function StatusOutcome(reply: Reply): Outcome
    requires reply.Response?
  {
    if reply.status == 200 || reply.status == 201 then
      if reply.body.JsonBody? then Ok(reply.body.data) else Raised(BadJson)
    else HttpError(HttpErrorText(reply.status, reply.text))
  }

  // ---------------------------------------------------------------------------
  // Steps

  function Next(panel: seq<Reply>, s: State): Reply {
    Nth(panel, s.sent)
  }

  /** `login()`: post the credentials; on success keep the token the reply named. */
  function LoginStep(panel: seq<Reply>, s: State): (bool, State, seq<Exchange>) {
    var reply := Next(panel, s);
    var s1 := s.(sent := s.sent + 1);
    if LoginSucceeds(reply) then (true, s1.(token := StoredToken(reply.body.data)), [TokenPost(reply)])
    else (false, s1, [TokenPost(reply)])
  }

  /** `_ensure_logged_in()`: log in unless a token is held; false stands for the raise. */
  function EnsureStep(panel: seq<Reply>, s: State): (bool, State, seq<Exchange>) {
    if Held(s.token) then (true, s, []) else LoginStep(panel, s)
  }

  /** One call to the API, carrying the token currently held. */
  function SendStep(panel: seq<Reply>, s: State, call: Call): (Reply, State, seq<Exchange>) {
    var reply := Next(panel, s);
    (reply, s.(sent := s.sent + 1), [ApiCall(s.token, call, reply)])
  }

  /** `_request()`: ensure a token, send, and on a 401 drop the token, log in again and resend once. */
  function RequestStep(panel: seq<Reply>, s: State, call: Call): (Outcome, State, seq<Exchange>) {
    var (ok, s1, t1) := EnsureStep(panel, s);
    if !ok then (Raised(AuthFailed), s1, t1)
    else
      var (first, s2, t2) := SendStep(panel, s1, call);
      if first.Broken? then (Raised(Transport(first.reason)), s2, t1 + t2)
      else if first.status != 401 then (StatusOutcome(first), s2, t1 + t2)
      else
        var (ok2, s3, t3) := EnsureStep(panel, s2.(token := None));
        if !ok2 then (Raised(AuthFailed), s3, t1 + t2 + t3)
        else
          var (second, s4, t4) := SendStep(panel, s3, call);
          if second.Broken? then (Raised(Transport(second.reason)), s4, t1 + t2 + t3 + t4)
          else (StatusOutcome(second), s4, t1 + t2 + t3 + t4)
  }

  // ---------------------------------------------------------------------------
  // Properties of login and of one request

  /**
   * A login sets the token only on a 200 with a JSON object, and then to that object's
   * `access_token`, which may be absent; otherwise it leaves the token as it was.
   */
  lemma LoginFacts(panel: seq<Reply>, s: State)
    ensures var (ok, s', t) := LoginStep(panel, s); var reply := Next(panel, s);
      && t == [TokenPost(reply)] && s'.sent == s.sent + 1
      && (ok <==> reply.Response? && reply.status == 200 && reply.body.JsonBody? && !reply.body.data.NonObject?)
      && (!ok ==> s'.token == s.token)
      && (ok ==> (s'.token.Some? <==> reply.body.data.TokenData? && reply.body.data.accessToken.Some?))
      && (ok && s'.token.Some? ==> s'.token == reply.body.data.accessToken)
  {
  }

  /**
   * No call without a login attempt: with no token held the first exchange is the login,
   * and when it fails `_request` raises AuthFailed having sent nothing. With a token
   * held the first exchange is the call itself, carrying that token.
   */
  lemma RequestNeedsSession(panel: seq<Reply>, s: State, call: Call)
    ensures var (out, s', t) := RequestStep(panel, s, call);
      && |t| > 0
      && (!Held(s.token) ==> t[0] == TokenPost(Next(panel, s)))
      && (!Held(s.token) && !LoginSucceeds(Next(panel, s)) ==>
            t == [TokenPost(Next(panel, s))] && out == Raised(AuthFailed) && s'.token == s.token)
      && (Held(s.token) ==> t[0] == ApiCall(s.token, call, Next(panel, s)))
  {
  }

  /** `_request` sends only the call it was given. */
  lemma RequestSendsCall(panel: seq<Reply>, s: State, call: Call)
    ensures var (out, s', t) := RequestStep(panel, s, call);
      forall i :: 0 <= i < |t| && t[i].ApiCall? ==> t[i].call == call
  {
    var (out, s', t) := RequestStep(panel, s, call);
    var (ok, s1, t1) := EnsureStep(panel, s);
    if ok {
      var (first, s2, t2) := SendStep(panel, s1, call);
      if !first.Broken? && first.status == 401 {
        var (ok2, s3, t3) := EnsureStep(panel, s2.(token := None));
        if ok2 {
          var (second, s4, t4) := SendStep(panel, s3, call);
          assert t == t1 + t2 + t3 + t4;
        } else {
          assert t == t1 + t2 + t3;
        }
      } else {
        assert t == t1 + t2;
      }
    }
  }

  /**
   * A trace in which the call is sent at most twice: a call that follows another is the
   * last exchange, made right after the earlier one was answered 401 and a new login
   * then succeeded, and it carries that login's token.
   */
  ghost predicate SentAtMostTwice(t: seq<Exchange>) {
    forall i, j :: 0 <= i < j < |t| && t[i].ApiCall? && t[j].ApiCall? ==>
      && j == i + 2 == |t| - 1
      && t[i].reply.Response? && t[i].reply.status == 401
      && t[i + 1].TokenPost? && LoginSucceeds(t[i + 1].reply)
      && t[j].token == StoredToken(t[i + 1].reply.body.data)
  }

  /** `_request` retries once at most, and only after a 401 and a successful new login. */
  lemma RequestRetriesOnce(panel: seq<Reply>, s: State, call: Call)
    ensures SentAtMostTwice(RequestStep(panel, s, call).2)
  {
    var t := RequestStep(panel, s, call).2;
    var e := EnsureStep(panel, s);
    assert forall i :: 0 <= i < |e.2| ==> e.2[i].TokenPost?;
    if e.0 {
      var f := SendStep(panel, e.1, call);
      if !f.0.Broken? && f.0.status == 401 {
        var e2 := EnsureStep(panel, f.1.(token := None));
        if e2.0 {
          var g := SendStep(panel, e2.1, call);
          assert t == e.2 + [f.2[0], e2.2[0], g.2[0]];
          RetryAt(e.2, f.2[0], e2.2[0], g.2[0]);
        } else {
          assert t == e.2 + [f.2[0]] + e2.2;
          SingleCallAt(e.2, f.2[0], e2.2);
        }
      } else {
        assert t == e.2 + [f.2[0]] + [];
        SingleCallAt(e.2, f.2[0], []);
      }
    } else {
      assert t == [] + [TokenPost(Next(panel, s))] + [];
      SingleCallAt([], TokenPost(Next(panel, s)), []);
    }
  }

  /** A trace with one API call at most, between logins: no call follows another. */
  lemma SingleCallAt(before: seq<Exchange>, x: Exchange, after: seq<Exchange>)
    requires forall i :: 0 <= i < |before| ==> before[i].TokenPost?
    requires forall i :: 0 <= i < |after| ==> after[i].TokenPost?
    ensures SentAtMostTwice(before + [x] + after)
  {
    var t := before + [x] + after;
    assert forall i :: 0 <= i < |t| && t[i].ApiCall? ==> i == |before|;
  }

  /** Logins, then a call answered 401, a successful login and the resent call. */
  lemma RetryAt(before: seq<Exchange>, first: Exchange, login: Exchange, second: Exchange)
    requires forall i :: 0 <= i < |before| ==> before[i].TokenPost?
    requires first.ApiCall? && first.reply.Response? && first.reply.status == 401
    requires login.TokenPost? && LoginSucceeds(login.reply)
    requires second.ApiCall? && second.token == StoredToken(login.reply.body.data)
    ensures SentAtMostTwice(before + [first, login, second])
  {
    var t := before + [first, login, second];
    var k := |before|;
    forall i, j | 0 <= i < j < |t| && t[i].ApiCall? && t[j].ApiCall?
      ensures i == k && j == k + 2
    {
      assert i >= k && j >= k;
    }
  }

  /** The reply to the last exchange of a trace, when that was an API call the panel answered. */
  function FinalResponse(t: seq<Exchange>): Option<Reply> {
    if |t| > 0 && t[|t| - 1].ApiCall? && t[|t| - 1].reply.Response? then Some(t[|t| - 1].reply) else None
  }

  /**
   * The status mapping: `_request` gives the data exactly when the last reply is a 200
   * or a 201 with a JSON body, and an `"HTTP <code>: <text>"` error exactly when the
   * last reply has any other status, a second 401 included. AuthFailed means the last
   * login failed, and a Transport failure carries the last call's exception.
   */
  lemma RequestResult(panel: seq<Reply>, s: State, call: Call)
    ensures var (out, s', t) := RequestStep(panel, s, call); var last := FinalResponse(t);
      && |t| > 0
      && (out.Ok? <==>
            last.Some? && (last.value.status == 200 || last.value.status == 201) && last.value.body.JsonBody?)
      && (out.Ok? ==> out.data == last.value.body.data)
      && (out.HttpError? <==> last.Some? && last.value.status != 200 && last.value.status != 201)
      && (out.HttpError? ==> out.error == HttpErrorText(last.value.status, last.value.text))
      && (out == Raised(AuthFailed) <==> t[|t| - 1].TokenPost? && !LoginSucceeds(t[|t| - 1].reply))
      && (out.Raised? && out.failure.Transport? ==>
            t[|t| - 1].ApiCall? && t[|t| - 1].reply == Broken(out.failure.reason))
      && out != Raised(NotAnObject)
  {
    var (out, s', t) := RequestStep(panel, s, call);
    var (ok, s1, t1) := EnsureStep(panel, s);
    if ok {
      var (first, s2, t2) := SendStep(panel, s1, call);
      if !first.Broken? && first.status == 401 {
        assert t[|t1|] == t2[0];
      }
    }
  }

  lemma EnsureReplays(panel: seq<Reply>, s: State, log: seq<Exchange>)
    requires |log| == s.sent && Replayed(panel, log)
    ensures var r := EnsureStep(panel, s); r.1.sent == |log + r.2| && Replayed(panel, log + r.2)
  {
    if EnsureStep(panel, s).2 == [] {
      assert log + [] == log;
    }
  }

  lemma SendReplays(panel: seq<Reply>, s: State, call: Call, log: seq<Exchange>)
    requires |log| == s.sent && Replayed(panel, log)
    ensures var r := SendStep(panel, s, call); r.1.sent == |log + r.2| && Replayed(panel, log + r.2)
  {
  }

  lemma RequestReplays(panel: seq<Reply>, s: State, call: Call, log: seq<Exchange>)
    requires |log| == s.sent && Replayed(panel, log)
    ensures var (out, s', t) := RequestStep(panel, s, call);
      s'.sent == |log + t| && Replayed(panel, log + t)
  {
    var (ok, s1, t1) := EnsureStep(panel, s);
    EnsureReplays(panel, s, log);
    if ok {
      var (first, s2, t2) := SendStep(panel, s1, call);
      SendReplays(panel, s1, call, log + t1);
      AppendAssoc(log, t1, t2);
      if !first.Broken? && first.status == 401 {
        var (ok2, s3, t3) := EnsureStep(panel, s2.(token := None));
        EnsureReplays(panel, s2.(token := None), log + t1 + t2);
        AppendAssoc(log, t1 + t2, t3);
        if ok2 {
          var (second, s4, t4) := SendStep(panel, s3, call);
          SendReplays(panel, s3, call, log + t1 + t2 + t3);
          AppendAssoc(log, t1 + t2 + t3, t4);
        }
      }
    }
  }

  // ---------------------------------------------------------------------------
  // The session invariant is kept

  lemma LastLoginAppend(l: seq<Exchange>, e: Exchange)
    ensures LastLogin(l + [e]) ==
      if e.TokenPost? && LoginSucceeds(e.reply) then Some(StoredToken(e.reply.body.data)) else LastLogin(l)
  {
    assert (l + [e])[..|l|] == l;
  }

  lemma SessionLogin(panel: seq<Reply>, s: State, log: seq<Exchange>)
    requires SessionOk(log, s.token)
    ensures var (ok, s', t) := EnsureStep(panel, s);
      SessionOk(log + t, s'.token) && (ok ==> LastLogin(log + t) == Some(s'.token))
  {
    var (ok, s', t) := EnsureStep(panel, s);
    if t == [] {
      assert log + t == log;
    } else {
      var l := log + t;
      LastLoginAppend(log, t[0]);
      forall i | 0 <= i < |l| && l[i].ApiCall? ensures LastLogin(l[..i]) == Some(l[i].token) {
        assert i < |log|;
        assert l[..i] == log[..i];
      }
    }
  }

  lemma SessionSend(panel: seq<Reply>, s: State, call: Call, log: seq<Exchange>)
    requires SessionOk(log, s.token) && LastLogin(log) == Some(s.token)
    ensures var (reply, s', t) := SendStep(panel, s, call);
      SessionOk(log + t, s'.token) && LastLogin(log + t) == Some(s'.token)
  {
    var (reply, s', t) := SendStep(panel, s, call);
    var l := log + t;
    LastLoginAppend(log, t[0]);
    forall i | 0 <= i < |l| && l[i].ApiCall? ensures LastLogin(l[..i]) == Some(l[i].token) {
      if i < |log| {
        assert l[..i] == log[..i];
      } else {
        assert l[..i] == log;
      }
    }
  }

  /**
   * The session invariant holds after every request: each call the client ever sends
   * carries the token of the most recent successful login before it. That token may be
   * None ("Bearer None") when the login's reply had no `access_token`.
   */
  lemma RequestKeepsSession(panel: seq<Reply>, s: State, call: Call, log: seq<Exchange>)
    requires SessionOk(log, s.token)
    ensures var r := RequestStep(panel, s, call); SessionOk(log + r.2, r.1.token)
  {
    var e := EnsureStep(panel, s);
    SessionLogin(panel, s, log);
    if e.0 {
      var f := SendStep(panel, e.1, call);
      SessionSend(panel, e.1, call, log + e.2);
      AppendAssoc(log, e.2, f.2);
      if !f.0.Broken? && f.0.status == 401 {
        var s2c := f.1.(token := None);
        var e2 := EnsureStep(panel, s2c);
        SessionLogin(panel, s2c, log + e.2 + f.2);
        AppendAssoc(log, e.2 + f.2, e2.2);
        if e2.0 {
          var g := SendStep(panel, e2.1, call);
          SessionSend(panel, e2.1, call, log + e.2 + f.2 + e2.2);
          AppendAssoc(log, e.2 + f.2 + e2.2, g.2);
        }
      }
    }
  }

  // ---------------------------------------------------------------------------
  // The catalogue and the new user's proxies

  /** A catalogue element as create_user passes it on: an object's "tag", else the element itself. */
  function NormaliseTag(t: Tag): Tag {
    match t
    case TagObject(Some(name)) => TagValue(name)
    case _ => t
  }

  /** The tag list comprehension: one output per element, in order. */
  function NormaliseTags(tags: seq<Tag>): (r: seq<Tag>)
    ensures |r| == |tags|
    ensures forall i :: 0 <= i < |tags| ==> r[i] == NormaliseTag(tags[i])
  {
    if tags == [] then [] else [NormaliseTag(tags[0])] + NormaliseTags(tags[1..])
  }

  /** Normalising twice changes nothing more: an object without "tag" stays as it is. */
  lemma NormaliseTagsIdempotent(tags: seq<Tag>)
    ensures NormaliseTags(NormaliseTags(tags)) == NormaliseTags(tags)
  {
    var once := NormaliseTags(tags);
    assert forall i :: 0 <= i < |once| ==> NormaliseTag(once[i]) == once[i];
  }

  /** The protocol a catalogue key names, compared lower-cased. */
  function ProtocolNamed(name: string): Option<Protocol> {
    var key := Lower(name);
    if key == "shadowsocks" then Some(Shadowsocks)
    else if key == "vless" then Some(Vless)
    else if key == "vmess" then Some(Vmess)
    else if key == "trojan" then Some(Trojan)
    else None
  }

  /** The key a protocol has in the `proxies` and `inbounds` JSON objects. */
  function ProtocolKey(p: Protocol): string {
    match p
    case Shadowsocks => "shadowsocks"
    case Vless => "vless"
    case Vmess => "vmess"
    case Trojan => "trojan"
  }

  /** A catalogue key names a protocol exactly when, lower-cased, it is that protocol's key. */
  lemma ProtocolNamedKey(name: string, p: Protocol)
    ensures ProtocolNamed(name) == Some(p) <==> Lower(name) == ProtocolKey(p)
  {
  }

  /** The settings object each protocol's proxy gets. */
  function ProxyFields(p: Protocol): map<string, string> {
    match p
    case Vless => map["flow" := ""]
    case Trojan => map["password" := ""]
    case _ => map[]
  }

  /** The loop of create_user over the catalogue, before the fallback. */
  function Fold(cat: seq<CatalogueEntry>): ProxyConfig
    decreases |cat|
  {
    if cat == [] then ProxyConfig(map[], map[])
    else
      var c := Fold(cat[..|cat| - 1]);
      var e := cat[|cat| - 1];
      match ProtocolNamed(e.protocol)
      case None => c
      case Some(p) => ProxyConfig(c.proxies[p := ProxyFields(p)], c.inbounds[p := NormaliseTags(e.tags)])
  }

  /** Some entry of the catalogue names protocol `p`. */
  predicate Names(cat: seq<CatalogueEntry>, p: Protocol) {
    exists k :: 0 <= k < |cat| && ProtocolNamed(cat[k].protocol) == Some(p)
  }

  /** Entry `k` is the last one naming protocol `p`. */
  predicate LastNaming(cat: seq<CatalogueEntry>, p: Protocol, k: int) {
    && 0 <= k < |cat| && ProtocolNamed(cat[k].protocol) == Some(p)
    && forall j :: k < j < |cat| ==> ProtocolNamed(cat[j].protocol) != Some(p)
  }

  /** A catalogue names what its prefix names, and what its last entry names. */
  lemma NamesSnoc(cat: seq<CatalogueEntry>, p: Protocol)
    requires cat != []
    ensures Names(cat, p) <==> Names(cat[..|cat| - 1], p) || ProtocolNamed(cat[|cat| - 1].protocol) == Some(p)
  {
    var init := cat[..|cat| - 1];
    assert forall k :: 0 <= k < |init| ==> init[k] == cat[k];
    if Names(cat, p) && ProtocolNamed(cat[|cat| - 1].protocol) != Some(p) {
      var k :| 0 <= k < |cat| && ProtocolNamed(cat[k].protocol) == Some(p);
      assert k < |init|;
    }
  }

  /**
   * A protocol gets a proxy and a tag list exactly when some entry names it, and the
   * proxy has that protocol's settings; unknown protocols contribute nothing.
   */
  lemma {:induction false} FoldKey(cat: seq<CatalogueEntry>, p: Protocol)
    ensures p in Fold(cat).proxies <==> Names(cat, p)
    ensures p in Fold(cat).inbounds <==> Names(cat, p)
    ensures p in Fold(cat).proxies ==> Fold(cat).proxies[p] == ProxyFields(p)
    decreases |cat|
  {
    if cat != [] {
      FoldKey(cat[..|cat| - 1], p);
      NamesSnoc(cat, p);
    }
  }

  /** A protocol's tags are the normalised tags of the last entry naming it. */
  lemma {:induction false} FoldTags(cat: seq<CatalogueEntry>, p: Protocol, k: int)
    requires LastNaming(cat, p, k)
    ensures p in Fold(cat).inbounds && Fold(cat).inbounds[p] == NormaliseTags(cat[k].tags)
    decreases |cat|
  {
    var init := cat[..|cat| - 1];
    if k < |cat| - 1 {
      assert LastNaming(init, p, k) by {
        assert init[k] == cat[k];
        forall j | k < j < |init| ensures ProtocolNamed(init[j].protocol) != Some(p) {
          assert init[j] == cat[j];
        }
      }
      FoldTags(init, p, k);
    }
  }

  /** The `proxies` and `inbounds` create_user sends: the fold, or Shadowsocks alone when it found nothing. */
  function ProxyConfigOf(cat: seq<CatalogueEntry>): ProxyConfig {
    var c := Fold(cat);
    if c.proxies == map[] then ProxyConfig(map[Shadowsocks := map[]], map[]) else c
  }

  /**
   * A new user always has at least one proxy, each with that protocol's settings, and
   * tags only for protocols it has a proxy for. With no known protocol in the catalogue
   * the user gets Shadowsocks with no inbound tags; otherwise exactly the protocols the
   * catalogue names.
   */
  lemma ProxyConfigFacts(cat: seq<CatalogueEntry>)
    ensures ProxyConfigOf(cat).proxies != map[]
    ensures ProxyConfigOf(cat).inbounds.Keys <= ProxyConfigOf(cat).proxies.Keys
    ensures forall p :: p in ProxyConfigOf(cat).proxies ==> ProxyConfigOf(cat).proxies[p] == ProxyFields(p)
    ensures (forall p :: !Names(cat, p)) ==> ProxyConfigOf(cat) == ProxyConfig(map[Shadowsocks := map[]], map[])
    ensures forall p :: Names(cat, p) ==> p in ProxyConfigOf(cat).proxies && ProxyConfigOf(cat) == Fold(cat)
  {
    var f := Fold(cat);
    forall p {
      FoldKey(cat, p);
    }
    if forall p :: !Names(cat, p) {
      assert f.proxies == map[] by {
        assert forall p :: p !in f.proxies;
      }
      assert Shadowsocks in ProxyConfigOf(cat).proxies;
    } else {
      var q :| Names(cat, q);
      assert q in f.proxies;
    }
  }

  /** The catalogue as create_user reads it: a JSON object's items, or nothing. */
  function CatalogueOf(data: Data): seq<CatalogueEntry> {
    if data.CatalogueData? then data.entries else []
  }

  /** The payload of create_user, for the catalogue it read and the clock reading `now`. */
  function NewUserPayload(username: string, cat: seq<CatalogueEntry>, dataLimitGb: real, expiryDays: int, now: real)
    : UserPayload
  {
    var c := ProxyConfigOf(cat);
    UserPayload(username, c.proxies, c.inbounds, ExpirySeconds(now, expiryDays), CapBytes(dataLimitGb),
                "no_reset", "active")
  }

  // ---------------------------------------------------------------------------
  // The subscription URL

  /** A relative subscription URL is made absolute with the panel's base URL. */
  function FixSubscriptionUrl(baseUrl: string, url: string): (r: string)
    ensures r == url || r == baseUrl + url
  {
    if url != "" && !StartsWith(url, "http") then baseUrl + url else url
  }

  /**
   * With an http(s) base URL, the result is empty or starts with "http", and fixing it
   * again changes nothing; a URL that already starts with "http" is kept as it is.
   */
  lemma FixSubscriptionUrlFacts(baseUrl: string, url: string)
    requires StartsWith(baseUrl, "http")
    ensures var r := FixSubscriptionUrl(baseUrl, url);
      && (r == "" || StartsWith(r, "http"))
      && FixSubscriptionUrl(baseUrl, r) == r
      && (StartsWith(url, "http") ==> r == url)
      && (url == "" ==> r == "")
  {
    var r := FixSubscriptionUrl(baseUrl, url);
    if r == baseUrl + url {
      assert (baseUrl + url)[..4] == baseUrl[..4];
    }
  }

  function SubscriptionUrlOf(data: Data): string {
    if data.UserData? then data.subscriptionUrl.GetOr("") else ""
  }

  function LinksOf(data: Data): seq<string> {
    if data.UserData? then data.links.GetOr([]) else []
  }

  // ---------------------------------------------------------------------------
  // get_inbounds and create_user

  /** `get_inbounds()` followed by the `isinstance(inbounds, dict)` test of create_user. */
  function GetInboundsStep(panel: seq<Reply>, s: State): (Outcome, seq<CatalogueEntry>, State, seq<Exchange>) {
    var r := RequestStep(panel, s, ListInbounds);
    (r.0, if r.0.Ok? then CatalogueOf(r.0.data) else [], r.1, r.2)
  }

  /** The dictionary create_user returns, or the exception it lets through. */
  datatype Created =
    | UserCreated(username: string, subscriptionUrl: string, links: seq<string>, dataLimitGb: real,
                  expiryDays: int, expire: int)
    | UserFailed(error: string)
    | UserRaised(failure: Failure)

  /** The dictionary create_user builds from the result of posting the user. */
  function CreatedOf(out: Outcome, baseUrl: string, username: string, dataLimitGb: real, expiryDays: int,
                     expire: int): Created
  {
    match out
    case Raised(f) => UserRaised(f)
    case HttpError(e) => UserFailed(e)
    case Ok(data) =>
      if data.NonObject? then UserRaised(NotAnObject)
      else UserCreated(username, FixSubscriptionUrl(baseUrl, SubscriptionUrlOf(data)), LinksOf(data),
                       dataLimitGb, expiryDays, expire)
  }

  /** The second half of create_user: post the payload and read the reply. */
  function PostUserStep(panel: seq<Reply>, s: State, baseUrl: string, username: string, cat: seq<CatalogueEntry>,
                        dataLimitGb: real, expiryDays: int, now: real)
    : (Created, State, seq<Exchange>)
  {
    var r := RequestStep(panel, s, AddUser(NewUserPayload(username, cat, dataLimitGb, expiryDays, now)));
    (CreatedOf(r.0, baseUrl, username, dataLimitGb, expiryDays, ExpirySeconds(now, expiryDays)), r.1, r.2)
  }

  function CreateUserStep(panel: seq<Reply>, s: State, baseUrl: string, username: string, dataLimitGb: real,
                          expiryDays: int, now: real)
    : (Created, State, seq<Exchange>)
  {
    var g := GetInboundsStep(panel, s);
    if g.0.Raised? then (UserRaised(g.0.failure), g.2, g.3)
    else
      var p := PostUserStep(panel, g.2, baseUrl, username, g.1, dataLimitGb, expiryDays, now);
      (p.0, p.1, g.3 + p.2)
  }

  /**
   * create_user reads the catalogue, then posts one user: the given username, the
   * expiry `now + days * 86400` in whole seconds, the cap in bytes, "no_reset" and
   * "active", and proxies as the catalogue allows (never none).
   */
  lemma CreateUserPayload(panel: seq<Reply>, s: State, baseUrl: string, username: string, dataLimitGb: real,
                          expiryDays: int, now: real)
    ensures var (created, s', t) := CreateUserStep(panel, s, baseUrl, username, dataLimitGb, expiryDays, now);
      && |t| > 0
      && (forall i :: 0 <= i < |t| && t[i].ApiCall? && t[i].call.AddUser? ==>
            var p := t[i].call.payload;
            && p.username == username && p.expire == ExpirySeconds(now, expiryDays)
            && p.dataLimit == CapBytes(dataLimitGb) && p.resetStrategy == "no_reset" && p.status == "active"
            && p.proxies != map[] && p.inbounds.Keys <= p.proxies.Keys)
  {
    var (created, s', t) := CreateUserStep(panel, s, baseUrl, username, dataLimitGb, expiryDays, now);
    var (listed, cat, s1, t1) := GetInboundsStep(panel, s);
    RequestSendsCall(panel, s, ListInbounds);
    if !listed.Raised? {
      var payload := NewUserPayload(username, cat, dataLimitGb, expiryDays, now);
      var (out, s2, t2) := RequestStep(panel, s1, AddUser(payload));
      RequestSendsCall(panel, s1, AddUser(payload));
      ProxyConfigFacts(cat);
      assert t == t1 + t2;
      forall i | 0 <= i < |t| && t[i].ApiCall? && t[i].call.AddUser? ensures t[i].call == AddUser(payload) {
        if i < |t1| {
          assert false;
        } else {
          assert t[i] == t2[i - |t1|];
        }
      }
    }
  }

  /** A user create_user reports as created carries the username it was asked for. */
  lemma CreateUserNamed(panel: seq<Reply>, s: State, baseUrl: string, username: string, dataLimitGb: real,
                        expiryDays: int, now: real)
    ensures var r := CreateUserStep(panel, s, baseUrl, username, dataLimitGb, expiryDays, now);
      r.0.UserCreated? ==> r.0.username == username
  {
  }

  /**
   * create_user reports success exactly when the post was answered 200 or 201 with a
   * JSON object, echoing the username, plan and expiry and the subscription URL made
   * absolute; any other status comes back as the `"HTTP <code>: <text>"` error.
   */
  lemma CreateUserResult(panel: seq<Reply>, s: State, baseUrl: string, username: string, dataLimitGb: real,
                         expiryDays: int, now: real)
    ensures var (created, s', t) := CreateUserStep(panel, s, baseUrl, username, dataLimitGb, expiryDays, now);
      var last := FinalResponse(t);
      && (created.UserCreated? <==>
            && last.Some? && (last.value.status == 200 || last.value.status == 201)
            && last.value.body.JsonBody? && !last.value.body.data.NonObject?
            && t != [] && t[|t| - 1].call.AddUser?)
      && (created.UserCreated? ==>
            && created.username == username && created.expire == ExpirySeconds(now, expiryDays)
            && created.dataLimitGb == dataLimitGb && created.expiryDays == expiryDays
            && created.subscriptionUrl == FixSubscriptionUrl(baseUrl, SubscriptionUrlOf(last.value.body.data))
            && created.links == LinksOf(last.value.body.data))
      && (created.UserFailed? ==>
            last.Some? && t != [] && t[|t| - 1].call.AddUser?
            && created.error == HttpErrorText(last.value.status, last.value.text))
  {
    var (created, s', t) := CreateUserStep(panel, s, baseUrl, username, dataLimitGb, expiryDays, now);
    var (listed, cat, s1, t1) := GetInboundsStep(panel, s);
    RequestSendsCall(panel, s, ListInbounds);
    RequestResult(panel, s, ListInbounds);
    if !listed.Raised? {
      var payload := NewUserPayload(username, cat, dataLimitGb, expiryDays, now);
      var (out, s2, t2) := RequestStep(panel, s1, AddUser(payload));
      RequestSendsCall(panel, s1, AddUser(payload));
      RequestResult(panel, s1, AddUser(payload));
      assert t == t1 + t2;
      assert FinalResponse(t) == FinalResponse(t2);
    }
  }

  // ---------------------------------------------------------------------------
  // The client object

  class MarzbanClient {
    const baseUrl: string
    /** The replies the panel gives, in order (it stands for `http_client`). */
    const panel: seq<Reply>
    var accessToken: Option<string>
    var sent: nat
    ghost var log: seq<Exchange>

    function St(): State
      reads this
    {
      State(accessToken, sent)
    }

    ghost predicate Wired()
      reads this
    {
      sent == |log| && Replayed(panel, log)
    }

    ghost predicate Valid()
      reads this
    {
      Wired() && SessionOk(log, accessToken)
    }

    constructor(baseUrl: string, panel: seq<Reply>)
      ensures this.baseUrl == baseUrl && this.panel == panel
      ensures accessToken == None && log == []
      ensures Valid()
    {
      this.baseUrl := baseUrl;
      this.panel := panel;
      accessToken := None;
      sent := 0;
      log := [];
    }

    /** `login()`. */
    method Login() returns (ok: bool)
      requires Wired()
      modifies this
      ensures var (ok', s', t) := LoginStep(panel, old(St())); ok == ok' && St() == s' && log == old(log) + t
      ensures Wired() && (old(Valid()) ==> Valid())
    {
      ghost var s0, log0 := St(), log;
      var reply := Nth(panel, sent);
      sent := sent + 1;
      log := log + [TokenPost(reply)];
      if reply.Response? && reply.status == 200 && reply.body.JsonBody? && !reply.body.data.NonObject? {
        accessToken := StoredToken(reply.body.data);
        ok := true;
      } else {
        ok := false;
      }
      if SessionOk(log0, s0.token) {
        if ok {
          SessionLogin(panel, s0.(token := None), log0);
          LastLoginAppend(log0, TokenPost(reply));
        } else {
          assert LastLogin(log) == LastLogin(log0) by { LastLoginAppend(log0, TokenPost(reply)); }
          forall i | 0 <= i < |log| && log[i].ApiCall? ensures LastLogin(log[..i]) == Some(log[i].token) {
            assert log[..i] == log0[..i];
          }
        }
      }
    }

    /** `_ensure_logged_in()`: false stands for the exception it raises. */
    method EnsureLoggedIn() returns (ok: bool)
      requires Wired()
      modifies this
      ensures var (ok', s', t) := EnsureStep(panel, old(St())); ok == ok' && St() == s' && log == old(log) + t
      ensures Wired() && (old(Valid()) ==> Valid())
    {
      ghost var s0, log0 := St(), log;
      if Held(accessToken) {
        ok := true;
        assert log == log0 + [];
      } else {
        ok := Login();
      }
      if SessionOk(log0, s0.token) {
        SessionLogin(panel, s0, log0);
      }
    }

    /** One `http_client.request` with the bearer token held. */
    method Send(call: Call) returns (reply: Reply)
      requires Wired()
      modifies this
      ensures var (reply', s', t) := SendStep(panel, old(St()), call); reply == reply' && St() == s' && log == old(log) + t
      ensures Wired()
    {
      reply := Nth(panel, sent);
      log := log + [ApiCall(accessToken, call, reply)];
      sent := sent + 1;
    }

    /** `_request()`. */
    method Request(call: Call) returns (out: Outcome)
      requires Valid()
      modifies this
      ensures var (out', s', t) := RequestStep(panel, old(St()), call); out == out' && St() == s' && log == old(log) + t
      ensures Valid()
    {
      ghost var s0, log0 := St(), log;
      RequestKeepsSession(panel, s0, call, log0);
      ghost var e1 := EnsureStep(panel, St());
      var ok := EnsureLoggedIn();
      if !ok {
        return Raised(AuthFailed);
      }
      ghost var d2 := SendStep(panel, St(), call);
      var first := Send(call);
      AppendAssoc(log0, e1.2, d2.2);
      if first.Broken? {
        return Raised(Transport(first.reason));
      }
      if first.status != 401 {
        return StatusOutcome(first);
      }
      accessToken := None;
      ghost var e3 := EnsureStep(panel, St());
      ok := EnsureLoggedIn();
      AppendAssoc(log0, e1.2 + d2.2, e3.2);
      if !ok {
        return Raised(AuthFailed);
      }
      ghost var d4 := SendStep(panel, St(), call);
      var second := Send(call);
      AppendAssoc(log0, e1.2 + d2.2 + e3.2, d4.2);
      if second.Broken? {
        return Raised(Transport(second.reason));
      }
      return StatusOutcome(second);
    }

    /** `get_inbounds()` and the dictionary test create_user applies to its result. */
    method GetInbounds() returns (out: Outcome, cat: seq<CatalogueEntry>)
      requires Valid()
      modifies this
      ensures var r := GetInboundsStep(panel, old(St())); out == r.0 && cat == r.1 && St() == r.2 && log == old(log) + r.3
      ensures Valid()
    {
      out := Request(ListInbounds);
      cat := if out.Ok? then CatalogueOf(out.data) else [];
    }

    /** The catalogue loop of create_user, filling the two maps, then the fallback. */
    static method BuildProxyConfig(cat: seq<CatalogueEntry>) returns (config: ProxyConfig)
      ensures config == ProxyConfigOf(cat)
    {
      var proxies: map<Protocol, map<string, string>> := map[];
      var inbounds: map<Protocol, seq<Tag>> := map[];
      var i := 0;
      while i < |cat|
        invariant 0 <= i <= |cat|
        invariant ProxyConfig(proxies, inbounds) == Fold(cat[..i])
      {
        assert cat[..i + 1][..i] == cat[..i];
        var protocol := ProtocolNamed(cat[i].protocol);
        if protocol.Some? {
          proxies := proxies[protocol.value := ProxyFields(protocol.value)];
          inbounds := inbounds[protocol.value := NormaliseTags(cat[i].tags)];
        }
        i := i + 1;
      }
      assert cat[..i] == cat;
      if proxies == map[] {
        proxies := map[Shadowsocks := map[]];
        inbounds := map[];
      }
      config := ProxyConfig(proxies, inbounds);
    }

    /** `create_user()`; `now` stands for the one reading of `time.time()`. */
    method CreateUser(username: string, dataLimitGb: real, expiryDays: int, now: real) returns (created: Created)
      requires Valid()
      modifies this
      ensures var r := CreateUserStep(panel, old(St()), baseUrl, username, dataLimitGb, expiryDays, now);
        created == r.0 && St() == r.1 && log == old(log) + r.2
      ensures Valid()
    {
      ghost var log0 := log;
      ghost var g := GetInboundsStep(panel, St());
      var listed, cat := GetInbounds();
      if listed.Raised? {
        return UserRaised(listed.failure);
      }
      ghost var p := PostUserStep(panel, St(), baseUrl, username, cat, dataLimitGb, expiryDays, now);
      created := PostUser(username, cat, dataLimitGb, expiryDays, now);
      AppendAssoc(log0, g.3, p.2);
    }

    /** The payload building and the post of create_user. */
    method PostUser(username: string, cat: seq<CatalogueEntry>, dataLimitGb: real, expiryDays: int, now: real)
      returns (created: Created)
      requires Valid()
      modifies this
      ensures var r := PostUserStep(panel, old(St()), baseUrl, username, cat, dataLimitGb, expiryDays, now);
        created == r.0 && St() == r.1 && log == old(log) + r.2
      ensures Valid()
    {
      var expire := ExpirySeconds(now, expiryDays);
      var dataLimit := CapBytes(dataLimitGb);
      var config := BuildProxyConfig(cat);
      var payload := UserPayload(username, config.proxies, config.inbounds, expire, dataLimit, "no_reset", "active");
      var out := Request(AddUser(payload));
      created := CreatedOf(out, baseUrl, username, dataLimitGb, expiryDays, expire);
    }
  }
}
