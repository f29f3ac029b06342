/**
 * bot.py: the logic behind the bot's chat handlers. It covers the plans, the username
 * clean-up, the per-chat pending-plan state the buttons set and the text handler
 * consumes, and the two key-creation flows over the panel clients. The Telegram side
 * (keyboards, message texts, progress edits) is outside the model: each handler
 * returns the kind of reply it sends, with the values that reply shows.
 */
module Bot {
  import opened Wrappers
  import opened Text
  import opened Units
  import Config
  import X = XuiPanel
  import M = MarzbanPanel

  // ---------------------------------------------------------------------------
  // Plans

  /**
   * A plan's numbers: VLESS plans have a device limit, Outline plans a key count; a VLESS
   * plan read where a key count is wanted counts as one key (`plan_info.get("keys", 1)`).
   */
  datatype Plan = Plan(devices: Option<int>, dataGb: real, expiryDays: int, keys: Option<int>)

  const VlessPlans: map<string, Plan> := map[
    "vless_basic" := Plan(Some(1), 0.0, 30, None),
    "vless_silver" := Plan(Some(2), 0.0, 30, None),
    "vless_golden" := Plan(Some(3), 0.0, 30, None),
    "vless_trial" := Plan(Some(1), 0.5, 1, None)]

  const OutlinePlans: map<string, Plan> := map[
    "outline_basic" := Plan(None, 0.0, 30, Some(1)),
    "outline_silver" := Plan(None, 0.0, 30, Some(2)),
    "outline_golden" := Plan(None, 0.0, 30, Some(3)),
    "outline_trial" := Plan(None, 0.5, 1, Some(1))]

  /** The plan names the quick commands accept after their prefix. */
  const PlanNames: set<string> := {"basic", "silver", "golden", "trial"}

  function KeyCount(plan: Plan): int {
    plan.keys.GetOr(1)
  }

  /** The data text of a report: "Unlimited" for a 0 GB plan, otherwise whole megabytes. */
  function DataLabel(dataGb: real): string {
    if dataGb == 0.0 then "Unlimited" else IntToString(Trunc(dataGb * 1024.0)) + " MB"
  }

  /** "Unlimited" is shown exactly for the plans without a cap. */
  lemma DataLabelUnlimited(dataGb: real)
    ensures DataLabel(dataGb) == "Unlimited" <==> dataGb == 0.0
  {
    if dataGb != 0.0 {
      var text := DataLabel(dataGb);
      assert text[|text| - 1] == 'B';
    }
  }

  /** The trial plans' 0.5 GB is shown as 512 MB, and sent as exactly 2^29 bytes. */
  lemma TrialPlanData()
    ensures VlessPlans["vless_trial"].dataGb == OutlinePlans["outline_trial"].dataGb == 0.5
    ensures DataLabel(0.5) == "512 MB"
    ensures CapBytes(0.5) == 536870912.0
  {
    assert Trunc(0.5 * 1024.0) == 512;
    assert NatToString(512) == "512" by {
      assert NatToString(51) == "51" by {
        assert NatToString(5) == "5";
      }
    }
  }

  /** Every VLESS plan has a device limit and every Outline plan a positive key count. */
  lemma PlansWellFormed()
    ensures forall k :: k in VlessPlans ==> VlessPlans[k].devices.Some? && VlessPlans[k].devices.value >= 1
    ensures forall k :: k in OutlinePlans ==> OutlinePlans[k].keys.Some? && KeyCount(OutlinePlans[k]) >= 1
  {
  }

  /** Every plan button carries the prefix its creation flow is chosen by, and only that one. */
  lemma PlanPrefixes(k: string)
    ensures k in VlessPlans ==> StartsWith(k, "vless_") && !StartsWith(k, "outline_") && k[0] == 'v'
    ensures k in OutlinePlans ==> StartsWith(k, "outline_") && !StartsWith(k, "vless_") && k[0] == 'o'
  {
    if k in VlessPlans {
      assert k[..6] == "vless_";
      assert k[0] == 'v';
    }
    if k in OutlinePlans {
      assert k[..8] == "outline_";
      assert k[0] == 'o';
    }
  }

  // ---------------------------------------------------------------------------
  // sanitize_username

  predicate Allowed(c: char) {
    'a' <= c <= 'z' || '0' <= c <= '9' || c == '_'
  }

  /** `re.sub(r"[^a-z0-9_]", "", s)`: the allowed characters of `s`, in order. */
  function KeepAllowed(s: string): (r: string)
    ensures |r| <= |s|
    ensures forall i :: 0 <= i < |r| ==> Allowed(r[i])
  {
    if s == [] then []
    else (if Allowed(s[0]) then [s[0]] else []) + KeepAllowed(s[1..])
  }

  lemma {:induction false} KeepAllowedAppend(a: string, b: string)
    ensures KeepAllowed(a + b) == KeepAllowed(a) + KeepAllowed(b)
  {
    if a == [] {
      assert a + b == b;
    } else {
      assert (a + b)[1..] == a[1..] + b;
      KeepAllowedAppend(a[1..], b);
    }
  }

  /** A string of allowed characters is kept whole. */
  lemma {:induction false} KeepAllowedIdentity(s: string)
    requires forall i :: 0 <= i < |s| ==> Allowed(s[i])
    ensures KeepAllowed(s) == s
  {
    if s != [] {
      KeepAllowedIdentity(s[1..]);
    }
  }

  function Min(a: int, b: int): int {
    if a <= b then a else b
  }

  /**
   * `sanitize_username(name)`: lower-case, keep [a-z0-9_], pad a result shorter than 3
   * with "_" and the clock's seconds modulo 10000, and cut to 32 characters.
   */
  function Sanitize(name: string, now: real): (r: string)
    ensures |r| <= 32
    ensures forall i :: 0 <= i < |r| ==> Allowed(r[i])
  {
    var kept := KeepAllowed(Lower(name));
    var padded := if |kept| < 3 then kept + "_" + NatToString(Trunc(now) % 10000) else kept;
    assert forall i :: 0 <= i < |padded| ==> Allowed(padded[i]);
    padded[..Min(|padded|, 32)]
  }

  /** A name with at least 3 allowed characters becomes their first 32, lower-cased. */
  lemma SanitizeLong(name: string, now: real)
    requires |KeepAllowed(Lower(name))| >= 3
    ensures var kept := KeepAllowed(Lower(name)); Sanitize(name, now) == kept[..Min(|kept|, 32)]
  {
  }

  /**
   * A name with fewer than 3 allowed characters becomes them, "_" and the seconds modulo
   * 10000, whole; that can still be shorter than 3, so the documented minimum fails.
   */
  lemma SanitizeShort(name: string, now: real)
    requires |KeepAllowed(Lower(name))| < 3
    ensures Sanitize(name, now) == KeepAllowed(Lower(name)) + "_" + NatToString(Trunc(now) % 10000)
    ensures 2 <= |Sanitize(name, now)| <= 7
  {
    NatToStringShort(Trunc(now) % 10000);
  }

  /** The 3-character minimum of the docstring is not met: "" at 7 seconds past gives "_7". */
  lemma SanitizeBelowMinimum()
    ensures Sanitize("", 7.0) == "_7"
    ensures |Sanitize("", 7.0)| < 3
  {
    assert Lower("") == "";
    assert Trunc(7.0) == 7;
    assert NatToString(7) == "7";
  }

  /** Sanitising a sanitised name of 3 or more characters changes nothing, whatever the clock. */
  lemma SanitizeIdempotent(name: string, now: real, later: real)
    requires |Sanitize(name, now)| >= 3
    ensures Sanitize(Sanitize(name, now), later) == Sanitize(name, now)
  {
    var r := Sanitize(name, now);
    LowerIdentity(r);
    KeepAllowedIdentity(r);
  }

  // ---------------------------------------------------------------------------
  // The pending state (`context.user_data`) and the button dispatch

  /** `pending_action`, `pending_plan` and `pending_plan_info`; None is an absent key. */
  datatype Pending = Pending(action: Option<string>, plan: Option<string>, info: Option<Plan>)

  const Cleared: Pending := Pending(None, None, None)

  /** What `button_callback` shows. */
  datatype Screen =
    | Denied            // not an admin
    | VlessPlansMenu
    | OutlinePlansMenu
    | MainMenu
    | InvalidPlan
    | AskClientName(planKey: string)
    | NoChange          // callback data the handler does not know

  /** `button_callback` on callback data `data` from `userId`. */
  function ButtonStep(admins: string, p: Pending, userId: int, data: string): (Screen, Pending) {
    if !Config.IsAdmin(admins, userId) then (Denied, p)
    else if data == "server_vless" then (VlessPlansMenu, p)
    else if data == "server_outline" then (OutlinePlansMenu, p)
    else if data == "back_main" then (MainMenu, p)
    else if StartsWith(data, "vless_") then
      if data in VlessPlans then (AskClientName(data), Pending(Some("vless_create"), Some(data), Some(VlessPlans[data])))
      else (InvalidPlan, p)
    else if StartsWith(data, "outline_") then
      if data in OutlinePlans then (AskClientName(data), Pending(Some("outline_create"), Some(data), Some(OutlinePlans[data])))
      else (InvalidPlan, p)
    else (NoChange, p)
  }

  /**
   * Only an admin's press of a known plan button changes the pending state, and then it
   * records that plan, its numbers, and the creation its prefix calls for.
   */
  lemma ButtonFacts(admins: string, p: Pending, userId: int, data: string)
    ensures var (screen, p') := ButtonStep(admins, p, userId, data);
      && (p' != p ==> Config.IsAdmin(admins, userId) && (data in VlessPlans || data in OutlinePlans))
      && (!Config.IsAdmin(admins, userId) <==> screen == Denied)
      && (Config.IsAdmin(admins, userId) && data in VlessPlans ==>
            p' == Pending(Some("vless_create"), Some(data), Some(VlessPlans[data])))
      && (Config.IsAdmin(admins, userId) && data in OutlinePlans ==>
            p' == Pending(Some("outline_create"), Some(data), Some(OutlinePlans[data])))
      && (screen == InvalidPlan ==> data !in VlessPlans && data !in OutlinePlans)
  {
    PlanPrefixes(data);
    if Config.IsAdmin(admins, userId) && data in ["server_vless", "server_outline", "back_main"] {
      assert data[0] in "sb";
    }
  }

  /** The branch `handle_text` takes. */
  datatype Route = ShowSupport | Ignore | ToVless(clientName: string) | ToOutline(clientName: string)

  /** The text the support button sends. */
  const SupportButton: string := "\U{1F4DE} Get Support"

  /** `handle_text`: the support button for everyone; otherwise admins only, by `pending_action`. */
  function Dispatch(admins: string, action: Option<string>, userId: int, message: string): Route {
    var text := Strip(message);
    if text == SupportButton then ShowSupport
    else if !Config.IsAdmin(admins, userId) then Ignore
    else if action == Some("vless_create") then ToVless(text)
    else if action == Some("outline_create") then ToOutline(text)
    else Ignore
  }

  /** A key is created from text only for an admin, and only as the pending action says. */
  lemma DispatchFacts(admins: string, action: Option<string>, userId: int, message: string)
    ensures var r := Dispatch(admins, action, userId, message);
      && ((r.ToVless? || r.ToOutline?) ==> Config.IsAdmin(admins, userId) && Strip(message) != SupportButton)
      && (r.ToVless? <==>
            Config.IsAdmin(admins, userId) && Strip(message) != SupportButton && action == Some("vless_create"))
      && (r.ToOutline? <==>
            Config.IsAdmin(admins, userId) && Strip(message) != SupportButton && action == Some("outline_create"))
      && ((r.ToVless? ==> r.clientName == Strip(message)) && (r.ToOutline? ==> r.clientName == Strip(message)))
      && (r.ShowSupport? <==> Strip(message) == SupportButton)
  {
  }

  // ---------------------------------------------------------------------------
  // create_vless_key

  /** An exception create_vless_key catches and reports. */
  datatype Fault = PanelFault(failure: X.Failure) | MissingField(name: string)

  /** What create_vless_key replies. */
  datatype VlessReply =
    | NoPlanSelected
    | BadPlanConfig(planKey: string)
    | VlessKeyCreated(client: string, uuid: string, link: Option<string>, devices: int, dataLabel: string,
                      expiryDays: int)
    | VlessKeyFailed(error: string)
    | VlessKeyError(fault: Fault)

  /** `f"{client_name}_{int(time.time()) % 100000}"`. */
  function StampedName(name: string, now: real): string {
    name + "_" + NatToString(Trunc(now) % 100000)
  }

  /** The reply after the client was created, from the result of fetching its link. */
  function LinkReply(name: string, clientUuid: string, plan: Plan, link: X.LinkResult): VlessReply
    requires plan.devices.Some?
  {
    match link
    case LinkFound(uri) =>
      VlessKeyCreated(name, clientUuid, Some(uri), plan.devices.value, DataLabel(plan.dataGb), plan.expiryDays)
    case NoLink =>
      VlessKeyCreated(name, clientUuid, None, plan.devices.value, DataLabel(plan.dataGb), plan.expiryDays)
    case LinkRaised(f) => VlessKeyError(PanelFault(f))
  }

  /**
   * create_vless_key for the text `clientName`, with `clientUuid` and `now` standing for
   * the generated uuid and the clock: the reply, the new pending state, and the 3x-ui
   * client's new state and exchanges.
   */
  function VlessKeyStep(inboundIds: map<string, int>, p: Pending, panel: seq<X.Reply>, baseUrl: string, s: X.State,
                        clientName: string, clientUuid: string, now: real)
    : (VlessReply, Pending, X.State, seq<X.Exchange>)
  {
    if p.info.None? || p.plan.None? || p.plan.value == "" then (NoPlanSelected, p, s, [])
    else if p.plan.value !in inboundIds then (BadPlanConfig(p.plan.value), p, s, [])
    else
      var inboundId := inboundIds[p.plan.value];
      var plan := p.info.value;
      var name := Sanitize(clientName, now);
      if plan.devices.None? then (VlessKeyError(MissingField("devices")), Cleared, s, [])
      else
        var c := X.CreateClientStep(panel, s, StampedName(name, now), plan.dataGb, plan.expiryDays, plan.devices.value,
                                    inboundId, clientUuid, now);
        match c.0
        case CreateFailed(e) => (VlessKeyFailed(e), Cleared, c.1, c.2)
        case CreateRaised(f) => (VlessKeyError(PanelFault(f)), Cleared, c.1, c.2)
        case ClientCreated(uuid, _, _, _, _) =>
          var l := X.GetClientLinkStep(panel, c.1, baseUrl, uuid, inboundId);
          (LinkReply(name, uuid, plan, l.0), Cleared, l.1, c.2 + l.2)
  }

  /**
   * Without a selected plan, or with a plan that has no inbound id, create_vless_key
   * replies with an error, calls no panel and leaves the pending state set. Otherwise it
   * clears all three pending keys before creating.
   */
  lemma VlessKeyPending(inboundIds: map<string, int>, p: Pending, panel: seq<X.Reply>, baseUrl: string, s: X.State,
                        clientName: string, clientUuid: string, now: real)
    ensures var (reply, p', s', t) := VlessKeyStep(inboundIds, p, panel, baseUrl, s, clientName, clientUuid, now);
      && ((p.info.None? || p.plan.None? || p.plan.value == "") ==> reply == NoPlanSelected && p' == p && t == [])
      && (p.info.Some? && p.plan.Some? && p.plan.value != "" && p.plan.value !in inboundIds ==>
            reply == BadPlanConfig(p.plan.value) && p' == p && t == [])
      && (p.info.Some? && p.plan.Some? && p.plan.value != "" && p.plan.value in inboundIds ==> p' == Cleared)
  {
  }

  /**
   * A key create_vless_key reports as created carries the sanitised name, the generated
   * uuid and the plan's numbers, and its link, when there is one, is a VLESS link for
   * that uuid.
   */
  lemma VlessKeyReport(inboundIds: map<string, int>, p: Pending, panel: seq<X.Reply>, baseUrl: string, s: X.State,
                       clientName: string, clientUuid: string, now: real)
    ensures var (reply, p', s', t) := VlessKeyStep(inboundIds, p, panel, baseUrl, s, clientName, clientUuid, now);
      && (reply.VlessKeyCreated? ==>
            && reply.client == Sanitize(clientName, now) && reply.uuid == clientUuid
            && p.info.Some? && p.info.value.devices == Some(reply.devices)
            && reply.dataLabel == DataLabel(p.info.value.dataGb) && reply.expiryDays == p.info.value.expiryDays)
      && (reply.VlessKeyCreated? && reply.link.Some? ==> StartsWith(reply.link.value, "vless://" + clientUuid + "@"))
  {
    if p.info.Some? && p.plan.Some? && p.plan.value != "" && p.plan.value in inboundIds && p.info.value.devices.Some? {
      var plan := p.info.value;
      var id := inboundIds[p.plan.value];
      var email := StampedName(Sanitize(clientName, now), now);
      var c := X.CreateClientStep(panel, s, email, plan.dataGb, plan.expiryDays, plan.devices.value, id, clientUuid, now);
      X.CreateClientEchoes(panel, s, email, plan.dataGb, plan.expiryDays, plan.devices.value, id, clientUuid, now);
      X.GetClientLinkPrefix(panel, c.1, baseUrl, clientUuid, id);
    }
  }

  // ---------------------------------------------------------------------------
  // create_outline_key

  /** The username of attempt `i`: numbered only when the plan makes several keys. */
  function KeyUsername(base: string, keyCount: int, i: nat): string {
    if keyCount > 1 then base + "_" + NatToString(i) else base
  }

  /** With several keys, different attempts use different usernames. */
  lemma KeyUsernamesDistinct(base: string, keyCount: int, i: nat, j: nat)
    requires keyCount > 1 && i != j
    ensures KeyUsername(base, keyCount, i) != KeyUsername(base, keyCount, j)
  {
    if KeyUsername(base, keyCount, i) == KeyUsername(base, keyCount, j) {
      var n := |base| + 1;
      assert KeyUsername(base, keyCount, i)[n..] == NatToString(i);
      assert KeyUsername(base, keyCount, j)[n..] == NatToString(j);
      DigitsValueOfNat(i);
      DigitsValueOfNat(j);
    }
  }

  /** `f"Key {i}: {error}"`. */
  function ErrorLine(i: nat, error: string): string {
    "Key " + NatToString(i) + ": " + error
  }

  /**
   * `str(e)` of an exception create_user let through. Only the authentication message is
   * the source's own; the others stand for the library's messages.
   */
  function FailureMessage(f: M.Failure): string {
    match f
    case AuthFailed => "Failed to authenticate with Marzban panel"
    case Transport(reason) => reason
    case BadJson => "the reply is not JSON"
    case NotAnObject => "the created user is not a JSON object"
  }

  /** The error of a failed attempt: the panel's message, or the text of the exception. */
  function Reason(r: M.Created): string
    requires !r.UserCreated?
  {
    if r.UserFailed? then r.error else FailureMessage(r.failure)
  }

  /** The per-attempt results of the first `n` attempts, with the panel client's state and exchanges. */
  datatype Batch = Batch(results: seq<M.Created>, state: M.State, trace: seq<M.Exchange>)

  /**
   * The batch makes exactly `n` attempts, one per number in order, whatever they return,
   * and a success of attempt `i` reports the username `KeyUsername(base, keyCount, i)`.
   */
  function Attempts(panel: seq<M.Reply>, s: M.State, baseUrl: string, base: string, keyCount: int, plan: Plan,
                    now: real, n: nat): (b: Batch)
    ensures |b.results| == n
    ensures forall i :: 1 <= i <= n && b.results[i - 1].UserCreated? ==>
              b.results[i - 1].username == KeyUsername(base, keyCount, i)
    decreases n
  {
    if n == 0 then Batch([], s, [])
    else
      var b := Attempts(panel, s, baseUrl, base, keyCount, plan, now, n - 1);
      var name := KeyUsername(base, keyCount, n);
      var r := M.CreateUserStep(panel, b.state, baseUrl, name, plan.dataGb, plan.expiryDays, now);
      M.CreateUserNamed(panel, b.state, baseUrl, name, plan.dataGb, plan.expiryDays, now);
      NamedSnoc(b.results, r.0, base, keyCount);
      Batch(b.results + [r.0], r.1, b.trace + r.2)
  }

  /** One more attempt extends the batch by that attempt's result and exchanges. */
  lemma AttemptsNext(panel: seq<M.Reply>, s: M.State, baseUrl: string, base: string, keyCount: int, plan: Plan,
                     now: real, n: nat, b: Batch, name: string, r: (M.Created, M.State, seq<M.Exchange>))
    requires b == Attempts(panel, s, baseUrl, base, keyCount, plan, now, n)
    requires name == KeyUsername(base, keyCount, n + 1)
    requires r == M.CreateUserStep(panel, b.state, baseUrl, name, plan.dataGb, plan.expiryDays, now)
    ensures Attempts(panel, s, baseUrl, base, keyCount, plan, now, n + 1) == Batch(b.results + [r.0], r.1, b.trace + r.2)
  {
  }

  /** `created_users`: the successful results, in attempt order. */
  function Successes(rs: seq<M.Created>): seq<M.Created>
    decreases |rs|
  {
    if rs == [] then []
    else
      var init := Successes(rs[..|rs| - 1]);
      if rs[|rs| - 1].UserCreated? then init + [rs[|rs| - 1]] else init
  }

  /** `errors`: one line per failed attempt, numbered from 1, in attempt order. */
  function FailureLines(rs: seq<M.Created>): seq<string>
    decreases |rs|
  {
    if rs == [] then []
    else
      var init := FailureLines(rs[..|rs| - 1]);
      var last := rs[|rs| - 1];
      if last.UserCreated? then init else init + [ErrorLine(|rs|, Reason(last))]
  }

  /** Every attempt ends up in exactly one of the two lists. */
  lemma {:induction false} Partition(rs: seq<M.Created>)
    ensures |Successes(rs)| + |FailureLines(rs)| == |rs|
    ensures forall j :: 0 <= j < |Successes(rs)| ==> Successes(rs)[j].UserCreated?
    ensures Successes(rs) == [] <==> forall i :: 0 <= i < |rs| ==> !rs[i].UserCreated?
    decreases |rs|
  {
    if rs != [] {
      var init, last := rs[..|rs| - 1], rs[|rs| - 1];
      assert rs == init + [last];
      Partition(init);
      SuccessesSnoc(init, last);
      FailureLinesSnoc(init, last);
      if !last.UserCreated? {
        assert (forall i :: 0 <= i < |rs| ==> !rs[i].UserCreated?) <==>
               (forall i :: 0 <= i < |init| ==> !init[i].UserCreated?) by {
          assert forall i :: 0 <= i < |init| ==> init[i] == rs[i];
        }
      }
    }
  }

  /**
   * The positions of the attempts that succeeded (`created`) or failed (`!created`), in
   * increasing order (`PickedCovers`: every such position).
   */
  ghost function Picked(rs: seq<M.Created>, created: bool): (ix: seq<nat>)
    ensures forall k :: 0 <= k < |ix| ==> ix[k] < |rs| && rs[ix[k]].UserCreated? == created
    ensures forall k, l :: 0 <= k < l < |ix| ==> ix[k] < ix[l]
    decreases |rs|
  {
    if rs == [] then []
    else
      var init := rs[..|rs| - 1];
      var ix := Picked(init, created);
      assert forall i :: 0 <= i < |init| ==> init[i] == rs[i];
      if rs[|rs| - 1].UserCreated? == created then ix + [|rs| - 1] else ix
  }

  /** Every attempt with the outcome asked for is among the picked positions. */
  lemma {:induction false} PickedCovers(rs: seq<M.Created>, created: bool)
    ensures forall i :: 0 <= i < |rs| && rs[i].UserCreated? == created ==> i in Picked(rs, created)
    decreases |rs|
  {
    if rs != [] {
      var init := rs[..|rs| - 1];
      PickedCovers(init, created);
      assert forall i :: 0 <= i < |init| ==> init[i] == rs[i];
    }
  }

  lemma PickedSnoc(rs: seq<M.Created>, r: M.Created, created: bool)
    ensures Picked(rs + [r], created) == Picked(rs, created) + if r.UserCreated? == created then [|rs|] else []
  {
    var rs' := rs + [r];
    assert rs'[..|rs'| - 1] == rs && rs'[|rs'| - 1] == r;
  }

  /** `created_users` is the successful results, in attempt order. */
  lemma {:induction false} SuccessesInOrder(rs: seq<M.Created>)
    ensures var ix := Picked(rs, true);
      |Successes(rs)| == |ix| && forall k :: 0 <= k < |ix| ==> Successes(rs)[k] == rs[ix[k]]
    decreases |rs|
  {
    if rs != [] {
      var init, last := rs[..|rs| - 1], rs[|rs| - 1];
      assert rs == init + [last];
      SuccessesInOrder(init);
      SuccessesSnoc(init, last);
      PickedSnoc(init, last, true);
      var ix0, ix := Picked(init, true), Picked(rs, true);
      forall k | 0 <= k < |ix| ensures Successes(rs)[k] == rs[ix[k]] {
        if k < |ix0| {
          assert ix[k] == ix0[k] && Successes(rs)[k] == Successes(init)[k];
          assert init[ix0[k]] == rs[ix0[k]];
        }
      }
    }
  }

  /** `errors` is one `"Key <i>: <reason>"` line per failed attempt `i`, in attempt order. */
  lemma {:induction false} FailureLinesInOrder(rs: seq<M.Created>)
    ensures var jx := Picked(rs, false);
      && |FailureLines(rs)| == |jx|
      && forall k :: 0 <= k < |jx| ==> FailureLines(rs)[k] == ErrorLine(jx[k] + 1, Reason(rs[jx[k]]))
    decreases |rs|
  {
    if rs != [] {
      var init, last := rs[..|rs| - 1], rs[|rs| - 1];
      assert rs == init + [last];
      FailureLinesInOrder(init);
      FailureLinesSnoc(init, last);
      PickedSnoc(init, last, false);
      LinesExtend(init, last, FailureLines(init), Picked(init, false), rs, FailureLines(rs), Picked(rs, false));
    }
  }

  /** Numbered failure lines for `rs` stay so when one more attempt is added. */
  lemma LinesExtend(rs: seq<M.Created>, last: M.Created, lines: seq<string>, jx: seq<nat>,
                    rs': seq<M.Created>, lines': seq<string>, jx': seq<nat>)
    requires |lines| == |jx|
    requires forall k :: 0 <= k < |jx| ==> jx[k] < |rs| && !rs[jx[k]].UserCreated?
    requires forall k :: 0 <= k < |jx| ==> lines[k] == ErrorLine(jx[k] + 1, Reason(rs[jx[k]]))
    requires rs' == rs + [last]
    requires lines' == if last.UserCreated? then lines else lines + [ErrorLine(|rs| + 1, Reason(last))]
    requires jx' == jx + if last.UserCreated? then [] else [|rs|]
    ensures |lines'| == |jx'|
    ensures forall k :: 0 <= k < |jx'| ==> jx'[k] < |rs'| && !rs'[jx'[k]].UserCreated?
    ensures forall k :: 0 <= k < |jx'| ==> lines'[k] == ErrorLine(jx'[k] + 1, Reason(rs'[jx'[k]]))
  {
    assert forall i :: 0 <= i < |rs| ==> rs'[i] == rs[i];
  }

  /** When no attempt succeeded, `errors` holds one line per attempt, numbered from 1. */
  lemma {:induction false} AllFailedLines(rs: seq<M.Created>)
    requires forall i :: 0 <= i < |rs| ==> !rs[i].UserCreated?
    ensures FailureLines(rs) == seq(|rs|, i requires 0 <= i < |rs| => ErrorLine(i + 1, Reason(rs[i])))
    decreases |rs|
  {
    if rs != [] {
      var init, last := rs[..|rs| - 1], rs[|rs| - 1];
      assert rs == init + [last];
      assert forall i :: 0 <= i < |init| ==> init[i] == rs[i];
      AllFailedLines(init);
      FailureLinesSnoc(init, last);
    }
  }

  lemma SuccessesSnoc(rs: seq<M.Created>, r: M.Created)
    ensures Successes(rs + [r]) == if r.UserCreated? then Successes(rs) + [r] else Successes(rs)
  {
    var rs' := rs + [r];
    assert rs'[..|rs'| - 1] == rs && rs'[|rs'| - 1] == r;
  }

  lemma FailureLinesSnoc(rs: seq<M.Created>, r: M.Created)
    ensures FailureLines(rs + [r]) == if r.UserCreated? then FailureLines(rs) else FailureLines(rs) + [ErrorLine(|rs| + 1, Reason(r))]
  {
    var rs' := rs + [r];
    assert rs'[..|rs'| - 1] == rs && rs'[|rs'| - 1] == r;
  }

  /** Results named after their attempt numbers stay so when one more, named after its number, is added. */
  lemma NamedSnoc(rs: seq<M.Created>, r: M.Created, base: string, keyCount: int)
    requires forall i :: 1 <= i <= |rs| && rs[i - 1].UserCreated? ==> rs[i - 1].username == KeyUsername(base, keyCount, i)
    requires r.UserCreated? ==> r.username == KeyUsername(base, keyCount, |rs| + 1)
    ensures var rs' := rs + [r];
      forall i :: 1 <= i <= |rs'| && rs'[i - 1].UserCreated? ==> rs'[i - 1].username == KeyUsername(base, keyCount, i)
  {
    var rs' := rs + [r];
    forall i | 1 <= i <= |rs'| && rs'[i - 1].UserCreated? ensures rs'[i - 1].username == KeyUsername(base, keyCount, i) {
      if i <= |rs| {
        assert rs'[i - 1] == rs[i - 1];
      }
    }
  }

  /** What create_outline_key replies. */
  datatype OutlineReply =
    | NoPlanChosen
    | KeysCreated(users: seq<M.Created>, dataLabel: string, expiryDays: int, failures: seq<string>)
    | AllKeysFailed(failures: seq<string>)

  /** The report: the success report when any key was made, with the failures under it. */
  function Report(created: seq<M.Created>, errors: seq<string>, plan: Plan): OutlineReply {
    if created != [] then KeysCreated(created, DataLabel(plan.dataGb), plan.expiryDays, errors)
    else AllKeysFailed(errors)
  }

  /** The number of passes of `range(1, keyCount + 1)`. */
  function Tries(keyCount: int): nat {
    if keyCount > 0 then keyCount else 0
  }

  function OutlineKeyStep(p: Pending, panel: seq<M.Reply>, baseUrl: string, s: M.State, clientName: string, now: real)
    : (OutlineReply, Pending, M.State, seq<M.Exchange>)
  {
    if p.info.None? then (NoPlanChosen, p, s, [])
    else
      var plan := p.info.value;
      var base := StampedName(Sanitize(clientName, now), now);
      var b := Attempts(panel, s, baseUrl, base, KeyCount(plan), plan, now, Tries(KeyCount(plan)));
      (Report(Successes(b.results), FailureLines(b.results), plan), Cleared, b.state, b.trace)
  }

  /**
   * What create_outline_key shows for the attempts `rs`: the success report exactly when
   * some attempt succeeded, listing the successful users in attempt order and, under
   * them, one `"Key <i>: <reason>"` line per failed attempt `i` in attempt order;
   * otherwise one such line for every attempt.
   */
  ghost predicate ReportsAttempts(reply: OutlineReply, rs: seq<M.Created>, plan: Plan) {
    && (reply.KeysCreated? || reply.AllKeysFailed?)
    && (reply.KeysCreated? <==> exists i :: 0 <= i < |rs| && rs[i].UserCreated?)
    && (reply.KeysCreated? ==>
          && |reply.users| + |reply.failures| == |rs|
          && reply.dataLabel == DataLabel(plan.dataGb) && reply.expiryDays == plan.expiryDays
          && (forall k :: 0 <= k < |reply.users| ==> reply.users[k].UserCreated?)
          && (forall i :: 0 <= i < |rs| && rs[i].UserCreated? ==> rs[i] in reply.users)
          && var ix, jx := Picked(rs, true), Picked(rs, false);
             && |reply.users| == |ix| && |reply.failures| == |jx|
             && (forall k :: 0 <= k < |ix| ==> reply.users[k] == rs[ix[k]])
             && (forall k :: 0 <= k < |jx| ==> reply.failures[k] == ErrorLine(jx[k] + 1, Reason(rs[jx[k]]))))
    && (reply.AllKeysFailed? ==>
          reply.failures == seq(|rs|, i requires 0 <= i < |rs| => ErrorLine(i + 1, Reason(rs[i]))))
  }

  /** The report built from the two lists of the loop says what the attempts were. */
  lemma ReportFacts(rs: seq<M.Created>, plan: Plan)
    ensures ReportsAttempts(Report(Successes(rs), FailureLines(rs), plan), rs, plan)
  {
    Partition(rs);
    SuccessesInOrder(rs);
    FailureLinesInOrder(rs);
    if Successes(rs) == [] {
      AllFailedLines(rs);
    } else {
      var ix := Picked(rs, true);
      PickedCovers(rs, true);
      forall i | 0 <= i < |rs| && rs[i].UserCreated? ensures rs[i] in Successes(rs) {
        var k :| 0 <= k < |ix| && ix[k] == i;
        assert Successes(rs)[k] == rs[i];
      }
    }
  }

  /**
   * With a plan selected, create_outline_key clears the pending state, makes one attempt
   * per key of the plan, and reports them as `ReportsAttempts` says; the panel client's
   * state and exchanges are those of the attempts.
   */
  lemma OutlineKeyFacts(p: Pending, panel: seq<M.Reply>, baseUrl: string, s: M.State, clientName: string, now: real)
    ensures var (reply, p', s', t) := OutlineKeyStep(p, panel, baseUrl, s, clientName, now);
      && (p.info.None? ==> reply == NoPlanChosen && p' == p && s' == s && t == [])
      && (p.info.Some? ==>
            var b := Attempts(panel, s, baseUrl, StampedName(Sanitize(clientName, now), now), KeyCount(p.info.value),
                              p.info.value, now, Tries(KeyCount(p.info.value)));
            && p' == Cleared && s' == b.state && t == b.trace
            && |b.results| == Tries(KeyCount(p.info.value))
            && ReportsAttempts(reply, b.results, p.info.value))
  {
    if p.info.Some? {
      var plan := p.info.value;
      var base := StampedName(Sanitize(clientName, now), now);
      var b := Attempts(panel, s, baseUrl, base, KeyCount(plan), plan, now, Tries(KeyCount(plan)));
      ReportFacts(b.results, plan);
    }
  }

  // ---------------------------------------------------------------------------
  // quick_create_vless and quick_create_outline

  /** `f"{prefix}{args[1].lower()}"`. */
  function PlanKey(prefix: string, arg: string): string {
    prefix + Lower(arg)
  }

  /** A prefixed key names a plan exactly when its suffix is one of the plan names. */
  lemma PrefixedIn(prefix: string, a: string, names: set<string>)
    ensures prefix + a in (set n | n in names :: prefix + n) <==> a in names
  {
    if prefix + a in (set n | n in names :: prefix + n) {
      var n :| n in names && prefix + a == prefix + n;
      assert a == (prefix + a)[|prefix|..];
      assert n == (prefix + n)[|prefix|..];
    }
  }

  /** The quick commands find a plan exactly for the four plan names, in any ASCII case. */
  lemma PlanKeyFound(arg: string)
    ensures PlanKey("vless_", arg) in VlessPlans <==> Lower(arg) in PlanNames
    ensures PlanKey("outline_", arg) in OutlinePlans <==> Lower(arg) in PlanNames
  {
    assert VlessPlans.Keys == set n | n in PlanNames :: "vless_" + n by {
      assert "vless_basic" == "vless_" + "basic" && "vless_silver" == "vless_" + "silver";
      assert "vless_golden" == "vless_" + "golden" && "vless_trial" == "vless_" + "trial";
    }
    assert OutlinePlans.Keys == set n | n in PlanNames :: "outline_" + n by {
      assert "outline_basic" == "outline_" + "basic" && "outline_silver" == "outline_" + "silver";
      assert "outline_golden" == "outline_" + "golden" && "outline_trial" == "outline_" + "trial";
    }
    PrefixedIn("vless_", Lower(arg), PlanNames);
    PrefixedIn("outline_", Lower(arg), PlanNames);
  }

  /** How a quick command ends before any creation. */
  datatype Quick = AdminRequired | Usage | UnknownPlan | Go(clientName: string, planKey: string)

  function QuickRoute(admins: string, userId: int, args: seq<string>, prefix: string, plans: map<string, Plan>): Quick {
    if !Config.IsAdmin(admins, userId) then AdminRequired
    else if |args| < 2 then Usage
    else if PlanKey(prefix, args[1]) !in plans then UnknownPlan
    else Go(args[0], PlanKey(prefix, args[1]))
  }

  /** What a bot handler replies with. */
  datatype BotReply =
    | Refusal(quick: Quick)
    | ScreenShown(screen: Screen)
    | SupportShown
    | NoReply
    | VlessDone(vless: VlessReply)
    | OutlineDone(outline: OutlineReply)

  // ---------------------------------------------------------------------------
  // The bot object: one chat's pending state and the two panel clients

  class Chat {
    /** The ADMIN_IDS setting. */
    const admins: string
    /** The plan-to-inbound map the VLESS flow looks its inbound id up in. */
    const inboundIds: map<string, int>
    const vless: X.VlessClient
    const marzban: M.MarzbanClient
    var pendingAction: Option<string>
    var pendingPlan: Option<string>
    var pendingPlanInfo: Option<Plan>

    function Pend(): Pending
      reads this
    {
      Pending(pendingAction, pendingPlan, pendingPlanInfo)
    }

    ghost predicate Valid()
      reads this, vless, marzban
    {
      vless.Valid() && marzban.Valid()
    }

    constructor(admins: string, inboundIds: map<string, int>, vless: X.VlessClient, marzban: M.MarzbanClient)
      requires vless.Valid() && marzban.Valid()
      ensures this.admins == admins && this.inboundIds == inboundIds
      ensures this.vless == vless && this.marzban == marzban
      ensures Pend() == Cleared
      ensures Valid()
    {
      this.admins := admins;
      this.inboundIds := inboundIds;
      this.vless := vless;
      this.marzban := marzban;
      pendingAction, pendingPlan, pendingPlanInfo := None, None, None;
    }

    /** `button_callback()`. */
    method ButtonCallback(userId: int, data: string) returns (screen: Screen)
      modifies this
      ensures (screen, Pend()) == ButtonStep(admins, old(Pend()), userId, data)
    {
      if !Config.IsAdmin(admins, userId) {
        return Denied;
      }
      if data == "server_vless" {
        screen := VlessPlansMenu;
      } else if data == "server_outline" {
        screen := OutlinePlansMenu;
      } else if data == "back_main" {
        screen := MainMenu;
      } else if StartsWith(data, "vless_") {
        if data !in VlessPlans {
          return InvalidPlan;
        }
        pendingAction := Some("vless_create");
        pendingPlan := Some(data);
        pendingPlanInfo := Some(VlessPlans[data]);
        screen := AskClientName(data);
      } else if StartsWith(data, "outline_") {
        if data !in OutlinePlans {
          return InvalidPlan;
        }
        pendingAction := Some("outline_create");
        pendingPlan := Some(data);
        pendingPlanInfo := Some(OutlinePlans[data]);
        screen := AskClientName(data);
      } else {
        screen := NoChange;
      }
    }

    /** `create_vless_key()`; `clientUuid` and `now` stand for the uuid and the clock. */
    method CreateVlessKey(clientName: string, clientUuid: string, now: real) returns (reply: VlessReply)
      requires Valid()
      modifies this, vless
      ensures var r := VlessKeyStep(inboundIds, old(Pend()), vless.panel, vless.baseUrl, old(vless.St()), clientName,
                                    clientUuid, now);
        reply == r.0 && Pend() == r.1 && vless.St() == r.2 && vless.log == old(vless.log) + r.3
      ensures Valid()
    {
      if pendingPlanInfo.None? || pendingPlan.None? || pendingPlan.value == "" {
        reply := NoPlanSelected;
        assert vless.log == old(vless.log) + [];
        return;
      }
      var planKey := pendingPlan.value;
      if planKey !in inboundIds {
        reply := BadPlanConfig(planKey);
        assert vless.log == old(vless.log) + [];
        return;
      }
      var inboundId := inboundIds[planKey];
      var plan := pendingPlanInfo.value;
      pendingAction, pendingPlan, pendingPlanInfo := None, None, None;
      var name := Sanitize(clientName, now);
      var email := StampedName(name, now);
      if plan.devices.None? {
        reply := VlessKeyError(MissingField("devices"));
        assert vless.log == old(vless.log) + [];
        return;
      }
      ghost var c := X.CreateClientStep(vless.panel, vless.St(), email, plan.dataGb, plan.expiryDays, plan.devices.value,
                                        inboundId, clientUuid, now);
      var result := vless.CreateClient(email, plan.dataGb, plan.expiryDays, plan.devices.value, inboundId,
                                       clientUuid, now);
      if result.CreateFailed? {
        reply := VlessKeyFailed(result.error);
      } else if result.CreateRaised? {
        reply := VlessKeyError(PanelFault(result.failure));
      } else {
        ghost var l := X.GetClientLinkStep(vless.panel, vless.St(), vless.baseUrl, result.uuid, inboundId);
        var link := vless.GetClientLink(result.uuid, inboundId);
        AppendAssoc(old(vless.log), c.2, l.2);
        reply := LinkReply(name, result.uuid, plan, link);
      }
    }

    /** `create_outline_key()`; `now` stands for the clock, read once. */
    method CreateOutlineKey(clientName: string, now: real) returns (reply: OutlineReply)
      requires Valid()
      modifies this, marzban
      ensures var r := OutlineKeyStep(old(Pend()), marzban.panel, marzban.baseUrl, old(marzban.St()), clientName, now);
        reply == r.0 && Pend() == r.1 && marzban.St() == r.2 && marzban.log == old(marzban.log) + r.3
      ensures Valid()
    {
      if pendingPlanInfo.None? {
        reply := NoPlanChosen;
        assert marzban.log == old(marzban.log) + [];
        return;
      }
      var plan := pendingPlanInfo.value;
      pendingAction, pendingPlan, pendingPlanInfo := None, None, None;
      var name := Sanitize(clientName, now);
      var keyCount := KeyCount(plan);
      var base := StampedName(name, now);
      var createdUsers, errors := MakeKeys(base, keyCount, plan, now);
      reply := Report(createdUsers, errors, plan);
    }

    /** The loop of create_outline_key: one create_user per key, collecting successes and failures. */
    method MakeKeys(base: string, keyCount: int, plan: Plan, now: real) returns (createdUsers: seq<M.Created>, errors: seq<string>)
      requires marzban.Valid()
      modifies marzban
      ensures var b := Attempts(marzban.panel, old(marzban.St()), marzban.baseUrl, base, keyCount, plan, now,
                                Tries(keyCount));
        && createdUsers == Successes(b.results) && errors == FailureLines(b.results)
        && marzban.St() == b.state && marzban.log == old(marzban.log) + b.trace
      ensures marzban.Valid()
    {
      createdUsers, errors := [], [];
      ghost var s0, log0 := marzban.St(), marzban.log;
      ghost var b := Attempts(marzban.panel, s0, marzban.baseUrl, base, keyCount, plan, now, 0);
      var i := 1;
      while i <= keyCount
        invariant 1 <= i <= Tries(keyCount) + 1
        invariant marzban.Valid()
        invariant b == Attempts(marzban.panel, s0, marzban.baseUrl, base, keyCount, plan, now, i - 1)
        invariant marzban.St() == b.state && marzban.log == log0 + b.trace
        invariant createdUsers == Successes(b.results) && errors == FailureLines(b.results)
        invariant |b.results| == i - 1
      {
        var result;
        ghost var t;
        result, t := Attempt(base, keyCount, plan, now, i, s0, b);
        AppendAssoc(log0, b.trace, t);
        SuccessesSnoc(b.results, result);
        FailureLinesSnoc(b.results, result);
        if result.UserCreated? {
          createdUsers := createdUsers + [result];
        } else {
          errors := errors + [ErrorLine(i, Reason(result))];
        }
        b := Batch(b.results + [result], marzban.St(), b.trace + t);
        i := i + 1;
      }
      assert i - 1 == Tries(keyCount);
      assert b == Attempts(marzban.panel, s0, marzban.baseUrl, base, keyCount, plan, now, Tries(keyCount));
    }

    /** Pass `i` of that loop: one create_user under the attempt's own username. */
    method Attempt(base: string, keyCount: int, plan: Plan, now: real, i: nat, ghost s0: M.State, ghost b: Batch)
      returns (result: M.Created, ghost t: seq<M.Exchange>)
      requires marzban.Valid() && i >= 1
      requires b == Attempts(marzban.panel, s0, marzban.baseUrl, base, keyCount, plan, now, i - 1)
      requires marzban.St() == b.state
      modifies marzban
      ensures Attempts(marzban.panel, s0, marzban.baseUrl, base, keyCount, plan, now, i)
              == Batch(b.results + [result], marzban.St(), b.trace + t)
      ensures marzban.log == old(marzban.log) + t
      ensures marzban.Valid()
    {
      var username := KeyUsername(base, keyCount, i);
      ghost var r := M.CreateUserStep(marzban.panel, b.state, marzban.baseUrl, username, plan.dataGb,
                                      plan.expiryDays, now);
      result := marzban.CreateUser(username, plan.dataGb, plan.expiryDays, now);
      t := r.2;
      AttemptsNext(marzban.panel, s0, marzban.baseUrl, base, keyCount, plan, now, i - 1, b, username, r);
    }

    /** `handle_text()`. */
    method HandleText(userId: int, message: string, clientUuid: string, now: real) returns (reply: BotReply)
      requires Valid()
      modifies this, vless, marzban
      ensures Valid()
      ensures var route := Dispatch(admins, old(pendingAction), userId, message);
        && (route.ShowSupport? ==> reply == SupportShown && Pend() == old(Pend()))
        && (route.Ignore? ==> reply == NoReply && Pend() == old(Pend()))
        && (!route.ToVless? ==> unchanged(vless))
        && (!route.ToOutline? ==> unchanged(marzban))
        && (route.ToVless? ==>
              var r := VlessKeyStep(inboundIds, old(Pend()), vless.panel, vless.baseUrl, old(vless.St()),
                                    route.clientName, clientUuid, now);
              reply == VlessDone(r.0) && Pend() == r.1 && vless.St() == r.2 && vless.log == old(vless.log) + r.3)
        && (route.ToOutline? ==>
              var r := OutlineKeyStep(old(Pend()), marzban.panel, marzban.baseUrl, old(marzban.St()), route.clientName,
                                      now);
              reply == OutlineDone(r.0) && Pend() == r.1 && marzban.St() == r.2
              && marzban.log == old(marzban.log) + r.3)
    {
      var text := Strip(message);
      if text == SupportButton {
        return SupportShown;
      }
      if !Config.IsAdmin(admins, userId) {
        return NoReply;
      }
      if pendingAction == Some("vless_create") {
        var r := CreateVlessKey(text, clientUuid, now);
        reply := VlessDone(r);
      } else if pendingAction == Some("outline_create") {
        var r := CreateOutlineKey(text, now);
        reply := OutlineDone(r);
      } else {
        reply := NoReply;
      }
    }

    /** `quick_create_vless()`: select the plan named in the command (keeping `pending_action`), then create. */
    method QuickCreateVless(userId: int, args: seq<string>, clientUuid: string, now: real) returns (reply: BotReply)
      requires Valid()
      modifies this, vless
      ensures Valid()
      ensures var q := QuickRoute(admins, userId, args, "vless_", VlessPlans);
        && (!q.Go? ==> reply == Refusal(q) && Pend() == old(Pend()) && unchanged(vless))
        && (q.Go? ==>
              var selected := old(Pend()).(plan := Some(q.planKey), info := Some(VlessPlans[q.planKey]));
              var r := VlessKeyStep(inboundIds, selected, vless.panel, vless.baseUrl, old(vless.St()), q.clientName,
                                    clientUuid, now);
              reply == VlessDone(r.0) && Pend() == r.1 && vless.St() == r.2 && vless.log == old(vless.log) + r.3)
    {
      if !Config.IsAdmin(admins, userId) {
        return Refusal(AdminRequired);
      }
      if |args| < 2 {
        return Refusal(Usage);
      }
      var planKey := "vless_" + Lower(args[1]);
      if planKey !in VlessPlans {
        return Refusal(UnknownPlan);
      }
      pendingPlan := Some(planKey);
      pendingPlanInfo := Some(VlessPlans[planKey]);
      var r := CreateVlessKey(args[0], clientUuid, now);
      reply := VlessDone(r);
    }

    /** `quick_create_outline()`: select the plan named in the command, then create. */
    method QuickCreateOutline(userId: int, args: seq<string>, now: real) returns (reply: BotReply)
      requires Valid()
      modifies this, marzban
      ensures Valid()
      ensures var q := QuickRoute(admins, userId, args, "outline_", OutlinePlans);
        && (!q.Go? ==> reply == Refusal(q) && Pend() == old(Pend()) && unchanged(marzban))
        && (q.Go? ==>
              var selected := old(Pend()).(info := Some(OutlinePlans[q.planKey]));
              var r := OutlineKeyStep(selected, marzban.panel, marzban.baseUrl, old(marzban.St()), q.clientName, now);
              reply == OutlineDone(r.0) && Pend() == r.1 && marzban.St() == r.2
              && marzban.log == old(marzban.log) + r.3)
    {
      if !Config.IsAdmin(admins, userId) {
        return Refusal(AdminRequired);
      }
      if |args| < 2 {
        return Refusal(Usage);
      }
      var planKey := "outline_" + Lower(args[1]);
      if planKey !in OutlinePlans {
        return Refusal(UnknownPlan);
      }
      pendingPlanInfo := Some(OutlinePlans[planKey]);
      var r := CreateOutlineKey(args[0], now);
      reply := OutlineDone(r);
    }
  }
}
