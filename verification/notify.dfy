/** The ITN (instant transaction notification) webhook of
    pages/api/payfast/notify.ts: the signature check, the IP allowlist,
    the postback verdict, the COMPLETE gate, the plan recovered from the
    payment reference and the settings merge. The request, the
    environment, the postback answer and the stored settings row are
    inputs; the writes it would make are outputs. */
module Notify {
  import opened Wrappers
  import opened Strings
  import opened Types
  import opened Payfast

  /** `sigOk`: a non-empty `signature` equal to the signature of every
      other field under the server's passphrase. */
  predicate SigOk(data: Fields, passphrase: Option<string>, md5: Digest) {
    var theirs := Lookup(data, "signature");
    theirs.Some? && theirs.value != "" && theirs.value == SignParams(Without(data, "signature"), passphrase, md5)
  }

  /** The non-empty strings, in order (`filter(Boolean)`). */
  function NonBlank(xs: seq<string>): (r: seq<string>)
    ensures forall x :: x in r <==> x in xs && x != ""
    ensures |r| <= |xs|
  {
    if xs == [] then []
    else (if xs[0] != "" then [xs[0]] else []) + NonBlank(xs[1..])
  }

  /** `allowed`: the comma-separated entries of `PAYFAST_IPS`, trimmed,
      empty entries dropped; no variable means no entry. */
  function Allowlist(ips: Option<string>): seq<string> {
    NonBlank(TrimAll(Split(ips.GetOr(""), ',')))
  }

  /** An entry is allowed iff it is the trim of some comma-separated
      piece and is not empty; every entry is trimmed and holds no comma. */
  lemma AllowlistEntries(ips: Option<string>)
    ensures var pieces := Split(ips.GetOr(""), ',');
      forall a :: a in Allowlist(ips) <==> a != "" && exists i :: 0 <= i < |pieces| && a == Trim(pieces[i])
    ensures forall a :: a in Allowlist(ips) ==> a == Trim(a) && ',' !in a
    ensures ips.None? || ips == Some("") ==> Allowlist(ips) == []
  {
    AllowlistMembers(ips, Split(ips.GetOr(""), ','));
    AllowlistClean(ips, Split(ips.GetOr(""), ','));
    if ips.None? || ips == Some("") {
      AllowlistUnset();
    }
  }

  lemma AllowlistMembers(ips: Option<string>, pieces: seq<string>)
    requires pieces == Split(ips.GetOr(""), ',')
    ensures forall a :: a in Allowlist(ips) <==> a != "" && exists i :: 0 <= i < |pieces| && a == Trim(pieces[i])
  {
    NonBlankTrimMembers(pieces);
  }

  /** The non-empty trims of the pieces are the non-empty strings that
      are the trim of some piece. */
  lemma NonBlankTrimMembers(pieces: seq<string>)
    ensures forall a :: a in NonBlank(TrimAll(pieces)) <==> a != "" && exists i :: 0 <= i < |pieces| && a == Trim(pieces[i])
  {
    TrimAllMembers(pieces);
  }

  /** The trims of the pieces are exactly the trims of some piece. */
  lemma TrimAllMembers(pieces: seq<string>)
    ensures forall a :: a in TrimAll(pieces) <==> exists i :: 0 <= i < |pieces| && a == Trim(pieces[i])
  {
    var trimmed := TrimAll(pieces);
    forall a
      ensures a in trimmed <==> exists i :: 0 <= i < |pieces| && a == Trim(pieces[i])
    {
      if a in trimmed {
        var i :| 0 <= i < |trimmed| && trimmed[i] == a;
        assert a == Trim(pieces[i]);
      }
      if exists i :: 0 <= i < |pieces| && a == Trim(pieces[i]) {
        var i :| 0 <= i < |pieces| && a == Trim(pieces[i]);
        assert trimmed[i] == a;
      }
    }
  }

  lemma AllowlistClean(ips: Option<string>, pieces: seq<string>)
    requires pieces == Split(ips.GetOr(""), ',')
    ensures forall a :: a in Allowlist(ips) ==> a == Trim(a) && ',' !in a
  {
    CleanPieces(pieces);
  }

  /** The non-empty trims of comma-free pieces are trimmed and hold no
      comma. */
  lemma CleanPieces(pieces: seq<string>)
    requires forall i :: 0 <= i < |pieces| ==> ',' !in pieces[i]
    ensures forall a :: a in NonBlank(TrimAll(pieces)) ==> a == Trim(a) && ',' !in a
  {
    forall a | a in NonBlank(TrimAll(pieces))
      ensures a == Trim(a) && ',' !in a
    {
      var i :| 0 <= i < |pieces| && a == TrimAll(pieces)[i];
      TrimIdempotent(pieces[i]);
      TrimInside(pieces[i]);
    }
  }

  lemma AllowlistUnset()
    ensures Allowlist(None) == [] && Allowlist(Some("")) == []
  {
    assert Split("", ',') == [""];
    assert TrimAll([""]) == [""];
  }

  lemma TrimInside(s: string)
    ensures forall c :: c in Trim(s) ==> c in s
  {
    var t := TrimStart(s);
    assert forall c :: c in t ==> c in s;
    assert forall c :: c in TrimEnd(t) ==> c in t;
  }

  /** `allowed.some((a) => ip.includes(a))`. */
  function AnyContained(allowed: seq<string>, ip: string): (r: bool)
    ensures r <==> exists i :: 0 <= i < |allowed| && Contains(ip, allowed[i])
  {
    if allowed == [] then false
    else Contains(ip, allowed[0]) || AnyContained(allowed[1..], ip)
  }

  /** `ipOk`: no allowlist, or the address string holds some entry. */
  predicate IpOk(allowed: seq<string>, ip: string) {
    |allowed| == 0 || AnyContained(allowed, ip)
  }

  /** The allowlist is a substring test: an address that merely holds an
      allowed entry passes, so entry 10.0.0.1 admits 10.0.0.123. */
  lemma IpSubstringMatch()
    ensures IpOk(["10.0.0.1"], "10.0.0.123")
  {
    assert IsPrefix("10.0.0.1", "10.0.0.123");
  }

  /** `String(x-forwarded-for || remoteAddress || '')`. */
  function ClientIp(forwardedFor: Option<string>, remoteAddress: Option<string>): (r: string)
    ensures forwardedFor.Some? && forwardedFor.value != "" ==> r == forwardedFor.value
    ensures (forwardedFor.None? || forwardedFor.value == "") ==> r == remoteAddress.GetOr("")
  {
    if forwardedFor.Some? && forwardedFor.value != "" then forwardedFor.value
    else remoteAddress.GetOr("")
  }

  /** `(PAYFAST_SANDBOX || 'true') === 'true'`. */
  function Sandbox(flag: Option<string>): (r: bool)
    ensures flag.None? || flag == Some("") ==> r
    ensures flag.Some? && flag.value != "" ==> (r <==> flag.value == "true")
  {
    (if flag.Some? && flag.value != "" then flag.value else "true") == "true"
  }

  /** `String(data['payment_status'])`: an absent field reads "undefined". */
  function StatusText(data: Fields): string {
    match Lookup(data, "payment_status")
    case None => "undefined"
    case Some(v) => v
  }

  /** The COMPLETE gate, case-insensitive. */
  predicate Complete(data: Fields) {
    ToUpper(StatusText(data)) == "COMPLETE"
  }

  /** Only a present `payment_status` can pass the gate, in any letter case. */
  lemma CompleteGate(data: Fields)
    ensures Complete(data) ==> Lookup(data, "payment_status").Some?
    ensures Lookup(data, "payment_status") == Some("complete") ==> Complete(data)
    ensures Lookup(data, "payment_status") == Some("COMPLETE") ==> Complete(data)
    ensures Lookup(data, "payment_status") == Some("Complete") ==> Complete(data)
  {
  }

  /** `String(data['m_payment_id'] || '').split('-')[0]`. */
  function PlanFromRef(reference: Option<string>): (r: string)
    ensures '-' !in r
  {
    Split(reference.GetOr(""), '-')[0]
  }

  /** A reference built as `<plan>-<n>` yields the plan back; one with
      no dash is taken whole. */
  lemma PlanFromRefRoundTrip(plan: PlanId, n: nat, reference: string)
    ensures PlanFromRef(Some(PlanName(plan) + "-" + NatToString(n))) == PlanName(plan)
    ensures '-' !in reference ==> PlanFromRef(Some(reference)) == reference
    ensures PlanFromRef(None) == "" && PlanFromRef(Some("")) == ""
  {
    var p := PlanName(plan);
    var rest := "-" + NatToString(n);
    assert '-' !in p;
    SplitPrefix(p, rest, '-');
    assert rest[0] == '-';
    assert Split(rest, '-')[0] == "";
    assert p + "" == p;
    assert p + rest == PlanName(plan) + "-" + NatToString(n);
    if '-' !in reference {
      SplitNoSeparator(reference, '-');
    }
  }

  /** The checkout's own reference, read back by the webhook, names the
      plan that was bought. */
  lemma ReferenceNamesPlan(plan: PlanId, opts: Urls, clock: nat)
    requires opts.reference.None? || opts.reference == Some("")
    ensures PlanFromRef(Some(Reference(plan, opts, clock))) == PlanName(plan)
  {
    PlanFromRefRoundTrip(plan, clock, "");
  }

  /** A checkout's field set, delivered in any order, passes the
      signature check with the same passphrase (the digest must not be
      empty, as an MD5 hex digest never is). */
  lemma CheckoutSignatureAccepted(cfg: Config, plan: PlanId, buyerEmail: string, opts: Urls, clock: nat, md5: Digest, data: Fields)
    requires md5(BaseString(SubscriptionFields(cfg, plan, buyerEmail, opts, clock), cfg.passphrase)) != ""
    requires multiset(data) == multiset(BuildSubscription(cfg, plan, buyerEmail, opts, clock, md5).fields)
    ensures SigOk(data, cfg.passphrase, md5)
  {
    var c := BuildSubscription(cfg, plan, buyerEmail, opts, clock, md5);
    SubscriptionSigned(cfg, plan, buyerEmail, opts, clock, md5);
    SignedFieldsAccepted(c.fields, data, cfg.passphrase, md5);
  }

  /** Fields with distinct keys that carry their own signature pass the
      check in any order. */
  lemma SignedFieldsAccepted(fields: Fields, data: Fields, passphrase: Option<string>, md5: Digest)
    requires DistinctKeys(fields)
    requires Lookup(fields, "signature") == Some(SignParams(Without(fields, "signature"), passphrase, md5))
    requires SignParams(Without(fields, "signature"), passphrase, md5) != ""
    requires multiset(data) == multiset(fields)
    ensures SigOk(data, passphrase, md5)
  {
    DistinctFunctional(fields);
    LookupFound(fields, "signature");
    ReorderedAccepted(fields, data, SignParams(Without(fields, "signature"), passphrase, md5), passphrase, md5);
  }

  /** A signed field set, delivered in any order, passes the check. */
  lemma ReorderedAccepted(fields: Fields, data: Fields, sig: string, passphrase: Option<string>, md5: Digest)
    requires Functional(fields) && ("signature", sig) in fields && sig != ""
    requires sig == SignParams(Without(fields, "signature"), passphrase, md5)
    requires multiset(data) == multiset(fields)
    ensures SigOk(data, passphrase, md5)
  {
    assert Functional(data) by {
      assert forall p :: p in data <==> p in multiset(fields);
    }
    assert ("signature", sig) in multiset(data);
    LookupMember(data, "signature", sig);
    var rest := Without(data, "signature");
    KeepPermutation(data, fields, (p: (string, string)) => p.0 != "signature");
    assert Functional(rest);
    BaseStringOrderFree(rest, Without(fields, "signature"), passphrase, md5);
  }


  /** Against a digest without collisions, a notification that passes
      the signature check carries the very base string that was signed. */
  lemma SignatureAuthenticates(data: Fields, signed: Fields, passphrase: Option<string>, md5: Digest)
    requires forall a, b :: md5(a) == md5(b) ==> a == b
    requires SigOk(data, passphrase, md5)
    requires Lookup(data, "signature") == Some(SignParams(signed, passphrase, md5))
    ensures BaseString(Without(data, "signature"), passphrase) == BaseString(signed, passphrase)
  {
  }

  /** The stored settings object. */
  type Row = map<string, string>

  /** `{ ...(row?.data || {}), plan: planFromRef }`. */
  function MergePlan(stored: Option<Row>, plan: string): (r: Row)
    ensures "plan" in r && r["plan"] == plan
    ensures forall k :: k != "plan" ==> (k in r <==> stored.Some? && k in stored.value)
    ensures forall k :: k != "plan" && k in r ==> r[k] == stored.value[k]
  {
    stored.GetOr(map[])["plan" := plan]
  }

  datatype Request = Request(httpMethod: string, body: Fields, forwardedFor: Option<string>, remoteAddress: Option<string>)

  /** `PAYFAST_PASSPHRASE`, `PAYFAST_SANDBOX`, `PAYFAST_IPS` and
      `AC_WORKSPACE_ID`. */
  datatype Env = Env(passphrase: Option<string>, sandbox: Option<string>, ips: Option<string>, workspace: Option<string>)

  /** `AC_WORKSPACE_ID || 'default'`. */
  function Workspace(env: Env): string {
    if env.workspace.Some? && env.workspace.value != "" then env.workspace.value else "default"
  }

  /** The `ac_itn_logs` row; the payload is the request body. */
  datatype AuditRow = AuditRow(ip: string, signatureOk: bool, ipOk: bool, postbackOk: bool,
                               paymentStatus: string, mPaymentId: string, payload: Fields)

  /** What one call does: the HTTP reply, the postback request it sends
      (URL and form body), the settings it writes (workspace and data)
      and the audit row it inserts. */
  datatype Outcome = Outcome(status: int, reply: string, postback: Option<(string, string)>,
                             settings: Option<(string, Row)>, audit: Option<AuditRow>)

  /** The three checks for a request. */
  function Checks(req: Request, env: Env, answer: Postback, md5: Digest): (bool, bool, bool) {
    (SigOk(req.body, env.passphrase, md5),
     IpOk(Allowlist(env.ips), ClientIp(req.forwardedFor, req.remoteAddress)),
     ValidateItn(answer) == Some(true))
  }

  /** `handler`. `answer` is the reply to the postback it sends;
      `stored` is the settings row it reads for the workspace. */
  method Handle(req: Request, env: Env, answer: Postback, stored: Option<Row>, md5: Digest) returns (out: Outcome)
    ensures req.httpMethod != "POST" ==> out == Outcome(405, "", None, None, None)
    ensures req.httpMethod == "POST" ==> out.status == 200 && out.reply == "OK"
    ensures req.httpMethod == "POST" ==>
      out.postback == Some((GetValidateEndpoint(Sandbox(env.sandbox)), ValidationBody(req.body)))
    ensures req.httpMethod == "POST" ==>
      var (sigOk, ipOk, validated) := Checks(req, env, answer, md5);
      out.audit == Some(AuditRow(ClientIp(req.forwardedFor, req.remoteAddress), sigOk, ipOk, validated,
                                 Lookup(req.body, "payment_status").GetOr(""),
                                 Lookup(req.body, "m_payment_id").GetOr(""), req.body))
    ensures out.settings.Some? <==>
      var (sigOk, ipOk, validated) := Checks(req, env, answer, md5);
      req.httpMethod == "POST" && sigOk && ipOk && validated && Complete(req.body)
      && PlanFromRef(Lookup(req.body, "m_payment_id")) != ""
    ensures out.settings.Some? ==>
      out.settings.value == (Workspace(env), MergePlan(stored, PlanFromRef(Lookup(req.body, "m_payment_id"))))
  {
    if req.httpMethod != "POST" {
      return Outcome(405, "", None, None, None);
    }
    var data := req.body;
    var theirSig := Lookup(data, "signature");
    var localSig := SignParams(Without(data, "signature"), env.passphrase, md5);
    var sigOk := theirSig.Some? && theirSig.value != "" && theirSig.value == localSig;
    var allowed := Allowlist(env.ips);
    var ip := ClientIp(req.forwardedFor, req.remoteAddress);
    var ipOk := |allowed| == 0 || AnyContained(allowed, ip);
    assert (sigOk, ipOk) == (Checks(req, env, answer, md5).0, Checks(req, env, answer, md5).1);
    var request := (GetValidateEndpoint(Sandbox(env.sandbox)), ValidationBody(data));
    var validated := false;
    var verdict := ValidateItn(answer);
    if verdict.Some? {
      validated := verdict.value;
    }
    assert validated == Checks(req, env, answer, md5).2;
    var ok := sigOk && ipOk && validated;
    var settings: Option<(string, Row)> := None;
    if ok && ToUpper(StatusText(data)) == "COMPLETE" {
      var planFromRef := PlanFromRef(Lookup(data, "m_payment_id"));
      if planFromRef != "" {
        settings := Some((Workspace(env), MergePlan(stored, planFromRef)));
      }
    }
    var audit := AuditRow(ip, sigOk, ipOk, validated, Lookup(data, "payment_status").GetOr(""),
                          Lookup(data, "m_payment_id").GetOr(""), data);
    out := Outcome(200, "OK", Some(request), settings, Some(audit));
  }

  /** A postback that fails never activates a plan, and the audit row
      records it as not validated. */
  lemma FailedPostbackDenies(req: Request, env: Env, md5: Digest)
    ensures !Checks(req, env, Failed, md5).2
  {
  }
}
