/** lib/payfast.ts: the PayFast endpoints, the MD5 signature over the
    canonical base string, the body of the ITN postback and the signed
    field set of a subscription checkout. The MD5 digest (RFC 1321) is
    the parameter `md5`; the network request is left out and its answer
    is an input. */
module Payfast {
  import opened Wrappers
  import opened Strings
  import opened Types
  import opened Encoding

  /** A JavaScript object with string values, as its entries in
      insertion order. */
  type Fields = seq<(string, string)>

  /** No key is bound to two different values, as in any object. */
  predicate Functional(f: Fields) {
    forall p, q :: p in f && q in f && p.0 == q.0 ==> p == q
  }

  function Lookup(f: Fields, k: string): Option<string>
    decreases |f|
  {
    if f == [] then None
    else if f[0].0 == k then Some(f[0].1)
    else Lookup(f[1..], k)
  }

  /** In an object, the value found for a key is the one it holds. */
  lemma {:induction false} LookupMember(f: Fields, k: string, v: string)
    requires Functional(f) && (k, v) in f
    ensures Lookup(f, k) == Some(v)
    decreases |f|
  {
    if f[0].0 == k {
      assert f[0] in f;
    } else {
      assert forall p :: p in f[1..] ==> p in f;
      assert (k, v) in f[1..] by {
        assert f == [f[0]] + f[1..];
      }
      LookupMember(f[1..], k, v);
    }
  }

  /** An entry whose key no earlier entry has is what `Lookup` finds. */
  lemma {:induction false} LookupFirst(f: Fields, i: nat)
    requires i < |f|
    requires forall j :: 0 <= j < i ==> f[j].0 != f[i].0
    ensures Lookup(f, f[i].0) == Some(f[i].1)
    decreases i
  {
    if i > 0 {
      LookupFirst(f[1..], i - 1);
    }
  }

  /** What `Lookup` finds is an entry of the object. */
  lemma {:induction false} LookupFound(f: Fields, k: string)
    requires Lookup(f, k).Some?
    ensures (k, Lookup(f, k).value) in f
    decreases |f|
  {
    if f[0].0 != k {
      LookupFound(f[1..], k);
      assert (k, Lookup(f, k).value) in f[1..];
    }
  }

  /** The entries `keep` accepts, in their order (`filter`). */
  function Keep(f: Fields, keep: ((string, string)) -> bool): (r: Fields)
    ensures forall p :: p in r <==> p in f && keep(p)
    ensures |r| <= |f|
    decreases |f|
  {
    if f == [] then []
    else
      assert f == [f[0]] + f[1..];
      (if keep(f[0]) then [f[0]] else []) + Keep(f[1..], keep)
  }

  lemma {:induction false} KeepMultiset(f: Fields, keep: ((string, string)) -> bool, p: (string, string))
    ensures multiset(Keep(f, keep))[p] == if keep(p) then multiset(f)[p] else 0
    decreases |f|
  {
    if f != [] {
      KeepMultiset(f[1..], keep, p);
      assert f == [f[0]] + f[1..];
    }
  }

  lemma {:induction false} KeepAppend(f: Fields, g: Fields, keep: ((string, string)) -> bool)
    ensures Keep(f + g, keep) == Keep(f, keep) + Keep(g, keep)
    decreases |f|
  {
    if f == [] {
      assert f + g == g;
    } else {
      assert (f + g)[0] == f[0] && (f + g)[1..] == f[1..] + g;
      KeepAppend(f[1..], g, keep);
    }
  }

  /** Filters of equal multisets have equal multisets. */
  lemma KeepPermutation(f: Fields, g: Fields, keep: ((string, string)) -> bool)
    requires multiset(f) == multiset(g)
    ensures multiset(Keep(f, keep)) == multiset(Keep(g, keep))
  {
    forall p
      ensures multiset(Keep(f, keep))[p] == multiset(Keep(g, keep))[p]
    {
      KeepMultiset(f, keep, p);
      KeepMultiset(g, keep, p);
    }
  }

  /** The entries whose value is not empty (the filter of `signParams`). */
  function NonEmpty(f: Fields): Fields {
    Keep(f, (p: (string, string)) => p.1 != "")
  }

  /** The entries with any key but `k`. */
  function Without(f: Fields, k: string): Fields {
    Keep(f, (p: (string, string)) => p.0 != k)
  }

  /** In ascending key order (JavaScript's default `sort` on keys). */
  predicate KeySorted(f: Fields) {
    forall i, j :: 0 <= i < j < |f| ==> !Less(f[j].0, f[i].0)
  }

  function InsertByKey(p: (string, string), s: Fields): (r: Fields)
    ensures |r| == |s| + 1
    decreases |s|
  {
    if s == [] then [p]
    else if Less(p.0, s[0].0) then [p] + s
    else [s[0]] + InsertByKey(p, s[1..])
  }

  lemma {:induction false} InsertByKeyPermutes(p: (string, string), s: Fields)
    ensures multiset(InsertByKey(p, s)) == multiset(s) + multiset{p}
    decreases |s|
  {
    if s != [] && !Less(p.0, s[0].0) {
      InsertByKeyPermutes(p, s[1..]);
      assert s == [s[0]] + s[1..];
    }
  }

  lemma {:induction false} InsertByKeySorted(p: (string, string), s: Fields)
    requires KeySorted(s)
    ensures KeySorted(InsertByKey(p, s))
    decreases |s|
  {
    if s == [] {
    } else if Less(p.0, s[0].0) {
      BelowHead(p, s);
      SortedCons(p, s);
    } else {
      InsertByKeySorted(p, s[1..]);
      InsertedNotBelow(p, s);
      SortedCons(s[0], InsertByKey(p, s[1..]));
    }
  }

  /** An entry no key of a sorted list is below can go in front of it. */
  lemma SortedCons(x: (string, string), rest: Fields)
    requires KeySorted(rest)
    requires forall k :: 0 <= k < |rest| ==> !Less(rest[k].0, x.0)
    ensures KeySorted([x] + rest)
  {
    var r := [x] + rest;
    forall i, j | 0 <= i < j < |r|
      ensures !Less(r[j].0, r[i].0)
    {
      if i > 0 {
        assert r[i] == rest[i - 1] && r[j] == rest[j - 1];
      } else {
        assert r[j] == rest[j - 1];
      }
    }
  }

  /** A key below the head of a sorted list is below every key in it. */
  lemma BelowHead(p: (string, string), s: Fields)
    requires KeySorted(s) && s != [] && Less(p.0, s[0].0)
    ensures forall k :: 0 <= k < |s| ==> !Less(s[k].0, p.0)
  {
    forall k | 0 <= k < |s|
      ensures !Less(s[k].0, p.0)
    {
      if Less(s[k].0, p.0) {
        LessTransitive(s[k].0, p.0, s[0].0);
        if k == 0 {
          LessIrreflexive(s[0].0);
        }
      }
    }
  }

  /** Inserting a key not below the head into the tail leaves nothing
      below the head. */
  lemma InsertedNotBelow(p: (string, string), s: Fields)
    requires KeySorted(s) && s != [] && !Less(p.0, s[0].0)
    ensures forall k :: 0 <= k < |InsertByKey(p, s[1..])| ==> !Less(InsertByKey(p, s[1..])[k].0, s[0].0)
  {
    var rest := InsertByKey(p, s[1..]);
    InsertByKeyPermutes(p, s[1..]);
    forall k | 0 <= k < |rest|
      ensures !Less(rest[k].0, s[0].0)
    {
      assert rest[k] in multiset(rest);
      if rest[k] != p {
        assert rest[k] in multiset(s[1..]);
        var m :| 0 <= m < |s[1..]| && s[1..][m] == rest[k];
        assert s[m + 1] == rest[k];
      }
    }
  }

  /** `Object.keys(obj).sort()` applied to the entries. */
  function SortByKey(f: Fields): (r: Fields)
    ensures KeySorted(r)
    ensures multiset(r) == multiset(f)
    decreases |f|
  {
    if f == [] then []
    else
      var init := SortByKey(f[..|f| - 1]);
      InsertByKeySorted(f[|f| - 1], init);
      InsertByKeyPermutes(f[|f| - 1], init);
      assert f == f[..|f| - 1] + [f[|f| - 1]];
      InsertByKey(f[|f| - 1], init)
  }

  /** The least entries of two key-sorted orderings of the same entries
      of an object coincide. */
  lemma SortedHeads(x: Fields, y: Fields)
    requires KeySorted(x) && KeySorted(y)
    requires multiset(x) == multiset(y)
    requires Functional(x)
    requires x != [] && y != []
    ensures x[0] == y[0]
  {
    assert x[0] in multiset(y) && y[0] in multiset(x);
    var j :| 0 <= j < |y| && y[j] == x[0];
    var i :| 0 <= i < |x| && x[i] == y[0];
    assert !Less(x[0].0, y[0].0) by {
      if j > 0 {
        assert !Less(y[j].0, y[0].0);
      } else {
        LessIrreflexive(x[0].0);
      }
    }
    assert !Less(y[0].0, x[0].0) by {
      if i > 0 {
        assert !Less(x[i].0, x[0].0);
      } else {
        LessIrreflexive(x[0].0);
      }
    }
    if x[0].0 != y[0].0 {
      LessTotal(x[0].0, y[0].0);
    }
  }

  lemma TailMultiset(x: Fields, y: Fields)
    requires x != [] && y != [] && x[0] == y[0]
    requires multiset(x) == multiset(y)
    ensures multiset(x[1..]) == multiset(y[1..])
  {
    assert x == [x[0]] + x[1..] && y == [y[0]] + y[1..];
    assert multiset(x) == multiset{x[0]} + multiset(x[1..]);
    assert multiset(y) == multiset{y[0]} + multiset(y[1..]);
    forall p
      ensures multiset(x[1..])[p] == multiset(y[1..])[p]
    {
      assert multiset(x)[p] == multiset{x[0]}[p] + multiset(x[1..])[p];
      assert multiset(y)[p] == multiset{y[0]}[p] + multiset(y[1..])[p];
    }
  }

  /** Two key-sorted orderings of the same entries of an object are the
      same sequence. */
  lemma {:induction false} SortedUnique(x: Fields, y: Fields)
    requires KeySorted(x) && KeySorted(y)
    requires multiset(x) == multiset(y)
    requires Functional(x)
    ensures x == y
    decreases |x|
  {
    if x == [] {
      assert |y| == |multiset(y)| == 0;
    } else {
      assert |y| == |multiset(y)| == |multiset(x)| == |x|;
      SortedHeads(x, y);
      TailMultiset(x, y);
      assert forall p :: p in x[1..] ==> p in x;
      SortedUnique(x[1..], y[1..]);
    }
  }

  /** `${k}=${encodeURIComponent(v).replace(/%20/g, '+')}` */
  function Encoded(p: (string, string)): string {
    p.0 + "=" + FormEncode(p.1)
  }

  function EncodedPairs(f: Fields): (r: seq<string>)
    ensures |r| == |f|
  {
    seq(|f|, i requires 0 <= i < |f| => Encoded(f[i]))
  }

  /** The `&passphrase=...` tail, present only for a non-empty passphrase. */
  function PassphraseTail(passphrase: Option<string>): string {
    if passphrase.Some? && passphrase.value != "" then "&passphrase=" + FormEncode(passphrase.value)
    else ""
  }

  /** The string `signParams` hashes. */
  function BaseString(obj: Fields, passphrase: Option<string>): string {
    Join(EncodedPairs(SortByKey(NonEmpty(obj))), "&") + PassphraseTail(passphrase)
  }

  /** An MD5 hex digest function. */
  type Digest = string -> string

  /** `signParams`. */
  function SignParams(obj: Fields, passphrase: Option<string>, md5: Digest): string {
    md5(BaseString(obj, passphrase))
  }

  /** Entries with an empty value do not affect the base string,
      wherever they stand. */
  lemma EmptyValueIgnored(a: Fields, b: Fields, k: string, passphrase: Option<string>)
    ensures BaseString(a + [(k, "")] + b, passphrase) == BaseString(a + b, passphrase)
  {
    var keep := (p: (string, string)) => p.1 != "";
    KeepAppend(a + [(k, "")], b, keep);
    KeepAppend(a, [(k, "")], keep);
    KeepAppend(a, b, keep);
    assert Keep([(k, "")], keep) == [];
    assert Keep(a, keep) + [] == Keep(a, keep);
  }

  /** The base string, and so the signature, depends only on the entries
      of the object and not on their insertion order. */
  lemma BaseStringOrderFree(a: Fields, b: Fields, passphrase: Option<string>, md5: Digest)
    requires Functional(a) && multiset(a) == multiset(b)
    ensures BaseString(a, passphrase) == BaseString(b, passphrase)
    ensures SignParams(a, passphrase, md5) == SignParams(b, passphrase, md5)
  {
    SortedFunctional(a);
    SortedSameEntries(a, b);
    SortedUnique(SortByKey(NonEmpty(a)), SortByKey(NonEmpty(b)));
  }

  /** Sorting the non-empty entries keeps one value per key. */
  lemma SortedFunctional(a: Fields)
    requires Functional(a)
    ensures Functional(SortByKey(NonEmpty(a)))
  {
    var sa := SortByKey(NonEmpty(a));
    assert forall p :: p in sa ==> p in multiset(NonEmpty(a));
    assert forall p :: p in NonEmpty(a) ==> p in a;
  }

  /** Reordered objects have the same sorted non-empty entries, as
      multisets. */
  lemma SortedSameEntries(a: Fields, b: Fields)
    requires multiset(a) == multiset(b)
    ensures multiset(SortByKey(NonEmpty(a))) == multiset(SortByKey(NonEmpty(b)))
  {
    KeepPermutation(a, b, (p: (string, string)) => p.1 != "");
  }

  /** Keys hold no `&`, so the base string without a passphrase splits
      back into its `k=v` pairs, one per non-empty entry, in key order. */
  lemma BaseStringSplits(obj: Fields)
    requires NonEmpty(obj) != []
    requires forall p :: p in obj ==> '&' !in p.0
    ensures Split(BaseString(obj, None), '&') == EncodedPairs(SortByKey(NonEmpty(obj)))
  {
    var sorted := SortByKey(NonEmpty(obj));
    var xs := EncodedPairs(sorted);
    assert |sorted| == |multiset(sorted)| == |multiset(NonEmpty(obj))| == |NonEmpty(obj)|;
    forall i | 0 <= i < |xs|
      ensures '&' !in xs[i]
    {
      assert sorted[i] in multiset(NonEmpty(obj));
      FormEncodeAlphabet(sorted[i].1);
      assert xs[i] == sorted[i].0 + "=" + FormEncode(sorted[i].1);
    }
    assert BaseString(obj, None) == Join(xs, "&");
    SplitJoin(xs, '&');
  }

  /** The passphrase only ever adds `&passphrase=<encoded>` at the end,
      and only when it is given and not empty. */
  lemma PassphraseLast(obj: Fields, passphrase: Option<string>)
    ensures BaseString(obj, passphrase) == BaseString(obj, None) + PassphraseTail(passphrase)
    ensures PassphraseTail(passphrase) == "" <==> passphrase.None? || passphrase.value == ""
    ensures PassphraseTail(passphrase) != "" ==> IsPrefix("&passphrase=", PassphraseTail(passphrase))
  {
  }

  /** The signature depends on the base string alone. */
  lemma SignatureOfBase(a: Fields, p: Option<string>, b: Fields, q: Option<string>, md5: Digest)
    requires BaseString(a, p) == BaseString(b, q)
    ensures SignParams(a, p, md5) == SignParams(b, q, md5)
  {
  }

  /** `getEndpoint`. */
  function GetEndpoint(sandbox: bool): (r: string)
    ensures sandbox ==> IsPrefix("https://sandbox.payfast.co.za/", r)
    ensures !sandbox ==> IsPrefix("https://www.payfast.co.za/", r)
    ensures IsSuffix("/eng/process", r)
  {
    if sandbox then "https://sandbox.payfast.co.za/eng/process" else "https://www.payfast.co.za/eng/process"
  }

  /** `getValidateEndpoint`: the same host as `getEndpoint`, but the
      query path the postback goes to rather than the payment form's. */
  function GetValidateEndpoint(sandbox: bool): (r: string)
    ensures sandbox ==> IsPrefix("https://sandbox.payfast.co.za/", r)
    ensures !sandbox ==> IsPrefix("https://www.payfast.co.za/", r)
    ensures IsSuffix("/eng/query/validate", r)
    ensures r != GetEndpoint(sandbox)
  {
    if sandbox then "https://sandbox.payfast.co.za/eng/query/validate" else "https://www.payfast.co.za/eng/query/validate"
  }

  /** The form body `validateITN` posts: every entry but `signature`,
      empty values included, in key order and encoded as for signing. */
  function ValidationBody(params: Fields): string {
    Join(EncodedPairs(SortByKey(Without(params, "signature"))), "&")
  }

  /** Unlike the base string, the postback body keeps empty values, as
      `k=`, and drops nothing but the signature. */
  lemma ValidationBodyEntries(params: Fields)
    ensures forall p :: p in SortByKey(Without(params, "signature")) <==> p in params && p.0 != "signature"
    ensures forall k :: (k, "") in params && k != "signature" ==>
      k + "=" in EncodedPairs(SortByKey(Without(params, "signature")))
  {
    var sorted := SortByKey(Without(params, "signature"));
    assert forall p :: p in sorted <==> p in multiset(sorted);
    forall k | (k, "") in params && k != "signature"
      ensures k + "=" in EncodedPairs(sorted)
    {
      assert (k, "") in multiset(sorted);
      var i :| 0 <= i < |sorted| && sorted[i] == (k, "");
      assert FormEncode("") == "";
      assert EncodedPairs(sorted)[i] == k + "=";
    }
  }

  /** The answer to the postback: the request failed, or the server
      answered with an HTTP status (`ok` for 2xx) and a text. */
  datatype Postback = Failed | Answered(ok: bool, text: string)

  /** `validateITN` once its request is answered: `None` when the request
      throws, else whether the answer is a 2xx whose trimmed text is
      exactly "VALID". */
  function ValidateItn(answer: Postback): (r: Option<bool>)
    ensures r.None? <==> answer.Failed?
    ensures r == Some(true) <==> answer.Answered? && answer.ok && Trim(answer.text) == "VALID"
  {
    match answer
    case Failed => None
    case Answered(ok, text) => Some(ok && Trim(text) == "VALID")
  }

  datatype Config = Config(merchantId: string, merchantKey: string, passphrase: Option<string>, sandbox: bool)

  datatype Urls = Urls(returnUrl: string, cancelUrl: string, notifyUrl: string, reference: Option<string>)

  datatype Checkout = Checkout(action: string, fields: Fields)

  /** The monthly amount of each plan, as the decimal string PayFast expects. */
  function Amount(plan: PlanId): string {
    match plan
    case Starter => "100.00"
    case Pro => "200.00"
    case Business => "400.00"
  }

  /** `opts.reference || \`${plan}-${Date.now()}\``, with the clock reading
      as the parameter `clock`. */
  function Reference(plan: PlanId, opts: Urls, clock: nat): string {
    if opts.reference.Some? && opts.reference.value != "" then opts.reference.value
    else PlanName(plan) + "-" + NatToString(clock)
  }

  /** The `stringified` field set, in the order the object literal lists it. */
  function SubscriptionFields(cfg: Config, plan: PlanId, buyerEmail: string, opts: Urls, clock: nat): Fields {
    [ ("merchant_id", cfg.merchantId),
      ("merchant_key", cfg.merchantKey),
      ("return_url", opts.returnUrl),
      ("cancel_url", opts.cancelUrl),
      ("notify_url", opts.notifyUrl),
      ("email_address", buyerEmail),
      ("m_payment_id", Reference(plan, opts, clock)),
      ("email_confirmation", "1"),
      ("subscription_type", "1"),
      ("recurring_amount", Amount(plan)),
      ("frequency", "3"),
      ("cycles", "0"),
      ("item_name", "AutoChase " + PlanName(plan) + " plan") ]
  }

  /** The keys of `SubscriptionFields`, in order; all different. */
  const SubscriptionKeys: seq<string> := ["merchant_id", "merchant_key", "return_url", "cancel_url", "notify_url",
    "email_address", "m_payment_id", "email_confirmation", "subscription_type", "recurring_amount", "frequency",
    "cycles", "item_name"]

  predicate DistinctKeys(f: Fields) {
    forall i, j :: 0 <= i < j < |f| ==> f[i].0 != f[j].0
  }

  lemma StringifiedKeys(cfg: Config, plan: PlanId, buyerEmail: string, opts: Urls, clock: nat)
    ensures var f := SubscriptionFields(cfg, plan, buyerEmail, opts, clock);
      && |f| == |SubscriptionKeys|
      && (forall i :: 0 <= i < |f| ==> f[i].0 == SubscriptionKeys[i] && f[i].0 != "signature")
      && DistinctKeys(f)
  {
    assert forall i, j :: 0 <= i < j < |SubscriptionKeys| ==> SubscriptionKeys[i] != SubscriptionKeys[j];
  }

  lemma DistinctFunctional(f: Fields)
    requires DistinctKeys(f)
    ensures Functional(f)
  {
    forall p, q | p in f && q in f && p.0 == q.0
      ensures p == q
    {
      var i :| 0 <= i < |f| && f[i] == p;
      var j :| 0 <= j < |f| && f[j] == q;
      assert i == j;
    }
  }

  /** `buildSubscription`. */
  function BuildSubscription(cfg: Config, plan: PlanId, buyerEmail: string, opts: Urls, clock: nat, md5: Digest): Checkout {
    var stringified := SubscriptionFields(cfg, plan, buyerEmail, opts, clock);
    Checkout(GetEndpoint(cfg.sandbox), stringified + [("signature", SignParams(stringified, cfg.passphrase, md5))])
  }

  /** The checkout posts to the sandbox or the live process URL as the
      configuration says; its fields are the stringified fields, every
      key different, with one `signature` entry added last, signed over
      exactly those fields. */
  lemma SubscriptionSigned(cfg: Config, plan: PlanId, buyerEmail: string, opts: Urls, clock: nat, md5: Digest)
    ensures var c := BuildSubscription(cfg, plan, buyerEmail, opts, clock, md5);
      var stringified := SubscriptionFields(cfg, plan, buyerEmail, opts, clock);
      && c.action == (if cfg.sandbox then "https://sandbox.payfast.co.za/eng/process" else "https://www.payfast.co.za/eng/process")
      && DistinctKeys(c.fields)
      && Without(c.fields, "signature") == stringified
      && Lookup(c.fields, "signature") == Some(SignParams(Without(c.fields, "signature"), cfg.passphrase, md5))
  {
    var stringified := SubscriptionFields(cfg, plan, buyerEmail, opts, clock);
    StringifiedKeys(cfg, plan, buyerEmail, opts, clock);
    SignatureAppended(stringified, SignParams(stringified, cfg.passphrase, md5));
  }

  /** Adding a `signature` entry to fields that have none. */
  lemma SignatureAppended(f: Fields, sig: string)
    requires DistinctKeys(f)
    requires forall i :: 0 <= i < |f| ==> f[i].0 != "signature"
    ensures DistinctKeys(f + [("signature", sig)])
    ensures Without(f + [("signature", sig)], "signature") == f
    ensures Lookup(f + [("signature", sig)], "signature") == Some(sig)
  {
    SignatureRemoved(f, sig);
    SignatureFound(f, sig);
  }

  lemma SignatureRemoved(f: Fields, sig: string)
    requires forall i :: 0 <= i < |f| ==> f[i].0 != "signature"
    ensures Without(f + [("signature", sig)], "signature") == f
  {
    var keep := (p: (string, string)) => p.0 != "signature";
    KeepAppend(f, [("signature", sig)], keep);
    KeepAll(f, keep);
    assert Keep([("signature", sig)], keep) == [];
    assert f + [] == f;
  }

  lemma SignatureFound(f: Fields, sig: string)
    requires forall i :: 0 <= i < |f| ==> f[i].0 != "signature"
    ensures Lookup(f + [("signature", sig)], "signature") == Some(sig)
  {
    var g := f + [("signature", sig)];
    assert g[|f|] == ("signature", sig);
    LookupFirst(g, |f|);
  }

  lemma {:induction false} KeepAll(f: Fields, keep: ((string, string)) -> bool)
    requires forall i :: 0 <= i < |f| ==> keep(f[i])
    ensures Keep(f, keep) == f
    decreases |f|
  {
    if f != [] {
      KeepAll(f[1..], keep);
      assert f == [f[0]] + f[1..];
    }
  }

  lemma {:induction false} LookupAppend(f: Fields, g: Fields, k: string)
    requires Lookup(f, k).Some?
    ensures Lookup(f + g, k) == Lookup(f, k)
    decreases |f|
  {
    assert (f + g)[0] == f[0];
    if f[0].0 != k {
      assert (f + g)[1..] == f[1..] + g;
      LookupAppend(f[1..], g, k);
    }
  }

  lemma StringifiedTerms(cfg: Config, plan: PlanId, buyerEmail: string, opts: Urls, clock: nat)
    ensures var f := SubscriptionFields(cfg, plan, buyerEmail, opts, clock);
      && Lookup(f, "recurring_amount") == Some(Amount(plan))
      && Lookup(f, "frequency") == Some("3")
      && Lookup(f, "cycles") == Some("0")
      && Lookup(f, "subscription_type") == Some("1")
      && Lookup(f, "m_payment_id") == Some(Reference(plan, opts, clock))
      && Lookup(f, "email_address") == Some(buyerEmail)
  {
    var f := SubscriptionFields(cfg, plan, buyerEmail, opts, clock);
    StringifiedKeys(cfg, plan, buyerEmail, opts, clock);
    LookupFirst(f, 5);
    LookupFirst(f, 6);
    LookupFirst(f, 8);
    LookupFirst(f, 9);
    LookupFirst(f, 10);
    LookupFirst(f, 11);
  }

  /** The subscription terms: the plan's fixed monthly amount, billed
      monthly (`frequency` 3) with no end (`cycles` 0), as a subscription
      (`subscription_type` 1), under the given reference or
      `<plan>-<clock>`, for the given buyer. */
  lemma SubscriptionTerms(cfg: Config, plan: PlanId, buyerEmail: string, opts: Urls, clock: nat, md5: Digest)
    ensures var f := BuildSubscription(cfg, plan, buyerEmail, opts, clock, md5).fields;
      && Lookup(f, "recurring_amount") == Some(Amount(plan))
      && Lookup(f, "frequency") == Some("3")
      && Lookup(f, "cycles") == Some("0")
      && Lookup(f, "subscription_type") == Some("1")
      && Lookup(f, "m_payment_id") == Some(Reference(plan, opts, clock))
      && Lookup(f, "email_address") == Some(buyerEmail)
  {
    var stringified := SubscriptionFields(cfg, plan, buyerEmail, opts, clock);
    var tail := [("signature", SignParams(stringified, cfg.passphrase, md5))];
    StringifiedTerms(cfg, plan, buyerEmail, opts, clock);
    LookupAppend(stringified, tail, "recurring_amount");
    LookupAppend(stringified, tail, "frequency");
    LookupAppend(stringified, tail, "cycles");
    LookupAppend(stringified, tail, "subscription_type");
    LookupAppend(stringified, tail, "m_payment_id");
    LookupAppend(stringified, tail, "email_address");
  }
}
