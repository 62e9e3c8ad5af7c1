/** pages/autochase/settings.tsx: reading the comma-separated day lists
    typed into the automation-rules form, and merging each form edit
    into the settings being edited. */
module SettingsForm {
  import opened Wrappers
  import opened Strings
  import opened Types

  /** What one comma-separated piece contributes: its value when it
      trims to a non-negative integer, nothing when it is not a number
      or is negative. */
  function Piece(s: string): (r: seq<int>)
    ensures |r| <= 1
    ensures forall i :: 0 <= i < |r| ==> r[i] >= 0
  {
    Kept(ParseInt(Trim(s)))
  }

  /** A parsed value is kept when it is a number and not negative. */
  function Kept(parsed: Option<int>): (r: seq<int>)
    ensures |r| <= 1
    ensures forall i :: 0 <= i < |r| ==> r[i] >= 0
    ensures forall x :: x in r ==> parsed == Some(x)
  {
    match parsed
    case Some(n) => if n >= 0 then [n] else []
    case None => []
  }

  /** What `read` makes of each piece, in the order of the pieces. */
  function Nums(pieces: seq<string>, read: string -> seq<int>): seq<int>
    decreases |pieces|
  {
    if pieces == [] then [] else read(pieces[0]) + Nums(pieces[1..], read)
  }

  /** With `Piece` as the reader: at most one number per piece, none
      negative. */
  lemma {:induction false} NumsBound(pieces: seq<string>)
    ensures |Nums(pieces, Piece)| <= |pieces|
    ensures forall i :: 0 <= i < |Nums(pieces, Piece)| ==> Nums(pieces, Piece)[i] >= 0
    decreases |pieces|
  {
    if pieces != [] {
      NumsBound(pieces[1..]);
      var p := Piece(pieces[0]);
      assert |p| <= 1 && forall i :: 0 <= i < |p| ==> p[i] >= 0;
    }
  }

  /** `csvNums`: split on commas, parse each trimmed piece, keep the
      non-negative numbers. At most one number per piece, so at most one
      more than there are commas. */
  function CsvNums(v: string): (r: seq<int>)
    ensures forall i :: 0 <= i < |r| ==> r[i] >= 0
    ensures |r| <= Count(v, ',') + 1
  {
    NumsBound(Split(v, ','));
    Nums(Split(v, ','), Piece)
  }

  /** Reading is piece by piece: the numbers of two runs of pieces are
      the numbers of the first followed by those of the second, so no
      number moves and a dropped piece takes nothing else with it. */
  lemma {:induction false} NumsAppend(a: seq<string>, b: seq<string>, read: string -> seq<int>)
    ensures Nums(a + b, read) == Nums(a, read) + Nums(b, read)
    decreases |a|
  {
    if a == [] {
      assert a + b == b;
    } else {
      assert (a + b)[1..] == a[1..] + b;
      NumsAppend(a[1..], b, read);
    }
  }

  /** Every number read comes from some piece. */
  lemma {:induction false} NumsFrom(pieces: seq<string>, read: string -> seq<int>, i: nat)
    requires i < |Nums(pieces, read)|
    ensures exists j :: 0 <= j < |pieces| && Nums(pieces, read)[i] in read(pieces[j])
    decreases |pieces|
  {
    var p := read(pieces[0]);
    var rest := Nums(pieces[1..], read);
    assert Nums(pieces, read) == p + rest;
    if i < |p| {
      assert Nums(pieces, read)[i] in read(pieces[0]);
    } else {
      NumsFrom(pieces[1..], read, i - |p|);
      var j :| 0 <= j < |pieces[1..]| && rest[i - |p|] in read(pieces[1..][j]);
      assert pieces[1..][j] == pieces[j + 1];
    }
  }

  /** Every number read comes from a piece that parses to it. */
  lemma NumsFromPieces(pieces: seq<string>, i: nat)
    requires i < |Nums(pieces, Piece)|
    ensures exists j :: 0 <= j < |pieces| && ParseInt(Trim(pieces[j])) == Some(Nums(pieces, Piece)[i])
  {
    NumsFrom(pieces, Piece, i);
    var x := Nums(pieces, Piece)[i];
    var j :| 0 <= j < |pieces| && x in Piece(pieces[j]);
    assert x in Kept(ParseInt(Trim(pieces[j])));
  }

  /** The text a day list is shown as: `join(',')` writes each number
      with `String(n)`. */
  function Shown(xs: seq<int>): (r: seq<string>)
    ensures |r| == |xs|
  {
    seq(|xs|, i requires 0 <= i < |xs| => IntToString(xs[i]))
  }

  /** The non-negative entries of a list, in order. */
  function NonNegative(xs: seq<int>): (r: seq<int>)
    ensures |r| <= |xs|
    decreases |xs|
  {
    if xs == [] then [] else (if xs[0] >= 0 then [xs[0]] else []) + NonNegative(xs[1..])
  }

  lemma {:induction false} NonNegativeAll(xs: seq<int>)
    requires forall i :: 0 <= i < |xs| ==> xs[i] >= 0
    ensures NonNegative(xs) == xs
    decreases |xs|
  {
    if xs != [] {
      NonNegativeAll(xs[1..]);
      assert xs == [xs[0]] + xs[1..];
    }
  }

  /** A written number has no comma and no white space at its ends,
      and reads back as itself. */
  lemma IntShown(n: int)
    ensures ',' !in IntToString(n)
    ensures Trim(IntToString(n)) == IntToString(n)
    ensures ParseInt(IntToString(n)) == Some(n)
  {
    if n < 0 {
      NegativeShown(-n);
    } else {
      NaturalShown(n);
    }
  }

  lemma NaturalShown(n: nat)
    ensures var s := NatToString(n);
      ',' !in s && Trim(s) == s && ParseInt(s) == Some(n as int)
  {
    NatDigits(n);
    DigitsShown(NatToString(n), n);
  }

  lemma NegativeShown(m: nat)
    ensures var s := "-" + NatToString(m);
      ',' !in s && Trim(s) == s && ParseInt(s) == Some(-(m as int))
  {
    NatDigits(m);
    SignedShown(NatToString(m), m);
  }

  lemma DigitsShown(d: string, v: nat)
    requires d != [] && forall i :: 0 <= i < |d| ==> IsDigit(d[i])
    requires ReadDigits(d) == Some(v)
    ensures ',' !in d && Trim(d) == d && ParseInt(d) == Some(v as int)
  {
    assert !IsDigit(',') && !IsSpace(d[0]) && !IsSpace(d[|d| - 1]);
    TrimmedIsFixed(d);
    ParseIntDigits(d, v);
  }

  lemma SignedShown(d: string, v: nat)
    requires d != [] && forall i :: 0 <= i < |d| ==> IsDigit(d[i])
    requires ReadDigits(d) == Some(v)
    ensures var s := "-" + d;
      ',' !in s && Trim(s) == s && ParseInt(s) == Some(-(v as int))
  {
    var s := "-" + d;
    assert !IsDigit(',') && !IsSpace(d[|d| - 1]);
    assert s[|s| - 1] == d[|d| - 1] && !IsSpace(s[0]);
    assert ',' !in s by {
      assert forall i :: 1 <= i < |s| ==> s[i] == d[i - 1];
    }
    TrimmedIsFixed(s);
    ParseIntSigned(d, v);
  }

  lemma {:induction false} NumsShown(xs: seq<int>)
    ensures Nums(Shown(xs), Piece) == NonNegative(xs)
    decreases |xs|
  {
    if xs != [] {
      IntShown(xs[0]);
      assert Piece(IntToString(xs[0])) == if xs[0] >= 0 then [xs[0]] else [];
      assert Shown(xs)[1..] == Shown(xs[1..]);
      NumsShown(xs[1..]);
    }
  }

  /** Reading back a shown day list gives its non-negative days, in
      order; the empty list is shown as "" and reads back as []. */
  lemma ShownReadBack(xs: seq<int>)
    ensures CsvNums(Join(Shown(xs), ",")) == NonNegative(xs)
  {
    if xs == [] {
      assert Join(Shown(xs), ",") == "";
      assert Split("", ',') == [""];
      assert ParseInt(Trim("")) == None;
    } else {
      forall i | 0 <= i < |Shown(xs)|
        ensures ',' !in Shown(xs)[i]
      {
        IntShown(xs[i]);
      }
      SplitJoin(Shown(xs), ',');
      NumsShown(xs);
    }
  }

  /** The round trip of the rules form: a list of non-negative days,
      shown and read back unchanged, reads back as itself. */
  lemma RoundTrip(xs: seq<int>)
    requires forall i :: 0 <= i < |xs| ==> xs[i] >= 0
    ensures CsvNums(Join(Shown(xs), ",")) == xs
  {
    ShownReadBack(xs);
    NonNegativeAll(xs);
  }

  /** `Partial<Settings>`: each key is absent from the patch (`None`) or
      carries the value to write. */
  datatype Patch = Patch(
    sender: Option<string>,
    subject: Option<string>,
    body: Option<string>,
    rules: Option<Rules>,
    businessName: Option<Option<string>>,
    paymentLinkTemplate: Option<Option<string>>,
    plan: Option<Option<string>>)

  const NoChange := Patch(None, None, None, None, None, None, None)

  /** `{ ...settings, ...patch }`: every key the patch carries is
      overwritten, every other key is kept. */
  function Apply(s: Settings, p: Patch): (r: Settings)
    ensures p.sender.None? ==> r.sender == s.sender
    ensures p.sender.Some? ==> r.sender == p.sender.value
    ensures p.subject.None? ==> r.subject == s.subject
    ensures p.subject.Some? ==> r.subject == p.subject.value
    ensures p.body.None? ==> r.body == s.body
    ensures p.body.Some? ==> r.body == p.body.value
    ensures p.rules.None? ==> r.rules == s.rules
    ensures p.rules.Some? ==> r.rules == p.rules.value
    ensures p.businessName.None? ==> r.businessName == s.businessName
    ensures p.businessName.Some? ==> r.businessName == p.businessName.value
    ensures p.paymentLinkTemplate.None? ==> r.paymentLinkTemplate == s.paymentLinkTemplate
    ensures p.paymentLinkTemplate.Some? ==> r.paymentLinkTemplate == p.paymentLinkTemplate.value
    ensures p.plan.None? ==> r.plan == s.plan
    ensures p.plan.Some? ==> r.plan == p.plan.value
  {
    Settings(
      p.sender.GetOr(s.sender),
      p.subject.GetOr(s.subject),
      p.body.GetOr(s.body),
      p.rules.GetOr(s.rules),
      p.businessName.GetOr(s.businessName),
      p.paymentLinkTemplate.GetOr(s.paymentLinkTemplate),
      p.plan.GetOr(s.plan))
  }

  /** `{ ...p, ...q }`: the later patch wins on the keys both carry. */
  function Then(p: Patch, q: Patch): Patch {
    Patch(
      if q.sender.Some? then q.sender else p.sender,
      if q.subject.Some? then q.subject else p.subject,
      if q.body.Some? then q.body else p.body,
      if q.rules.Some? then q.rules else p.rules,
      if q.businessName.Some? then q.businessName else p.businessName,
      if q.paymentLinkTemplate.Some? then q.paymentLinkTemplate else p.paymentLinkTemplate,
      if q.plan.Some? then q.plan else p.plan)
  }

  /** `onChange`: before the settings have loaded there is nothing to
      edit and the edit is dropped. */
  function OnChange(current: Option<Settings>, p: Patch): (r: Option<Settings>)
    ensures r.Some? <==> current.Some?
    ensures current.Some? ==> r.value == Apply(current.value, p)
  {
    match current
    case None => None
    case Some(s) => Some(Apply(s, p))
  }

  /** An empty patch changes nothing, applying a patch twice is applying
      it once, and two edits in a row are the one edit of their merged
      patch. */
  lemma PatchLaws(s: Settings, p: Patch, q: Patch)
    ensures Apply(s, NoChange) == s
    ensures Apply(Apply(s, p), p) == Apply(s, p)
    ensures Apply(Apply(s, p), q) == Apply(s, Then(p, q))
  {
  }

  function RulesPatch(rules: Rules): Patch {
    NoChange.(rules := Some(rules))
  }

  /** The "Before due days" field: the typed text replaces the before
      list, read with `csvNums`; every other setting and rule is kept. */
  function EditBeforeDays(s: Settings, v: string): (r: Settings)
    ensures r.rules.beforeDays == CsvNums(v)
    ensures r == s.(rules := s.rules.(beforeDays := CsvNums(v)))
  {
    Apply(s, RulesPatch(s.rules.(beforeDays := CsvNums(v))))
  }

  /** The "After due days" field, likewise for the after list. */
  function EditAfterDays(s: Settings, v: string): (r: Settings)
    ensures r.rules.afterDays == CsvNums(v)
    ensures r == s.(rules := s.rules.(afterDays := CsvNums(v)))
  {
    Apply(s, RulesPatch(s.rules.(afterDays := CsvNums(v))))
  }

  /** Leaving a day field as it is shown leaves the settings unchanged,
      when its days are non-negative. */
  lemma EditShownUnchanged(s: Settings)
    requires forall i :: 0 <= i < |s.rules.beforeDays| ==> s.rules.beforeDays[i] >= 0
    requires forall i :: 0 <= i < |s.rules.afterDays| ==> s.rules.afterDays[i] >= 0
    ensures EditBeforeDays(s, Join(Shown(s.rules.beforeDays), ",")) == s
    ensures EditAfterDays(s, Join(Shown(s.rules.afterDays), ",")) == s
  {
    RoundTrip(s.rules.beforeDays);
    RoundTrip(s.rules.afterDays);
  }
}
