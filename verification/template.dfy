/** Placeholder substitution of lib/scheduler.ts (`buildPaymentLink`,
    `interpolate`). Substitution is a chain of global literal replaces:
    a later step also sees the text an earlier step inserted. The
    locale-aware money formatter is a parameter. */
module Template {
  import opened Wrappers
  import opened Strings
  import opened Types

  /** `fmtMoney(amountInCents, currencyCode)`. */
  type MoneyFormat = (int, string) -> string

  /** `fmtMoney(invoice.amount, invoice.currency)`; the currency
      defaults to ZAR when absent. */
  function FormatAmount(inv: Invoice, fmt: MoneyFormat): string {
    fmt(inv.amount, inv.currency.GetOr("ZAR"))
  }

  /** `buildPaymentLink`: without a template, the invoice's own link or
      the empty string; otherwise the template with the invoice number
      and the amount substituted. */
  function BuildPaymentLink(template: Option<string>, inv: Invoice, fmt: MoneyFormat): (r: string)
    ensures template.None? || template == Some("") ==> r == inv.paymentLink.GetOr("")
  {
    if template.None? || template.value == "" then inv.paymentLink.GetOr("")
    else
      ReplaceAll(ReplaceAll(template.value, "{{invoiceNumber}}", inv.invoiceNumber),
                 "{{amount}}", FormatAmount(inv, fmt))
  }

  /** A template without the two placeholders is used as it stands. */
  lemma PaymentLinkTemplateVerbatim(template: string, inv: Invoice, fmt: MoneyFormat)
    requires template != ""
    requires !Contains(template, "{{invoiceNumber}}") && !Contains(template, "{{amount}}")
    ensures BuildPaymentLink(Some(template), inv, fmt) == template
  {
    ReplaceAllAbsent(template, "{{invoiceNumber}}", inv.invoiceNumber);
    ReplaceAllAbsent(template, "{{amount}}", FormatAmount(inv, fmt));
  }

  /** The sender name: the business name, or "Accounts" when unset or empty. */
  function YourName(settings: Settings): string {
    if settings.businessName.None? || settings.businessName.value == "" then "Accounts"
    else settings.businessName.value
  }

  /** `interpolate`: the six placeholders are replaced in this order. */
  function Interpolate(text: string, inv: Invoice, settings: Settings, whenLabel: string,
                       fmt: MoneyFormat): string
  {
    var t1 := ReplaceAll(text, "{{clientName}}", inv.clientName);
    var t2 := ReplaceAll(t1, "{{invoiceNumber}}", inv.invoiceNumber);
    var t3 := ReplaceAll(t2, "{{amount}}", FormatAmount(inv, fmt));
    var t4 := ReplaceAll(t3, "{{when}}", whenLabel);
    var t5 := ReplaceAll(t4, "{{paymentLink}}", BuildPaymentLink(settings.paymentLinkTemplate, inv, fmt));
    ReplaceAll(t5, "{{yourName}}", YourName(settings))
  }

  predicate HasNoPlaceholder(text: string) {
    && !Contains(text, "{{clientName}}")
    && !Contains(text, "{{invoiceNumber}}")
    && !Contains(text, "{{amount}}")
    && !Contains(text, "{{when}}")
    && !Contains(text, "{{paymentLink}}")
    && !Contains(text, "{{yourName}}")
  }

  /** Text without any of the six placeholders is returned unchanged;
      unknown placeholders pass through. */
  lemma InterpolateUntouched(text: string, inv: Invoice, settings: Settings, whenLabel: string,
                             fmt: MoneyFormat)
    requires HasNoPlaceholder(text)
    ensures Interpolate(text, inv, settings, whenLabel, fmt) == text
  {
    ReplaceAllAbsent(text, "{{clientName}}", inv.clientName);
    ReplaceAllAbsent(text, "{{invoiceNumber}}", inv.invoiceNumber);
    ReplaceAllAbsent(text, "{{amount}}", FormatAmount(inv, fmt));
    ReplaceAllAbsent(text, "{{when}}", whenLabel);
    ReplaceAllAbsent(text, "{{paymentLink}}", BuildPaymentLink(settings.paymentLinkTemplate, inv, fmt));
    ReplaceAllAbsent(text, "{{yourName}}", YourName(settings));
  }

  /** "{{yourName}}" holds none of the five earlier placeholders. */
  lemma YourNameTokenIsolated()
    ensures !Contains("{{yourName}}", "{{clientName}}")
    ensures !Contains("{{yourName}}", "{{invoiceNumber}}")
    ensures !Contains("{{yourName}}", "{{amount}}")
    ensures !Contains("{{yourName}}", "{{when}}")
    ensures !Contains("{{yourName}}", "{{paymentLink}}")
  {
    LongerTokensAbsent();
    ShorterTokensAbsent();
  }

  lemma LongerTokensAbsent()
    ensures !Contains("{{yourName}}", "{{clientName}}")
    ensures !Contains("{{yourName}}", "{{invoiceNumber}}")
    ensures !Contains("{{yourName}}", "{{paymentLink}}")
  {
    var s := "{{yourName}}";
    NotContainsLonger(s, "{{clientName}}");
    NotContainsLonger(s, "{{invoiceNumber}}");
    NotContainsLonger(s, "{{paymentLink}}");
  }

  lemma ShorterTokensAbsent()
    ensures !Contains("{{yourName}}", "{{amount}}")
    ensures !Contains("{{yourName}}", "{{when}}")
  {
    var s := "{{yourName}}";
    NotContainsToken(s, "{{amount}}");
    NotContainsToken(s, "{{when}}");
  }

  lemma NotContainsLonger(s: string, t: string)
    requires |s| < |t|
    ensures !Contains(s, t)
  {
    if Contains(s, t) {
      ContainsLength(s, t);
    }
  }

  /** Two placeholders that differ in their first letter: neither
      occurs in the other, as "{{" opens only at the front. */
  lemma NotContainsToken(s: string, t: string)
    requires |t| >= 3 && t[0] == '{' && t[1] == '{'
    requires |s| >= 3 && s[0] == '{' && s[1] == '{' && s[2] != t[2]
    requires forall i :: 2 <= i < |s| ==> s[i] != '{'
    ensures !Contains(s, t)
  {
    assert !IsPrefix(t, s) by {
      if |t| <= |s| {
        assert s[..|t|][2] == s[2];
      }
    }
    NotContainsBrace(s[1..], t);
  }

  /** A token opening with "{{" does not occur in a string with no "{"
      past its first character. */
  lemma {:induction false} NotContainsBrace(s: string, t: string)
    requires |t| >= 2 && t[0] == '{' && t[1] == '{'
    requires forall i :: 1 <= i < |s| ==> s[i] != '{'
    ensures !Contains(s, t)
    decreases |s|
  {
    if s != [] {
      assert !IsPrefix(t, s) by {
        if |t| <= |s| {
          assert s[..|t|][1] == s[1];
        }
      }
      NotContainsBrace(s[1..], t);
    }
  }

  /** `{{yourName}}` alone renders as "Accounts" when no business name is set. */
  lemma YourNameDefault(inv: Invoice, settings: Settings, whenLabel: string, fmt: MoneyFormat)
    requires settings.businessName == None || settings.businessName == Some("")
    ensures Interpolate("{{yourName}}", inv, settings, whenLabel, fmt) == "Accounts"
  {
    YourNameTokenIsolated();
    ReplaceAllAbsent("{{yourName}}", "{{clientName}}", inv.clientName);
    YourNameSurvives(inv, settings, fmt);
    ReplaceAllAbsent("{{yourName}}", "{{when}}", whenLabel);
    ReplaceToken("{{yourName}}", "Accounts");
  }

  /** Steps two to five leave "{{yourName}}" alone. */
  lemma YourNameSurvives(inv: Invoice, settings: Settings, fmt: MoneyFormat)
    ensures ReplaceAll(ReplaceAll("{{yourName}}", "{{invoiceNumber}}", inv.invoiceNumber),
                       "{{amount}}", FormatAmount(inv, fmt)) == "{{yourName}}"
    ensures ReplaceAll("{{yourName}}", "{{paymentLink}}",
                       BuildPaymentLink(settings.paymentLinkTemplate, inv, fmt)) == "{{yourName}}"
  {
    YourNameTokenIsolated();
    ReplaceAllAbsent("{{yourName}}", "{{invoiceNumber}}", inv.invoiceNumber);
    ReplaceAllAbsent("{{yourName}}", "{{amount}}", FormatAmount(inv, fmt));
    ReplaceAllAbsent("{{yourName}}", "{{paymentLink}}", BuildPaymentLink(settings.paymentLinkTemplate, inv, fmt));
  }

  lemma ReplaceToken(t: string, v: string)
    requires t != ""
    ensures ReplaceAll(t, t, v) == v
  {
    assert t[|t|..] == [];
  }

  /** Substitution is not one pass: a client name that itself reads
      "{{yourName}}" is expanded again by the last step. */
  lemma ChainedExpansion(inv: Invoice, settings: Settings, whenLabel: string, fmt: MoneyFormat)
    requires inv.clientName == "{{yourName}}"
    ensures Interpolate("{{clientName}}", inv, settings, whenLabel, fmt) == YourName(settings)
  {
    var s := "{{yourName}}";
    var t1 := ReplaceAll("{{clientName}}", "{{clientName}}", inv.clientName);
    ReplaceToken("{{clientName}}", s);
    assert t1 == s;
    YourNameTokenIsolated();
    YourNameSurvives(inv, settings, fmt);
    ReplaceAllAbsent(s, "{{when}}", whenLabel);
    ReplaceToken(s, YourName(settings));
  }
}
