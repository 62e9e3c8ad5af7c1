/** The records of lib/types.ts. Optional JavaScript fields become
    `Option`s where the source tells `undefined` apart from a value; an
    absent `paid` flag is `false`, an absent day list is empty. */
module Types {
  import opened Wrappers

  datatype PlanId = Starter | Pro | Business

  /** The string a plan id is written as. */
  function PlanName(p: PlanId): string {
    match p
    case Starter => "starter"
    case Pro => "pro"
    case Business => "business"
  }

  datatype Invoice = Invoice(
    id: string,
    clientName: string,
    clientEmail: string,
    invoiceNumber: string,
    amount: int,               // in cents
    currency: Option<string>,
    dueDate: string,           // ISO calendar date, YYYY-MM-DD
    paid: bool,
    paymentLink: Option<string>,
    createdAt: string)

  datatype Rules = Rules(
    beforeDays: seq<int>,
    onDue: bool,
    afterDays: seq<int>,
    weekdaysOnly: bool)

  datatype Settings = Settings(
    sender: string,
    subject: string,
    body: string,
    rules: Rules,
    businessName: Option<string>,
    paymentLinkTemplate: Option<string>,
    plan: Option<string>)        // the stored plan name, unchecked

  datatype Kind = Before | On | After

  function KindName(k: Kind): string {
    match k
    case Before => "before"
    case On => "on"
    case After => "after"
  }

  /** `when` is the scheduled instant, in minutes since the local epoch. */
  datatype Reminder = Reminder(
    id: string,
    invoiceId: string,
    when: int,
    kind: Kind,
    sentAt: Option<string>,
    to: string,
    subject: string,
    body: string)
}
