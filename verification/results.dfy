/** Result values shared by the two front ends: optional request fields, the
    failure taxonomy, and the ordered log of effects a use case performs. */
module Results {

  /** An optional value: a request field that may be absent, or a lookup that may miss. */
  datatype Option<+T> = None | Some(value: T)

  /** The kinds of failure a use case reports instead of a value. */
  datatype Failure =
    | InvalidInput(message: string)     // a required request field is missing or empty (HTTP 400)
    | NotFound(message: string)         // no customer row for the account number (HTTP 404)
    | UpstreamFailure(message: string)  // the answerer or the mail sender failed (HTTP 500)
    | Unhandled                         // an exception the script does not catch

  datatype Outcome<+T> = Ok(value: T) | Fail(failure: Failure)

  /** An outgoing message handed to the mail sender. */
  datatype Mail = Mail(to: string, subject: string, body: string)

  /** One observable step of a use case, in the order it happens. */
  datatype Effect =
    | LookupCustomer(account: string)
    | QueryTransactions(account: string, start: Option<string>, end: Option<string>)
    | Complete(prompt: string)
    | SendMail(mail: Mail)

  /** What a use case returns: its outcome and every effect it performed to get there. */
  datatype Reply<+T> = Reply(outcome: Outcome<T>, effects: seq<Effect>)

  /** True if some effect of the log is a call to the answering service. */
  predicate CallsAnswerer(effects: seq<Effect>) {
    exists i :: 0 <= i < |effects| && effects[i].Complete?
  }

  /** True if some effect of the log hands a message to the mail sender. */
  predicate SendsMail(effects: seq<Effect>) {
    exists i :: 0 <= i < |effects| && effects[i].SendMail?
  }

}
