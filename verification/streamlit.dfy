/** The Streamlit front end. The script logs a session in, fetches the session's
    customer row at the top of every run, and then runs one of four features.
    An exception the script does not catch (a missing customer row, a failed
    answerer or mail call) is reported as `Unhandled`. */
module Streamlit {
  import opened Results
  import opened Ledger
  import opened Summary
  import opened Render
  import opened Lines
  import Server

  // Messages are functions rather than constants, for the reason given in `Server`.
  function LoginError(): (message: string) { "Invalid account number." }
  function EmailDone(): (message: string) { "Email sent!" }

  /** The part of the session state the core reads. */
  datatype Session = Session(authenticated: bool, account: string)

  const InitialSession := Session(false, "")

  /** The session after pressing Verify, the error shown if any, and the effects. */
  datatype LoginStep = LoginStep(session: Session, error: Option<string>, effects: seq<Effect>)

  /** One entry of the conversation shown below the features. */
  datatype ChatMessage = ChatMessage(role: string, content: string)

  /** Pressing Verify on the login form, which is shown only while the session
      is not authenticated. The entered text is looked up as it is, even when empty. */
  function Login(s: Store, session: Session, input: string): (r: LoginStep)
    requires !session.authenticated
    ensures r.effects == [LookupCustomer(input)]
    ensures r.session.authenticated <==> input in s.customers
    ensures r.session.authenticated ==> r.session.account == input && r.error == None
    ensures !r.session.authenticated ==> r.session == session && r.error == Some(LoginError())
  {
    match GetCustomer(s, input)
    case Some(_) => LoginStep(Session(true, input), None, [LookupCustomer(input)])
    case None => LoginStep(session, Some(LoginError()), [LookupCustomer(input)])
  }

  /** "Ask a financial question": nothing happens while the question is empty. */
  function Ask(s: Store, fmt: real -> string, account: string, userQuery: string,
               answer: string -> Option<string>): (r: Reply<seq<ChatMessage>>)
    ensures userQuery == "" ==> r == Reply(Ok([]), [LookupCustomer(account)])
    ensures userQuery != "" && account !in s.customers ==> r == Reply(Fail(Unhandled), [LookupCustomer(account)])
  {
    if userQuery == "" then Reply(Ok([]), [LookupCustomer(account)])
    else
      match GetCustomer(s, account)
      case None => Reply(Fail(Unhandled), [LookupCustomer(account)])
      case Some(c) => Converse(account, c.accountNumber, userQuery, Server.AskPromptFor(s, fmt, c, c.accountNumber, userQuery), answer)
  }

  /** The feature's last step, once the customer row (`customer[0]` is `owner`)
      and the history are read: the prompt goes to the answerer once; its answer
      joins the conversation after the question, and its failure is not caught. */
  function Converse(account: string, owner: string, userQuery: string, prompt: string,
                    answer: string -> Option<string>): (r: Reply<seq<ChatMessage>>)
    ensures r.effects == [LookupCustomer(account), QueryTransactions(owner, None, None), Complete(prompt)]
    ensures CallsAnswerer(r.effects)
    ensures r.outcome.Ok? <==> answer(prompt).Some?
    ensures r.outcome.Ok? ==> r.outcome.value == [ChatMessage("user", userQuery), ChatMessage("ai", answer(prompt).value)]
    ensures r.outcome.Fail? ==> r.outcome.failure == Unhandled
  {
    var effects := [LookupCustomer(account), QueryTransactions(owner, None, None), Complete(prompt)];
    assert effects[2].Complete?;
    match answer(prompt)
    case None => Reply(Fail(Unhandled), effects)
    case Some(text) => Reply(Ok([ChatMessage("user", userQuery), ChatMessage("ai", text)]), effects)
  }

  /** A known customer with a question: the rows are read, the prompt goes to
      the answerer once, and on success the question and the answer join the
      conversation. */
  lemma AskKnownCustomer(s: Store, fmt: real -> string, account: string, userQuery: string,
                         answer: string -> Option<string>)
    requires userQuery != "" && account in s.customers
    ensures var r := Ask(s, fmt, account, userQuery, answer);
            var c := s.customers[account];
            var prompt := Server.AskPromptFor(s, fmt, c, c.accountNumber, userQuery);
            && r.effects == [LookupCustomer(account), QueryTransactions(c.accountNumber, None, None), Complete(prompt)]
            && CallsAnswerer(r.effects)
            && (r.outcome.Ok? <==> answer(prompt).Some?)
            && (r.outcome.Ok? ==> r.outcome.value == [ChatMessage("user", userQuery), ChatMessage("ai", answer(prompt).value)])
            && (r.outcome.Fail? ==> r.outcome.failure == Unhandled)
  {
    var c := s.customers[account];
    assert GetCustomer(s, account) == Some(c);
    assert Ask(s, fmt, account, userQuery, answer)
        == Converse(account, c.accountNumber, userQuery, Server.AskPromptFor(s, fmt, c, c.accountNumber, userQuery), answer);
  }

  /** The answerer is called only for a non-empty question from a known customer. */
  lemma AskCallsAnswererOnlyForCustomers(s: Store, fmt: real -> string, account: string, userQuery: string,
                                         answer: string -> Option<string>)
    ensures CallsAnswerer(Ask(s, fmt, account, userQuery, answer).effects) ==> userQuery != "" && account in s.customers
  {
    var r := Ask(s, fmt, account, userQuery, answer);
    if userQuery == "" || account !in s.customers {
      assert r.effects == [LookupCustomer(account)];
    }
  }

  /** `- {date} | {type} | ${amount} | {desc}`. */
  function ListingLine(fmt: real -> string, r: Row): (line: string)
    ensures SingleLine(fmt, r) ==> '\n' !in line
  {
    "- " + r.date + " | " + r.kind + " | $" + fmt(r.amount) + " | " + r.description
  }

  /** "List transactions for date range": a heading, then one line per row. */
  function RangeListing(s: Store, fmt: real -> string, account: string, start: string, end: string): (r: Reply<seq<string>>)
    ensures account !in s.customers ==> r == Reply(Fail(Unhandled), [LookupCustomer(account)])
    ensures account in s.customers ==>
              var c := s.customers[account];
              var rows := FetchTransactions(s, c.accountNumber, Some(start), Some(end));
              && r.effects == [LookupCustomer(account), QueryTransactions(c.accountNumber, Some(start), Some(end))]
              && r.outcome.Ok?
              && |r.outcome.value| == |rows| + 1
              && r.outcome.value[0] == "Transactions from " + start + " to " + end + ":"
              && forall i :: 0 <= i < |rows| ==> r.outcome.value[i + 1] == ListingLine(fmt, rows[i])
  {
    match GetCustomer(s, account)
    case None => Reply(Fail(Unhandled), [LookupCustomer(account)])
    case Some(c) =>
      var rows := FetchTransactions(s, c.accountNumber, Some(start), Some(end));
      var lines := seq(|rows|, i requires 0 <= i < |rows| => ListingLine(fmt, rows[i]));
      Reply(Ok(["Transactions from " + start + " to " + end + ":"] + lines),
            [LookupCustomer(account), QueryTransactions(c.accountNumber, Some(start), Some(end))])
  }

  /** "Get summary by transaction type". */
  function SummaryByType(s: Store, account: string): (r: Reply<map<string, real>>)
    ensures account !in s.customers ==> r == Reply(Fail(Unhandled), [LookupCustomer(account)])
    ensures account in s.customers ==>
              var c := s.customers[account];
              var rows := FetchTransactions(s, c.accountNumber, None, None);
              && r.effects == [LookupCustomer(account), QueryTransactions(c.accountNumber, None, None)]
              && r.outcome.Ok?
              && r.outcome.value.Keys == Types(rows)
              && forall k :: k in r.outcome.value ==> r.outcome.value[k] == TypeTotal(rows, k)
  {
    match GetCustomer(s, account)
    case None => Reply(Fail(Unhandled), [LookupCustomer(account)])
    case Some(c) =>
      var rows := FetchTransactions(s, c.accountNumber, None, None);
      Reply(Ok(Summarize(rows)), [LookupCustomer(account), QueryTransactions(c.accountNumber, None, None)])
  }

  /** The message "Email last 30 days statement" hands to the sender. */
  function StatementMail(s: Store, fmt: real -> string, c: Customer, w: Server.Window): (mail: Mail)
    ensures mail.to == c.email && mail.subject == Server.StatementSubject()
    ensures Greeting(c.name) <= mail.body
  {
    var rows := FetchTransactions(s, c.accountNumber, Some(w.start), Some(w.end));
    Mail(c.email, Server.StatementSubject(), StreamlitStatement(c.name, TxText(fmt, rows)))
  }

  /** "Email last 30 days statement", once the Send Email button is pressed. */
  function EmailStatement(s: Store, fmt: real -> string, account: string, w: Server.Window,
                          send: Mail -> bool): (r: Reply<string>)
    ensures account !in s.customers ==> r == Reply(Fail(Unhandled), [LookupCustomer(account)])
    ensures SendsMail(r.effects) <==> account in s.customers
    ensures account in s.customers ==>
              var c := s.customers[account];
              var mail := StatementMail(s, fmt, c, w);
              && mail.to == c.email
              && r.effects == [LookupCustomer(account), QueryTransactions(c.accountNumber, Some(w.start), Some(w.end)), SendMail(mail)]
              && r.outcome == if send(mail) then Ok(EmailDone()) else Fail(Unhandled)
  {
    match GetCustomer(s, account)
    case None => Reply(Fail(Unhandled), [LookupCustomer(account)])
    case Some(c) =>
      var mail := StatementMail(s, fmt, c, w);
      var effects := [LookupCustomer(account), QueryTransactions(c.accountNumber, Some(w.start), Some(w.end)), SendMail(mail)];
      assert effects[2].SendMail?;
      if send(mail) then Reply(Ok(EmailDone()), effects) else Reply(Fail(Unhandled), effects)
  }

  /** In a store keyed by account number, both front ends read the same rows
      and send the answerer the same prompt for the same customer and question. */
  lemma SamePromptAsServer(s: Store, fmt: real -> string, account: string, query: string, answer: string -> Option<string>)
    requires Keyed(s) && account in s.customers && account != "" && query != ""
    ensures Ask(s, fmt, account, query, answer).effects
         == Server.Ask(s, fmt, Some(account), Some(query), answer).effects
  {
    assert s.customers[account].accountNumber == account;
    AskKnownCustomer(s, fmt, account, query, answer);
    Server.AskKnownCustomer(s, fmt, account, query, answer);
  }

  /** In a store keyed by account number, both front ends compute the same summary. */
  lemma SameSummaryAsServer(s: Store, account: string)
    requires Keyed(s) && account in s.customers && account != ""
    ensures SummaryByType(s, account).outcome == Server.SummaryByType(s, Some(account)).outcome
  {
  }

  /** Both front ends mail the same window of rows to the same address, but the
      Streamlit body lacks the balance block: its lines are the HTTP body's lines
      with the blank line and `Current Balance` line removed. */
  lemma StatementDiffersFromServer(s: Store, fmt: real -> string, account: string, w: Server.Window)
    requires Keyed(s) && account in s.customers
    requires '\n' !in fmt(s.customers[account].balance)
    ensures var c := s.customers[account];
            var ours := StatementMail(s, fmt, c, w);
            var theirs := Server.StatementMail(s, fmt, c, account, w);
            var py := SplitLines(ours.body);
            && ours.to == theirs.to && ours.subject == theirs.subject
            && ours.body != theirs.body
            && |py| >= 3
            && SplitLines(theirs.body) == py[..|py| - 3] + ["", "Current Balance: $" + fmt(c.balance)] + py[|py| - 3..]
  {
    var c := s.customers[account];
    StatementsDifferByBalance(fmt, c.name, c.balance, TxText(fmt, FetchTransactions(s, account, Some(w.start), Some(w.end))));
  }

  /** The front ends disagree on an empty account number: the HTTP handler
      refuses it without reading the store, while the login form looks it up
      and, in a store whose account numbers are all non-empty, rejects it. */
  lemma EmptyAccountNumber(s: Store)
    requires "" !in s.customers
    ensures Server.Login(s, Some("")) == Reply(Fail(InvalidInput(Server.AccountRequired())), [])
    ensures Login(s, InitialSession, "") == LoginStep(InitialSession, Some(LoginError()), [LookupCustomer("")])
  {
  }

  /** The front ends also disagree on an account without a customer row: the
      HTTP summary never looks the customer up and sums whatever rows carry the
      account number, while the Streamlit feature fails at `customer[0]`. */
  lemma UnknownAccountSummary(s: Store, account: string)
    requires account != "" && account !in s.customers
    ensures Server.SummaryByType(s, Some(account)).outcome == Ok(Summarize(FetchTransactions(s, account, None, None)))
    ensures SummaryByType(s, account).outcome == Fail(Unhandled)
  {
  }

  /** When every transaction belongs to a known customer, the HTTP summary of
      an account without a customer row is the empty map. */
  lemma OwnedUnknownAccountSummary(s: Store, account: string)
    requires Owned(s) && account != "" && account !in s.customers
    ensures Server.SummaryByType(s, Some(account)).outcome == Ok(map[])
    ensures SummaryByType(s, account).outcome == Fail(Unhandled)
  {
    UnknownAccountHasNoRows(s, account, None, None);
    EmptySummary();
  }
}
