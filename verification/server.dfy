/** The request handlers of the HTTP front end. Each handler validates its
    request, reads the store, aggregates or renders, and may call the answering
    service or the mail sender; both collaborators are parameters, and every
    reply carries the ordered log of the effects the handler performed. */
module Server {
  import opened Results
  import opened Ledger
  import opened Summary
  import opened Render
  import opened Lines

  // The reply messages, like the fixed texts of `Render`, are functions without
  // arguments rather than `const`s: the verifier assumes the value of every
  // module-level constant in every proof, and string literals make those
  // assumptions expensive. A function's value is unfolded only where the
  // function is used. Constants that hold no text (`Render.RecentCount`,
  // `Streamlit.InitialSession`) stay `const`s.
  function AccountRequired(): (message: string) { "Account number is required" }
  function AccountAndQueryRequired(): (message: string) { "Account number and query are required" }
  function InvalidAccount(): (message: string) { "Invalid account number" }
  function CustomerNotFound(): (message: string) { "Customer not found" }
  function QueryFailed(): (message: string) { "Failed to process query" }
  function SendFailed(): (message: string) { "Failed to send email" }
  function EmailSent(): (message: string) { "Email sent successfully" }
  function StatementSubject(): (message: string) { "Your 30-Day Bank Statement" }

  /** The JSON `customer` object the login handler returns, with camel-case
      keys; `Ledger.Customer` is the table row it is copied from. */
  datatype CustomerView = CustomerView(accountNumber: string, name: string, email: string, balance: real)

  /** The statement window, `[today - 30 days, today]` as `YYYY-MM-DD` text,
      computed by the caller from its clock. */
  datatype Window = Window(start: string, end: string)

  /** POST /api/login. */
  function Login(s: Store, accountNumber: Option<string>): (r: Reply<CustomerView>)
    ensures !Truthy(accountNumber) ==> r == Reply(Fail(InvalidInput(AccountRequired())), [])
    ensures Truthy(accountNumber) ==> r.effects == [LookupCustomer(accountNumber.value)]
    ensures r.outcome.Ok? <==> Truthy(accountNumber) && accountNumber.value in s.customers
    ensures Truthy(accountNumber) && accountNumber.value !in s.customers ==> r.outcome == Fail(NotFound(InvalidAccount()))
    ensures r.outcome.Ok? ==>
              var c := s.customers[accountNumber.value];
              r.outcome.value == CustomerView(c.accountNumber, c.name, c.email, c.balance)
    ensures Keyed(s) && r.outcome.Ok? ==> r.outcome.value.accountNumber == accountNumber.value
  {
    if !Truthy(accountNumber) then Reply(Fail(InvalidInput(AccountRequired())), [])
    else
      var account := accountNumber.value;
      match GetCustomer(s, account)
      case None => Reply(Fail(NotFound(InvalidAccount())), [LookupCustomer(account)])
      case Some(c) => Reply(Ok(CustomerView(c.accountNumber, c.name, c.email, c.balance)), [LookupCustomer(account)])
  }

  /** The prompt the ask handler sends for a known customer: the query, the
      customer's name and balance, and the last five rows of the history. */
  function AskPromptFor(s: Store, fmt: real -> string, c: Customer, account: string, query: string): (prompt: string)
    ensures |prompt| > 0 && prompt[0] == '\n'
  {
    var recent := TakeLast(FetchTransactions(s, account, None, None), RecentCount);
    AskPrompt(fmt, query, c.name, c.balance, TxText(fmt, recent))
  }

  /** POST /api/ask. */
  function Ask(s: Store, fmt: real -> string, accountNumber: Option<string>, query: Option<string>,
               answer: string -> Option<string>): (r: Reply<string>)
    ensures !(Truthy(accountNumber) && Truthy(query)) ==> r == Reply(Fail(InvalidInput(AccountAndQueryRequired())), [])
    ensures Truthy(accountNumber) && Truthy(query) && accountNumber.value !in s.customers ==>
              r == Reply(Fail(NotFound(CustomerNotFound())), [LookupCustomer(accountNumber.value)])
  {
    if !(Truthy(accountNumber) && Truthy(query)) then Reply(Fail(InvalidInput(AccountAndQueryRequired())), [])
    else
      var account := accountNumber.value;
      match GetCustomer(s, account)
      case None => Reply(Fail(NotFound(CustomerNotFound())), [LookupCustomer(account)])
      case Some(c) => Respond(account, AskPromptFor(s, fmt, c, account, query.value), answer)
  }

  /** The ask handler's last step, once the customer and the history are read:
      the prompt goes to the answerer once, and its answer or its failure is the reply. */
  function Respond(account: string, prompt: string, answer: string -> Option<string>): (r: Reply<string>)
    ensures r.effects == [LookupCustomer(account), QueryTransactions(account, None, None), Complete(prompt)]
    ensures CallsAnswerer(r.effects)
    ensures r.outcome.Ok? <==> answer(prompt).Some?
    ensures r.outcome.Ok? ==> r.outcome.value == answer(prompt).value
    ensures r.outcome.Fail? ==> r.outcome.failure == UpstreamFailure(QueryFailed())
  {
    var effects := [LookupCustomer(account), QueryTransactions(account, None, None), Complete(prompt)];
    assert effects[2].Complete?;
    match answer(prompt)
    case None => Reply(Fail(UpstreamFailure(QueryFailed())), effects)
    case Some(text) => Reply(Ok(text), effects)
  }

  /** A known customer with a question: the handler reads the customer and the
      full history, sends the prompt to the answerer once, and replies with the
      answer, or with an upstream failure when the answerer fails. */
  lemma AskKnownCustomer(s: Store, fmt: real -> string, account: string, query: string,
                         answer: string -> Option<string>)
    requires account != "" && query != "" && account in s.customers
    ensures var r := Ask(s, fmt, Some(account), Some(query), answer);
            var prompt := AskPromptFor(s, fmt, s.customers[account], account, query);
            && r.effects == [LookupCustomer(account), QueryTransactions(account, None, None), Complete(prompt)]
            && CallsAnswerer(r.effects)
            && (r.outcome.Ok? <==> answer(prompt).Some?)
            && (r.outcome.Ok? ==> r.outcome.value == answer(prompt).value)
            && (r.outcome.Fail? ==> r.outcome.failure == UpstreamFailure(QueryFailed()))
  {
    var c := s.customers[account];
    assert GetCustomer(s, account) == Some(c);
    assert Ask(s, fmt, Some(account), Some(query), answer) == Respond(account, AskPromptFor(s, fmt, c, account, query), answer);
  }

  /** The answerer is called only when both fields are present and the
      customer exists. */
  lemma AskCallsAnswererOnlyForCustomers(s: Store, fmt: real -> string, accountNumber: Option<string>,
                                         query: Option<string>, answer: string -> Option<string>)
    ensures CallsAnswerer(Ask(s, fmt, accountNumber, query, answer).effects)
        ==> Truthy(accountNumber) && Truthy(query) && accountNumber.value in s.customers
  {
    var r := Ask(s, fmt, accountNumber, query, answer);
    if !(Truthy(accountNumber) && Truthy(query)) {
      assert r.effects == [];
    } else if accountNumber.value !in s.customers {
      assert r.effects == [LookupCustomer(accountNumber.value)];
    }
  }

  /** POST /api/transactions. */
  function ListTransactions(s: Store, accountNumber: Option<string>, startDate: Option<string>, endDate: Option<string>): (r: Reply<seq<Row>>)
    ensures !Truthy(accountNumber) ==> r == Reply(Fail(InvalidInput(AccountRequired())), [])
    ensures Truthy(accountNumber) ==>
              && r.effects == [QueryTransactions(accountNumber.value, startDate, endDate)]
              && r.outcome.Ok?
    ensures r.outcome.Ok? ==>
              var selected := Select(s.transactions, accountNumber.value, startDate, endDate);
              && |r.outcome.value| == |selected|
              && forall i :: 0 <= i < |selected| ==> r.outcome.value[i] == Row(selected[i].date, selected[i].kind, selected[i].amount, selected[i].description)
  {
    if !Truthy(accountNumber) then Reply(Fail(InvalidInput(AccountRequired())), [])
    else
      var account := accountNumber.value;
      Reply(Ok(FetchTransactions(s, account, startDate, endDate)), [QueryTransactions(account, startDate, endDate)])
  }

  /** POST /api/summary. */
  function SummaryByType(s: Store, accountNumber: Option<string>): (r: Reply<map<string, real>>)
    ensures !Truthy(accountNumber) ==> r == Reply(Fail(InvalidInput(AccountRequired())), [])
    ensures Truthy(accountNumber) ==>
              && r.effects == [QueryTransactions(accountNumber.value, None, None)]
              && r.outcome.Ok?
    ensures r.outcome.Ok? ==>
              var rows := FetchTransactions(s, accountNumber.value, None, None);
              && r.outcome.value.Keys == (set t | t in History(s, accountNumber.value) :: t.kind)
              && forall k :: k in r.outcome.value ==> r.outcome.value[k] == TypeTotal(rows, k)
  {
    if !Truthy(accountNumber) then Reply(Fail(InvalidInput(AccountRequired())), [])
    else
      var account := accountNumber.value;
      var rows := FetchTransactions(s, account, None, None);
      TypesOfProjection(History(s, account));
      Reply(Ok(Summarize(rows)), [QueryTransactions(account, None, None)])
  }

  /** The message the statement handler hands to the sender. */
  function StatementMail(s: Store, fmt: real -> string, c: Customer, account: string, w: Window): (mail: Mail)
    ensures mail.to == c.email && mail.subject == StatementSubject()
    ensures Greeting(c.name) <= mail.body
  {
    var rows := FetchTransactions(s, account, Some(w.start), Some(w.end));
    Mail(c.email, StatementSubject(), ServerStatement(fmt, c.name, c.balance, TxText(fmt, rows)))
  }

  /** POST /api/email-statement. */
  function EmailStatement(s: Store, fmt: real -> string, accountNumber: Option<string>, w: Window,
                          send: Mail -> bool): (r: Reply<string>)
    ensures !Truthy(accountNumber) ==> r == Reply(Fail(InvalidInput(AccountRequired())), [])
    ensures Truthy(accountNumber) && accountNumber.value !in s.customers ==>
              r == Reply(Fail(NotFound(CustomerNotFound())), [LookupCustomer(accountNumber.value)])
    ensures SendsMail(r.effects) <==> Truthy(accountNumber) && accountNumber.value in s.customers
    ensures Truthy(accountNumber) && accountNumber.value in s.customers ==>
              var account := accountNumber.value;
              var c := s.customers[account];
              var mail := StatementMail(s, fmt, c, account, w);
              && mail.to == c.email && mail.subject == StatementSubject()
              && r.effects == [LookupCustomer(account), QueryTransactions(account, Some(w.start), Some(w.end)), SendMail(mail)]
              && (r.outcome.Ok? <==> send(mail))
              && r.outcome == if send(mail) then Ok(EmailSent()) else Fail(UpstreamFailure(SendFailed()))
  {
    if !Truthy(accountNumber) then Reply(Fail(InvalidInput(AccountRequired())), [])
    else
      var account := accountNumber.value;
      match GetCustomer(s, account)
      case None => Reply(Fail(NotFound(CustomerNotFound())), [LookupCustomer(account)])
      case Some(c) =>
        var mail := StatementMail(s, fmt, c, account, w);
        var effects := [LookupCustomer(account), QueryTransactions(account, Some(w.start), Some(w.end)), SendMail(mail)];
        assert effects[2].SendMail?;
        if send(mail) then Reply(Ok(EmailSent()), effects)
        else Reply(Fail(UpstreamFailure(SendFailed())), effects)
  }

  /** A request with a missing or empty account number is refused before the
      store, the answerer or the sender is touched, by every handler. */
  lemma InvalidInputTouchesNothing(s: Store, fmt: real -> string, accountNumber: Option<string>, query: Option<string>,
                                   startDate: Option<string>, endDate: Option<string>, w: Window,
                                   answer: string -> Option<string>, send: Mail -> bool)
    requires !Truthy(accountNumber)
    ensures Login(s, accountNumber).effects == []
    ensures Ask(s, fmt, accountNumber, query, answer).effects == []
    ensures ListTransactions(s, accountNumber, startDate, endDate).effects == []
    ensures SummaryByType(s, accountNumber).effects == []
    ensures EmailStatement(s, fmt, accountNumber, w, send).effects == []
    ensures Login(s, accountNumber).outcome.Fail? && Login(s, accountNumber).outcome.failure.InvalidInput?
  {
  }

  /** The values of the summary add up to the total of the listed history. */
  lemma SummaryMatchesListing(s: Store, account: string)
    requires account != ""
    ensures MapSum(SummaryByType(s, Some(account)).outcome.value)
         == Total(ListTransactions(s, Some(account), None, None).outcome.value)
  {
    SummaryTotal(FetchTransactions(s, account, None, None));
  }

  /** The prompt the ask handler sends shows, line by line, the customer's name
      and balance and exactly the last min(5, n) rows of the account's n-row
      history, oldest first. */
  lemma AskPromptShowsRecentRows(s: Store, fmt: real -> string, account: string, query: string)
    requires account in s.customers
    requires '\n' !in s.customers[account].name && '\n' !in fmt(s.customers[account].balance)
    requires AllSingleLine(fmt, TakeLast(FetchTransactions(s, account, None, None), RecentCount))
    ensures var c := s.customers[account];
            var history := FetchTransactions(s, account, None, None);
            var recent := TakeLast(history, RecentCount);
            && |recent| == (if |history| < 5 then |history| else 5)
            && history == history[..|history| - |recent|] + recent
            && SplitLines(AskPromptFor(s, fmt, c, account, query))
               == ["", "### CUSTOMER QUERY:"] + SplitLines(query)
                + ["", "### CUSTOMER INFO:", "Name: " + c.name, "Balance: $" + fmt(c.balance), "Recent Transactions:"]
                + TextLines(fmt, recent)
                + ["", "### RESPONSE:", Instruction(), ""]
  {
    var c := s.customers[account];
    var history := FetchTransactions(s, account, None, None);
    var recent := TakeLast(history, RecentCount);
    var text := TxText(fmt, recent);
    assert AskPromptFor(s, fmt, c, account, query) == AskPrompt(fmt, query, c.name, c.balance, text);
    TxTextLines(fmt, recent);
    PromptLines(fmt, query, c.name, c.balance, text);
  }

  /** The statement mail lists, one line each and in store order, exactly the
      account's rows dated inside the window, framed by the greeting, the
      header, the balance and the signature. */
  lemma StatementShowsWindowRows(s: Store, fmt: real -> string, account: string, w: Window)
    requires account in s.customers && w.start != "" && w.end != ""
    requires '\n' !in s.customers[account].name && '\n' !in fmt(s.customers[account].balance)
    requires AllSingleLine(fmt, FetchTransactions(s, account, Some(w.start), Some(w.end)))
    ensures var c := s.customers[account];
            var rows := FetchTransactions(s, account, Some(w.start), Some(w.end));
            && SplitLines(StatementMail(s, fmt, c, account, w).body)
               == ["Hi " + c.name + ",", "", StatementHeader(), ""]
                + TextLines(fmt, rows)
                + ["", "Current Balance: $" + fmt(c.balance), "", "Regards,", "Your Bank"]
            && forall t :: t in Select(s.transactions, account, Some(w.start), Some(w.end)) <==>
                 t in s.transactions && t.accountNumber == account && Between(t.date, w.start, w.end)
  {
    var c := s.customers[account];
    var rows := FetchTransactions(s, account, Some(w.start), Some(w.end));
    assert StatementMail(s, fmt, c, account, w).body == ServerStatement(fmt, c.name, c.balance, TxText(fmt, rows));
    ServerStatementLines(fmt, c.name, c.balance, rows);
    SelectMembers(s.transactions, account, Some(w.start), Some(w.end));
  }
}
