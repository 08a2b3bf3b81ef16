/** The rows both front ends seed the database with, used as a fixture for
    concrete checks of the model. */
module Fixture {
  import opened Results
  import opened Ledger
  import Server
  import Summary

  function Account(): (account: string) { "1234567890" }

  function SeedRows(): (rows: seq<Txn>) {
    [ Txn(Account(), "2024-03-21", "Deposit", 1000.0, "Salary credited"),
      Txn(Account(), "2024-03-25", "Withdrawal", 200.0, "ATM cash withdrawal"),
      Txn(Account(), "2024-03-30", "Transfer", 500.0, "Sent to friend"),
      Txn(Account(), "2024-04-02", "Deposit", 750.0, "Refund from vendor"),
      Txn(Account(), "2024-04-10", "Withdrawal", 100.0, "Online shopping"),
      Txn(Account(), "2024-04-19", "Deposit", 1500.0, "Freelance payment") ]
  }

  function Seed(): (s: Store) {
    Store(
    map[Account() := Customer(Account(), "Sanjay S", "sanjayshankar91@gmail.com", 12500.75)],
    SeedRows())
  }

  lemma SeedIsValid()
    ensures Valid(Seed())
  {
  }

  /** Verifying the seeded account returns its balance; an unknown account is
      not found, after a single lookup. */
  lemma SeedLogin()
    ensures Server.Login(Seed(), Some(Account())).outcome
         == Ok(Server.CustomerView(Account(), "Sanjay S", "sanjayshankar91@gmail.com", 12500.75))
    ensures Server.Login(Seed(), Some("unknown"))
         == Reply(Fail(NotFound(Server.InvalidAccount())), [LookupCustomer("unknown")])
  {
  }

  function SeedHistory(): (rows: seq<Row>) {
    [ Row("2024-03-21", "Deposit", 1000.0, "Salary credited"),
      Row("2024-03-25", "Withdrawal", 200.0, "ATM cash withdrawal"),
      Row("2024-03-30", "Transfer", 500.0, "Sent to friend"),
      Row("2024-04-02", "Deposit", 750.0, "Refund from vendor"),
      Row("2024-04-10", "Withdrawal", 100.0, "Online shopping"),
      Row("2024-04-19", "Deposit", 1500.0, "Freelance payment") ]
  }

  lemma SeedHistoryRows()
    ensures FetchTransactions(Seed(), Account(), None, None) == SeedHistory()
  {
    SelectAllOf(SeedRows(), Account());
    assert ProjectAll(SeedRows()) == SeedHistory();
  }

  lemma {:induction false} SelectAllOf(txns: seq<Txn>, account: string)
    requires forall i :: 0 <= i < |txns| ==> txns[i].accountNumber == account
    ensures Select(txns, account, None, None) == txns
  {
    if |txns| > 0 {
      SelectAllOf(txns[1..], account);
      assert txns == [txns[0]] + txns[1..];
    }
  }

  lemma SeedTypes()
    ensures Summary.Types(SeedHistory()) == {"Deposit", "Withdrawal", "Transfer"}
  {
    var h := SeedHistory();
    assert h[0] in h && h[1] in h && h[2] in h;
  }

  /** A map with the seeded types as keys and their totals as values. */
  lemma SummaryOfSeed(m: map<string, real>)
    requires m.Keys == {"Deposit", "Withdrawal", "Transfer"}
    requires m["Deposit"] == 3250.0 && m["Withdrawal"] == 300.0 && m["Transfer"] == 500.0
    ensures m == map["Deposit" := 3250.0, "Withdrawal" := 300.0, "Transfer" := 500.0]
  {
  }

  /** The seeded history sums to 3250 deposited, 300 withdrawn and 500 transferred. */
  lemma SeedSummary()
    ensures Server.SummaryByType(Seed(), Some(Account())).outcome
         == Ok(map["Deposit" := 3250.0, "Withdrawal" := 300.0, "Transfer" := 500.0])
  {
    SeedHistoryRows();
    HistorySummary();
  }

  lemma HistorySummary()
    ensures Summary.Summarize(SeedHistory()) == map["Deposit" := 3250.0, "Withdrawal" := 300.0, "Transfer" := 500.0]
  {
    var m := Summary.Summarize(SeedHistory());
    SeedTypes();
    TotalsOf();
    SummaryOfSeed(m);
  }

  lemma TotalsOf()
    ensures Summary.TypeTotal(SeedHistory(), "Deposit") == 3250.0
    ensures Summary.TypeTotal(SeedHistory(), "Withdrawal") == 300.0
    ensures Summary.TypeTotal(SeedHistory(), "Transfer") == 500.0
  {
    var h := SeedHistory();
    assert h[1..][1..][1..][1..][1..][1..] == [];
  }
}
