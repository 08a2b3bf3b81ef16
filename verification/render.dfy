/** The text both front ends build from ledger rows: the per-transaction line,
    the "recent" suffix, the assistant prompt and the statement bodies.
    Amounts reach the text through `fmt`, the host language's number-to-string
    conversion, which the model leaves abstract. */
module Render {
  import opened Ledger
  import opened Lines

  /** `${t.date} - ${t.type} - $${t.amount} - ${t.description}`. */
  function TxLine(fmt: real -> string, r: Row): (line: string)
    ensures r.date <= line
    ensures SingleLine(fmt, r) ==> '\n' !in line
  {
    r.date + " - " + r.kind + " - $" + fmt(r.amount) + " - " + r.description
  }

  function TxLines(fmt: real -> string, rows: seq<Row>): (lines: seq<string>)
    ensures |lines| == |rows|
    ensures forall i :: 0 <= i < |rows| ==> lines[i] == TxLine(fmt, rows[i])
  {
    if |rows| == 0 then [] else [TxLine(fmt, rows[0])] + TxLines(fmt, rows[1..])
  }

  /** The transaction lines joined by newlines; the empty list gives "". */
  function TxText(fmt: real -> string, rows: seq<Row>): (text: string)
    ensures text == "" <==> |rows| == 0
    ensures |rows| > 0 ==> TxLine(fmt, rows[0]) <= text
  {
    JoinLines(TxLines(fmt, rows))
  }

  /** No field of the row, once rendered, holds a newline. */
  predicate SingleLine(fmt: real -> string, r: Row) {
    '\n' !in r.date && '\n' !in r.kind && '\n' !in fmt(r.amount) && '\n' !in r.description
  }

  predicate AllSingleLine(fmt: real -> string, rows: seq<Row>) {
    forall i :: 0 <= i < |rows| ==> SingleLine(fmt, rows[i])
  }

  /** How many rows count as "recent": `slice(-5)` / `[-5:]`. */
  const RecentCount: nat := 5

  /** `s.slice(-k)` for k > 0: the last `k` elements, or all of `s` when shorter. */
  function TakeLast<T>(s: seq<T>, k: nat): (r: seq<T>)
    ensures |r| == if |s| < k then |s| else k
    ensures s == s[..|s| - |r|] + r
  {
    if |s| <= k then s else s[|s| - k..]
  }

  /** The closing instruction line of the prompt. It is written as a concatenation
      of short literals, and `StatementHeader()` below likewise: the verifier cannot
      show that a long literal is free of newlines, but it can show this of each
      short piece, and `PlainConcat` carries the fact over to the whole line. */
  function Instruction(): (text: string) {
    "You are a professional " + "financial assistant. " + "Help the user clearly "
    + "and concisely based " + "on the given data."
  }

  /** The lines of the prompt template, which starts and ends with a newline. */
  function PromptTemplate(fmt: real -> string, query: string, name: string, balance: real, txText: string): (lines: seq<string>) {
    [ "",
      "### CUSTOMER QUERY:",
      query,
      "",
      "### CUSTOMER INFO:",
      "Name: " + name,
      "Balance: $" + fmt(balance),
      "Recent Transactions:",
      txText,
      "",
      "### RESPONSE:",
      Instruction(),
      "" ]
  }

  /** The assistant prompt. */
  function AskPrompt(fmt: real -> string, query: string, name: string, balance: real, txText: string): (prompt: string)
    ensures |prompt| > 0 && prompt[0] == '\n'
  {
    JoinLines(PromptTemplate(fmt, query, name, balance, txText))
  }

  function StatementHeader(): (line: string) {
    "Here is your " + "statement for " + "the last 30 days:"
  }

  function Greeting(name: string): (line: string) {
    "Hi " + name + ","
  }

  function BalanceLine(fmt: real -> string, balance: real): (line: string) {
    "Current Balance: $" + fmt(balance)
  }

  /** The statement body of the HTTP front end: greeting, header, transaction
      list, balance, signature, separated by blank lines. */
  function ServerStatement(fmt: real -> string, name: string, balance: real, txList: string): (body: string)
    ensures Greeting(name) <= body
  {
    JoinLines([Greeting(name), "", StatementHeader(), "", txList, "", BalanceLine(fmt, balance), "", "Regards,", "Your Bank"])
  }

  /** The statement body of the Streamlit front end: the same without the balance. */
  function StreamlitStatement(name: string, txList: string): (body: string)
    ensures Greeting(name) <= body
  {
    JoinLines([Greeting(name), "", StatementHeader(), "", txList, "", "Regards,", "Your Bank"])
  }

  /** The lines of a transaction text: one empty line for no rows, otherwise
      exactly one line per row, in the given order. */
  function TextLines(fmt: real -> string, rows: seq<Row>): (lines: seq<string>) {
    if |rows| == 0 then [""] else TxLines(fmt, rows)
  }

  /** The rendered transaction text holds exactly one line per row, in order,
      each of the form `date - type - $amount - description`; no rows render as
      the empty text. */
  lemma TxTextLines(fmt: real -> string, rows: seq<Row>)
    requires AllSingleLine(fmt, rows)
    ensures |rows| == 0 ==> TxText(fmt, rows) == ""
    ensures |rows| > 0 ==> |SplitLines(TxText(fmt, rows))| == |rows|
    ensures forall i :: 0 <= i < |rows| ==>
              SplitLines(TxText(fmt, rows))[i]
              == rows[i].date + " - " + rows[i].kind + " - $" + fmt(rows[i].amount) + " - " + rows[i].description
    ensures SplitLines(TxText(fmt, rows)) == TextLines(fmt, rows)
  {
    if |rows| > 0 {
      var lines := TxLines(fmt, rows);
      forall i | 0 <= i < |lines| ensures '\n' !in lines[i] {
        assert SingleLine(fmt, rows[i]);
      }
      SplitJoin(lines);
    }
  }

  lemma SplitEachSingle(x: string)
    ensures SplitEach([x]) == SplitLines(x)
  {
    assert [x][1..] == [];
  }

  lemma InstructionOpeningIsPlain()
    ensures '\n' !in "You are a professional " && '\n' !in "financial assistant. "
  {
  }

  lemma InstructionMiddleIsPlain()
    ensures '\n' !in "Help the user clearly " && '\n' !in "and concisely based "
  {
  }

  lemma InstructionClosingIsPlain()
    ensures '\n' !in "on the given data."
  {
  }

  lemma InstructionIsOneLine()
    ensures '\n' !in Instruction()
  {
    var p1, p2, p3 := "You are a professional ", "financial assistant. ", "Help the user clearly ";
    var p4, p5 := "and concisely based ", "on the given data.";
    InstructionOpeningIsPlain();
    InstructionMiddleIsPlain();
    InstructionClosingIsPlain();
    PlainConcat(p1, p2);
    PlainConcat(p1 + p2, p3);
    PlainConcat(p1 + p2 + p3, p4);
    PlainConcat(p1 + p2 + p3 + p4, p5);
  }

  /** The fixed headings of the prompt are single lines. */
  lemma HeadingsArePlain()
    ensures '\n' !in "### CUSTOMER QUERY:" && '\n' !in "### CUSTOMER INFO:"
    ensures '\n' !in "Recent Transactions:" && '\n' !in "### RESPONSE:"
    ensures '\n' !in "Name: " && '\n' !in "Balance: $"
  {
    assert '\n' !in "### CUSTOMER QUERY:";
    assert '\n' !in "### CUSTOMER INFO:";
    assert '\n' !in "Recent Transactions:";
    assert '\n' !in "### RESPONSE:";
  }

  /** The prompt's lines, in the template's fixed order: the query section, the
      customer section with name and balance, the transaction text, and the
      closing instruction. The query and the transaction text may span lines. */
  lemma PromptLines(fmt: real -> string, query: string, name: string, balance: real, txText: string)
    requires '\n' !in name && '\n' !in fmt(balance)
    ensures SplitLines(AskPrompt(fmt, query, name, balance, txText))
         == ["", "### CUSTOMER QUERY:"] + SplitLines(query)
          + ["", "### CUSTOMER INFO:", "Name: " + name, "Balance: $" + fmt(balance), "Recent Transactions:"]
          + SplitLines(txText)
          + ["", "### RESPONSE:", Instruction(), ""]
  {
    var a := ["", "### CUSTOMER QUERY:"];
    var b := ["", "### CUSTOMER INFO:", "Name: " + name, "Balance: $" + fmt(balance), "Recent Transactions:"];
    var c := ["", "### RESPONSE:", Instruction(), ""];
    var parts := PromptTemplate(fmt, query, name, balance, txText);
    assert parts == a + [query] + b + [txText] + c;
    HeadingsArePlain();
    assert SplitEach(a) == a by {
      assert NoNewlines(a);
      SplitEachPlain(a);
    }
    assert SplitEach(b) == b by {
      PlainConcat("Name: ", name);
      PlainConcat("Balance: $", fmt(balance));
      assert NoNewlines(b);
      SplitEachPlain(b);
    }
    assert SplitEach(c) == c by {
      InstructionIsOneLine();
      assert NoNewlines(c);
      SplitEachPlain(c);
    }
    calc {
      SplitLines(AskPrompt(fmt, query, name, balance, txText));
      { SplitJoinParts(parts); }
      SplitEach(a + [query] + b + [txText] + c);
      { SplitEachAppend(a + [query] + b + [txText], c); }
      SplitEach(a + [query] + b + [txText]) + c;
      { SplitEachAppend(a + [query] + b, [txText]); SplitEachSingle(txText); }
      SplitEach(a + [query] + b) + SplitLines(txText) + c;
      { SplitEachAppend(a + [query], b); }
      SplitEach(a + [query]) + b + SplitLines(txText) + c;
      { SplitEachAppend(a, [query]); SplitEachSingle(query); }
      a + SplitLines(query) + b + SplitLines(txText) + c;
    }
  }

  /** The closing lines both statement bodies share. */
  function SignatureLines(): (lines: seq<string>) { ["", "Regards,", "Your Bank"] }

  /** The HTTP body's lines are those of its greeting-to-rows part, its
      balance part and its signature, in that order. */
  lemma ServerStatementParts(fmt: real -> string, name: string, balance: real, txList: string)
    ensures SplitLines(ServerStatement(fmt, name, balance, txList))
         == SplitEach([Greeting(name), "", StatementHeader(), "", txList]) + SplitEach(["", BalanceLine(fmt, balance)]) + SplitEach(SignatureLines())
  {
    var head := [Greeting(name), "", StatementHeader(), "", txList];
    var bal := ["", BalanceLine(fmt, balance)];
    assert [Greeting(name), "", StatementHeader(), "", txList, "", BalanceLine(fmt, balance), "", "Regards,", "Your Bank"]
        == head + bal + SignatureLines();
    SplitJoinParts(head + bal + SignatureLines());
    SplitEachAppend(head + bal, SignatureLines());
    SplitEachAppend(head, bal);
  }

  /** The Streamlit body's lines are those of its greeting-to-rows part and
      its signature, in that order. */
  lemma StreamlitStatementParts(name: string, txList: string)
    ensures SplitLines(StreamlitStatement(name, txList))
         == SplitEach([Greeting(name), "", StatementHeader(), "", txList]) + SplitEach(SignatureLines())
  {
    var head := [Greeting(name), "", StatementHeader(), "", txList];
    assert [Greeting(name), "", StatementHeader(), "", txList, "", "Regards,", "Your Bank"] == head + SignatureLines();
    SplitJoinParts(head + SignatureLines());
    SplitEachAppend(head, SignatureLines());
  }

  lemma HeaderIsOneLine()
    ensures '\n' !in StatementHeader()
  {
    var a, b, c := "Here is your ", "statement for ", "the last 30 days:";
    assert '\n' !in a && '\n' !in b && '\n' !in c;
    PlainConcat(a, b);
    PlainConcat(a + b, c);
  }

  lemma GreetingIsOneLine(name: string)
    requires '\n' !in name
    ensures '\n' !in Greeting(name)
  {
    PlainConcat("Hi ", name);
    PlainConcat("Hi " + name, ",");
  }

  lemma SignatureIsPlain()
    ensures SplitEach(SignatureLines()) == SignatureLines()
  {
    assert NoNewlines(SignatureLines());
    SplitEachPlain(SignatureLines());
  }

  lemma BalanceIsPlain(fmt: real -> string, balance: real)
    requires '\n' !in fmt(balance)
    ensures SplitEach(["", BalanceLine(fmt, balance)]) == ["", BalanceLine(fmt, balance)]
  {
    PlainConcat("Current Balance: $", fmt(balance));
    assert NoNewlines(["", BalanceLine(fmt, balance)]);
    SplitEachPlain(["", BalanceLine(fmt, balance)]);
  }

  lemma HeadLines(name: string, txList: string)
    requires '\n' !in name
    ensures SplitEach([Greeting(name), "", StatementHeader(), "", txList])
         == [Greeting(name), "", StatementHeader(), ""] + SplitLines(txList)
  {
    var h := [Greeting(name), "", StatementHeader(), ""];
    assert [Greeting(name), "", StatementHeader(), "", txList] == h + [txList];
    GreetingIsOneLine(name);
    HeaderIsOneLine();
    assert NoNewlines(h);
    SplitEachPlain(h);
    SplitEachAppend(h, [txList]);
    SplitEachSingle(txList);
  }

  /** Inserting `mid` before the last three elements. */
  lemma BeforeLastThree<T>(head: seq<T>, mid: seq<T>, tail: seq<T>)
    requires |tail| == 3
    ensures var whole := head + tail;
            |whole| >= 3 && head + mid + tail == whole[..|whole| - 3] + mid + whole[|whole| - 3..]
  {
    var whole := head + tail;
    assert whole[..|whole| - 3] == head;
    assert whole[|whole| - 3..] == tail;
  }

  /** The HTTP statement's lines: greeting, blank, header, blank, one line per
      row in order (a single empty line when there are none), blank, balance,
      blank, signature. */
  lemma ServerStatementLines(fmt: real -> string, name: string, balance: real, rows: seq<Row>)
    requires '\n' !in name && '\n' !in fmt(balance) && AllSingleLine(fmt, rows)
    ensures SplitLines(ServerStatement(fmt, name, balance, TxText(fmt, rows)))
         == ["Hi " + name + ",", "", StatementHeader(), ""]
          + TextLines(fmt, rows)
          + ["", "Current Balance: $" + fmt(balance), "", "Regards,", "Your Bank"]
  {
    var tx := TxText(fmt, rows);
    var bal := ["", BalanceLine(fmt, balance)];
    BalanceIsPlain(fmt, balance);
    SignatureIsPlain();
    calc {
      SplitLines(ServerStatement(fmt, name, balance, tx));
      { ServerStatementParts(fmt, name, balance, tx); }
      SplitEach([Greeting(name), "", StatementHeader(), "", tx]) + bal + SignatureLines();
      { HeadLines(name, tx); TxTextLines(fmt, rows); }
      [Greeting(name), "", StatementHeader(), ""] + TextLines(fmt, rows) + bal + SignatureLines();
    }
  }

  /** The Streamlit statement's lines: the same structure with no balance line. */
  lemma StreamlitStatementLines(fmt: real -> string, name: string, rows: seq<Row>)
    requires '\n' !in name && AllSingleLine(fmt, rows)
    ensures SplitLines(StreamlitStatement(name, TxText(fmt, rows)))
         == ["Hi " + name + ",", "", StatementHeader(), ""]
          + TextLines(fmt, rows)
          + ["", "Regards,", "Your Bank"]
  {
    var tx := TxText(fmt, rows);
    SignatureIsPlain();
    calc {
      SplitLines(StreamlitStatement(name, tx));
      { StreamlitStatementParts(name, tx); }
      SplitEach([Greeting(name), "", StatementHeader(), "", tx]) + SignatureLines();
      { HeadLines(name, tx); TxTextLines(fmt, rows); }
      [Greeting(name), "", StatementHeader(), ""] + TextLines(fmt, rows) + SignatureLines();
    }
  }

  /** The two front ends' statements differ in exactly one place: the HTTP body
      has a blank line and the balance line just before the signature, which the
      Streamlit body lacks. So the two bodies are never equal. */
  lemma StatementsDifferByBalance(fmt: real -> string, name: string, balance: real, txList: string)
    requires '\n' !in fmt(balance)
    ensures var py := SplitLines(StreamlitStatement(name, txList));
            |py| >= 3
            && SplitLines(ServerStatement(fmt, name, balance, txList))
               == py[..|py| - 3] + ["", "Current Balance: $" + fmt(balance)] + py[|py| - 3..]
    ensures ServerStatement(fmt, name, balance, txList) != StreamlitStatement(name, txList)
  {
    ServerStatementParts(fmt, name, balance, txList);
    StreamlitStatementParts(name, txList);
    BalanceIsPlain(fmt, balance);
    SignatureIsPlain();
    BeforeLastThree(SplitEach([Greeting(name), "", StatementHeader(), "", txList]), ["", BalanceLine(fmt, balance)], SignatureLines());
  }
}
