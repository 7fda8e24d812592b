/** The token statements of an account, transaction by transaction. */
module Ledger {

  /** The token part of a reconciliation. */
  datatype Statement = Statement(token: nat, begBal: int, endBal: int, amountIn: int, amountOut: int, amountNet: int)

  /** A transaction: its block, whether it is known to move a token, and the addresses of its logs. */
  datatype Transaction = Transaction(block: nat, hasToken: bool, logs: seq<nat>)

  /** Which addresses are named tokens or airdrops, and the balance the node reports. */
  datatype Context = Context(tokens: set<nat>, airdrops: set<nat>, balanceAt: (nat, nat) -> nat)

  /** Ending balances of the previous statements, the tokens already done in this transaction, and the
      statements pushed so far. */
  datatype Book = Book(prev: map<nat, int>, done: set<nat>, out: seq<Statement>)

  function BalanceOf(prev: map<nat, int>, token: nat): int {
    if token in prev then prev[token] else 0
  }

  predicate Considered(ctx: Context, t: Transaction, token: nat) {
    token in ctx.tokens || t.hasToken || token in ctx.airdrops
  }

  function Reconcile(token: nat, begBal: int, endBal: int): (s: Statement)
    ensures s.begBal + s.amountNet == s.endBal
    ensures s.amountIn >= 0 && s.amountOut >= 0 && (s.amountIn == 0 || s.amountOut == 0)
  {
    if begBal > endBal
    then Statement(token, begBal, endBal, 0, begBal - endBal, 0 - (begBal - endBal))
    else Statement(token, begBal, endBal, endBal - begBal, 0, endBal - begBal)
  }

  /** One log. */
  function AddLog(ctx: Context, t: Transaction, b: Book, token: nat): Book {
    if Considered(ctx, t, token) && token !in b.done then
      var s := Reconcile(token, BalanceOf(b.prev, token), ctx.balanceAt(token, t.block));
      Book(b.prev[token := s.endBal], b.done + {token}, if s.amountNet != 0 then b.out + [s] else b.out)
    else
      b
  }

  function AddLogs(ctx: Context, t: Transaction, b: Book, logs: seq<nat>): Book {
    if logs == [] then b
    else
      var n := |logs| - 1;
      AddLog(ctx, t, AddLogs(ctx, t, b, logs[..n]), logs[n])
  }

  function AddTransaction(ctx: Context, t: Transaction, prev: map<nat, int>): Book {
    AddLogs(ctx, t, Book(prev, {}, []), t.logs)
  }

  /** The loop over the logs of one transaction. */
  method ProcessReconciliation(ctx: Context, t: Transaction, prevIn: map<nat, int>)
    returns (prev: map<nat, int>, statements: seq<Statement>)
    ensures var b := AddTransaction(ctx, t, prevIn);
            prev == b.prev && statements == b.out
    ensures forall i, j :: 0 <= i < j < |statements| ==> statements[i].token != statements[j].token
    ensures Settled(ctx, t, t.logs, prevIn, prev, statements) && ByFirstLog(t.logs, statements)
  {
    prev, statements := prevIn, [];
    var done: set<nat> := {};
    var i := 0;
    while i < |t.logs|
      invariant i <= |t.logs|
      invariant Book(prev, done, statements) == AddLogs(ctx, t, Book(prevIn, {}, []), t.logs[..i])
    {
      var token := t.logs[i];
      assert t.logs[..i + 1][..i] == t.logs[..i];
      if (token in ctx.tokens || t.hasToken || token in ctx.airdrops) && token !in done {
        var begBal, endBal: int := BalanceOf(prev, token), ctx.balanceAt(token, t.block);
        var amountIn, amountOut := 0, 0;
        if begBal > endBal {
          amountOut := begBal - endBal;
        } else {
          amountIn := endBal - begBal;
        }
        var amountNet := amountIn - amountOut;
        done := done + {token};
        if amountNet != 0 {
          statements := statements + [Statement(token, begBal, endBal, amountIn, amountOut, amountNet)];
        }
        prev := prev[token := endBal];
      }
      i := i + 1;
    }
    assert t.logs[..i] == t.logs;
    OncePerTransaction(ctx, t, Book(prevIn, {}, []), t.logs);
    LogsSettle(ctx, t, prevIn, t.logs);
    LogsInOrder(ctx, t, prevIn, t.logs);
  }

  /** What these logs of a transaction come to, given the previous balances. A token has a statement exactly if it
      is the address of a log, is a named token or an airdrop or the transaction has a token, and the node's balance
      at the block differs from the previous one. Its statement leads from the one balance to the other. The
      balance kept is the node's for every such token, changed or not, and the previous one for all others. */
  ghost predicate Settled(ctx: Context, t: Transaction, logs: seq<nat>, prevIn: map<nat, int>,
                          prev: map<nat, int>, statements: seq<Statement>)
  {
    && (forall token: nat ::
          Told(statements, token)
          <==> Due(ctx, t, logs, token)
               && ctx.balanceAt(token, t.block) != if token in prevIn then prevIn[token] else 0)
    && (forall i :: 0 <= i < |statements| ==> Leads(ctx, t, prevIn, statements[i]))
    && (forall token: nat ::
          if Due(ctx, t, logs, token)
          then token in prev && prev[token] == ctx.balanceAt(token, t.block)
          else (token in prev <==> token in prevIn) && (token in prev ==> prev[token] == prevIn[token]))
  }

  predicate Told(statements: seq<Statement>, token: nat) {
    exists i :: 0 <= i < |statements| && statements[i].token == token
  }

  /** The address of a log, and a named token or an airdrop or of a transaction that has a token. */
  predicate Due(ctx: Context, t: Transaction, logs: seq<nat>, token: nat) {
    token in logs && (token in ctx.tokens || token in ctx.airdrops || t.hasToken)
  }

  /** The statement leads from the previous balance of its token to the node's. */
  predicate Leads(ctx: Context, t: Transaction, prevIn: map<nat, int>, s: Statement) {
    && s.begBal == (if s.token in prevIn then prevIn[s.token] else 0)
    && s.endBal == ctx.balanceAt(s.token, t.block)
    && s.amountNet == s.endBal - s.begBal == s.amountIn - s.amountOut
    && s.amountIn >= 0 && s.amountOut >= 0 && (s.amountIn == 0 || s.amountOut == 0)
  }

  ghost predicate AllDone(ctx: Context, t: Transaction, logs: seq<nat>, done: set<nat>) {
    forall token: nat :: token in done <==> Due(ctx, t, logs, token)
  }

  lemma {:induction false} LogsSettle(ctx: Context, t: Transaction, prevIn: map<nat, int>, logs: seq<nat>)
    ensures var b := AddLogs(ctx, t, Book(prevIn, {}, []), logs);
            Settled(ctx, t, logs, prevIn, b.prev, b.out) && AllDone(ctx, t, logs, b.done)
    decreases |logs|
  {
    if logs != [] {
      var n := |logs| - 1;
      LogsSettle(ctx, t, prevIn, logs[..n]);
      LogSettles(ctx, t, prevIn, logs[..n], AddLogs(ctx, t, Book(prevIn, {}, []), logs[..n]), logs[n]);
      assert logs == logs[..n] + [logs[n]];
    }
  }

  lemma LogSettles(ctx: Context, t: Transaction, prevIn: map<nat, int>, logs: seq<nat>, b: Book, log: nat)
    requires Settled(ctx, t, logs, prevIn, b.prev, b.out) && AllDone(ctx, t, logs, b.done)
    ensures var b' := AddLog(ctx, t, b, log);
            Settled(ctx, t, logs + [log], prevIn, b'.prev, b'.out) && AllDone(ctx, t, logs + [log], b'.done)
  {
    var b' := AddLog(ctx, t, b, log);
    forall token: nat
      ensures Due(ctx, t, logs + [log], token)
              <==> Due(ctx, t, logs, token) || (token == log && Considered(ctx, t, log))
    {
    }
    forall token: nat
      ensures Told(b'.out, token) <==> Told(b.out, token) || (token == log && |b'.out| > |b.out|)
    {
      ToldMore(b.out, b'.out, token);
    }
    forall i | 0 <= i < |b'.out| ensures Leads(ctx, t, prevIn, b'.out[i]) {
      if i < |b.out| { assert b'.out[i] == b.out[i]; }
    }
  }

  /** A log of token `a` comes before every log of token `b`. */
  predicate Before(logs: seq<nat>, a: nat, b: nat) {
    exists p :: 0 <= p < |logs| && logs[p] == a && b !in logs[..p + 1]
  }

  /** The statements are in the order of the first logs of their tokens. */
  predicate ByFirstLog(logs: seq<nat>, statements: seq<Statement>) {
    forall i, j :: 0 <= i < j < |statements| ==> Before(logs, statements[i].token, statements[j].token)
  }

  lemma BeforeToo(logs: seq<nat>, log: nat, a: nat, b: nat)
    requires Before(logs, a, b) || (a in logs && b !in logs)
    ensures Before(logs + [log], a, b)
  {
    var more := logs + [log];
    var p :| 0 <= p < |logs| && logs[p] == a && b !in logs[..p + 1];
    assert more[p] == a && more[..p + 1] == logs[..p + 1];
  }

  lemma {:induction false} LogsInOrder(ctx: Context, t: Transaction, prevIn: map<nat, int>, logs: seq<nat>)
    ensures ByFirstLog(logs, AddLogs(ctx, t, Book(prevIn, {}, []), logs).out)
    decreases |logs|
  {
    if logs != [] {
      var n := |logs| - 1;
      LogsInOrder(ctx, t, prevIn, logs[..n]);
      LogsSettle(ctx, t, prevIn, logs[..n]);
      LogInOrder(ctx, t, prevIn, logs[..n], AddLogs(ctx, t, Book(prevIn, {}, []), logs[..n]), logs[n]);
      assert logs == logs[..n] + [logs[n]];
    }
  }

  lemma LogInOrder(ctx: Context, t: Transaction, prevIn: map<nat, int>, logs: seq<nat>, b: Book, log: nat)
    requires Settled(ctx, t, logs, prevIn, b.prev, b.out) && AllDone(ctx, t, logs, b.done) && ByFirstLog(logs, b.out)
    ensures ByFirstLog(logs + [log], AddLog(ctx, t, b, log).out)
  {
    var out := AddLog(ctx, t, b, log).out;
    forall i, j | 0 <= i < j < |out| ensures Before(logs + [log], out[i].token, out[j].token) {
      assert out[i] == b.out[i] && Told(b.out, b.out[i].token);
      if j < |b.out| {
        assert Before(logs, b.out[i].token, b.out[j].token);
      } else {
        assert out[j].token == log && !Due(ctx, t, logs, log);
      }
      BeforeToo(logs, log, out[i].token, out[j].token);
    }
  }

  lemma ToldMore(before: seq<Statement>, after: seq<Statement>, token: nat)
    requires before <= after && |after| <= |before| + 1
    ensures Told(after, token)
            <==> Told(before, token) || (|after| > |before| && after[|before|].token == token)
  {
    if Told(before, token) {
      var i :| 0 <= i < |before| && before[i].token == token;
      assert after[i].token == token;
    }
    if Told(after, token) {
      var i :| 0 <= i < |after| && after[i].token == token;
      if i < |before| { assert before[i].token == token; }
    }
  }

  /** Every pushed statement is of a token that is done, and no token is pushed twice. */
  predicate Once(b: Book) {
    && (forall i :: 0 <= i < |b.out| ==> b.out[i].token in b.done)
    && (forall i, j :: 0 <= i < j < |b.out| ==> b.out[i].token != b.out[j].token)
  }

  lemma {:induction false} OncePerTransaction(ctx: Context, t: Transaction, b: Book, logs: seq<nat>)
    requires Once(b)
    ensures Once(AddLogs(ctx, t, b, logs))
  {
    if logs != [] { OncePerTransaction(ctx, t, b, logs[..|logs| - 1]); }
  }

  // ----- the chain of one token -----

  /** The statements of one token. */
  function Of(out: seq<Statement>, token: nat): seq<Statement> {
    if out == [] then []
    else
      var n := |out| - 1;
      Of(out[..n], token) + (if out[n].token == token then [out[n]] else [])
  }

  /** Each statement starts where the one before it ended, the first at `from`, and the last ends at
      `to`; each balances. */
  predicate Chained(s: seq<Statement>, from: int, to: int)
    decreases |s|
  {
    if s == [] then from == to
    else
      var n := |s| - 1;
      && s[n].endBal == to && s[n].begBal + s[n].amountNet == s[n].endBal && s[n].amountNet != 0
      && Chained(s[..n], from, s[n].begBal)
  }

  function SumNet(s: seq<Statement>): int {
    if s == [] then 0 else SumNet(s[..|s| - 1]) + s[|s| - 1].amountNet
  }

  /** In a chain the amounts add up to the change of the balance. */
  lemma {:induction false} ChainedSum(s: seq<Statement>, from: int, to: int)
    requires Chained(s, from, to)
    ensures SumNet(s) == to - from
    decreases |s|
  {
    if s != [] { ChainedSum(s[..|s| - 1], from, s[|s| - 1].begBal); }
  }

  lemma OfPush(out: seq<Statement>, s: Statement, token: nat)
    ensures Of(out + [s], token) == if s.token == token then Of(out, token) + [s] else Of(out, token)
  {
    assert (out + [s])[..|out|] == out;
    assert Of(out, token) + [] == Of(out, token);
  }

  lemma LogChains(ctx: Context, t: Transaction, b: Book, log: nat, token: nat, from: int)
    requires Chained(Of(b.out, token), from, BalanceOf(b.prev, token))
    ensures var b' := AddLog(ctx, t, b, log);
            Chained(Of(b'.out, token), from, BalanceOf(b'.prev, token))
  {
    var s := Reconcile(log, BalanceOf(b.prev, log), ctx.balanceAt(log, t.block));
    OfPush(b.out, s, token);
    if log == token && s.amountNet != 0 {
      assert (Of(b.out, token) + [s])[..|Of(b.out, token)|] == Of(b.out, token);
    }
  }

  lemma {:induction false} LogsChain(ctx: Context, t: Transaction, b: Book, logs: seq<nat>, token: nat, from: int)
    requires Chained(Of(b.out, token), from, BalanceOf(b.prev, token))
    ensures var b' := AddLogs(ctx, t, b, logs);
            Chained(Of(b'.out, token), from, BalanceOf(b'.prev, token))
    decreases |logs|
  {
    if logs != [] {
      var n := |logs| - 1;
      LogsChain(ctx, t, b, logs[..n], token, from);
      LogChains(ctx, t, AddLogs(ctx, t, b, logs[..n]), logs[n], token, from);
    }
  }

  /** All statements of a run of transactions, with the balances at its end. */
  function Run(ctx: Context, prev: map<nat, int>, ts: seq<Transaction>): Book {
    if ts == [] then Book(prev, {}, [])
    else
      var n := |ts| - 1;
      var b := Run(ctx, prev, ts[..n]);
      AddLogs(ctx, ts[n], Book(b.prev, {}, b.out), ts[n].logs)
  }

  /** Over any run of transactions the statements of every token form one chain from its first to its
      last balance, across the zero-net ones that are dropped. */
  lemma {:induction false} EveryRunChains(ctx: Context, prev: map<nat, int>, ts: seq<Transaction>, token: nat)
    ensures var b := Run(ctx, prev, ts);
            Chained(Of(b.out, token), BalanceOf(prev, token), BalanceOf(b.prev, token))
    decreases |ts|
  {
    if ts != [] {
      var n := |ts| - 1;
      EveryRunChains(ctx, prev, ts[..n], token);
      var b := Run(ctx, prev, ts[..n]);
      LogsChain(ctx, ts[n], Book(b.prev, {}, b.out), ts[n].logs, token, BalanceOf(prev, token));
    }
  }

  /** The telescoping sum. */
  lemma EveryRunAddsUp(ctx: Context, prev: map<nat, int>, ts: seq<Transaction>, token: nat)
    ensures var b := Run(ctx, prev, ts);
            SumNet(Of(b.out, token)) == BalanceOf(b.prev, token) - BalanceOf(prev, token)
  {
    EveryRunChains(ctx, prev, ts, token);
    var b := Run(ctx, prev, ts);
    ChainedSum(Of(b.out, token), BalanceOf(prev, token), BalanceOf(b.prev, token));
  }

  /** A run is its transactions one by one: the statements of the last are appended to those before. */
  lemma {:induction false} AddLogsAppends(ctx: Context, t: Transaction, prev: map<nat, int>, out: seq<Statement>,
                                          logs: seq<nat>)
    ensures var b, b0 := AddLogs(ctx, t, Book(prev, {}, out), logs), AddLogs(ctx, t, Book(prev, {}, []), logs);
            b.prev == b0.prev && b.done == b0.done && b.out == out + b0.out
    decreases |logs|
  {
    if logs != [] { AddLogsAppends(ctx, t, prev, out, logs[..|logs| - 1]); }
  }

  /** The accounting export over a list of transactions: each one's statements, and balances that add up. */
  method AccountFor(ctx: Context, prevIn: map<nat, int>, ts: seq<Transaction>)
    returns (prev: map<nat, int>, all: seq<Statement>)
    ensures var b := Run(ctx, prevIn, ts);
            prev == b.prev && all == b.out
    ensures forall token :: SumNet(Of(all, token)) == BalanceOf(prev, token) - BalanceOf(prevIn, token)
  {
    prev, all := prevIn, [];
    var i := 0;
    while i < |ts|
      invariant i <= |ts| && prev == Run(ctx, prevIn, ts[..i]).prev && all == Run(ctx, prevIn, ts[..i]).out
    {
      assert ts[..i + 1][..i] == ts[..i];
      AddLogsAppends(ctx, ts[i], prev, all, ts[i].logs);
      var statements;
      prev, statements := ProcessReconciliation(ctx, ts[i], prev);
      all := all + statements;
      i := i + 1;
    }
    assert ts[..i] == ts;
    forall token ensures SumNet(Of(all, token)) == BalanceOf(prev, token) - BalanceOf(prevIn, token) {
      EveryRunAddsUp(ctx, prevIn, ts, token);
    }
  }
}
