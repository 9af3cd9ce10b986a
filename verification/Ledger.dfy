/**
 * The paid-request ledger as it executes, in 64-bit arithmetic, and the bracket that
 * reserves before and settles after every request (internal/team/product_store.go, internal/ai/provider.go).
 */
module Ledger {
  import Team
  import opened Billing

  newtype Int64 = x: int | -0x8000_0000_0000_0000 <= x < 0x8000_0000_0000_0000

  /** The price in machine integers: within the validated bounds nothing overflows. */
  method Amount(input: Int64, output: Int64, inputRate: Int64, outputRate: Int64) returns (amount: Int64)
    requires 0 <= input as int <= MICROS && 0 <= output as int <= 8192
    requires 0 < inputRate as int <= BILLION && 0 < outputRate as int <= BILLION
    ensures amount as int == Price(input as int, output as int, inputRate as int, outputRate as int)
  {
    ProductBound(input as int, MICROS, inputRate as int);
    ProductBound(output as int, 8192, outputRate as int);
    amount := (input * inputRate + output * outputRate + 999999) / 1000000;
  }

  lemma ProductBound(a: int, limit: int, rate: int)
    requires 0 <= a <= limit && 0 < rate <= BILLION
    ensures 0 <= a * rate <= limit * BILLION
  {
    Monotone(a, limit, rate);
    Monotone(rate, BILLION, limit);
  }

  lemma ReplaySnoc(ops: seq<Op>, op: Op)
    requires LawfulRun(ops) && Lawful(Replay(ops), op)
    ensures LawfulRun(ops + [op]) && Replay(ops + [op]) == Apply(Replay(ops), op)
  {
    hide Lawful, Apply;
    assert (ops + [op])[..|ops|] == ops;
    forall k | 0 <= k < |ops + [op]| ensures Lawful(Replay((ops + [op])[..k]), (ops + [op])[k]) {
      if k < |ops| {
        assert (ops + [op])[..k] == ops[..k];
      }
    }
  }

  datatype ReserveResult = Rejected | Held(handle: Handle)

  datatype SettleResult = Missing | Refunded | Blocked

  /** Changes a user may make while a request is in flight. */
  predicate IsSetup(op: Op) {
    op.Save? || op.Resume?
  }

  class Store {
    var budgets: map<string, Budget>
    var rows: seq<Row>
    ghost var past: Past
    ghost var ops: seq<Op>

    ghost function Now(): World
      reads this
    {
      World(Books(budgets, rows), past)
    }

    ghost predicate Valid()
      reads this
    {
      LawfulRun(ops) && Replay(ops) == Now()
    }

    constructor ()
      ensures Valid() && ops == []
    {
      budgets, rows, past, ops := map[], [], Past(map[], map[], map[]), [];
    }

    /** Records a transaction whose effect on the tables is already in place. */
    ghost method Record(op: Op, before: World)
      requires LawfulRun(ops) && Replay(ops) == before && Lawful(before, op) && Apply(before, op).books == Books(budgets, rows)
      modifies `past, `ops
      ensures Valid() && ops == old(ops) + [op] && Now() == Apply(before, op)
    {
      hide Lawful, Apply;
      ReplaySnoc(ops, op);
      past, ops := Apply(before, op).past, ops + [op];
    }

    /** Inserts or reconfigures a budget; counters and the blocked flag belong to the ledger. */
    method SaveBudget(provider: string, t: Terms) returns (ok: bool)
      requires Valid()
      modifies this
      ensures Valid() && ops == old(ops) + [Save(provider, t)] && Now() == Apply(old(Now()), Save(provider, t))
      ensures ok <==> TermsOk(provider, t)
    {
      hide Replay;
      ghost var before := Now();
      ok := TermsOk(provider, t);
      if ok {
        if provider in budgets {
          budgets := budgets[provider := budgets[provider].(terms := t)];
        } else {
          budgets := budgets[provider := Budget(t, 0, 0, false)];
        }
      }
      Record(Save(provider, t), before);
    }

    lemma SoundNow()
      requires Valid()
      ensures Sound(Now())
    {
      hide Sound, Replay;
      BooksBalance(ops);
    }

    /** The budget read and price computed before the reserving transaction. */
    method ReadQuote(provider: string, input: int, output: int) returns (q: Team.Option<Quote>)
      requires Valid()
      ensures q.Some? <==> provider in budgets && 1 <= input <= MICROS && 1 <= output <= budgets[provider].terms.maxOutput
      ensures q.Some? ==> QuoteOk(q.value) && q.value.provider == provider && q.value.input == input && q.value.output == output
      ensures q.Some? ==> q.value.inputRate == budgets[provider].terms.inputRate && q.value.outputRate == budgets[provider].terms.outputRate
    {
      hide Replay, LawfulRun;
      if provider !in budgets {
        return Team.None;
      }
      var t := budgets[provider].terms;
      assert TermsOk(provider, t) by { SoundNow(); }
      if input < 1 || input > MICROS || output < 1 || output > t.maxOutput {
        return Team.None;
      }
      var amount := Amount(input as Int64, output as Int64, t.inputRate as Int64, t.outputRate as Int64);
      q := Team.Some(Quote(provider, input, output, t.inputRate, t.outputRate, amount as int));
    }

    /** One guarded update and one insert, or nothing. */
    method CommitReservation(q: Quote, id: string) returns (r: ReserveResult)
      requires Valid() && QuoteOk(q)
      modifies this
      ensures Valid() && ops == old(ops) + [Reserve(q, id)] && Now() == Apply(old(Now()), Reserve(q, id))
      ensures r.Held? <==> Admits(old(Books(budgets, rows)), q, id)
      ensures r.Held? <==>
        && q.provider in old(budgets) && (forall k :: 0 <= k < |old(rows)| ==> old(rows)[k].id != id)
        && (var b := old(budgets)[q.provider];
            && !b.blocked && b.calls + 1 <= b.terms.maxCalls && b.charged + q.amount <= b.terms.limit
            && q.inputRate == b.terms.inputRate && q.outputRate == b.terms.outputRate && q.output <= b.terms.maxOutput)
      ensures r.Held? ==> r.handle == HandleFor(q, id)
      ensures r.Rejected? ==> rows == old(rows) && budgets == old(budgets)
    {
      hide Replay, LawfulRun, QuoteOk;
      ghost var before := Now();
      r := Rejected;
      if q.provider in budgets {
        var b := budgets[q.provider];
        if !b.blocked && b.calls < b.terms.maxCalls && b.charged + q.amount <= b.terms.limit
           && b.terms.inputRate == q.inputRate && b.terms.outputRate == q.outputRate && b.terms.maxOutput >= q.output {
          var isNew := IdIsNew(id);
          if isNew {
            budgets := budgets[q.provider := b.(calls := b.calls + 1, charged := b.charged + q.amount)];
            rows := rows + [Row(id, q.provider, q.amount, q.input, q.output, Settlement.Open)];
            r := Held(HandleFor(q, id));
          }
        }
      }
      Record(Reserve(q, id), before);
    }

    /** The primary key of the reservation table. */
    method IdIsNew(id: string) returns (isNew: bool)
      ensures isNew <==> forall k :: 0 <= k < |rows| ==> rows[k].id != id
    {
      for k := 0 to |rows|
        invariant forall j :: 0 <= j < k ==> rows[j].id != id
      {
        if rows[k].id == id {
          return false;
        }
      }
      isNew := true;
    }

    method FindOpen(id: string, provider: string) returns (k: int)
      ensures k == OpenRow(rows, id, provider)
    {
      k := |rows| - 1;
      assert rows[..|rows|] == rows;
      while k >= 0 && !(rows[k].id == id && rows[k].provider == provider && rows[k].settled.Open?)
        invariant -1 <= k < |rows| && OpenRow(rows[..k + 1], id, provider) == OpenRow(rows, id, provider)
      {
        assert rows[..k + 1][..k] == rows[..k];
        k := k - 1;
      }
    }

    /**
     * Closes a reservation: refunds the unused part of a reservation whose usage is known and within
     * its bounds, otherwise keeps the full charge and blocks the provider. The source's fallback for a
     * cost above the reservation is dead: the branch that would take it is never reached.
     */
    method SettleReservation(h: Handle, input: int, output: int, known: bool) returns (r: SettleResult)
      requires Valid() && Lawful(Now(), Settle(h, input, output, known))
      modifies this
      ensures Valid() && ops == old(ops) + [Settle(h, input, output, known)]
      ensures Now() == Apply(old(Now()), Settle(h, input, output, known))
      ensures r.Missing? <==> OpenRow(old(rows), h.id, h.provider) < 0
      ensures r.Refunded? <==> OpenRow(old(rows), h.id, h.provider) >= 0 && UsageFits(h, input, output, known)
    {
      hide Replay, LawfulRun, Price, OpenRow;
      ghost var before := Now();
      SoundNow();
      var k := FindOpen(h.id, h.provider);
      if h.provider !in budgets || k < 0 {
        r := Missing;
        if k >= 0 {
          SettleFacts(before, h);
        }
        Record(Settle(h, input, output, known), before);
        return;
      }
      SettleFacts(before, h);
      var valid := UsageFits(h, input, output, known);
      var charged := h.micros;
      if valid {
        HandleBounds(before, h);
        var cost := Amount(input as Int64, output as Int64, h.inputRate as Int64, h.outputRate as Int64);
        WithinBoundCostsNoMore(input, output, h.inputBound, h.outputBound, h.inputRate, h.outputRate);
        if cost as int <= charged {
          charged := cost as int;
        } else {
          assert false;
        }
      }
      rows := rows[k := rows[k].(settled := Settled)];
      var b := budgets[h.provider];
      if !valid {
        budgets := budgets[h.provider := b.(blocked := true)];
        r := Blocked;
      } else {
        budgets := budgets[h.provider := b.(charged := b.charged - (h.micros - charged))];
        r := Refunded;
      }
      Record(Settle(h, input, output, known), before);
    }

    static lemma HandleBounds(w: World, h: Handle)
      requires Sound(w) && Lawful(w, Settle(h, 0, 0, false)) && OpenRow(w.books.rows, h.id, h.provider) >= 0
      ensures h.inputBound <= MICROS && h.outputBound <= 8192 && 0 < h.inputRate <= BILLION && 0 < h.outputRate <= BILLION
    {
      hide Price, BudgetsOk, AllBalanced, ActualOk, Known, UniqueRows;
      assert RowIssued(w, w.books.rows[OpenRow(w.books.rows, h.id, h.provider)]);
    }

    method AnyOpen(provider: string) returns (open: bool)
      ensures open <==> HasOpen(rows, provider)
    {
      for k := 0 to |rows|
        invariant forall j :: 0 <= j < k ==> !(rows[j].provider == provider && rows[j].settled.Open?)
      {
        if rows[k].provider == provider && rows[k].settled.Open? {
          return true;
        }
      }
      open := false;
    }

    /** A human accepts the full cost of what went wrong; nothing may still be in flight. */
    method ResumeProvider(provider: string) returns (ok: bool)
      requires Valid()
      modifies this
      ensures Valid() && ops == old(ops) + [Resume(provider)] && Now() == Apply(old(Now()), Resume(provider))
      ensures ok <==> MayResume(old(Books(budgets, rows)), provider)
    {
      hide Replay, LawfulRun, HasOpen;
      ghost var before := Now();
      var open := AnyOpen(provider);
      ok := provider in budgets && budgets[provider].blocked && !open;
      if ok {
        budgets := budgets[provider := budgets[provider].(blocked := false)];
      }
      Record(Resume(provider), before);
    }

    /** A new process takes over the file: requests in flight are written off and their providers blocked. */
    method TakeOver()
      requires Valid()
      modifies this
      ensures Valid() && ops == old(ops) + [Reopen] && Now() == Apply(old(Now()), Reopen)
    {
      hide Replay, LawfulRun, HasOpen;
      ghost var before := Now();
      var todo := budgets.Keys;
      ghost var start := budgets;
      while todo != {}
        invariant budgets.Keys == start.Keys && todo <= start.Keys && rows == old(rows) && past == old(past) && ops == old(ops)
        invariant forall p :: p in todo ==> budgets[p] == start[p]
        invariant forall p :: p in start && p !in todo ==> budgets[p] == start[p].(blocked := start[p].blocked || HasOpen(rows, p))
        decreases todo
      {
        var p :| p in todo;
        var open := AnyOpen(p);
        if open {
          budgets := budgets[p := budgets[p].(blocked := true)];
        }
        todo := todo - {p};
      }
      assert budgets == Reopened(before).books.budgets;
      for k := 0 to |rows|
        invariant budgets == Reopened(before).books.budgets && past == old(past) && ops == old(ops) && |rows| == |old(rows)|
        invariant forall j :: 0 <= j < k ==> rows[j] == Orphan(old(rows)[j])
        invariant forall j :: k <= j < |rows| ==> rows[j] == old(rows)[j]
      {
        rows := rows[k := Orphan(rows[k])];
      }
      assert rows == Reopened(before).books.rows;
      Record(Reopen, before);
    }
  }

  // ---------- the bracket around one paid request ----------

  /** What the provider answers: nothing usable, or a body with its usage and text if they can be read. */
  datatype Answer = Failed | Answered(usage: Team.Option<(int, int)>, text: Team.Option<string>)

  /** The books after a script of transactions. */
  function After(w: World, script: seq<Op>): World {
    if script == [] then w else Apply(After(w, script[..|script| - 1]), script[|script| - 1])
  }

  /** The price at the tariff of the books of one request that asks for at most `output` tokens, when it is within every bound. */
  function Quoted(books: Books, provider: string, length: nat, output: int): Team.Option<Quote> {
    if provider !in books.budgets then Team.None
    else
      var t := books.budgets[provider].terms;
      if length + 1024 > MICROS || output < 1 || output > t.maxOutput then Team.None
      else Team.Some(Quote(provider, length + 1024, output, t.inputRate, t.outputRate,
                           Price(length + 1024, output, t.inputRate, t.outputRate)))
  }

  /**
   * The reservation asked for: the budget is read once for the output bound the request is built
   * with, and once more, after whatever changed `between`, for the tariff that prices it.
   */
  function Asked(w: World, provider: string, length: nat, between: seq<Op>): Team.Option<Quote> {
    if provider !in w.books.budgets then Team.None
    else Quoted(After(w, between).books, provider, length, w.books.budgets[provider].terms.maxOutput)
  }

  /** Whether the request goes out: it can be priced, and the budget as it is at the commit admits it. */
  predicate GoesOut(w: World, provider: string, length: nat, id: string, between: seq<Op>, before: seq<Op>) {
    var q := Asked(w, provider, length, between);
    q.Some? && Admits(After(After(w, between), before).books, q.value, id)
  }

  /** The budget of a provider, which must have one. */
  function BudgetOf(w: World, provider: string): Budget
    requires provider in w.books.budgets
  {
    w.books.budgets[provider]
  }

  /**
   * Exactly when a request goes out, over the budgets at its two reads and at the commit: the output
   * bound of the first read fits the second, the prompt fits with a margin, the tariff has not changed
   * since the second, nothing blocks the provider, and a call and the price rounded up are left.
   */
  lemma GoesOutExactly(w: World, provider: string, length: nat, id: string, between: seq<Op>, before: seq<Op>)
    ensures var u := After(w, between);
      var v := After(u, before);
      GoesOut(w, provider, length, id, between, before) <==>
        && provider in w.books.budgets && provider in u.books.budgets && provider in v.books.budgets
        && (forall k :: 0 <= k < |v.books.rows| ==> v.books.rows[k].id != id)
        && (var output, t, b := BudgetOf(w, provider).terms.maxOutput, BudgetOf(u, provider).terms, BudgetOf(v, provider);
            && length <= 998976 && 1 <= output && output <= t.maxOutput && output <= b.terms.maxOutput
            && b.terms.inputRate == t.inputRate && b.terms.outputRate == t.outputRate
            && !b.blocked && b.calls + 1 <= b.terms.maxCalls
            && b.charged + Price(length + 1024, output, t.inputRate, t.outputRate) <= b.terms.limit)
  {
    hide Price, After;
  }

  /** Applies the setup changes users make meanwhile. */
  method Meanwhile(store: Store, script: seq<Op>)
    requires store.Valid() && forall k :: 0 <= k < |script| ==> IsSetup(script[k])
    modifies store
    ensures store.Valid() && store.rows == old(store.rows) && store.past.issued == old(store.past.issued)
    ensures store.past.actual == old(store.past.actual) && store.Now() == After(old(store.Now()), script)
  {
    hide Replay, LawfulRun;
    ghost var start := store.Now();
    for n := 0 to |script|
      invariant store.Valid() && store.rows == old(store.rows) && store.past.issued == old(store.past.issued)
      invariant store.past.actual == old(store.past.actual) && store.Now() == After(start, script[..n])
    {
      assert script[..n + 1][..n] == script[..n];
      match script[n] {
        case Save(p, t) =>
          var _ := store.SaveBudget(p, t);
        case Resume(p) =>
          var _ := store.ResumeProvider(p);
      }
    }
    assert script[..|script|] == script;
  }

  /** How the bracket ended: whether the request went out, under which reservation, and with what text. */
  datatype Exchange = Exchange(sent: bool, handle: Team.Option<Handle>, text: Team.Option<string>)

  /** The reservation of `h` is closed and its provider pays `cost` for it. */
  ghost predicate Paid(store: Store, h: Handle, cost: int)
    reads store
  {
    !IsOpen(store.rows, h.id) && h.id in store.past.actual && store.past.actual[h.id] == cost
  }

  /**
   * Reserves, sends, and settles on every way out. Text is returned only after a settlement that
   * charged exactly the reported usage; unknown or excessive usage keeps the full charge and leaves
   * the provider blocked; without a reservation nothing is sent and the reservations are untouched.
   */
  method Generate(store: Store, provider: string, length: nat, id: string,
                  between: seq<Op>, before: seq<Op>, during: seq<Op>, answer: Answer, settled: bool)
    returns (x: Exchange)
    requires store.Valid()
    requires forall k :: 0 <= k < |between| ==> IsSetup(between[k])
    requires forall k :: 0 <= k < |before| ==> IsSetup(before[k])
    requires forall k :: 0 <= k < |during| ==> IsSetup(during[k])
    modifies store
    ensures store.Valid()
    ensures x.sent <==> x.handle.Some?
    ensures x.sent <==> GoesOut(old(store.Now()), provider, length, id, between, before)
    ensures x.sent ==> x.handle.value == HandleFor(Asked(old(store.Now()), provider, length, between).value, id)
    ensures !x.sent ==> store.rows == old(store.rows) && x.text.None?
    ensures x.sent && settled ==> !IsOpen(store.rows, id)
    ensures x.text.Some? ==> settled && answer.Answered? && answer.usage.Some?
    ensures x.sent && settled && answer.Answered? && answer.usage.Some? && UsageFits(x.handle.value, answer.usage.value.0, answer.usage.value.1, true) ==>
      x.text == answer.text
    ensures x.text.Some? ==> x.text == answer.text
    ensures x.text.Some? ==> Paid(store, x.handle.value, Price(answer.usage.value.0, answer.usage.value.1, x.handle.value.inputRate, x.handle.value.outputRate))
    ensures x.sent && settled && !(answer.Answered? && answer.usage.Some? && UsageFits(x.handle.value, answer.usage.value.0, answer.usage.value.1, true)) ==>
      id !in store.past.actual && IsBlocked(store.Now(), provider)
  {
    hide Replay, LawfulRun, Admits, Price, QuoteOk, IsOpen, IsBlocked, Sound;
    x := Exchange(false, Team.None, Team.None);
    if provider !in store.budgets {
      return;
    }
    var output := store.budgets[provider].terms.maxOutput;
    Meanwhile(store, between);
    var quote := store.ReadQuote(provider, length + 1024, output);
    if quote.Some? {
      QuotedIs(store.Now().books, quote.value, length);
    }
    if quote.None? {
      return;
    }
    Meanwhile(store, before);
    ghost var books := store.Now();
    var reservation := store.CommitReservation(quote.value, id);
    if reservation.Rejected? {
      return;
    }
    var h := reservation.handle;
    HeldIsOpen(books, quote.value, id);
    Meanwhile(store, during);
    var usage := if answer.Answered? then answer.usage else Team.None;
    x := Exchange(true, Team.Some(h), if answer.Answered? then answer.text else Team.None);
    if !settled {
      x := x.(text := Team.None);
      return;
    }
    ghost var flight := store.Now();
    store.SoundNow();
    OpenIsFound(flight, h);
    var read, written := if usage.Some? then usage.value.0 else 0, if usage.Some? then usage.value.1 else 0;
    var outcome := store.SettleReservation(h, read, written, usage.Some?);
    SettleCloses(flight, h, read, written, usage.Some?);
    SettleEffect(flight, h, read, written, usage.Some?);
    if !outcome.Refunded? {
      x := x.(text := Team.None);
    }
  }

  lemma QuotedIs(books: Books, q: Quote, length: nat)
    requires QuoteOk(q) && q.provider in books.budgets && q.input == length + 1024 && q.output <= books.budgets[q.provider].terms.maxOutput
    requires q.inputRate == books.budgets[q.provider].terms.inputRate && q.outputRate == books.budgets[q.provider].terms.outputRate
    ensures Quoted(books, q.provider, length, q.output) == Team.Some(q)
  {
    hide Price;
  }

  lemma HeldIsOpen(w: World, q: Quote, id: string)
    requires Admits(w.books, q, id)
    ensures var n := Apply(w, Reserve(q, id));
      IsOpen(n.books.rows, id) && id in n.past.issued && n.past.issued[id] == HandleFor(q, id)
  {
    var n := Apply(w, Reserve(q, id));
    assert n.books.rows[|w.books.rows|].id == id;
  }

  lemma OpenIsFound(w: World, h: Handle)
    requires Sound(w) && IsOpen(w.books.rows, h.id) && h.id in w.past.issued && w.past.issued[h.id] == h
    ensures OpenRow(w.books.rows, h.id, h.provider) >= 0 && h.id !in w.past.actual
  {
    hide BudgetsOk, AllBalanced, Known, QuoteOk;
    var k :| 0 <= k < |w.books.rows| && w.books.rows[k].id == h.id && w.books.rows[k].settled.Open?;
    assert RowIssued(w, w.books.rows[k]);
  }

  lemma SettleEffect(w: World, h: Handle, input: int, output: int, known: bool)
    requires OpenRow(w.books.rows, h.id, h.provider) >= 0 && h.provider in w.books.budgets && h.id !in w.past.actual
    ensures var n := Apply(w, Settle(h, input, output, known));
      if UsageFits(h, input, output, known)
      then h.id in n.past.actual && n.past.actual[h.id] == Price(input, output, h.inputRate, h.outputRate)
      else h.id !in n.past.actual && IsBlocked(n, h.provider)
  {
    hide Price, UsageFits, OpenRow;
  }
}
