/** The paid-request ledger as a replay of its transactions (internal/team/product_store.go, internal/team/store.go). */
module Billing {
  datatype Terms = Terms(limit: int, inputRate: int, outputRate: int, maxCalls: int, maxOutput: int)

  datatype Budget = Budget(terms: Terms, calls: int, charged: int, blocked: bool)

  datatype Settlement = Open | Settled | Orphaned

  datatype Row = Row(id: string, provider: string, micros: int, inputBound: int, outputBound: int, settled: Settlement)

  /** What the caller of a successful reservation holds. */
  datatype Handle = Handle(id: string, provider: string, micros: int, inputBound: int, outputBound: int, inputRate: int, outputRate: int)

  /** A price computed from a budget read before the reserving transaction starts. */
  datatype Quote = Quote(provider: string, input: int, output: int, inputRate: int, outputRate: int, amount: int)

  /** The two persisted tables. */
  datatype Books = Books(budgets: map<string, Budget>, rows: seq<Row>)

  /** What happened so far: true costs, limits and handed out reservations. */
  datatype Past = Past(actual: map<string, int>, highest: map<string, int>, issued: map<string, Handle>)

  datatype World = World(books: Books, past: Past)

  datatype Op =
    | Save(provider: string, terms: Terms)
    | Reserve(quote: Quote, id: string)
    | Settle(handle: Handle, input: int, output: int, known: bool)
    | Resume(provider: string)
    | Reopen

  const MICROS := 1000000
  const BILLION := 1000000000

  predicate TermsOk(provider: string, t: Terms) {
    && provider != "" && 0 < t.limit <= BILLION && 0 < t.inputRate <= BILLION && 0 < t.outputRate <= BILLION
    && 1 <= t.maxCalls <= 30 && 64 <= t.maxOutput <= 8192
  }

  // ---------- prices ----------

  function Price(input: int, output: int, inputRate: int, outputRate: int): int {
    (input * inputRate + output * outputRate + 999999) / MICROS
  }

  lemma Monotone(a: int, b: int, rate: int)
    requires 0 <= a <= b && 0 <= rate
    ensures 0 <= a * rate <= b * rate
  {
  }

  /** A price is the exact cost rounded up, so rounding never gains or loses a whole micro. */
  lemma PriceRoundsUp(input: int, output: int, inputRate: int, outputRate: int)
    ensures var exact := input * inputRate + output * outputRate;
      var price := Price(input, output, inputRate, outputRate);
      exact <= price * MICROS < exact + MICROS
  {
  }

  /** Usage within the reserved bounds never costs more than was reserved. */
  lemma WithinBoundCostsNoMore(input: int, output: int, inputBound: int, outputBound: int, inputRate: int, outputRate: int)
    requires 0 <= input <= inputBound && 0 <= output <= outputBound && 0 <= inputRate && 0 <= outputRate
    ensures 0 <= Price(input, output, inputRate, outputRate) <= Price(inputBound, outputBound, inputRate, outputRate)
  {
    Monotone(input, inputBound, inputRate);
    Monotone(output, outputBound, outputRate);
  }

  predicate QuoteOk(q: Quote) {
    && 1 <= q.input <= MICROS && 1 <= q.output <= 8192
    && 0 < q.inputRate <= BILLION && 0 < q.outputRate <= BILLION
    && q.amount == Price(q.input, q.output, q.inputRate, q.outputRate)
  }

  lemma QuotesCost(q: Quote)
    requires QuoteOk(q)
    ensures q.amount >= 1
  {
    Monotone(1, q.input, q.inputRate);
    Monotone(1, q.output, q.outputRate);
  }

  // ---------- transactions ----------

  predicate HasOpen(rows: seq<Row>, provider: string) {
    exists k :: 0 <= k < |rows| && rows[k].provider == provider && rows[k].settled.Open?
  }

  function Saved(w: World, provider: string, t: Terms): World {
    if !TermsOk(provider, t) then w
    else
      var b := if provider in w.books.budgets then w.books.budgets[provider].(terms := t) else Budget(t, 0, 0, false);
      var high := if provider in w.past.highest && w.past.highest[provider] > t.limit then w.past.highest[provider] else t.limit;
      World(w.books.(budgets := w.books.budgets[provider := b]), w.past.(highest := w.past.highest[provider := high]))
  }

  /** The guard of the reserving transaction, over the budget as it is now. */
  predicate Admits(books: Books, q: Quote, id: string) {
    && q.provider in books.budgets
    && (forall k :: 0 <= k < |books.rows| ==> books.rows[k].id != id)
    && (var b := books.budgets[q.provider];
        && !b.blocked && b.calls < b.terms.maxCalls && b.charged + q.amount <= b.terms.limit
        && b.terms.inputRate == q.inputRate && b.terms.outputRate == q.outputRate && b.terms.maxOutput >= q.output)
  }

  function HandleFor(q: Quote, id: string): Handle {
    Handle(id, q.provider, q.amount, q.input, q.output, q.inputRate, q.outputRate)
  }

  function Reserved(w: World, q: Quote, id: string): World {
    if !Admits(w.books, q, id) then w
    else
      var b := w.books.budgets[q.provider];
      World(
        Books(w.books.budgets[q.provider := b.(calls := b.calls + 1, charged := b.charged + q.amount)],
              w.books.rows + [Row(id, q.provider, q.amount, q.input, q.output, Open)]),
        w.past.(issued := w.past.issued[id := HandleFor(q, id)]))
  }

  predicate UsageFits(h: Handle, input: int, output: int, known: bool) {
    known && 0 <= input <= h.inputBound && 0 <= output <= h.outputBound
  }

  /** The open row a handle settles. */
  function OpenRow(rows: seq<Row>, id: string, provider: string): (r: int)
    ensures -1 <= r < |rows|
    ensures r >= 0 ==> rows[r].id == id && rows[r].provider == provider && rows[r].settled.Open?
    ensures r < 0 ==> forall k :: 0 <= k < |rows| ==> !(rows[k].id == id && rows[k].provider == provider && rows[k].settled.Open?)
  {
    if rows == [] then -1
    else
      var last := |rows| - 1;
      if rows[last].id == id && rows[last].provider == provider && rows[last].settled.Open? then last
      else OpenRow(rows[..last], id, provider)
  }

  function Settling(w: World, h: Handle, input: int, output: int, known: bool): World {
    var k := OpenRow(w.books.rows, h.id, h.provider);
    if h.provider !in w.books.budgets || k < 0 then w
    else
      var b := w.books.budgets[h.provider];
      var rows := w.books.rows[k := w.books.rows[k].(settled := Settled)];
      if !UsageFits(h, input, output, known) then
        World(Books(w.books.budgets[h.provider := b.(blocked := true)], rows), w.past)
      else
        var cost := Price(input, output, h.inputRate, h.outputRate);
        World(Books(w.books.budgets[h.provider := b.(charged := b.charged - (h.micros - cost))], rows),
              w.past.(actual := w.past.actual[h.id := cost]))
  }

  predicate MayResume(books: Books, provider: string) {
    provider in books.budgets && books.budgets[provider].blocked && !HasOpen(books.rows, provider)
  }

  function Resumed(w: World, provider: string): World {
    if !MayResume(w.books, provider) then w
    else w.(books := w.books.(budgets := w.books.budgets[provider := w.books.budgets[provider].(blocked := false)]))
  }

  function Orphan(row: Row): Row {
    if row.settled.Open? then row.(settled := Orphaned) else row
  }

  /** A new owner blocks every provider with requests in flight and writes those off in full. */
  function Reopened(w: World): World {
    w.(books := Books(
         map p | p in w.books.budgets :: w.books.budgets[p].(blocked := w.books.budgets[p].blocked || HasOpen(w.books.rows, p)),
         seq(|w.books.rows|, k requires 0 <= k < |w.books.rows| => Orphan(w.books.rows[k]))))
  }

  function Apply(w: World, op: Op): World {
    match op
    case Save(p, t) => Saved(w, p, t)
    case Reserve(q, id) => Reserved(w, q, id)
    case Settle(h, input, output, known) => Settling(w, h, input, output, known)
    case Resume(p) => Resumed(w, p)
    case Reopen => Reopened(w)
  }

  const EMPTY := World(Books(map[], []), Past(map[], map[], map[]))

  function Replay(ops: seq<Op>): World {
    if ops == [] then EMPTY else Apply(Replay(ops[..|ops| - 1]), ops[|ops| - 1])
  }

  /** Quotes come from a budget read at some time; a handle is the one handed out under its id. */
  predicate Lawful(w: World, op: Op) {
    match op
    case Reserve(q, _) => QuoteOk(q)
    case Settle(h, _, _, _) => h.id in w.past.issued ==> w.past.issued[h.id] == h
    case _ => true
  }

  predicate LawfulRun(ops: seq<Op>) {
    forall k :: 0 <= k < |ops| ==> Lawful(Replay(ops[..k]), ops[k])
  }

  // ---------- the books always balance ----------

  /** The cost a reservation ends up with: its true cost once validly settled, the full amount otherwise. */
  function Cost(row: Row, actual: map<string, int>): int {
    if row.id in actual then actual[row.id] else row.micros
  }

  function Charges(rows: seq<Row>, actual: map<string, int>, provider: string): int {
    if rows == [] then 0
    else
      var last := rows[|rows| - 1];
      Charges(rows[..|rows| - 1], actual, provider) + if last.provider == provider then Cost(last, actual) else 0
  }

  function Requests(rows: seq<Row>, provider: string): nat {
    if rows == [] then 0
    else Requests(rows[..|rows| - 1], provider) + if rows[|rows| - 1].provider == provider then 1 else 0
  }

  predicate Balanced(w: World, p: string)
    requires p in w.books.budgets
  {
    w.books.budgets[p].charged == Charges(w.books.rows, w.past.actual, p) && w.books.budgets[p].calls == Requests(w.books.rows, p)
  }

  predicate BudgetsOk(w: World) {
    w.past.highest.Keys == w.books.budgets.Keys &&
    forall p :: p in w.books.budgets ==>
      && TermsOk(p, w.books.budgets[p].terms)
      && w.books.budgets[p].terms.limit <= w.past.highest[p] <= BILLION
      && w.books.budgets[p].charged <= w.past.highest[p]
      && w.books.budgets[p].calls <= 30
  }

  predicate AllBalanced(w: World) {
    forall p :: p in w.books.budgets ==> Balanced(w, p)
  }

  predicate UniqueRows(rows: seq<Row>) {
    forall i, j :: 0 <= i < j < |rows| ==> rows[i].id != rows[j].id
  }

  predicate RowIssued(w: World, row: Row) {
    && row.id in w.past.issued
    && (var h := w.past.issued[row.id];
        && h.id == row.id && h.provider == row.provider && h.micros == row.micros
        && h.inputBound == row.inputBound && h.outputBound == row.outputBound
        && QuoteOk(Quote(h.provider, h.inputBound, h.outputBound, h.inputRate, h.outputRate, h.micros)))
    && row.provider in w.books.budgets
  }

  predicate RowsIssued(w: World) {
    forall k :: 0 <= k < |w.books.rows| ==> RowIssued(w, w.books.rows[k])
  }

  /** True costs are recorded exactly for reservations that were settled, and never exceed them. */
  predicate ActualOk(w: World) {
    forall k :: 0 <= k < |w.books.rows| && w.books.rows[k].id in w.past.actual ==>
      w.books.rows[k].settled.Settled? && 0 <= w.past.actual[w.books.rows[k].id] <= w.books.rows[k].micros
  }

  ghost predicate Known(w: World) {
    forall id :: id in w.past.actual || id in w.past.issued ==> exists k :: 0 <= k < |w.books.rows| && w.books.rows[k].id == id
  }

  ghost predicate Sound(w: World) {
    BudgetsOk(w) && AllBalanced(w) && UniqueRows(w.books.rows) && RowsIssued(w) && ActualOk(w) && Known(w)
  }

  lemma {:induction false} ChargesUnaffected(rows: seq<Row>, actual: map<string, int>, id: string, cost: int, p: string)
    requires forall k :: 0 <= k < |rows| ==> rows[k].id != id
    ensures Charges(rows, actual[id := cost], p) == Charges(rows, actual, p)
  {
    if rows != [] {
      ChargesUnaffected(rows[..|rows| - 1], actual, id, cost, p);
    }
  }

  /** Rewriting the settlement of any rows changes neither sum. */
  lemma {:induction false} SumsIgnoreSettlement(rows: seq<Row>, others: seq<Row>, actual: map<string, int>, p: string)
    requires |others| == |rows| && forall k :: 0 <= k < |rows| ==> others[k] == rows[k].(settled := others[k].settled)
    ensures Charges(others, actual, p) == Charges(rows, actual, p) && Requests(others, p) == Requests(rows, p)
  {
    if rows != [] {
      SumsIgnoreSettlement(rows[..|rows| - 1], others[..|rows| - 1], actual, p);
    }
  }

  /** Recording the true cost of row `k` lowers its provider's charges by the refund and no one else's. */
  lemma {:induction false} ChargesRefund(rows: seq<Row>, actual: map<string, int>, k: nat, cost: int, p: string)
    requires UniqueRows(rows) && k < |rows| && rows[k].id !in actual
    ensures Charges(rows, actual[rows[k].id := cost], p)
         == Charges(rows, actual, p) - if rows[k].provider == p then rows[k].micros - cost else 0
  {
    var n := |rows| - 1;
    if k < n {
      ChargesRefund(rows[..n], actual, k, cost, p);
    } else {
      ChargesUnaffected(rows[..n], actual, rows[n].id, cost, p);
    }
  }

  /** Same reservations, possibly settled since. */
  predicate SameRows(rows: seq<Row>, others: seq<Row>) {
    |others| == |rows| && forall k :: 0 <= k < |rows| ==> others[k] == rows[k].(settled := others[k].settled)
  }

  lemma RowsKept(w: World, n: World)
    requires RowsIssued(w) && UniqueRows(w.books.rows) && Known(w) && SameRows(w.books.rows, n.books.rows) && n.past.issued == w.past.issued
    requires forall p :: p in w.books.budgets ==> p in n.books.budgets
    requires forall id :: id in n.past.actual ==> id in w.past.actual || id in w.past.issued
    ensures RowsIssued(n) && UniqueRows(n.books.rows) && Known(n)
  {
    hide QuoteOk;
    forall k | 0 <= k < |n.books.rows| ensures RowIssued(n, n.books.rows[k]) {
      assert RowIssued(w, w.books.rows[k]);
    }
    forall x | x in n.past.actual || x in n.past.issued ensures exists k :: 0 <= k < |n.books.rows| && n.books.rows[k].id == x {
      var k :| 0 <= k < |w.books.rows| && w.books.rows[k].id == x;
      assert n.books.rows[k].id == x;
    }
  }

  lemma SavedSound(w: World, provider: string, t: Terms)
    requires Sound(w)
    ensures Sound(Saved(w, provider, t))
  {
    hide Saved, BudgetsOk, AllBalanced, UniqueRows, RowsIssued, ActualOk, Known;
    SavedBudgets(w, provider, t);
    SavedBalance(w, provider, t);
    SavedRows(w, provider, t);
  }

  lemma SavedBudgets(w: World, provider: string, t: Terms)
    requires BudgetsOk(w) && ActualOk(w)
    ensures BudgetsOk(Saved(w, provider, t)) && ActualOk(Saved(w, provider, t))
  {
  }

  lemma SavedRows(w: World, provider: string, t: Terms)
    requires RowsIssued(w) && UniqueRows(w.books.rows) && Known(w)
    ensures var n := Saved(w, provider, t);
      RowsIssued(n) && UniqueRows(n.books.rows) && Known(n)
  {
    hide TermsOk, RowsIssued, UniqueRows, Known;
    RowsKept(w, Saved(w, provider, t));
  }

  lemma SavedBalance(w: World, provider: string, t: Terms)
    requires AllBalanced(w) && RowsIssued(w)
    ensures AllBalanced(Saved(w, provider, t))
  {
    hide TermsOk, RowsIssued, Charges, Requests;
    var n := Saved(w, provider, t);
    forall p | p in n.books.budgets ensures Balanced(n, p) {
      if p in w.books.budgets {
        assert Balanced(w, p);
      } else {
        NoRows(w, p, |w.books.rows|);
        assert w.books.rows[..|w.books.rows|] == w.books.rows;
      }
    }
  }

  lemma {:induction false} NoRows(w: World, p: string, n: nat)
    requires RowsIssued(w) && p !in w.books.budgets && n <= |w.books.rows|
    ensures Charges(w.books.rows[..n], w.past.actual, p) == 0 && Requests(w.books.rows[..n], p) == 0
  {
    if n > 0 {
      NoRows(w, p, n - 1);
      assert w.books.rows[..n][..n - 1] == w.books.rows[..n - 1];
      assert RowIssued(w, w.books.rows[n - 1]);
    }
  }

  lemma ReservedSound(w: World, q: Quote, id: string)
    requires Sound(w) && QuoteOk(q)
    ensures Sound(Reserved(w, q, id))
  {
    var n := Reserved(w, q, id);
    if Admits(w.books, q, id) {
      hide QuoteOk, TermsOk;
      assert id !in w.past.actual by { hide BudgetsOk, AllBalanced, UniqueRows, RowsIssued, ActualOk; }
      hide BudgetsOk, AllBalanced, UniqueRows, RowsIssued, ActualOk, Known, Reserved, Admits;
      ReservedBalance(w, q, id);
      ReservedBudgets(w, q, id);
      ReservedRows(w, q, id);
    }
  }

  lemma ReservedBalance(w: World, q: Quote, id: string)
    requires AllBalanced(w) && Admits(w.books, q, id) && id !in w.past.actual
    ensures AllBalanced(Reserved(w, q, id))
  {
    var n := Reserved(w, q, id);
    assert n.books.rows[..|n.books.rows| - 1] == w.books.rows;
    forall p | p in n.books.budgets ensures Balanced(n, p) {
      assert Balanced(w, p);
    }
  }

  lemma ReservedBudgets(w: World, q: Quote, id: string)
    requires BudgetsOk(w) && ActualOk(w) && Admits(w.books, q, id) && id !in w.past.actual
    ensures BudgetsOk(Reserved(w, q, id)) && ActualOk(Reserved(w, q, id))
  {
  }

  lemma ReservedRows(w: World, q: Quote, id: string)
    requires Sound(w) && QuoteOk(q) && Admits(w.books, q, id)
    ensures RowsIssued(Reserved(w, q, id)) && UniqueRows(Reserved(w, q, id).books.rows) && Known(Reserved(w, q, id))
  {
    var n := Reserved(w, q, id);
    hide QuoteOk, AllBalanced, BudgetsOk, ActualOk, TermsOk;
    forall k | 0 <= k < |n.books.rows| ensures RowIssued(n, n.books.rows[k]) {
      if k < |w.books.rows| {
        assert RowIssued(w, w.books.rows[k]);
      }
    }
    forall x | x in n.past.actual || x in n.past.issued ensures exists k :: 0 <= k < |n.books.rows| && n.books.rows[k].id == x {
      if x == id {
        assert n.books.rows[|w.books.rows|].id == id;
      } else {
        var k :| 0 <= k < |w.books.rows| && w.books.rows[k].id == x;
        assert n.books.rows[k].id == x;
      }
    }
  }

  lemma SettleFacts(w: World, h: Handle)
    requires Sound(w) && Lawful(w, Settle(h, 0, 0, false)) && OpenRow(w.books.rows, h.id, h.provider) >= 0
    ensures h.provider in w.books.budgets && h.id !in w.past.actual && h.id in w.past.issued
    ensures var row := w.books.rows[OpenRow(w.books.rows, h.id, h.provider)];
      row.micros == h.micros && row.inputBound == h.inputBound && row.outputBound == h.outputBound
    ensures h.micros == Price(h.inputBound, h.outputBound, h.inputRate, h.outputRate) && 0 < h.inputRate && 0 < h.outputRate
  {
    var k := OpenRow(w.books.rows, h.id, h.provider);
    assert RowIssued(w, w.books.rows[k]);
  }

  /** The new rows of a settlement differ from the old in one settlement mark. */
  lemma MarkedRows(w: World, h: Handle)
    requires OpenRow(w.books.rows, h.id, h.provider) >= 0
    ensures var k := OpenRow(w.books.rows, h.id, h.provider);
      SameRows(w.books.rows, w.books.rows[k := w.books.rows[k].(settled := Settled)])
  {
  }

  lemma SettledSound(w: World, h: Handle, input: int, output: int, known: bool)
    requires Sound(w) && Lawful(w, Settle(h, input, output, known))
    ensures Sound(Settling(w, h, input, output, known))
  {
    var k := OpenRow(w.books.rows, h.id, h.provider);
    if h.provider in w.books.budgets && k >= 0 {
      hide Charges, Requests, Price, TermsOk, QuoteOk, OpenRow;
      SettleFacts(w, h);
      MarkedRows(w, h);
      if UsageFits(h, input, output, known) {
        WithinBoundCostsNoMore(input, output, h.inputBound, h.outputBound, h.inputRate, h.outputRate);
      }
      hide BudgetsOk, AllBalanced, UniqueRows, RowsIssued, ActualOk, Known, Settling;
      SettledBalance(w, h, input, output, known);
      SettledActual(w, h, input, output, known);
      SettledRows(w, h, input, output, known);
    }
  }

  lemma SettledBalance(w: World, h: Handle, input: int, output: int, known: bool)
    requires AllBalanced(w) && BudgetsOk(w) && UniqueRows(w.books.rows)
    requires OpenRow(w.books.rows, h.id, h.provider) >= 0 && h.provider in w.books.budgets && h.id !in w.past.actual
    requires w.books.rows[OpenRow(w.books.rows, h.id, h.provider)].micros == h.micros
    requires UsageFits(h, input, output, known) ==> 0 <= Price(input, output, h.inputRate, h.outputRate) <= h.micros
    ensures AllBalanced(Settling(w, h, input, output, known)) && BudgetsOk(Settling(w, h, input, output, known))
  {
    var n := Settling(w, h, input, output, known);
    var k := OpenRow(w.books.rows, h.id, h.provider);
    hide Charges, Requests, TermsOk, RowsIssued, ActualOk, Known, Price;
    MarkedRows(w, h);
    forall p | p in n.books.budgets ensures Balanced(n, p) {
      assert Balanced(w, p);
      SumsIgnoreSettlement(w.books.rows, n.books.rows, n.past.actual, p);
      if UsageFits(h, input, output, known) {
        ChargesRefund(w.books.rows, w.past.actual, k, Price(input, output, h.inputRate, h.outputRate), p);
      }
    }
  }

  lemma SettledActual(w: World, h: Handle, input: int, output: int, known: bool)
    requires ActualOk(w) && UniqueRows(w.books.rows) && OpenRow(w.books.rows, h.id, h.provider) >= 0 && h.provider in w.books.budgets
    requires w.books.rows[OpenRow(w.books.rows, h.id, h.provider)].micros == h.micros
    requires UsageFits(h, input, output, known) ==> 0 <= Price(input, output, h.inputRate, h.outputRate) <= h.micros
    ensures ActualOk(Settling(w, h, input, output, known))
  {
    hide Price, OpenRow, UsageFits;
  }

  lemma SettledRows(w: World, h: Handle, input: int, output: int, known: bool)
    requires RowsIssued(w) && UniqueRows(w.books.rows) && Known(w)
    requires OpenRow(w.books.rows, h.id, h.provider) >= 0 && h.provider in w.books.budgets && h.id in w.past.issued
    ensures var n := Settling(w, h, input, output, known);
      RowsIssued(n) && UniqueRows(n.books.rows) && Known(n)
  {
    hide Price, OpenRow, UsageFits, RowsIssued, UniqueRows, Known, SameRows;
    MarkedRows(w, h);
    RowsKept(w, Settling(w, h, input, output, known));
  }

  /** Blocking and unblocking touch no sum. */
  lemma FlagsSound(w: World, n: World)
    requires Sound(w) && n.past == w.past && n.books.budgets.Keys == w.books.budgets.Keys
    requires forall p :: p in w.books.budgets ==> n.books.budgets[p] == w.books.budgets[p].(blocked := n.books.budgets[p].blocked)
    requires |n.books.rows| == |w.books.rows|
    requires forall k :: 0 <= k < |w.books.rows| ==>
      n.books.rows[k] == w.books.rows[k].(settled := n.books.rows[k].settled)
        && (w.books.rows[k].settled.Settled? ==> n.books.rows[k].settled.Settled?)
    ensures Sound(n)
  {
    hide Charges, Requests, TermsOk, QuoteOk, RowsIssued, Known, UniqueRows;
    RowsKept(w, n) by { hide BudgetsOk, AllBalanced, ActualOk; }
    forall p | p in n.books.budgets ensures Balanced(n, p) {
      assert Balanced(w, p);
      SumsIgnoreSettlement(w.books.rows, n.books.rows, w.past.actual, p);
    }
  }

  lemma ApplySound(w: World, op: Op)
    requires Sound(w) && Lawful(w, op)
    ensures Sound(Apply(w, op))
  {
    hide Sound, Saved, Reserved, Settling, QuoteOk, TermsOk, HasOpen;
    match op
    case Save(p, t) => SavedSound(w, p, t);
    case Reserve(q, id) => ReservedSound(w, q, id);
    case Settle(h, input, output, known) => SettledSound(w, h, input, output, known);
    case Resume(p) => FlagsSound(w, Resumed(w, p));
    case Reopen => FlagsSound(w, Reopened(w));
  }

  lemma LawfulFront(ops: seq<Op>)
    requires LawfulRun(ops) && ops != []
    ensures LawfulRun(ops[..|ops| - 1]) && Lawful(Replay(ops[..|ops| - 1]), ops[|ops| - 1])
  {
    hide Lawful, Replay;
    var front := ops[..|ops| - 1];
    forall k | 0 <= k < |front| ensures Lawful(Replay(front[..k]), front[k]) {
      assert front[..k] == ops[..k] && front[k] == ops[k];
    }
  }

  /**
   * Conservation: after any interleaving of transactions and restarts, every provider's charge is the
   * true cost of its validly settled reservations plus the full amount of all its others, and its
   * call count is the number of reservations it ever made.
   */
  lemma {:induction false} BooksBalance(ops: seq<Op>)
    requires LawfulRun(ops)
    ensures Sound(Replay(ops))
  {
    if ops != [] {
      hide Sound, Lawful, Apply;
      LawfulFront(ops);
      BooksBalance(ops[..|ops| - 1]);
      ApplySound(Replay(ops[..|ops| - 1]), ops[|ops| - 1]);
    } else {
      hide Lawful;
    }
  }

  // ---------- what runs guarantee ----------

  predicate IsBlocked(w: World, p: string) {
    p in w.books.budgets && w.books.budgets[p].blocked
  }

  /** A provider unblocks exactly when a human resumes it while nothing of it is in flight. */
  lemma UnblocksExactly(w: World, op: Op, p: string)
    requires IsBlocked(w, p)
    ensures !IsBlocked(Apply(w, op), p) <==> op == Resume(p) && !HasOpen(w.books.rows, p)
  {
    hide Price, OpenRow, TermsOk;
  }

  /** It becomes blocked exactly by settling an open reservation on bad usage, or by a restart with one in flight. */
  lemma BlocksExactly(w: World, op: Op, p: string)
    requires p in w.books.budgets && !IsBlocked(w, p)
    ensures IsBlocked(Apply(w, op), p) <==>
      (op.Reopen? && HasOpen(w.books.rows, p)) ||
      (op.Settle? && op.handle.provider == p && OpenRow(w.books.rows, op.handle.id, p) >= 0
       && !UsageFits(op.handle, op.input, op.output, op.known))
  {
    hide Price, TermsOk;
  }

  /** While blocked, a provider gets no further call and its charge can only shrink by refunds. */
  lemma BlockedStep(w: World, op: Op, p: string)
    requires Sound(w) && Lawful(w, op) && IsBlocked(w, p) && op != Resume(p)
    ensures var n := Apply(w, op);
      IsBlocked(n, p) && n.books.budgets[p].calls == w.books.budgets[p].calls && n.books.budgets[p].charged <= w.books.budgets[p].charged
  {
    UnblocksExactly(w, op, p);
    if op.Settle? && OpenRow(w.books.rows, op.handle.id, op.handle.provider) >= 0 {
      var h := op.handle;
      SettleFacts(w, h) by { hide Price; }
      if UsageFits(h, op.input, op.output, op.known) {
        WithinBoundCostsNoMore(op.input, op.output, h.inputBound, h.outputBound, h.inputRate, h.outputRate);
      }
    }
    hide Price, OpenRow, TermsOk, HasOpen, Sound, Lawful, QuoteOk;
  }

  lemma ReplayLast(ops: seq<Op>)
    requires ops != []
    ensures Replay(ops) == Apply(Replay(ops[..|ops| - 1]), ops[|ops| - 1])
  {
  }

  /** Nothing is spent between a block and the next resumption, whatever else happens. */
  lemma {:induction false} BlockedSpendsNothing(ops: seq<Op>, i: nat, p: string)
    requires LawfulRun(ops) && i <= |ops| && IsBlocked(Replay(ops[..i]), p)
    requires forall k :: i <= k < |ops| ==> ops[k] != Resume(p)
    ensures IsBlocked(Replay(ops), p)
    ensures Replay(ops).books.budgets[p].calls == Replay(ops[..i]).books.budgets[p].calls
    ensures Replay(ops).books.budgets[p].charged <= Replay(ops[..i]).books.budgets[p].charged
    decreases |ops|
  {
    if i == |ops| {
      assert ops[..i] == ops;
    } else {
      var n := |ops| - 1;
      hide Sound, Lawful, Apply, LawfulRun, Replay, IsBlocked;
      LawfulFront(ops);
      assert ops[..n][..i] == ops[..i];
      BlockedSpendsNothing(ops[..n], i, p);
      BooksBalance(ops[..n]);
      ReplayLast(ops);
      BlockedStep(Replay(ops[..n]), ops[n], p);
    }
  }

  predicate SavesLimit(op: Op, p: string, limit: int) {
    op.Save? && op.provider == p && TermsOk(p, op.terms) && op.terms.limit == limit
  }

  lemma {:induction false} HighestWasSaved(ops: seq<Op>, p: string) returns (k: nat)
    requires p in Replay(ops).past.highest
    ensures k < |ops| && SavesLimit(ops[k], p, Replay(ops).past.highest[p])
  {
    var n := |ops| - 1;
    if ops[n].Save? && ops[n].provider == p && TermsOk(p, ops[n].terms) && Replay(ops).past.highest[p] == ops[n].terms.limit {
      k := n;
    } else {
      HighestStep(Replay(ops[..n]), ops[n], p);
      k := HighestWasSaved(ops[..n], p);
    }
  }

  lemma HighestStep(w: World, op: Op, p: string)
    requires p in Apply(w, op).past.highest && !SavesLimit(op, p, Apply(w, op).past.highest[p])
    ensures p in w.past.highest && w.past.highest[p] == Apply(w, op).past.highest[p]
  {
    hide Price, OpenRow;
  }

  /** A provider is never charged more than some limit that was saved for it, however limits changed since. */
  lemma SpendBounded(ops: seq<Op>, p: string) returns (k: nat)
    requires LawfulRun(ops) && p in Replay(ops).books.budgets
    ensures k < |ops| && ops[k].Save? && ops[k].provider == p && TermsOk(p, ops[k].terms)
    ensures 0 <= Replay(ops).books.budgets[p].charged <= ops[k].terms.limit
  {
    hide Replay, Lawful, RowsIssued, UniqueRows, Known, Charges, Requests;
    BooksBalance(ops);
    k := HighestWasSaved(ops, p);
    var w := Replay(ops);
    assert Balanced(w, p);
    ChargesAreNotNegative(w, p, |w.books.rows|);
    assert w.books.rows[..|w.books.rows|] == w.books.rows;
  }

  lemma {:induction false} ChargesAreNotNegative(w: World, p: string, n: nat)
    requires ActualOk(w) && RowsIssued(w) && n <= |w.books.rows|
    ensures Charges(w.books.rows[..n], w.past.actual, p) >= 0
  {
    if n > 0 {
      ChargesAreNotNegative(w, p, n - 1);
      var rows := w.books.rows[..n];
      assert rows[..n - 1] == w.books.rows[..n - 1] && rows[n - 1] == w.books.rows[n - 1];
      assert RowIssued(w, rows[n - 1]);
      var h := w.past.issued[rows[n - 1].id];
      QuotesCost(Quote(h.provider, h.inputBound, h.outputBound, h.inputRate, h.outputRate, h.micros));
    }
  }

  /** An admitted reservation is new, costs at least one micro and is priced at the tariff in force when it commits. */
  lemma PricedInForce(w: World, q: Quote, id: string)
    requires QuoteOk(q) && Reserved(w, q, id) != w
    ensures q.provider in w.books.budgets && !IsBlocked(w, q.provider)
    ensures var t := w.books.budgets[q.provider].terms;
      var rows := Reserved(w, q, id).books.rows;
      && |rows| == |w.books.rows| + 1 && rows[|w.books.rows|].id == id && rows[|w.books.rows|].settled.Open?
      && rows[|w.books.rows|].micros == Price(q.input, q.output, t.inputRate, t.outputRate) >= 1
      && Reserved(w, q, id).books.budgets[q.provider].charged <= t.limit
  {
    QuotesCost(q);
  }

  /** The settlement whose reported usage a recorded cost prices. */
  predicate Prices(op: Op, id: string, cost: int) {
    && op.Settle? && op.handle.id == id && UsageFits(op.handle, op.input, op.output, op.known)
    && cost == Price(op.input, op.output, op.handle.inputRate, op.handle.outputRate)
  }

  /** Every recorded true cost is the price of the usage some settlement reported, at the reserved tariff. */
  lemma {:induction false} ActualWasReported(ops: seq<Op>, id: string) returns (k: nat)
    requires id in Replay(ops).past.actual
    ensures k < |ops| && Prices(ops[k], id, Replay(ops).past.actual[id])
  {
    var n := |ops| - 1;
    if Prices(ops[n], id, Replay(ops).past.actual[id]) {
      k := n;
    } else {
      ActualStep(Replay(ops[..n]), ops[n], id);
      k := ActualWasReported(ops[..n], id);
    }
  }

  lemma ActualStep(w: World, op: Op, id: string)
    requires id in Apply(w, op).past.actual && !Prices(op, id, Apply(w, op).past.actual[id])
    ensures id in w.past.actual && w.past.actual[id] == Apply(w, op).past.actual[id]
  {
    hide Price, OpenRow, TermsOk;
  }

  // ---------- settling happens once ----------

  predicate IsOpen(rows: seq<Row>, id: string) {
    exists k :: 0 <= k < |rows| && rows[k].id == id && rows[k].settled.Open?
  }

  /** Once a reservation is settled or written off, no later transaction opens it again. */
  lemma ClosedStays(w: World, op: Op, id: string)
    requires Sound(w) && id in w.past.issued && !IsOpen(w.books.rows, id)
    ensures id in Apply(w, op).past.issued && !IsOpen(Apply(w, op).books.rows, id)
  {
    hide Price, TermsOk, BudgetsOk, AllBalanced, RowsIssued, ActualOk, HasOpen;
  }

  lemma ClosedIgnored(w: World, h: Handle, input: int, output: int, known: bool)
    requires !IsOpen(w.books.rows, h.id)
    ensures Apply(w, Settle(h, input, output, known)) == w
  {
    hide Price;
  }

  /** A settlement that finds its row closes it. */
  lemma SettleCloses(w: World, h: Handle, input: int, output: int, known: bool)
    requires Sound(w) && Lawful(w, Settle(h, input, output, known)) && OpenRow(w.books.rows, h.id, h.provider) >= 0
    ensures !IsOpen(Apply(w, Settle(h, input, output, known)).books.rows, h.id)
  {
    SettleFacts(w, h) by { hide Price; }
    hide Price, TermsOk, BudgetsOk, AllBalanced, RowsIssued, ActualOk, Known, OpenRow, Lawful, Charges, Requests;
  }

  /** A restart leaves nothing open and blocks exactly the providers that had something open or were blocked. */
  lemma ReopenWritesOff(w: World, p: string)
    requires p in w.books.budgets
    ensures !HasOpen(Reopened(w).books.rows, p)
    ensures IsBlocked(Reopened(w), p) <==> IsBlocked(w, p) || HasOpen(w.books.rows, p)
    ensures Reopened(w).books.budgets[p].charged == w.books.budgets[p].charged
  {
  }

  lemma {:induction false} StaysClosed(ops: seq<Op>, n: nat, id: string)
    requires LawfulRun(ops) && n <= |ops| && id in Replay(ops[..n]).past.issued && !IsOpen(Replay(ops[..n]).books.rows, id)
    ensures !IsOpen(Replay(ops).books.rows, id) && id in Replay(ops).past.issued
  {
    hide Lawful, Apply, IsOpen, Sound;
    if n == |ops| {
      assert ops[..n] == ops;
    } else {
      var front := ops[..|ops| - 1];
      assert front[..n] == ops[..n];
      LawfulFront(ops);
      StaysClosed(front, n, id);
      BooksBalance(front);
      ClosedStays(Replay(front), ops[|ops| - 1], id);
    }
  }

  /**
   * A reservation is settled at most once in a run: after the settlement at `n` found its row, no later
   * settlement of that reservation changes anything, whatever was saved, resumed or reopened in between.
   */
  lemma SettlesOnce(ops: seq<Op>, n: nat, h: Handle, input: int, output: int, known: bool)
    requires LawfulRun(ops) && n < |ops| && ops[n].Settle? && ops[n].handle == h
    requires OpenRow(Replay(ops[..n]).books.rows, h.id, h.provider) >= 0
    ensures Apply(Replay(ops), Settle(h, input, output, known)) == Replay(ops)
  {
    hide LawfulRun, Lawful, Apply, IsOpen, Sound, OpenRow;
    var w := Replay(ops[..n]);
    assert ops[..n + 1][..n] == ops[..n];
    LawfulPrefix(ops, n);
    BooksBalance(ops[..n]);
    assert Lawful(w, ops[n]) by { LawfulAt(ops, n); }
    SettleCloses(w, h, ops[n].input, ops[n].output, ops[n].known);
    assert h.id in Apply(w, ops[n]).past.issued by { IssuedStays(w, ops[n], h); }
    StaysClosed(ops, n + 1, h.id);
    ClosedIgnored(Replay(ops), h, input, output, known);
  }

  lemma LawfulAt(ops: seq<Op>, n: nat)
    requires LawfulRun(ops) && n < |ops|
    ensures Lawful(Replay(ops[..n]), ops[n])
  {
    hide Lawful;
  }

  lemma LawfulPrefix(ops: seq<Op>, n: nat)
    requires LawfulRun(ops) && n <= |ops|
    ensures LawfulRun(ops[..n])
  {
    hide Lawful;
    forall k | 0 <= k < n ensures Lawful(Replay(ops[..n][..k]), ops[..n][k]) {
      assert ops[..n][..k] == ops[..k];
    }
  }

  /** An open row was handed out, and settling it forgets nothing. */
  lemma IssuedStays(w: World, op: Op, h: Handle)
    requires Sound(w) && op.Settle? && op.handle == h && OpenRow(w.books.rows, h.id, h.provider) >= 0
    ensures h.id in Apply(w, op).past.issued
  {
    hide Price, BudgetsOk, AllBalanced, ActualOk, Known, UniqueRows;
    assert RowIssued(w, w.books.rows[OpenRow(w.books.rows, h.id, h.provider)]);
  }

  // ---------- the guards, field by field ----------

  /**
   * Exactly when a reservation is admitted: the provider has a budget, the id is new, nothing blocks it,
   * a call and the amount are left in its limits, and the tariff and the output bound are still those quoted.
   * It then costs one call and the quoted amount and appends one open row; otherwise nothing changes.
   */
  lemma ReservesExactly(w: World, q: Quote, id: string)
    ensures var n := Apply(w, Reserve(q, id));
      if && q.provider in w.books.budgets
         && (forall k :: 0 <= k < |w.books.rows| ==> w.books.rows[k].id != id)
         && !w.books.budgets[q.provider].blocked
         && w.books.budgets[q.provider].calls + 1 <= w.books.budgets[q.provider].terms.maxCalls
         && w.books.budgets[q.provider].charged + q.amount <= w.books.budgets[q.provider].terms.limit
         && q.inputRate == w.books.budgets[q.provider].terms.inputRate
         && q.outputRate == w.books.budgets[q.provider].terms.outputRate
         && q.output <= w.books.budgets[q.provider].terms.maxOutput
      then
        && Admits(w.books, q, id)
        && n.books.rows == w.books.rows + [Row(id, q.provider, q.amount, q.input, q.output, Open)]
        && n.books.budgets.Keys == w.books.budgets.Keys
        && n.books.budgets[q.provider].calls == w.books.budgets[q.provider].calls + 1
        && n.books.budgets[q.provider].charged == w.books.budgets[q.provider].charged + q.amount
        && n.books.budgets[q.provider].terms == w.books.budgets[q.provider].terms && !n.books.budgets[q.provider].blocked
        && (forall p :: p in w.books.budgets && p != q.provider ==> n.books.budgets[p] == w.books.budgets[p])
      else !Admits(w.books, q, id) && n == w
  {
  }

  /**
   * Exactly what settling an open row does: known usage within both reserved bounds is charged at its
   * price rounded up, at the reserved tariff, and anything else keeps the full charge and blocks.
   */
  lemma SettlesExactly(w: World, h: Handle, input: int, output: int, known: bool)
    requires h.provider in w.books.budgets && OpenRow(w.books.rows, h.id, h.provider) >= 0
    ensures var n := Apply(w, Settle(h, input, output, known));
      var b, c := w.books.budgets[h.provider], n.books.budgets[h.provider];
      && n.books.budgets.Keys == w.books.budgets.Keys && c.calls == b.calls && c.terms == b.terms
      && (forall p :: p in w.books.budgets && p != h.provider ==> n.books.budgets[p] == w.books.budgets[p])
      && if known && 0 <= input && input <= h.inputBound && 0 <= output && output <= h.outputBound
         then c.blocked == b.blocked && (var saved := b.charged - c.charged;
              (h.micros - saved - 1) * MICROS < input * h.inputRate + output * h.outputRate <= (h.micros - saved) * MICROS)
         else c.blocked && c.charged == b.charged
  {
    PriceRoundsUp(input, output, h.inputRate, h.outputRate);
    hide Price, OpenRow;
  }

  /** Exactly which terms may be saved; saving them never touches the counters, the flag or another budget. */
  lemma SavesExactly(w: World, provider: string, t: Terms)
    ensures var n := Apply(w, Save(provider, t));
      if |provider| > 0 && 1 <= t.limit <= BILLION && 1 <= t.inputRate <= BILLION && 1 <= t.outputRate <= BILLION
         && 1 <= t.maxCalls <= 30 && 64 <= t.maxOutput <= 8192
      then
        && provider in n.books.budgets && n.books.budgets[provider].terms == t && n.books.rows == w.books.rows
        && (if provider in w.books.budgets
            then n.books.budgets[provider] == w.books.budgets[provider].(terms := t)
            else n.books.budgets[provider].calls == n.books.budgets[provider].charged == 0 && !n.books.budgets[provider].blocked)
        && n.books.budgets.Keys == w.books.budgets.Keys + {provider}
        && (forall p :: p in w.books.budgets && p != provider ==> n.books.budgets[p] == w.books.budgets[p])
      else n == w
  {
  }

  // ---------- the number of calls ----------

  predicate SavesTerms(op: Op, p: string, t: Terms) {
    op.Save? && op.provider == p && op.terms == t
  }

  lemma TermsStep(w: World, op: Op, p: string)
    requires p in Apply(w, op).books.budgets && !SavesTerms(op, p, Apply(w, op).books.budgets[p].terms)
    ensures p in w.books.budgets && w.books.budgets[p].terms == Apply(w, op).books.budgets[p].terms
  {
    hide Price, OpenRow;
  }

  /** The terms in force were saved by some transaction. */
  lemma {:induction false} TermsWereSaved(ops: seq<Op>, p: string) returns (k: nat)
    requires p in Replay(ops).books.budgets
    ensures k < |ops| && SavesTerms(ops[k], p, Replay(ops).books.budgets[p].terms)
  {
    var n := |ops| - 1;
    var w := Replay(ops[..n]);
    hide Apply;
    if SavesTerms(ops[n], p, Replay(ops).books.budgets[p].terms) {
      k := n;
    } else {
      TermsStep(w, ops[n], p);
      k := TermsWereSaved(ops[..n], p);
    }
  }

  /** Only an admitted reservation adds a call, one, and it leaves the count within the terms in force. */
  lemma CallsStep(w: World, op: Op, p: string)
    requires p in Apply(w, op).books.budgets
    ensures var n := Apply(w, op);
      if p !in w.books.budgets then n.books.budgets[p].calls == 0 && op.Save? && op.provider == p
      else
        var before, after := w.books.budgets[p].calls, n.books.budgets[p].calls;
        after == before || (after == before + 1 && after <= n.books.budgets[p].terms.maxCalls)
  {
    hide Price, OpenRow, TermsOk;
  }

  lemma MaxCallsPositive(ops: seq<Op>, p: string)
    requires LawfulRun(ops) && p in Replay(ops).books.budgets
    ensures Replay(ops).books.budgets[p].terms.maxCalls >= 1
  {
    hide Replay, LawfulRun, AllBalanced, UniqueRows, RowsIssued, ActualOk, Known;
    BooksBalance(ops);
  }

  /** In every run a provider made no more calls than some number of calls that was saved for it. */
  lemma {:induction false} CallsBounded(ops: seq<Op>, p: string) returns (k: nat)
    requires LawfulRun(ops) && p in Replay(ops).books.budgets
    ensures k < |ops| && ops[k].Save? && ops[k].provider == p
    ensures 0 <= Replay(ops).books.budgets[p].calls <= ops[k].terms.maxCalls
  {
    var n := |ops| - 1;
    hide Apply, LawfulRun, Lawful;
    LawfulFront(ops);
    ReplayLast(ops);
    var w := Replay(ops[..n]);
    hide Replay;
    CallsStep(w, ops[n], p);
    if p !in w.books.budgets || Replay(ops).books.budgets[p].calls != w.books.budgets[p].calls {
      k := TermsWereSaved(ops, p);
      MaxCallsPositive(ops, p);
      NotNegative(ops, p);
    } else {
      k := CallsBounded(ops[..n], p);
    }
  }

  lemma NotNegative(ops: seq<Op>, p: string)
    requires LawfulRun(ops) && p in Replay(ops).books.budgets
    ensures Replay(ops).books.budgets[p].calls >= 0
  {
    hide Replay, LawfulRun, BudgetsOk, UniqueRows, RowsIssued, ActualOk, Known;
    BooksBalance(ops);
    assert Balanced(Replay(ops), p);
  }

  /** A human's resumption: exactly a blocked provider with no row open, and only its flag. */
  lemma ResumesExactly(w: World, p: string)
    ensures var n := Apply(w, Resume(p));
      if p in w.books.budgets && w.books.budgets[p].blocked
         && (forall k :: 0 <= k < |w.books.rows| ==> !(w.books.rows[k].provider == p && w.books.rows[k].settled == Open))
      then MayResume(w.books, p) && n == w.(books := w.books.(budgets := w.books.budgets[p := w.books.budgets[p].(blocked := false)]))
      else !MayResume(w.books, p) && n == w
  {
  }

  /** A restart: open rows are written off as they are, their providers blocked, and nothing else moves. */
  lemma ReopensExactly(w: World)
    ensures var n := Apply(w, Reopen);
      && n.past == w.past && n.books.budgets.Keys == w.books.budgets.Keys && |n.books.rows| == |w.books.rows|
      && (forall k :: 0 <= k < |w.books.rows| ==>
            n.books.rows[k] == if w.books.rows[k].settled == Open then w.books.rows[k].(settled := Orphaned) else w.books.rows[k])
      && (forall p :: p in w.books.budgets ==>
            n.books.budgets[p] == w.books.budgets[p].(blocked := w.books.budgets[p].blocked
              || exists k :: 0 <= k < |w.books.rows| && w.books.rows[k].provider == p && w.books.rows[k].settled == Open))
  {
  }
}
