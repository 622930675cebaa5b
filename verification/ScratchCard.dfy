/** Scratch tickets: internal/games/scratch.go against internal/botgames/scratch_projection.go. */
module ScratchCard {
  import opened Wrappers
  import opened PrizeTable
  import opened Shuffle

  datatype Symbol = P1 | P2 | P3 | P5 | P10 | P25 | P100
  datatype Cell = Cell(symbol: Symbol, matching: bool)

  const SYMBOLS: seq<Symbol> := [P1, P2, P3, P5, P10, P25, P100]

  /** The bot's table of tiers: multiplier and, for a winning tier, its symbol. */
  function ScratchTier(tier: string): Option<(int, Option<Symbol>)> {
    match tier
    case "LOSS" => Some((0, None))
    case "BREAK_EVEN" => Some((1, Some(P1)))
    case "T2" => Some((2, Some(P2)))
    case "T3" => Some((3, Some(P3)))
    case "T5" => Some((5, Some(P5)))
    case "T10" => Some((10, Some(P10)))
    case "T25" => Some((25, Some(P25)))
    case "TOP" => Some((100, Some(P100)))
    case _ => None
  }

  /** Position of a winning tier in the frozen table after LOSS; 7 when it is not there. */
  function TierIndex(tier: string, i: nat): (k: nat)
    requires i <= 7
    ensures i <= k <= 7
    decreases 7 - i
  {
    if i == 7 then 7
    else if ScratchFrozen()[i + 1].tier == tier then i
    else TierIndex(tier, i + 1)
  }

  /** Three copies of the winning symbol and each other one; or, for a loss, all seven and two fillers. */
  function Cells(symbols: seq<Symbol>, winning: Option<nat>, first: nat, second: nat): (cells: seq<Symbol>)
    requires |symbols| == 7 && first < 7 && second < 6 && (winning.Some? ==> winning.value < 7)
    ensures |cells| == 9
  {
    match winning
    case None => symbols + [symbols[first], symbols[if second >= first then second + 1 else second]]
    case Some(k) => [symbols[k], symbols[k], symbols[k]] + symbols[..k] + symbols[k + 1..]
  }

  /** The unshuffled cells of a tier for the two filler draws, and the matching symbol. */
  function BaseCells(tier: string, first: nat, second: nat): (r: Option<(seq<Symbol>, Option<Symbol>)>)
    requires first < 7 && second < 6
    ensures r.Some? ==> |r.value.0| == 9
  {
    if tier == "LOSS" then Some((Cells(SYMBOLS, None, first, second), None))
    else
      var k := TierIndex(tier, 0);
      if k == 7 then None else Some((Cells(SYMBOLS, Some(k), first, second), Some(SYMBOLS[k])))
  }

  method FillLoss(symbols: seq<Symbol>, first: nat, second: nat) returns (cells: array<Symbol>)
    requires |symbols| == 7 && first < 7 && second < 6
    ensures cells.Length == 9 && cells[..] == Cells(symbols, None, first, second)
  {
    cells := new Symbol[9](_ => P1);
    for i := 0 to 7
      invariant cells[..i] == symbols[..i]
    {
      cells[i] := symbols[i];
    }
    var other := if second >= first then second + 1 else second;
    cells[7], cells[8] := symbols[first], symbols[other];
    assert cells[..] == cells[..7] + [cells[7], cells[8]];
  }

  /** The winning symbol three times, then the first `k` symbols without it. */
  ghost function FilledTo(symbols: seq<Symbol>, i: nat, k: nat): (s: seq<Symbol>)
    requires i < |symbols| && k <= |symbols|
    ensures |s| == if k <= i then 3 + k else 2 + k
  {
    [symbols[i], symbols[i], symbols[i]] + if k <= i then symbols[..k] else symbols[..i] + symbols[i + 1..k]
  }

  lemma FilledStep(symbols: seq<Symbol>, i: nat, k: nat)
    requires i < |symbols| && k < |symbols| && Distinct(symbols)
    ensures symbols[k] == symbols[i] ==> FilledTo(symbols, i, k + 1) == FilledTo(symbols, i, k)
    ensures symbols[k] != symbols[i] ==> FilledTo(symbols, i, k + 1) == FilledTo(symbols, i, k) + [symbols[k]]
  {
    assert symbols[k] == symbols[i] <==> k == i;
  }

  lemma FilledEnds(symbols: seq<Symbol>, i: nat)
    requires |symbols| == 7 && i < 7
    ensures FilledTo(symbols, i, 0) == seq(3, _ => symbols[i])
    ensures FilledTo(symbols, i, 7) == Cells(symbols, Some(i), 0, 0)
  {
    assert symbols[i + 1..7] == symbols[i + 1..];
  }

  method PutCell(cells: array<Symbol>, n: nat, symbol: Symbol)
    requires n < cells.Length
    modifies cells
    ensures cells[..n + 1] == old(cells[..n]) + [symbol]
  {
    cells[n] := symbol;
  }

  method FillWinning(symbols: seq<Symbol>, i: nat) returns (cells: array<Symbol>)
    requires |symbols| == 7 && Distinct(symbols) && i < 7
    ensures cells.Length == 9 && cells[..] == Cells(symbols, Some(i), 0, 0)
  {
    var winning := symbols[i];
    cells := new Symbol[9](_ => winning);
    var n := 3;
    FilledEnds(symbols, i);
    for k := 0 to 7
      invariant n == |FilledTo(symbols, i, k)| && cells[..n] == FilledTo(symbols, i, k)
    {
      FilledStep(symbols, i, k);
      if symbols[k] != winning {
        PutCell(cells, n, symbols[k]);
        n := n + 1;
      }
    }
    assert cells[..] == cells[..9];
  }

  method ScratchMultiset(tier: string, first: nat, second: nat) returns (r: Option<(seq<Symbol>, Option<Symbol>)>)
    requires first < 7 && second < 6
    ensures r == BaseCells(tier, first, second)
  {
    if tier == "LOSS" {
      var cells := FillLoss(SYMBOLS, first, second);
      return Some((cells[..], None));
    }
    for i := 0 to 7
      invariant TierIndex(tier, 0) == TierIndex(tier, i)
    {
      if ScratchFrozen()[i + 1].tier == tier {
        var cells := FillWinning(SYMBOLS, i);
        return Some((cells[..], Some(SYMBOLS[i])));
      }
    }
    return None;
  }

  /** A dealt ticket: the base cells in the shuffled order, with the winning symbol marked. */
  function Ticket(tier: string, first: nat, second: nat, c: seq<nat>): (r: Option<seq<Cell>>)
    requires first < 7 && second < 6 && ValidChoices(c, 9)
  {
    match BaseCells(tier, first, second)
    case None => None
    case Some((cells, winning)) => Some(Marked(Shuffled(cells, c), winning))
  }

  function Marked(symbols: seq<Symbol>, winning: Option<Symbol>): (cells: seq<Cell>)
    ensures |cells| == |symbols|
  {
    seq(|symbols|, i requires 0 <= i < |symbols| => Cell(symbols[i], Some(symbols[i]) == winning))
  }

  function Symbols(cells: seq<Cell>): (s: seq<Symbol>)
    ensures |s| == |cells|
  {
    seq(|cells|, i requires 0 <= i < |cells| => cells[i].symbol)
  }

  /** Each symbol once, except as the tier demands. */
  predicate CountsFit(m: multiset<Symbol>, winning: Option<Symbol>) {
    match winning
    case None => (forall s: Symbol :: m[s] == 1 || m[s] == 2) && |set s: Symbol | m[s] == 2| == 2
    case Some(w) => forall s: Symbol :: m[s] == if s == w then 3 else 1
  }

  /** The layouts the bot's validator accepts for a tier. */
  predicate LayoutAccepted(tier: string, cells: seq<Cell>) {
    && |cells| == 9
    && ScratchTier(tier).Some?
    && var winning := ScratchTier(tier).value.1;
    && (forall i :: 0 <= i < 9 ==> MarkedFor(cells[i], winning))
    && CountsFit(multiset(Symbols(cells)), winning)
  }

  /** A cell as the round carries it: the symbol is a text. */
  datatype RawCell = RawCell(symbol: string, matching: bool)

  function SymbolText(s: Symbol): string {
    match s
    case P1 => "P1"
    case P2 => "P2"
    case P3 => "P3"
    case P5 => "P5"
    case P10 => "P10"
    case P25 => "P25"
    case P100 => "P100"
  }

  /** The symbol a text names, if it is one of the seven. */
  function SymbolNamed(text: string): (r: Option<Symbol>)
    ensures r.Some? ==> SymbolText(r.value) == text
    ensures r.None? ==> forall s: Symbol :: SymbolText(s) != text
  {
    match text
    case "P1" => Some(P1)
    case "P2" => Some(P2)
    case "P3" => Some(P3)
    case "P5" => Some(P5)
    case "P10" => Some(P10)
    case "P25" => Some(P25)
    case "P100" => Some(P100)
    case _ => None
  }

  lemma SymbolTextInjective(s: Symbol, t: Symbol)
    requires SymbolText(s) == SymbolText(t)
    ensures s == t
  {
    assert SymbolNamed(SymbolText(s)) == Some(s);
  }

  function Written(cells: seq<Cell>): (raw: seq<RawCell>)
    ensures |raw| == |cells|
  {
    seq(|cells|, i requires 0 <= i < |cells| => RawCell(SymbolText(cells[i].symbol), cells[i].matching))
  }

  lemma {:induction false} WrittenInjective(a: seq<Cell>, b: seq<Cell>)
    requires Written(a) == Written(b)
    ensures a == b
  {
    assert |a| == |Written(a)| == |Written(b)| == |b|;
    forall i | 0 <= i < |a| ensures a[i] == b[i] {
      assert Written(a)[i] == Written(b)[i];
      SymbolTextInjective(a[i].symbol, b[i].symbol);
    }
  }

  /** A cell carries the mark of the winning symbol exactly when it shows it. */
  predicate MarkedFor(c: Cell, winning: Option<Symbol>) {
    c.matching == (Some(c.symbol) == winning)
  }

  /** No cells of the seven symbols, rightly marked, read like this. */
  ghost predicate Unreadable(raw: seq<RawCell>, winning: Option<Symbol>) {
    forall cells :: Written(cells) == raw ==> exists i :: 0 <= i < |cells| && !MarkedFor(cells[i], winning)
  }

  /** One wrong cell makes the layout unreadable. */
  lemma WrongCell(raw: seq<RawCell>, winning: Option<Symbol>, i: nat)
    requires i < |raw|
    requires forall c: Cell :: SymbolText(c.symbol) == raw[i].symbol && c.matching == raw[i].matching
                               ==> !MarkedFor(c, winning)
    ensures Unreadable(raw, winning)
  {
    forall cells | Written(cells) == raw ensures exists k :: 0 <= k < |cells| && !MarkedFor(cells[k], winning) {
      assert Written(cells)[i] == raw[i];
      assert !MarkedFor(cells[i], winning);
    }
  }

  /** The counting loop. */
  method CountSymbols(raw: seq<RawCell>, winning: Option<Symbol>)
    returns (ok: bool, cells: seq<Cell>, counts: map<Symbol, int>)
    ensures ok ==> Written(cells) == raw && forall i :: 0 <= i < |cells| ==> MarkedFor(cells[i], winning)
    ensures ok ==> forall s: Symbol :: s in counts && counts[s] == multiset(Symbols(cells))[s]
    ensures !ok ==> Unreadable(raw, winning)
  {
    counts := map[P1 := 0, P2 := 0, P3 := 0, P5 := 0, P10 := 0, P25 := 0, P100 := 0];
    cells := [];
    forall s: Symbol ensures s in counts && counts[s] == 0 {
      match s { case P1 => case P2 => case P3 => case P5 => case P10 => case P25 => case P100 => }
    }
    for i := 0 to |raw|
      invariant Written(cells) == raw[..i]
      invariant forall k :: 0 <= k < |cells| ==> MarkedFor(cells[k], winning)
      invariant forall s: Symbol :: s in counts && counts[s] == multiset(Symbols(cells))[s]
    {
      var named := SymbolNamed(raw[i].symbol);
      if named.None? {
        WrongCell(raw, winning, i);
        return false, cells, counts;
      }
      var c := Cell(named.value, raw[i].matching);
      if c.matching != (Some(c.symbol) == winning) {
        OnlyReading(c, raw[i]);
        WrongCell(raw, winning, i);
        return false, cells, counts;
      }
      Appended(cells, c);
      cells := cells + [c];
      counts := counts[c.symbol := counts[c.symbol] + 1];
    }
    ok := true;
  }

  lemma OnlyReading(c: Cell, r: RawCell)
    requires SymbolText(c.symbol) == r.symbol && c.matching == r.matching
    ensures forall d: Cell :: SymbolText(d.symbol) == r.symbol && d.matching == r.matching ==> d == c
  {
    forall d: Cell | SymbolText(d.symbol) == r.symbol && d.matching == r.matching ensures d == c {
      SymbolTextInjective(c.symbol, d.symbol);
    }
  }

  lemma Appended(cells: seq<Cell>, c: Cell)
    ensures Symbols(cells + [c]) == Symbols(cells) + [c.symbol]
    ensures Written(cells + [c]) == Written(cells) + [RawCell(SymbolText(c.symbol), c.matching)]
  {
  }

  /** Every symbol occurs exactly once. */
  predicate Complete(symbols: seq<Symbol>) {
    |symbols| == 7 && Distinct(symbols) && forall s: Symbol :: s in symbols && multiset(symbols)[s] == 1
  }

  lemma SymbolsComplete()
    ensures Complete(SYMBOLS)
  {
    assert SYMBOLS[0] == P1 && SYMBOLS[1] == P2 && SYMBOLS[2] == P3 && SYMBOLS[3] == P5;
    assert SYMBOLS[4] == P10 && SYMBOLS[5] == P25 && SYMBOLS[6] == P100;
    assert multiset(SYMBOLS) == multiset{P1, P2, P3, P5, P10, P25, P100};
    forall s: Symbol ensures s in SYMBOLS && multiset(SYMBOLS)[s] == 1 {
      match s { case P1 => case P2 => case P3 => case P5 => case P10 => case P25 => case P100 => }
    }
  }

  /** The closing loop over the counted symbols of a losing ticket. */
  method CheckLoss(symbols: seq<Symbol>, counts: map<Symbol, int>) returns (ok: bool, ghost twos: set<Symbol>)
    requires |symbols| == 7 && Distinct(symbols) && forall s: Symbol :: s in counts
    ensures ok ==> forall s :: s in symbols ==> counts[s] == 1 || counts[s] == 2
    ensures ok ==> |twos| == 2 && forall s :: s in twos <==> s in symbols && counts[s] == 2
    ensures !ok ==> (exists s :: s in symbols && counts[s] != 1 && counts[s] != 2)
                    || (|twos| != 2 && forall s :: s in twos <==> s in symbols && counts[s] == 2)
  {
    twos := {};
    var doubled := 0;
    for k := 0 to 7
      invariant forall s :: s in symbols[..k] ==> counts[s] == 1 || counts[s] == 2
      invariant |twos| == doubled
      invariant forall s :: s in twos <==> s in symbols[..k] && counts[s] == 2
    {
      var s := symbols[k];
      assert symbols[..k + 1] == symbols[..k] + [s];
      if counts[s] == 2 {
        assert s !in symbols[..k];
        doubled := doubled + 1;
        twos := twos + {s};
      } else if counts[s] != 1 {
        assert s in symbols;
        return false, twos;
      }
    }
    assert symbols[..7] == symbols;
    ok := doubled == 2;
  }

  /** The closing loop over the counted symbols of a winning ticket. */
  method CheckWinning(symbols: seq<Symbol>, counts: map<Symbol, int>, winning: Symbol) returns (ok: bool)
    requires |symbols| == 7 && forall s: Symbol :: s in counts
    ensures ok == forall s :: s in symbols ==> counts[s] == if s == winning then 3 else 1
  {
    for k := 0 to 7
      invariant forall s :: s in symbols[..k] ==> counts[s] == if s == winning then 3 else 1
    {
      var s := symbols[k];
      assert symbols[..k + 1] == symbols[..k] + [s];
      if counts[s] != (if s == winning then 3 else 1) {
        assert s in symbols;
        return false;
      }
    }
    assert symbols[..7] == symbols;
    return true;
  }

  method CheckCounts(symbols: seq<Symbol>, counts: map<Symbol, int>, winning: Option<Symbol>, ghost m: multiset<Symbol>)
    returns (ok: bool)
    requires Complete(symbols)
    requires forall s: Symbol :: s in counts && counts[s] == m[s]
    ensures ok == CountsFit(m, winning)
  {
    match winning {
      case None =>
        ghost var twos;
        ok, twos := CheckLoss(symbols, counts);
        if forall s :: s in twos <==> s in symbols && counts[s] == 2 {
          assert twos == set s: Symbol | m[s] == 2;
        }
      case Some(w) =>
        ok := CheckWinning(symbols, counts, w);
    }
  }

  /** A stored ticket passes: it names the seven symbols only, and the layout it writes down is accepted. */
  ghost predicate RawAccepted(tier: string, raw: seq<RawCell>) {
    exists cells :: Written(cells) == raw && LayoutAccepted(tier, cells)
  }

  method ValidateLayout(tier: string, raw: seq<RawCell>) returns (ok: bool)
    requires |raw| == 9
    ensures ok == RawAccepted(tier, raw)
  {
    var known := ScratchTier(tier);
    if known.None? {
      return false;
    }
    var winning := known.value.1;
    var marked, cells, counts := CountSymbols(raw, winning);
    if !marked {
      return false;
    }
    SymbolsComplete();
    ok := CheckCounts(SYMBOLS, counts, winning, multiset(Symbols(cells)));
    if !ok {
      forall other | Written(other) == raw ensures !LayoutAccepted(tier, other) {
        WrittenInjective(cells, other);
      }
    }
  }

  // ------------------------------------------------ reachable = accepted

  /** The symbol a kind of ticket marks as matching. */
  function Mark(symbols: seq<Symbol>, winning: Option<nat>): Option<Symbol>
    requires |symbols| == 7 && (winning.Some? ==> winning.value < 7)
  {
    match winning case None => None case Some(k) => Some(symbols[k])
  }

  /** The base cells carry exactly the counts the validator wants. */
  lemma CellsFit(symbols: seq<Symbol>, winning: Option<nat>, first: nat, second: nat)
    requires Complete(symbols) && first < 7 && second < 6 && (winning.Some? ==> winning.value < 7)
    ensures CountsFit(multiset(Cells(symbols, winning, first, second)), Mark(symbols, winning))
  {
    match winning
    case None => LossCounts(symbols, first, if second >= first then second + 1 else second);
    case Some(k) => WinningCounts(symbols, k);
  }

  /** Both sides read the tier the same way. */
  lemma BaseKnown(tier: string, first: nat, second: nat) returns (winning: Option<nat>)
    requires first < 7 && second < 6
    ensures BaseCells(tier, first, second).Some? <==> ScratchTier(tier).Some?
    ensures winning.Some? ==> winning.value < 7
    ensures ScratchTier(tier).Some? ==>
              && ScratchTier(tier).value.1 == Mark(SYMBOLS, winning)
              && forall f: nat, g: nat :: f < 7 && g < 6 ==>
                   BaseCells(tier, f, g) == Some((Cells(SYMBOLS, winning, f, g), Mark(SYMBOLS, winning)))
  {
    winning := None;
    if tier != "LOSS" {
      TierSymbol(tier);
      if TierIndex(tier, 0) < 7 { winning := Some(TierIndex(tier, 0)); }
    }
  }

  lemma TierSymbol(tier: string)
    requires tier != "LOSS"
    ensures var k := TierIndex(tier, 0);
            if k == 7 then ScratchTier(tier) == None
            else ScratchTier(tier) == Some((ScratchFrozen()[k + 1].multiplier, Some(SYMBOLS[k])))
  {
    assert TierIndex(tier, 0) ==
      if tier == "BREAK_EVEN" then 0 else if tier == "T2" then 1 else if tier == "T3" then 2
      else if tier == "T5" then 3 else if tier == "T10" then 4 else if tier == "T25" then 5
      else if tier == "TOP" then 6 else 7 by {
      TierIndexFrom(tier, 4);
      TierIndexFrom(tier, 2);
      TierIndexFrom(tier, 0);
    }
  }

  /** Unrolls two rows of the search. */
  lemma TierIndexFrom(tier: string, i: nat)
    requires i <= 4
    ensures TierIndex(tier, i) ==
      if ScratchFrozen()[i + 1].tier == tier then i
      else if ScratchFrozen()[i + 2].tier == tier then i + 1
      else TierIndex(tier, i + 2)
    ensures TierIndex(tier, 6) == if ScratchFrozen()[7].tier == tier then 6 else 7
  {
  }

  lemma LossCounts(symbols: seq<Symbol>, a: nat, b: nat)
    requires Complete(symbols) && a < 7 && b < 7 && a != b
    ensures CountsFit(multiset(symbols + [symbols[a], symbols[b]]), None)
    ensures multiset(symbols + [symbols[a], symbols[b]]) == multiset(symbols) + multiset{symbols[a], symbols[b]}
  {
    var m := multiset(symbols + [symbols[a], symbols[b]]);
    assert m == multiset(symbols) + multiset{symbols[a], symbols[b]};
    assert symbols[a] != symbols[b];
    assert (set s: Symbol | m[s] == 2) == {symbols[a], symbols[b]};
  }

  lemma Tripled(a: seq<Symbol>, w: Symbol, b: seq<Symbol>)
    ensures multiset([w, w, w] + a + b) == multiset(a + [w] + b) + multiset{w, w}
  {
  }

  lemma WinningCounts(symbols: seq<Symbol>, k: nat)
    requires Complete(symbols) && k < 7
    ensures multiset(Cells(symbols, Some(k), 0, 0)) == multiset(symbols) + multiset{symbols[k], symbols[k]}
    ensures CountsFit(multiset(Cells(symbols, Some(k), 0, 0)), Some(symbols[k]))
  {
    Tripled(symbols[..k], symbols[k], symbols[k + 1..]);
    assert symbols == symbols[..k] + [symbols[k]] + symbols[k + 1..];
  }

  lemma PairOf(twos: set<Symbol>) returns (a: Symbol, b: Symbol)
    requires |twos| == 2
    ensures a != b && twos == {a, b}
  {
    a :| a in twos;
    assert |twos - {a}| == 1;
    b :| b in twos - {a};
    assert |twos - {a} - {b}| == 0;
  }

  /** The two filler draws that double a given pair of symbols. */
  lemma FillerFor(symbols: seq<Symbol>, m: multiset<Symbol>) returns (first: nat, other: nat)
    requires Complete(symbols) && CountsFit(m, None)
    ensures first < other < 7
    ensures multiset(symbols + [symbols[first], symbols[other]]) == m
  {
    var twos := set s: Symbol | m[s] == 2;
    var a, b := PairOf(twos);
    assert a in symbols && b in symbols;
    var i :| 0 <= i < 7 && symbols[i] == a;
    var j :| 0 <= j < 7 && symbols[j] == b;
    first, other := if i < j then i else j, if i < j then j else i;
    LossCounts(symbols, first, other);
    forall s: Symbol ensures multiset(symbols + [symbols[first], symbols[other]])[s] == m[s] {
      assert s in twos <==> m[s] == 2;
    }
  }

  /** For any fitting counts some filler draws give base cells with the same counts. */
  lemma CountsReached(symbols: seq<Symbol>, winning: Option<nat>, m: multiset<Symbol>) returns (first: nat, second: nat)
    requires Complete(symbols) && (winning.Some? ==> winning.value < 7)
    requires CountsFit(m, Mark(symbols, winning))
    ensures first < 7 && second < 6 && multiset(Cells(symbols, winning, first, second)) == m
  {
    first, second := 0, 0;
    match winning {
      case None =>
        var other;
        first, other := FillerFor(symbols, m);
        second := other - 1;
      case Some(k) => WinCountsUnique(symbols, k, m);
    }
  }

  lemma WinCountsUnique(symbols: seq<Symbol>, k: nat, m: multiset<Symbol>)
    requires Complete(symbols) && k < 7 && CountsFit(m, Some(symbols[k]))
    ensures multiset(Cells(symbols, Some(k), 0, 0)) == m
  {
    WinningCounts(symbols, k);
    forall s: Symbol ensures multiset(Cells(symbols, Some(k), 0, 0))[s] == m[s] { }
  }

  lemma SymbolsOfMarked(symbols: seq<Symbol>, winning: Option<Symbol>)
    ensures Symbols(Marked(symbols, winning)) == symbols
  {
  }

  /** Every ticket the engine deals passes the bot's layout check. */
  lemma DealtAccepted(tier: string, first: nat, second: nat, c: seq<nat>)
    requires first < 7 && second < 6 && ValidChoices(c, 9) && ScratchTier(tier).Some?
    ensures Ticket(tier, first, second, c).Some? && LayoutAccepted(tier, Ticket(tier, first, second, c).value)
  {
    var winning := BaseKnown(tier, first, second);
    SymbolsComplete();
    DealtFits(SYMBOLS, winning, first, second, c);
  }

  lemma DealtFits(symbols: seq<Symbol>, winning: Option<nat>, first: nat, second: nat, c: seq<nat>)
    requires Complete(symbols) && first < 7 && second < 6 && ValidChoices(c, 9) && (winning.Some? ==> winning.value < 7)
    ensures var dealt := Marked(Shuffled(Cells(symbols, winning, first, second), c), Mark(symbols, winning));
            && |dealt| == 9 && CountsFit(multiset(Symbols(dealt)), Mark(symbols, winning))
            && forall i :: 0 <= i < 9 ==> dealt[i].matching == (Some(dealt[i].symbol) == Mark(symbols, winning))
  {
    var cells := Cells(symbols, winning, first, second);
    CellsFit(symbols, winning, first, second);
    ShuffledPermutes(cells, c);
    SymbolsOfMarked(Shuffled(cells, c), Mark(symbols, winning));
  }

  lemma LayoutDealt(symbols: seq<Symbol>, winning: Option<nat>, layout: seq<Cell>)
    returns (first: nat, second: nat, c: seq<nat>)
    requires Complete(symbols) && (winning.Some? ==> winning.value < 7) && |layout| == 9
    requires CountsFit(multiset(Symbols(layout)), Mark(symbols, winning))
    requires forall i :: 0 <= i < 9 ==> layout[i].matching == (Some(layout[i].symbol) == Mark(symbols, winning))
    ensures first < 7 && second < 6 && ValidChoices(c, 9)
    ensures Marked(Shuffled(Cells(symbols, winning, first, second), c), Mark(symbols, winning)) == layout
  {
    first, second := CountsReached(symbols, winning, multiset(Symbols(layout)));
    c := ShuffledOnto(Cells(symbols, winning, first, second), Symbols(layout));
    assert Marked(Symbols(layout), Mark(symbols, winning)) == layout;
  }

  /** Every layout the bot accepts is a ticket the engine can deal. */
  lemma AcceptedDealt(tier: string, layout: seq<Cell>) returns (first: nat, second: nat, c: seq<nat>)
    requires LayoutAccepted(tier, layout)
    ensures first < 7 && second < 6 && ValidChoices(c, 9)
    ensures Ticket(tier, first, second, c) == Some(layout)
  {
    var winning := BaseKnown(tier, 0, 0);
    SymbolsComplete();
    first, second, c := LayoutDealt(SYMBOLS, winning, layout);
  }

  /** The draws deal this ticket. */
  predicate Deals(tier: string, first: nat, second: nat, c: seq<nat>, layout: seq<Cell>) {
    first < 7 && second < 6 && ValidChoices(c, 9) && Ticket(tier, first, second, c) == Some(layout)
  }

  /** The tickets the engine can write down for a tier are exactly the texts the validator accepts for it. */
  lemma ReachableIsAccepted(tier: string, raw: seq<RawCell>)
    ensures RawAccepted(tier, raw) <==>
              exists first: nat, second: nat, c: seq<nat>, layout ::
                Deals(tier, first, second, c, layout) && Written(layout) == raw
  {
    if RawAccepted(tier, raw) {
      var layout :| Written(layout) == raw && LayoutAccepted(tier, layout);
      var first, second, c := AcceptedDealt(tier, layout);
      assert Deals(tier, first, second, c, layout);
    }
    forall first: nat, second: nat, c: seq<nat>, layout | Deals(tier, first, second, c, layout)
      ensures LayoutAccepted(tier, layout)
    {
      var _ := BaseKnown(tier, first, second);
      DealtAccepted(tier, first, second, c);
    }
  }

  /** A ticket sampled from any accepted prize table pays the multiplier the bot expects for its tier. */
  lemma SampledTicketKnown(version: string, prizes: seq<Prize>, sample: nat)
    requires Accepted(version, prizes, ScratchFrozen(), "scratch-prize-v1") && sample < WEIGHT_TOTAL
    ensures var p := PrizeAtSpec(prizes, sample);
            p.Ok? && ScratchTier(p.value.tier).Some? && ScratchTier(p.value.tier).value.0 == p.value.multiplier
  {
    SamplingTotal(version, prizes, ScratchFrozen(), "scratch-prize-v1", sample);
    var p := PrizeAtSpec(prizes, sample).value;
    assert Listed(p, ScratchFrozen());
  }
}
