/** The typed result of a fast game as it is derived, stored and read back: internal/games/service.go (derive,
    persistTyped) and internal/games/read.go (readRoundMode). */
module Outcomes {
  import opened Wrappers
  import opened PrizeTable
  import opened Wagers
  import opened FastGames
  import opened FairReturn
  import Shuffle
  import ScratchCard

  /** Cost and payout as multiples of the base wager. */
  datatype Payoff = Payoff(cost: int, payout: int, outcome: Class)

  function PayoffOf(cost: int, payout: int): Payoff { Payoff(cost, payout, ClassOf(payout - cost)) }

  datatype Draw = Draw(index: nat, tier: string, multiplier: int)

  datatype Typed =
    | DiceResult(dice: seq<nat>, total: nat, side: Side, choice: Side)
    | TicketResult(tier: string, cells: seq<ScratchCard.RawCell>)
    | DrawsResult(mode: string, draws: seq<Draw>, highest: string)

  /** What a player is shown of a settled fast game. */
  datatype Outcome = Outcome(typed: Typed, payoff: Payoff)

  /** The rows stored for it; cells and draws are keyed by their index. */
  datatype Rows =
    | NoRows
    | DiceRow(die1: nat, die2: nat, die3: nat, choice: Side)
    | TicketRows(tier: string, multiplier: int, cells: map<nat, ScratchCard.RawCell>)
    | SummonRows(mode: string, highest: string, draws: map<nat, Draw>)

  // -------------------------------------------------------------- deriving

  /** Classifies given faces; triples pay nothing here, whatever the ruleset. */
  function EvaluateDice(dice: seq<nat>, choice: Side): Option<Outcome>
    requires |dice| == 3
  {
    if choice == Triple || exists i :: 0 <= i < 3 && !(1 <= dice[i] <= 6) then None
    else
      Some(Outcome(DiceResult(dice, dice[0] + dice[1] + dice[2], Classify(dice), choice),
                   PayoffOf(1, DiceMultiple(dice, choice, false))))
  }

  /** The roll of a seed; under the rules with pushed triples a triple returns the wager. */
  function Rolled(source: Source, pushOnTriple: bool, choice: Side): Option<Outcome> {
    match EvaluateDice(Faces(source), choice)
    case None => None
    case Some(o) => Some(if Classify(Faces(source)) == Triple && pushOnTriple then o.(payoff := PayoffOf(1, 1)) else o)
  }

  function LayoutDraws(source: Source): (c: seq<nat>)
    ensures Shuffle.ValidChoices(c, 9)
  {
    seq(9, i requires 0 <= i < 9 => source("scratch:layout", i + 1))
  }

  function Scratched(source: Source, prizes: seq<Prize>): Option<Outcome> {
    match PrizeAtSpec(prizes, source("scratch:prize", 100_000))
    case Err(_) => None
    case Ok(p) =>
      match ScratchCard.Ticket(p.tier, source("scratch:filler", 7), source("scratch:filler", 6), LayoutDraws(source))
      case None => None
      case Some(cells) => Some(Outcome(TicketResult(p.tier, ScratchCard.Written(cells)), PayoffOf(1, p.multiplier)))
  }

  function DrawsOf(source: Source, prizes: seq<Prize>, n: nat): (draws: seq<Draw>)
    requires forall i :: 1 <= i <= n ==> DrawPrize(source, prizes, i).Ok?
    ensures |draws| == n
  {
    if n == 0 then []
    else
      var p := DrawPrize(source, prizes, n).value;
      DrawsOf(source, prizes, n - 1) + [Draw(n, p.tier, p.multiplier)]
  }

  lemma {:induction false} GreaterTransitive(a: string, b: string, c: string)
    requires !Greater(a, b) && Greater(c, b)
    ensures !Greater(a, c)
  {
    if a != "" && b != "" && c != "" && a[0] == b[0] == c[0] {
      GreaterTransitive(a[1..], b[1..], c[1..]);
    }
  }

  /** The tier carried on after one more draw. */
  function Higher(tier: string, highest: string): string { if Greater(tier, highest) then tier else highest }

  /** `highest` is the greatest tier of the draws, or the blank tier all rounds start from. */
  predicate IsHighest(draws: seq<Draw>, highest: string) {
    && (forall k :: 0 <= k < |draws| ==> !Greater(draws[k].tier, highest))
    && (highest == "T0" || exists k :: 0 <= k < |draws| && draws[k].tier == highest)
  }

  lemma HighestStep(draws: seq<Draw>, highest: string, draw: Draw)
    requires IsHighest(draws, highest)
    ensures IsHighest(draws + [draw], Higher(draw.tier, highest))
  {
    var more, next := draws + [draw], Higher(draw.tier, highest);
    GreaterIrreflexive(draw.tier);
    forall k | 0 <= k < |more| ensures !Greater(more[k].tier, next) {
      if k < |draws| && next != highest { GreaterTransitive(draws[k].tier, highest, next); }
    }
    if next == draw.tier {
      assert more[|draws|].tier == next;
    } else if next != "T0" {
      var k :| 0 <= k < |draws| && draws[k].tier == next;
      assert more[k].tier == next;
    }
  }

  lemma {:induction false} GreaterIrreflexive(a: string)
    ensures !Greater(a, a)
  {
    if a != "" { GreaterIrreflexive(a[1..]); }
  }

  function HighestOf(draws: seq<Draw>): string {
    if draws == [] then "T0" else Higher(draws[|draws| - 1].tier, HighestOf(draws[..|draws| - 1]))
  }

  function Summoned(source: Source, prizes: seq<Prize>, mode: string): Option<Outcome> {
    var n := Draws(Summon, mode);
    if exists i :: 1 <= i <= n && DrawPrize(source, prizes, i).Err? then None
    else
      var draws := DrawsOf(source, prizes, n);
      Some(Outcome(DrawsResult(mode, draws, HighestOf(draws)), PayoffOf(n, DrawTotal(source, prizes, n))))
  }

  /** What a seed means for a wager; None where the mapping reports an error. */
  function Derived(game: Game, input: Input, c: Config, source: Source): (r: Option<Outcome>)
    ensures r.Some? ==> ThreeDice(r.value.typed)
  {
    match game
    case Dice => if c.DiceConfig? then Rolled(source, c.pushOnTriple, Choice(input)) else None
    case Scratch => if c.PrizeConfig? then Scratched(source, c.prizes) else None
    case Summon => if c.PrizeConfig? then Summoned(source, c.prizes, input.mode) else None
    case Blackjack => None
  }

  /** With a configuration the constructors make every seed has an outcome, and it pays the multiple of the guard's
      bound. */
  lemma DerivedPays(game: Game, input: Input, c: Config, source: Source)
    requires game != Blackjack && ValidConfig(game, c)
    ensures Derived(game, input, c, source).Some? && Multiple(game, input, c, source).Some?
    ensures Derived(game, input, c, source).value.payoff.payout == Multiple(game, input, c, source).value
  {
    MultipleBounded(game, input, c, source);
    match game {
      case Dice =>
      case Scratch =>
        ScratchCard.SampledTicketKnown(c.version, c.prizes, source("scratch:prize", 100_000));
        var p := PrizeAtSpec(c.prizes, source("scratch:prize", 100_000)).value;
        ScratchCard.DealtAccepted(p.tier, source("scratch:filler", 7), source("scratch:filler", 6),
                                  LayoutDraws(source));
      case Summon =>
    }
  }

  method DeriveDice(source: Source, pushOnTriple: bool, choice: Side) returns (r: Option<Outcome>)
    requires choice != Triple
    ensures r == Rolled(source, pushOnTriple, choice)
  {
    var dice, multiple := RollDice(source, pushOnTriple, choice);
    r := Some(Outcome(DiceResult(dice[..], dice[0] + dice[1] + dice[2], Classify(dice[..]), choice),
                      PayoffOf(1, multiple)));
  }

  method MarkCells(symbols: seq<ScratchCard.Symbol>, matching: Option<ScratchCard.Symbol>)
    returns (cells: seq<ScratchCard.RawCell>)
    ensures cells == ScratchCard.Written(ScratchCard.Marked(symbols, matching))
  {
    ghost var written := ScratchCard.Written(ScratchCard.Marked(symbols, matching));
    cells := [];
    for i := 0 to |symbols|
      invariant cells == written[..i]
    {
      var cell := ScratchCard.RawCell(ScratchCard.SymbolText(symbols[i]), Some(symbols[i]) == matching);
      assert written[i] == cell;
      cells := cells + [cell];
    }
  }

  method DeriveTicket(source: Source, prizes: seq<Prize>) returns (r: Option<Outcome>)
    ensures r == Scratched(source, prizes)
  {
    var prize := PrizeAt(prizes, source("scratch:prize", 100_000));
    if prize.Err? {
      return None;
    }
    var p := prize.value;
    var base := ScratchCard.ScratchMultiset(p.tier, source("scratch:filler", 7), source("scratch:filler", 6));
    if base.None? {
      return None;
    }
    var (symbols, matching) := base.value;
    var layout := new ScratchCard.Symbol[9](i requires 0 <= i < 9 => symbols[i]);
    assert layout[..] == symbols;
    Shuffle.ShuffleInPlace(layout, LayoutDraws(source));
    var cells := MarkCells(layout[..], matching);
    r := Some(Outcome(TicketResult(p.tier, cells), PayoffOf(1, p.multiplier)));
  }

  /** The first n draws in order, their sum, and the greatest tier among them. */
  ghost predicate DrawnTo(source: Source, prizes: seq<Prize>, n: nat, draws: seq<Draw>, highest: string, payout: int) {
    && (forall k :: 1 <= k <= n ==> DrawPrize(source, prizes, k).Ok?)
    && draws == DrawsOf(source, prizes, n) && payout == DrawTotal(source, prizes, n)
    && highest == HighestOf(draws) && IsHighest(draws, highest)
  }

  lemma DrawnNext(source: Source, prizes: seq<Prize>, n: nat, draws: seq<Draw>, highest: string, payout: int, p: Prize)
    requires DrawnTo(source, prizes, n, draws, highest, payout) && DrawPrize(source, prizes, n + 1) == Ok(p)
    ensures DrawnTo(source, prizes, n + 1, draws + [Draw(n + 1, p.tier, p.multiplier)], Higher(p.tier, highest),
                    payout + p.multiplier)
  {
    var draw := Draw(n + 1, p.tier, p.multiplier);
    HighestStep(draws, highest, draw);
    assert (draws + [draw])[..n] == draws;
  }

  method DeriveDraws(source: Source, prizes: seq<Prize>, mode: string) returns (r: Option<Outcome>)
    ensures r == Summoned(source, prizes, mode)
    ensures r.Some? ==> r.value.typed.DrawsResult? && IsHighest(r.value.typed.draws, r.value.typed.highest)
  {
    var draws: seq<Draw> := [];
    var highest := "T0";
    var payout := 0;
    for i := 0 to Draws(Summon, mode)
      invariant DrawnTo(source, prizes, i, draws, highest, payout)
    {
      var prize := PrizeAt(prizes, source(DrawDomain(i + 1), 100_000));
      if prize.Err? {
        assert DrawPrize(source, prizes, i + 1).Err?;
        return None;
      }
      DrawnNext(source, prizes, i, draws, highest, payout, prize.value);
      draws := draws + [Draw(i + 1, prize.value.tier, prize.value.multiplier)];
      if Greater(prize.value.tier, highest) {
        highest := prize.value.tier;
      }
      payout := payout + prize.value.multiplier;
    }
    r := Some(Outcome(DrawsResult(mode, draws, highest), PayoffOf(Draws(Summon, mode), payout)));
  }

  method Derive(game: Game, input: Input, c: Config, source: Source) returns (r: Option<Outcome>)
    ensures r == Derived(game, input, c, source)
  {
    match game
    case Dice =>
      if !c.DiceConfig? {
        return None;
      }
      r := DeriveDice(source, c.pushOnTriple, Choice(input));
    case Scratch =>
      if !c.PrizeConfig? {
        return None;
      }
      r := DeriveTicket(source, c.prizes);
    case Summon =>
      if !c.PrizeConfig? {
        return None;
      }
      r := DeriveDraws(source, c.prizes, input.mode);
    case Blackjack => r := None;
  }

  // --------------------------------------------------------------- storing

  /** The rows of a table in the order of their index, which must run without a gap from `first`. */
  function InOrder<T>(rows: map<nat, T>, first: nat, count: nat): Option<seq<T>> {
    if (forall i :: i in rows ==> first <= i < first + count) && forall i :: first <= i < first + count ==> i in rows
    then Some(RowsFrom(rows, first, count))
    else None
  }

  function RowsFrom<T>(rows: map<nat, T>, first: nat, count: nat): (s: seq<T>)
    requires forall i :: first <= i < first + count ==> i in rows
    ensures |s| == count
  {
    if count == 0 then [] else RowsFrom(rows, first, count - 1) + [rows[first + count - 1]]
  }

  /** One row for each element, numbered from `first`. */
  function Tabled<T>(s: seq<T>, first: nat): (rows: map<nat, T>)
    ensures forall i: nat :: i in rows <==> first <= i < first + |s|
    ensures forall i: nat :: i in rows ==> rows[i] == s[i - first]
  {
    if s == [] then map[]
    else
      var n := |s| - 1;
      Tabled(s[..n], first)[first + n := s[n]]
  }

  lemma {:induction false} TabledListed<T>(s: seq<T>, first: nat, n: nat)
    requires n <= |s|
    ensures RowsFrom(Tabled(s, first), first, n) == s[..n]
  {
    if n > 0 { TabledListed(s, first, n - 1); }
  }

  lemma TabledInOrder<T>(s: seq<T>, first: nat)
    ensures InOrder(Tabled(s, first), first, |s|) == Some(s)
  {
    TabledListed(s, first, |s|);
    assert s[..|s|] == s;
  }

  predicate ThreeDice(t: Typed) { t.DiceResult? ==> |t.dice| == 3 }

  function Stored(o: Outcome): Rows
    requires ThreeDice(o.typed)
  {
    match o.typed
    case DiceResult(dice, _, _, choice) => DiceRow(dice[0], dice[1], dice[2], choice)
    case TicketResult(tier, cells) => TicketRows(tier, o.payoff.payout, Tabled(cells, 0))
    case DrawsResult(mode, draws, highest) => SummonRows(mode, highest, Tabled(draws, 1))
  }

  method InsertRows<T>(s: seq<T>, first: nat) returns (rows: map<nat, T>)
    ensures rows == Tabled(s, first)
  {
    rows := map[];
    for i := 0 to |s|
      invariant rows == Tabled(s[..i], first)
    {
      assert s[..i + 1][..i] == s[..i];
      rows := rows[first + i := s[i]];
    }
    assert s[..|s|] == s;
  }

  method PersistTyped(o: Outcome) returns (rows: Rows)
    requires ThreeDice(o.typed)
    ensures rows == Stored(o)
  {
    match o.typed
    case DiceResult(dice, _, _, choice) => rows := DiceRow(dice[0], dice[1], dice[2], choice);
    case TicketResult(tier, cells) =>
      var table := InsertRows(cells, 0);
      rows := TicketRows(tier, o.payoff.payout, table);
    case DrawsResult(mode, draws, highest) =>
      var table := InsertRows(draws, 1);
      rows := SummonRows(mode, highest, table);
  }

  // ---------------------------------------------------------- reading back

  method LeastIndex(keys: set<nat>) returns (k: nat)
    requires keys != {}
    ensures k in keys && forall j :: j in keys ==> k <= j
  {
    k :| k in keys;
    var rest := keys - {k};
    while rest != {}
      invariant k in keys && rest <= keys && forall j :: j in keys && j !in rest ==> k <= j
      decreases |rest|
    {
      var j :| j in rest;
      if j < k {
        k := j;
      }
      rest := rest - {j};
    }
  }

  /** The scan in order of the index, given up at the first gap or stray row. */
  method ScanRows<T>(rows: map<nat, T>, first: nat, count: nat) returns (r: Option<seq<T>>)
    ensures r == InOrder(rows, first, count)
  {
    var rest := rows.Keys;
    var read: seq<T> := [];
    while rest != {}
      invariant forall i :: i in rest <==> i in rows && !(first <= i < first + |read|)
      invariant forall i :: first <= i < first + |read| ==> i in rows
      invariant read == RowsFrom(rows, first, |read|)
      decreases |rest|
    {
      var i := LeastIndex(rest);
      if i != first + |read| {
        assert InOrder(rows, first, count).Some? ==> first + |read| in rows;
        return None;
      }
      read := read + [rows[i]];
      rest := rest - {i};
    }
    assert |read| > count ==> first + count in rows;
    assert |read| < count ==> first + |read| !in rows;
    r := if |read| == count then Some(read) else None;
  }

  method ReadTyped(game: Game, rows: Rows) returns (r: Option<Outcome>)
    ensures r == ReadBack(game, rows)
  {
    match (game, rows)
    case (Dice, DiceRow(d1, d2, d3, choice)) => r := EvaluateDice([d1, d2, d3], choice);
    case (Scratch, TicketRows(tier, multiplier, table)) =>
      var cells := ScanRows(table, 0, 9);
      r := if cells.None? then None else Some(Outcome(TicketResult(tier, cells.value), PayoffOf(1, multiplier)));
    case (Summon, SummonRows(mode, highest, table)) =>
      var count := if mode == "TENFOLD" then 10 else 1;
      var draws := ScanRows(table, 1, count);
      if draws.None? {
        return None;
      }
      var payout := 0;
      for i := 0 to |draws.value|
        invariant payout == SumOfDraws(draws.value[..i])
      {
        assert draws.value[..i + 1][..i] == draws.value[..i];
        payout := payout + draws.value[i].multiplier;
      }
      assert draws.value[..|draws.value|] == draws.value;
      r := Some(Outcome(DrawsResult(mode, draws.value, highest), PayoffOf(count, payout)));
    case (_, _) => r := None;
  }

  function SumOfDraws(draws: seq<Draw>): int {
    if draws == [] then 0 else SumOfDraws(draws[..|draws| - 1]) + draws[|draws| - 1].multiplier
  }

  /** The outcome as rebuilt from its rows: no configuration, and so no ruleset, is at hand. */
  function ReadBack(game: Game, rows: Rows): Option<Outcome> {
    match (game, rows)
    case (Dice, DiceRow(d1, d2, d3, choice)) => EvaluateDice([d1, d2, d3], choice)
    case (Scratch, TicketRows(tier, multiplier, cells)) =>
      (match InOrder(cells, 0, 9)
       case None => None
       case Some(read) => Some(Outcome(TicketResult(tier, read), PayoffOf(1, multiplier))))
    case (Summon, SummonRows(mode, highest, draws)) =>
      var count := if mode == "TENFOLD" then 10 else 1;
      (match InOrder(draws, 1, count)
       case None => None
       case Some(read) => Some(Outcome(DrawsResult(mode, read, highest), PayoffOf(count, SumOfDraws(read)))))
    case (_, _) => None
  }

  /** The rows of a game can be read; a blackjack hand has none here. */
  predicate Readable(game: Game, rows: Rows) { game == Blackjack || ReadBack(game, rows).Some? }

  /** A triple that was pushed. */
  predicate PushedTriple(game: Game, c: Config, source: Source) {
    game == Dice && c.DiceConfig? && c.pushOnTriple && Classify(Faces(source)) == Triple
  }

  lemma {:induction false} DrawsSum(source: Source, prizes: seq<Prize>, n: nat)
    requires forall i :: 1 <= i <= n ==> DrawPrize(source, prizes, i).Ok?
    ensures SumOfDraws(DrawsOf(source, prizes, n)) == DrawTotal(source, prizes, n)
  {
    if n > 0 {
      DrawsSum(source, prizes, n - 1);
      var draws := DrawsOf(source, prizes, n);
      assert draws[..n - 1] == DrawsOf(source, prizes, n - 1);
    }
  }

  /** The outcome as it will be read back. */
  function AsRead(game: Game, c: Config, source: Source, o: Outcome): Outcome {
    if PushedTriple(game, c, source) then o.(payoff := PayoffOf(1, 0)) else o
  }

  /** What is read back is what was answered, but for pushed triples, which are read back as lost. */
  lemma ReadBackExactly(game: Game, input: Input, c: Config, source: Source)
    requires Derived(game, input, c, source).Some?
    ensures var o := Derived(game, input, c, source).value;
            && ThreeDice(o.typed) && ReadBack(game, Stored(o)) == Some(AsRead(game, c, source, o))
            && (AsRead(game, c, source, o) == o <==> !PushedTriple(game, c, source))
  {
    match game {
      case Dice => DiceReadBack(source, c.pushOnTriple, Choice(input));
      case Scratch => TicketReadBack(source, c.prizes);
      case Summon => DrawsReadBack(source, c.prizes, input.mode);
    }
  }

  lemma DiceReadBack(source: Source, pushOnTriple: bool, choice: Side)
    requires Rolled(source, pushOnTriple, choice).Some?
    ensures var o := Rolled(source, pushOnTriple, choice).value;
            var pushed := pushOnTriple && Classify(Faces(source)) == Triple;
            && ThreeDice(o.typed) && (pushed ==> o.payoff != PayoffOf(1, 0))
            && ReadBack(Dice, Stored(o)) == Some(if pushed then o.(payoff := PayoffOf(1, 0)) else o)
  {
    var dice := Faces(source);
    assert [dice[0], dice[1], dice[2]] == dice;
  }

  lemma TicketReadBack(source: Source, prizes: seq<Prize>)
    requires Scratched(source, prizes).Some?
    ensures var o := Scratched(source, prizes).value;
            ThreeDice(o.typed) && ReadBack(Scratch, Stored(o)) == Some(o)
  {
    TabledInOrder(Scratched(source, prizes).value.typed.cells, 0);
  }

  lemma DrawsReadBack(source: Source, prizes: seq<Prize>, mode: string)
    requires Summoned(source, prizes, mode).Some?
    ensures var o := Summoned(source, prizes, mode).value;
            ThreeDice(o.typed) && ReadBack(Summon, Stored(o)) == Some(o)
  {
    var n := Draws(Summon, mode);
    DrawsSum(source, prizes, n);
    DrawRowsRead(mode, DrawsOf(source, prizes, n), HighestOf(DrawsOf(source, prizes, n)), n);
  }

  lemma DrawRowsRead(mode: string, draws: seq<Draw>, highest: string, n: nat)
    requires |draws| == n == Draws(Summon, mode)
    ensures ReadBack(Summon, SummonRows(mode, highest, Tabled(draws, 1)))
         == Some(Outcome(DrawsResult(mode, draws, highest), PayoffOf(n, SumOfDraws(draws))))
  {
    TabledInOrder(draws, 1);
  }
}
