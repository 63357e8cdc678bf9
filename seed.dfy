/**
 * The seed boards of the two demo pages. Both number their cards with one
 * counter shared by every `getCards` call of a page, so ids never repeat.
 */
module SeedData {
  import opened Text
  import opened Data

  /** The seed card numbered `n`. */
  function SeedCard(n: nat): Card
  {
    Card("card:" + NatToString(n), "Card " + NatToString(n))
  }

  /** The `amount` seed cards numbered from `from` on, in order. */
  function NumberedCards(from: nat, amount: nat): (cards: seq<Card>)
    ensures |cards| == amount
    ensures forall k | 0 <= k < amount :: cards[k] == SeedCard(from + k)
  {
    seq(amount, (k: int) requires 0 <= k => SeedCard(from + k))
  }

  /** Numbering one more card appends it. */
  lemma NumberedCardsSnoc(from: nat, amount: nat)
    ensures NumberedCards(from, amount + 1) == NumberedCards(from, amount) + [SeedCard(from + amount)]
  {
    assert NumberedCards(from, amount + 1)[..amount] == NumberedCards(from, amount);
  }

  /** Two consecutive runs of numbering are one run. */
  lemma NumberedCardsSplit(from: nat, m: nat, n: nat)
    ensures NumberedCards(from, m) + NumberedCards(from + m, n) == NumberedCards(from, m + n)
  {
  }

  /** Distinct numbers give distinct card ids. */
  lemma SeedCardIdsDistinct(a: nat, b: nat)
    ensures SeedCard(a).id == SeedCard(b).id <==> a == b
  {
    if SeedCard(a).id == SeedCard(b).id {
      PrefixedNatInjective("card:", a, b);
    }
  }

  /** A sequence without repeats holds every value at most once. */
  lemma {:induction false} DistinctAtMostOnce(s: seq<string>)
    requires forall i, j | 0 <= i < j < |s| :: s[i] != s[j]
    ensures forall x :: multiset(s)[x] <= 1
    decreases |s|
  {
    if |s| > 0 {
      var prefix, last := s[..|s| - 1], s[|s| - 1];
      assert s == prefix + [last];
      DistinctAtMostOnce(prefix);
      assert last !in prefix by {
        forall k | 0 <= k < |prefix| ensures prefix[k] != last {
          assert prefix[k] == s[k];
        }
      }
      assert multiset(s) == multiset(prefix) + multiset{last};
    }
  }

  /** No id occurs twice among consecutively numbered cards. */
  lemma NumberedIdsOnce(from: nat, amount: nat)
    ensures forall id :: multiset(IdsOf(NumberedCards(from, amount)))[id] <= 1
  {
    var ids := IdsOf(NumberedCards(from, amount));
    forall i, j | 0 <= i < j < |ids| ensures ids[i] != ids[j] {
      SeedCardIdsDistinct(from + i, from + j);
    }
    DistinctAtMostOnce(ids);
  }

  /** The page's `getCards` closure and the counter it shares. */
  class CardCounter {
    var count: nat

    constructor ()
      ensures count == 0
    {
      count := 0;
    }

    /** Make `amount` cards numbered on from the counter, advancing it by `amount`. */
    method GetCards(amount: nat) returns (cards: seq<Card>)
      modifies this
      ensures count == old(count) + amount
      ensures cards == NumberedCards(old(count), amount)
    {
      cards := [];
      var i: nat := 0;
      while i < amount
        invariant i <= amount
        invariant count == old(count) + i
        invariant cards == NumberedCards(old(count), i)
      {
        var id := count;
        count := count + 1;
        NumberedCardsSnoc(old(count), i);
        cards := cards + [SeedCard(id)];
        i := i + 1;
      }
    }
  }

  /** The two-column page's board: thirty cards in "Column A", then five in "Column B". */
  function TwoColumnsBoard(): Board
  {
    Board([Column("column:a", "Column A", NumberedCards(0, 30)),
           Column("column:b", "Column B", NumberedCards(30, 5))])
  }

  /** The one-column page's board: sixty cards in "Column A". */
  function OneColumnBoard(): Board
  {
    Board([Column("column:a", "Column A", NumberedCards(0, 60))])
  }

  /** Every card id of the two-column board occurs once; there are 35 cards. */
  lemma TwoColumnsBoardUnique()
    ensures UniqueIds(TwoColumnsBoard())
    ensures CardCount(TwoColumnsBoard().columns) == 35
  {
    var columns := TwoColumnsBoard().columns;
    TwoColumnIds(columns[0], columns[1]);
    NumberedCardsSplit(0, 30, 5);
    IdsOfConcat(NumberedCards(0, 30), NumberedCards(30, 5));
    NumberedIdsOnce(0, 35);
    assert BoardIds(columns) == multiset(IdsOf(NumberedCards(0, 35)));
    BoardIdsCount(columns);
  }

  /** Every card id of the one-column board occurs once; there are 60 cards. */
  lemma OneColumnBoardUnique()
    ensures UniqueIds(OneColumnBoard())
    ensures CardCount(OneColumnBoard().columns) == 60
  {
    var columns := OneColumnBoard().columns;
    assert columns[..0] == [];
    assert BoardIds(columns) == multiset(IdsOf(NumberedCards(0, 60)));
    NumberedIdsOnce(0, 60);
    BoardIdsCount(columns);
  }
}

/** The two-column demo page. */
module TwoColumnsPage {
  import opened Data
  import opened SeedData

  /** `getInitialData`: one fresh counter numbers column A's cards, then column B's. */
  method GetInitialData() returns (board: Board)
    ensures board == TwoColumnsBoard()
    ensures UniqueIds(board)
  {
    var counter := new CardCounter();
    var a := counter.GetCards(30);
    var b := counter.GetCards(5);
    var columns := [Column("column:a", "Column A", a), Column("column:b", "Column B", b)];
    board := Board(columns);
    TwoColumnsBoardUnique();
  }
}

/** The one-column demo page. */
module OneColumnPage {
  import opened Data
  import opened SeedData

  /** `getInitialData`: sixty numbered cards in a single column. */
  method GetInitialData() returns (board: Board)
    ensures board == OneColumnBoard()
    ensures UniqueIds(board)
  {
    var counter := new CardCounter();
    var cards := counter.GetCards(60);
    board := Board([Column("column:a", "Column A", cards)]);
    OneColumnBoardUnique();
  }
}
