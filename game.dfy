/**
 * Card rules and the deck (server/lib/game.js): the four colours, the fixed
 * 76-card deck, the in-place Fisher-Yates shuffle and the two card predicates.
 */
module Game {
  import opened Options
  import opened Seqs

  type Color = string

  /** The colours, in the order the deck is built. */
  const COLORS: seq<Color> := ["R", "G", "B", "Y"]

  /** A card as the server builds it: a colour string and a number. */
  datatype Card = Card(color: Color, value: int)

  // ---------------------------------------------------------------------------
  // Card predicates. A card the client sends may be missing (`null`/`undefined`).

  /** `cardEquals(a, b)`: both cards present, with the same colour and value. */
  predicate CardEquals(a: Option<Card>, b: Option<Card>)
    ensures CardEquals(a, b) <==> a.Some? && a == b
  {
    a.Some? && b.Some? && a.value.color == b.value.color && a.value.value == b.value.value
  }

  /** `canPlay(card, top)`: both present, and the colours or the values match. */
  predicate CanPlay(card: Option<Card>, top: Option<Card>)
    ensures card.None? || top.None? ==> !CanPlay(card, top)
  {
    if card.None? || top.None? then false
    else card.value.color == top.value.color || card.value.value == top.value.value
  }

  /** `canPlayClient`, the client's copy of `canPlay` (written out twice in the client). */
  predicate CanPlayClient(card: Option<Card>, topCard: Option<Card>)
    ensures CanPlayClient(card, topCard) == CanPlay(card, topCard)
  {
    if card.None? || topCard.None? then false
    else card.value.color == topCard.value.color || card.value.value == topCard.value.value
  }

  /** `cardEquals` is an equivalence on present cards. */
  lemma CardEqualsEquivalence(a: Option<Card>, b: Option<Card>, c: Option<Card>)
    ensures a.Some? ==> CardEquals(a, a)
    ensures CardEquals(a, b) == CardEquals(b, a)
    ensures CardEquals(a, b) && CardEquals(b, c) ==> CardEquals(a, c)
  {
  }

  /** `canPlay` is symmetric, holds between equal cards and, on present cards, is exactly "same colour or same value". */
  lemma CanPlayProperties(card: Option<Card>, top: Option<Card>)
    ensures CanPlay(card, top) == CanPlay(top, card)
    ensures CardEquals(card, top) ==> CanPlay(card, top)
    ensures card.Some? && top.Some? ==>
              (CanPlay(card, top) <==> card.value.color == top.value.color || card.value.value == top.value.value)
  {
  }

  // ---------------------------------------------------------------------------
  // The deck, as a specification: one block of 19 cards per colour.

  /** The cards the inner loop pushes for values 1..n: each value twice, in increasing order. */
  function Pairs(c: Color, n: nat): (r: seq<Card>)
    ensures |r| == 2 * n
  {
    seq(2 * n, k requires 0 <= k < 2 * n => Card(c, k / 2 + 1))
  }

  /** The pairs for 1..n are those for 1..n-1 followed by two copies of value n. */
  lemma PairsSnoc(c: Color, n: nat)
    requires n > 0
    ensures Pairs(c, n) == Pairs(c, n - 1) + [Card(c, n), Card(c, n)]
  {
    var r, rest := Pairs(c, n), Pairs(c, n - 1) + [Card(c, n), Card(c, n)];
    forall k | 0 <= k < 2 * n
      ensures r[k] == rest[k]
    {
      if k >= 2 * (n - 1) {
        assert k / 2 + 1 == n;
      }
    }
  }

  /** The block of one colour: its 0, then 1, 1, 2, 2, ..., 9, 9. */
  function Block(c: Color): (r: seq<Card>)
    ensures |r| == 19
  {
    [Card(c, 0)] + Pairs(c, 9)
  }

  /** The blocks of the colours `cs`, in order. */
  function Blocks(cs: seq<Color>): (r: seq<Card>)
    ensures |r| == 19 * |cs|
  {
    if cs == [] then [] else Blocks(cs[..|cs| - 1]) + Block(cs[|cs| - 1])
  }

  /** The deck `createDeck` builds. */
  function Deck(): seq<Card> {
    Blocks(COLORS)
  }

  /** How many copies of value `v` a colour has: one 0, two of each 1..9, none of anything else. */
  function CopiesPerColor(v: int): nat {
    if v == 0 then 1 else if 1 <= v <= 9 then 2 else 0
  }

  /**
   * `createDeck()`: for each colour, push its 0 and then each of 1..9 twice,
   * appending to a growing array.
   */
  method CreateDeck() returns (deck: seq<Card>)
    ensures deck == Deck()
  {
    deck := [];
    for k := 0 to |COLORS|
      invariant deck == Blocks(COLORS[..k])
    {
      var color := COLORS[k];
      ghost var done := deck;
      deck := deck + [Card(color, 0)];
      for v := 1 to 10
        invariant deck == done + ([Card(color, 0)] + Pairs(color, v - 1))
      {
        deck := deck + [Card(color, v)];
        deck := deck + [Card(color, v)];
        PairsSnoc(color, v);
      }
      BlocksSnoc(COLORS, k);
    }
    assert COLORS[..|COLORS|] == COLORS;
  }

  /** One more colour appends its block. */
  lemma BlocksSnoc(cs: seq<Color>, k: nat)
    requires k < |cs|
    ensures Blocks(cs[..k + 1]) == Blocks(cs[..k]) + Block(cs[k])
  {
    assert cs[..k + 1][..k] == cs[..k];
  }

  // ---------------------------------------------------------------------------
  // Properties of the deck.

  /** Position `k` of a block holds value (k + 1) / 2: 0, 1, 1, 2, 2, ... */
  lemma BlockAt(c: Color, k: nat)
    requires k < 19
    ensures Block(c)[k] == Card(c, (k + 1) / 2)
  {
    if k > 0 {
      assert Block(c)[k] == Pairs(c, 9)[k - 1];
    }
  }

  /** Position `i` of the blocks lies in the block of colour i / 19, at offset i % 19. */
  lemma {:induction false} BlocksAt(cs: seq<Color>, i: nat)
    requires i < 19 * |cs|
    ensures i / 19 < |cs| && Blocks(cs)[i] == Block(cs[i / 19])[i % 19]
  {
    var init := cs[..|cs| - 1];
    if i < 19 * |init| {
      BlocksAt(init, i);
      assert cs[i / 19] == init[i / 19];
    }
  }

  /** The deck has 76 cards, and index i holds colour COLORS[i / 19] with value ((i % 19) + 1) / 2. */
  lemma DeckLayout(i: nat)
    requires i < 76
    ensures |Deck()| == 76
    ensures Deck()[i] == Card(COLORS[i / 19], (i % 19 + 1) / 2)
  {
    BlocksAt(COLORS, i);
    BlockAt(COLORS[i / 19], i % 19);
  }

  /** Every card of the deck has a colour of COLORS and a value in 0..9. */
  lemma DeckCardsWellFormed(card: Card)
    requires card in Deck()
    ensures card.color in COLORS && 0 <= card.value <= 9
  {
    var i :| 0 <= i < |Deck()| && Deck()[i] == card;
    DeckLayout(i);
  }

  lemma {:induction false} PairsCount(c: Color, n: nat, card: Card)
    ensures multiset(Pairs(c, n))[card] == if card.color == c && 1 <= card.value <= n then 2 else 0
  {
    if n > 0 {
      PairsCount(c, n - 1, card);
      PairsSnoc(c, n);
      CountAfterNextPair(Pairs(c, n - 1), c, n, card);
    }
  }

  /** Appending the pair for value n adds two copies of Card(c, n) and nothing else. */
  lemma CountAfterNextPair(rest: seq<Card>, c: Color, n: nat, card: Card)
    ensures multiset(rest + [Card(c, n), Card(c, n)])[card]
            == multiset(rest)[card] + if card.color == c && card.value == n then 2 else 0
  {
    CountAfterPair(rest, Card(c, n), card);
    if card.color == c && card.value == n {
      assert card == Card(c, n);
    } else {
      assert card != Card(c, n);
    }
  }

  lemma CountAfterPair<T>(xs: seq<T>, x: T, y: T)
    ensures multiset(xs + [x, x])[y] == multiset(xs)[y] + if x == y then 2 else 0
  {
    assert multiset(xs + [x, x]) == multiset(xs) + multiset{x, x};
  }

  lemma BlockCount(c: Color, card: Card)
    ensures multiset(Block(c))[card] == if card.color == c then CopiesPerColor(card.value) else 0
  {
    PairsCount(c, 9, card);
  }

  lemma {:induction false} BlocksCount(cs: seq<Color>, card: Card)
    requires NoDuplicates(cs)
    ensures multiset(Blocks(cs))[card] == if card.color in cs then CopiesPerColor(card.value) else 0
  {
    if cs != [] {
      var init, last := cs[..|cs| - 1], cs[|cs| - 1];
      assert cs == init + [last];
      assert NoDuplicates(init) by {
        forall i, j | 0 <= i < j < |init| ensures init[i] != init[j] {
          assert init[i] == cs[i] && init[j] == cs[j];
        }
      }
      assert last !in init by {
        forall i | 0 <= i < |init| ensures init[i] != last {
          assert init[i] == cs[i];
        }
      }
      BlocksCount(init, card);
      BlockCount(last, card);
      assert multiset(Blocks(cs)) == multiset(Blocks(init)) + multiset(Block(last));
    }
  }

  /**
   * The deck's contents: for each colour of COLORS exactly one 0 and exactly
   * two of each of 1..9; no other card occurs.
   */
  lemma DeckCount(card: Card)
    ensures multiset(Deck())[card] == if card.color in COLORS then CopiesPerColor(card.value) else 0
  {
    ColorsDistinct();
    BlocksCount(COLORS, card);
  }

  /** The four colours are different strings. */
  lemma ColorsDistinct()
    ensures NoDuplicates(COLORS)
  {
    assert COLORS[0][0] == 'R' && COLORS[1][0] == 'G' && COLORS[2][0] == 'B' && COLORS[3][0] == 'Y';
  }

  // ---------------------------------------------------------------------------
  // Shuffling. `Math.floor(Math.random() * (i + 1))` becomes the caller's pick
  // picks[i], an index in [0, i]; picks[0] is never used.

  predicate ValidPicks(picks: seq<int>) {
    forall i :: 0 < i < |picks| ==> 0 <= picks[i] <= i
  }

  /** Exchange the elements at i and j. */
  function Swap<T>(s: seq<T>, i: nat, j: nat): (r: seq<T>)
    requires i < |s| && j < |s|
    ensures |r| == |s|
    ensures r[i] == s[j] && r[j] == s[i]
    ensures forall k :: 0 <= k < |s| && k != i && k != j ==> r[k] == s[k]
  {
    s[i := s[j]][j := s[i]]
  }

  /** The shuffle steps for indices i, i-1, ..., 1, applied to s. */
  function Steps<T>(s: seq<T>, picks: seq<int>, i: nat): (r: seq<T>)
    requires i < |s| == |picks| && ValidPicks(picks)
    ensures |r| == |s|
    decreases i
  {
    if i == 0 then s else Steps(Swap(s, i, picks[i]), picks, i - 1)
  }

  /** The result of the whole shuffle loop, which runs from the last index down to 1. */
  function Shuffle<T>(s: seq<T>, picks: seq<int>): (r: seq<T>)
    requires |s| == |picks| && ValidPicks(picks)
    ensures |r| == |s|
    ensures |s| <= 1 ==> r == s
  {
    if |s| == 0 then s else Steps(s, picks, |s| - 1)
  }

  /** Every step only exchanges two elements, so the steps permute their input. */
  lemma {:induction false} StepsPermute<T>(s: seq<T>, picks: seq<int>, i: nat)
    requires i < |s| == |picks| && ValidPicks(picks)
    ensures multiset(Steps(s, picks, i)) == multiset(s)
    decreases i
  {
    if i > 0 {
      var t := Swap(s, i, picks[i]);
      assert multiset(t) == multiset(s);
      StepsPermute(t, picks, i - 1);
    }
  }

  /** For every choice of picks, the shuffle keeps the length and is a permutation of its input. */
  lemma ShufflePermutes<T>(s: seq<T>, picks: seq<int>)
    requires |s| == |picks| && ValidPicks(picks)
    ensures |Shuffle(s, picks)| == |s|
    ensures multiset(Shuffle(s, picks)) == multiset(s)
  {
    if |s| > 0 {
      StepsPermute(s, picks, |s| - 1);
    }
  }

  /**
   * Once the step for index i has run, the later steps never touch the
   * positions above i; and the step for index i settles position i on the
   * element picked for it.
   */
  lemma {:induction false} StepsAt<T>(s: seq<T>, picks: seq<int>, i: nat, k: nat)
    requires i <= k < |s| == |picks| && ValidPicks(picks)
    ensures i < k ==> Steps(s, picks, i)[k] == s[k]
    ensures 0 < i == k ==> Steps(s, picks, i)[k] == s[picks[i]]
    decreases i
  {
    if i > 0 {
      StepsAt(Swap(s, i, picks[i]), picks, i - 1, k);
    }
  }

  /**
   * `shuffleInPlace(array)`: for i from the last index down to 1, swap
   * positions i and picks[i]; returns the same array.
   */
  method ShuffleInPlace<T>(a: array<T>, picks: seq<int>) returns (r: array<T>)
    requires |picks| == a.Length && ValidPicks(picks)
    modifies a
    ensures r == a
    ensures a[..] == Shuffle(old(a[..]), picks)
  {
    ghost var start := a[..];
    var i := a.Length - 1;
    while i > 0
      invariant -1 <= i < a.Length
      invariant i == -1 ==> a.Length == 0 && start == []
      invariant i >= 0 ==> Steps(a[..], picks, i) == Shuffle(start, picks)
    {
      var j := picks[i];
      ghost var before := a[..];
      var tmp := a[i];
      a[i] := a[j];
      a[j] := tmp;
      SwapStep(before, a[..], picks, i);
      assert Steps(a[..], picks, i - 1) == Shuffle(start, picks);
      i := i - 1;
    }
    r := a;
  }

  /** One iteration of the shuffle loop: swapping i with picks[i] leaves steps i-1..1 to go. */
  lemma SwapStep<T>(before: seq<T>, after: seq<T>, picks: seq<int>, i: nat)
    requires 0 < i < |before| == |after| == |picks| && ValidPicks(picks)
    requires after[i] == before[picks[i]] && after[picks[i]] == before[i]
    requires forall k :: 0 <= k < |before| && k != i && k != picks[i] ==> after[k] == before[k]
    ensures Steps(before, picks, i) == Steps(after, picks, i - 1)
  {
    assert after == Swap(before, i, picks[i]);
  }
}
