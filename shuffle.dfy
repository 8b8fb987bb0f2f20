/**
 * The answer shuffler of the generation route. With probability 0.7 the drawn letter is `a`,
 * otherwise one of `b`, `c`, `d`. A letter other than `a` swaps slot 0, the correct
 * alternative, with the slot of that letter, in place. The question then records `a` as its
 * answer whatever letter was drawn.
 */
module Shuffle {

  /** The shuffle's two draws: `Math.random() < 0.7`, and `Math.floor(Math.random() * 3)`. */
  datatype ShuffleDraw = ShuffleDraw(keepFirst: bool, which: nat)

  predicate ValidShuffleDraw(sd: ShuffleDraw) {
    sd.which < 3
  }

  /** The letter drawn for the correct answer. */
  function DrawnLetter(sd: ShuffleDraw): (c: char)
    requires ValidShuffleDraw(sd)
    ensures c in "abcd"
    ensures (c == 'a') == sd.keepFirst
  {
    if sd.keepFirst then 'a' else "bcd"[sd.which]
  }

  /** `gabarito.charCodeAt(0) - 97`: the slot a letter names. */
  function Slot(c: char): int {
    c as int - 97
  }

  lemma SlotOfDrawnLetter(sd: ShuffleDraw)
    requires ValidShuffleDraw(sd)
    ensures 0 <= Slot(DrawnLetter(sd)) <= 3
    ensures (Slot(DrawnLetter(sd)) == 0) == sd.keepFirst
    ensures !sd.keepFirst ==> Slot(DrawnLetter(sd)) == sd.which + 1
  {
  }

  /** The list with slots 0 and `k` exchanged. */
  function Transposed(s: seq<string>, k: nat): (r: seq<string>)
    requires k < |s|
    ensures |r| == |s| && r[0] == s[k] && r[k] == s[0]
    ensures forall j :: 0 <= j < |s| && j != 0 && j != k ==> r[j] == s[j]
  {
    s[0 := s[k]][k := s[0]]
  }

  lemma SwapPermutes(s: seq<string>, k: nat)
    requires 0 < k < |s|
    ensures multiset(s[0 := s[k]][k := s[0]]) == multiset(s)
  {
    var mid, rest := s[1..k], s[k + 1..];
    assert s == [s[0]] + mid + [s[k]] + rest;
    assert s[0 := s[k]][k := s[0]] == [s[k]] + mid + [s[0]] + rest;
  }

  /** A transposition only moves alternatives around. */
  lemma TransposedPermutes(s: seq<string>, k: nat)
    requires k < |s|
    ensures multiset(Transposed(s, k)) == multiset(s)
  {
    if k > 0 {
      SwapPermutes(s, k);
    } else {
      assert Transposed(s, k) == s;
    }
  }

  /** Exchanging the same two slots twice restores the list. */
  lemma TransposedTwice(s: seq<string>, k: nat)
    requires k < |s|
    ensures Transposed(Transposed(s, k), k) == s
  {
  }

  /** The alternatives after the shuffle: unchanged for `a`, otherwise slot 0 exchanged with the drawn slot. */
  function Shuffled(alternativas: seq<string>, sd: ShuffleDraw): (r: seq<string>)
    requires ValidShuffleDraw(sd) && |alternativas| == 4
    ensures |r| == 4
    ensures multiset(r) == multiset(alternativas)
    ensures r[Slot(DrawnLetter(sd))] == alternativas[0]
    ensures sd.keepFirst ==> r == alternativas
    ensures !sd.keepFirst ==> r == Transposed(alternativas, sd.which + 1)
  {
    var c := DrawnLetter(sd);
    if c == 'a' then alternativas
    else
      TransposedPermutes(alternativas, Slot(c));
      Transposed(alternativas, Slot(c))
  }

  /**
   * The recorded answer `a` names the correct alternative only when no swap happened: when the
   * four alternatives differ and a swap took place, slot 0 no longer holds the correct one.
   */
  lemma RecordedAnswerMisplaced(alternativas: seq<string>, sd: ShuffleDraw)
    requires ValidShuffleDraw(sd) && |alternativas| == 4
    requires forall i, j | 0 <= i < j < 4 :: alternativas[i] != alternativas[j]
    ensures (Shuffled(alternativas, sd)[0] == alternativas[0]) == sd.keepFirst
  {
  }

  /** Lines 188-192 of the route: the in-place exchange of slot 0 with the drawn slot. */
  method ShuffleAlternatives(alternativas: array<string>, sd: ShuffleDraw) returns (gabarito: char)
    requires ValidShuffleDraw(sd) && alternativas.Length == 4
    modifies alternativas
    ensures gabarito == DrawnLetter(sd)
    ensures alternativas[..] == Shuffled(old(alternativas[..]), sd)
  {
    gabarito := if sd.keepFirst then 'a' else "bcd"[sd.which];
    if gabarito != 'a' {
      var k := gabarito as int - 97;
      var temp := alternativas[0];
      alternativas[0] := alternativas[k];
      alternativas[k] := temp;
    }
  }
}
