/**
 * The game helpers of imposter-game/src/lib/game-utils.ts (server.js:30-37 and
 * server.js:57-60 hold verbatim copies of `generateGameCode` and `selectRandomImposters`,
 * so the server uses these definitions). `Math.random` becomes an explicit parameter.
 */
module GameUtils {
  import opened Shuffle

  /** The alphabet of game codes: the upper-case letters, then the digits. */
  const Chars: string := "ABCDEFGHIJKLMNOPQRSTUVWXYZ0123456789"

  /** A game code has this many characters. */
  const CodeLength: nat := 6

  /** Points for a correct vote before the time bonus. */
  const BasePoints: int := 100

  /** `selectRandomImposters` picks this many ids when its caller gives no count. */
  const DefaultImposterCount: int := 1

  predicate IsCodeChar(c: char) {
    'A' <= c <= 'Z' || '0' <= c <= '9'
  }

  /** `Chars` holds exactly the characters A-Z and 0-9. */
  lemma CharsAreTheCodeAlphabet()
    ensures |Chars| == 36
    ensures forall c :: c in Chars <==> IsCodeChar(c)
  {
  }

  /** A position of `c` in `Chars`. */
  ghost function CharIndex(c: char): (k: nat)
    requires c in Chars
    ensures k < |Chars| && Chars[k] == c
  {
    var k :| 0 <= k < |Chars| && Chars[k] == c; k
  }

  /** Six draws of `Math.floor(Math.random() * chars.length)`, each below 36. */
  predicate ValidDraws(draws: seq<nat>) {
    |draws| == CodeLength && forall i :: 0 <= i < |draws| ==> draws[i] < |Chars|
  }

  /** The code that the draws select. */
  function CodeOf(draws: seq<nat>): string
    requires ValidDraws(draws)
  {
    seq(CodeLength, i requires 0 <= i < CodeLength => Chars[draws[i]])
  }

  /** `generateGameCode`: appends one drawn character per iteration. */
  method GenerateGameCode(draws: seq<nat>) returns (code: string)
    requires ValidDraws(draws)
    ensures code == CodeOf(draws)
    ensures |code| == CodeLength
    ensures forall i :: 0 <= i < |code| ==> IsCodeChar(code[i])
  {
    CharsAreTheCodeAlphabet();
    code := "";
    for i := 0 to CodeLength
      invariant code == CodeOf(draws)[..i]
    {
      code := code + [Chars[draws[i]]];
    }
    assert forall i :: 0 <= i < |code| ==> code[i] in Chars;
  }

  /** Every six-character string over A-Z0-9 is some run's code: the generator covers the
      whole code space of 36^6 codes (it does not retry on a collision, server.js:87). */
  lemma EveryCodeCanBeGenerated(code: string)
    requires |code| == CodeLength && forall i :: 0 <= i < |code| ==> IsCodeChar(code[i])
    ensures exists draws :: ValidDraws(draws) && CodeOf(draws) == code
  {
    CharsAreTheCodeAlphabet();
    var draws := seq(CodeLength, i requires 0 <= i < CodeLength => CharIndex(code[i]));
    assert ValidDraws(draws);
    assert CodeOf(draws) == code;
  }

  /** `calculatePoints`. The floating-point time bonus `Math.floor((1 - responseTime /
      maxTime) * 50)` is the parameter `timeBonus`; an incorrect vote is worth nothing. */
  function CalculatePoints(isCorrectVote: bool, timeBonus: int): (r: int)
    ensures !isCorrectVote ==> r == 0
    ensures isCorrectVote ==> r == BasePoints + timeBonus
  {
    if !isCorrectVote then 0 else BasePoints + timeBonus
  }

  /** Where JavaScript's `slice(0, count)` stops on a list of length `len`: a negative
      count counts from the end. */
  function SliceEnd(len: nat, count: int): (e: nat)
    ensures e <= len
  {
    if count < 0 then (if len + count < 0 then 0 else len + count)
    else if count < len then count
    else len
  }

  /** `selectRandomImposters(playerIds, count)`: the first `count` ids of a shuffled copy. */
  function SelectRandomImposters(playerIds: seq<string>, count: int, perm: seq<nat>): (r: seq<string>)
    requires IsPermutation(perm, |playerIds|)
    ensures 0 <= count ==> |r| == (if count < |playerIds| then count else |playerIds|)
    ensures count < 0 ==> |r| == (if |playerIds| + count < 0 then 0 else |playerIds| + count)
    ensures forall x :: x in r ==> x in playerIds
    ensures NoDup(playerIds) ==> NoDup(r)
  {
    Shuffled(playerIds, perm)[..SliceEnd(|playerIds|, count)]
  }

  /** Any one of the ids can come out as the single imposter. */
  lemma AnyPlayerCanBeImposter(playerIds: seq<string>, k: nat)
    requires k < |playerIds|
    ensures exists perm :: IsPermutation(perm, |playerIds|) &&
              SelectRandomImposters(playerIds, DefaultImposterCount, perm) == [playerIds[k]]
  {
    var n := |playerIds|;
    var perm := Swap(Identity(n), 0, k);
    SwapIsPermutation(Identity(n), n, 0, k);
    assert SelectRandomImposters(playerIds, DefaultImposterCount, perm) == [playerIds[k]];
  }
}
