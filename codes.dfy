/** Room codes: short strings of a fixed length over the upper-case ASCII
    alphabet, drawn letter by letter from a random source (app.py:31-37). */
module RoomCodes {

  /** The size of Python's `string.ascii_uppercase`, "A" to "Z". */
  const AlphabetSize: nat := 26

  /** The length create-room asks the generator for. */
  const CodeLength: nat := 6

  type Code = string

  predicate IsUppercase(c: char) {
    'A' <= c <= 'Z'
  }

  predicate AllUppercase(s: string) {
    forall i :: 0 <= i < |s| ==> IsUppercase(s[i])
  }

  /** `ascii_uppercase[pick]`: the alphabet's letters are consecutive from 'A'. */
  function Letter(pick: nat): (c: char)
    requires pick < AlphabetSize
    ensures IsUppercase(c) && c as int - 'A' as int == pick
  {
    ('A' as int + pick) as char
  }

  /** `Letter` picks from Python's `string.ascii_uppercase`. */
  lemma LetterIsAsciiUppercase(pick: nat)
    requires pick < AlphabetSize
    ensures Letter(pick) == "ABCDEFGHIJKLMNOPQRSTUVWXYZ"[pick]
  {
  }

  /** The shape of every code the generator hands out for create-room. */
  predicate IsRoomCode(s: string) {
    |s| == CodeLength && AllUppercase(s)
  }

  /** One attempt's picks: each is the index `random.choice` chose in the alphabet. */
  predicate ValidPicks(picks: seq<nat>) {
    forall i :: 0 <= i < |picks| ==> picks[i] < AlphabetSize
  }

  /** The random source: one round of `length` picks per attempt of the retry loop. */
  predicate WellFormedDraws(rounds: seq<seq<nat>>, length: nat) {
    forall k :: 0 <= k < |rounds| ==> |rounds[k]| == length && ValidPicks(rounds[k])
  }

  /** The code that one round of picks spells. */
  function Spell(picks: seq<nat>): (code: string)
    requires ValidPicks(picks)
    ensures |code| == |picks|
    ensures forall i :: 0 <= i < |code| ==> code[i] == Letter(picks[i])
    ensures AllUppercase(code)
  {
    if picks == [] then [] else [Letter(picks[0])] + Spell(picks[1..])
  }

  /** `"".join(random.choice(ascii_uppercase) for _ in range(length))`, with
      the choices made in advance: one letter per pick, in order. */
  method DrawCode(picks: seq<nat>) returns (code: string)
    requires ValidPicks(picks)
    ensures code == Spell(picks)
  {
    code := "";
    var i := 0;
    while i < |picks|
      invariant 0 <= i <= |picks| && |code| == i
      invariant forall m :: 0 <= m < i ==> code[m] == Letter(picks[m])
    {
      code := code + [Letter(picks[i])];
      i := i + 1;
    }
  }
}
