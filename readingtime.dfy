/** The reading-time estimate attached to every post:
    `round(len(body.split(" ")) / 270.0)`, computed here in exact integers. */
module ReadingTime {

  /** Words read per minute. */
  const WordsPerMinute: nat := 270

  /** Number of ' ' characters in `s`. */
  function CountSpaces(s: string): nat
  {
    if s == [] then 0 else CountSpaces(s[..|s| - 1]) + (if s[|s| - 1] == ' ' then 1 else 0)
  }

  /** `len(s.split(" "))`: splitting on single spaces yields one more piece than there are spaces. */
  function SplitCount(s: string): nat
  {
    CountSpaces(s) + 1
  }

  /** Python's `round(n / 270)`: to the nearest integer, ties to the even one. */
  function RoundHalfEven(n: nat): nat
  {
    var q := n / WordsPerMinute;
    var r := n % WordsPerMinute;
    if 2 * r < WordsPerMinute then q
    else if 2 * r > WordsPerMinute then q + 1
    else if q % 2 == 0 then q
    else q + 1
  }

  /** Reading time in minutes of a post body. */
  function Minutes(body: string): nat
  {
    RoundHalfEven(SplitCount(body))
  }

  /** `k` is a nearest integer to n / 270, and the even one on a tie. */
  ghost predicate NearestEven(n: nat, k: int)
  {
    var dist := if 270 * k >= n then 270 * k - n else n - 270 * k;
    2 * dist <= 270 && (2 * dist == 270 ==> k % 2 == 0)
  }

  /** The integer formula is the rounding Python performs: it is the nearest, ties to even,
      and it is the only such integer. */
  lemma RoundHalfEvenIsNearestEven(n: nat)
    ensures NearestEven(n, RoundHalfEven(n))
    ensures forall k :: NearestEven(n, k) ==> k == RoundHalfEven(n)
  {
    var q := n / 270;
    var r := n % 270;
    assert n == 270 * q + r;
    forall k | NearestEven(n, k) ensures k == RoundHalfEven(n) {
      assert q - 1 < k < q + 2;
    }
  }

  /** The space count is the number of ' ' in the body, whichever way it is counted. */
  lemma {:induction false} CountSpacesIsMultiplicity(s: string)
    ensures CountSpaces(s) == multiset(s)[' ']
  {
    if s != [] {
      var init := s[..|s| - 1];
      CountSpacesIsMultiplicity(init);
      assert s == init + [s[|s| - 1]];
    }
  }

  /** An empty body, or one of at most 134 spaces, takes 0 minutes (134 spaces is the tie
      135/270, which rounds to the even 0), and 135 to 403 spaces take 1 (404 spaces is the
      tie 405/270, which rounds to 2); each further 270 spaces add one minute. */
  lemma MinutesBounds(body: string)
    ensures CountSpaces(body) <= 134 ==> Minutes(body) == 0
    ensures 135 <= CountSpaces(body) <= 403 ==> Minutes(body) == 1
    ensures 270 * Minutes(body) <= CountSpaces(body) + 1 + 135
    ensures CountSpaces(body) + 1 <= 270 * Minutes(body) + 135
  {
    RoundHalfEvenIsNearestEven(SplitCount(body));
  }
}
