/** The top-stories carousel index (src/components/news/TopStories.tsx):
    the updaters that `handlePrev` and `handleNext` pass to
    `setCurrentIndex`, over the current index and the number of stories. */
module TopStories {

  /** `handleNext`: past the last story comes the first. */
  function Next(index: int, length: int): (r: int)
    ensures index == length - 1 ==> r == 0
    ensures index != length - 1 ==> r == index + 1
    ensures 0 <= index < length ==> 0 <= r < length
  {
    if index == length - 1 then 0 else index + 1
  }

  /** `handlePrev`: before the first story comes the last. */
  function Prev(index: int, length: int): (r: int)
    ensures index == 0 ==> r == length - 1
    ensures index != 0 ==> r == index - 1
    ensures 0 <= index < length ==> 0 <= r < length
  {
    if index == 0 then length - 1 else index - 1
  }

  /** The arrows and the automatic rotation are only active with more than
      one story. */
  predicate NavigationActive(length: int) {
    length > 1
  }

  /** On in-range indices the two updaters are rotation modulo the number of
      stories, and each undoes the other. */
  lemma NextPrevAreRotation(index: int, length: int)
    requires 0 <= index < length
    ensures Next(index, length) == (index + 1) % length
    ensures Prev(index, length) == (index - 1) % length
    ensures Prev(Next(index, length), length) == index
    ensures Next(Prev(index, length), length) == index
  {
  }

  /** `Next` applied `steps` times. */
  function NextN(index: int, length: int, steps: nat): (r: int)
    ensures 0 <= index < length ==> 0 <= r < length
  {
    if steps == 0 then index else Next(NextN(index, length, steps - 1), length)
  }

  /** Rotating forward `steps` times moves the index by `steps` modulo the
      number of stories; in particular `length` steps come back to the start. */
  lemma {:induction false} NextNIsModular(index: int, length: int, steps: nat)
    requires 0 <= index < length
    ensures NextN(index, length, steps) == (index + steps) % length
    ensures NextN(index, length, length) == index
  {
    NextNModular(index, length, steps);
    NextNModular(index, length, length);
    ModUnique(index + length, length, 1, index);
  }

  lemma {:induction false} NextNModular(index: int, length: int, steps: nat)
    requires 0 <= index < length
    ensures NextN(index, length, steps) == (index + steps) % length
  {
    if steps == 0 {
      ModUnique(index, length, 0, index);
    } else {
      NextNModular(index, length, steps - 1);
      ModSucc(index + steps - 1, length);
    }
  }

  /** The quotient and remainder of a division are unique. */
  lemma ModUnique(a: int, n: int, q: int, r: int)
    requires n > 0 && 0 <= r < n && a == q * n + r
    ensures a % n == r
  {
    var q', r' := a / n, a % n;
    assert q' * n + r' == q * n + r;
    if q' < q {
      MulMonotone(q' + 1, q, n);
    } else if q < q' {
      MulMonotone(q + 1, q', n);
    }
  }

  lemma MulMonotone(x: int, y: int, n: int)
    requires x <= y && n > 0
    ensures x * n <= y * n
    ensures (x - 1) * n + n == x * n
  {
    assert y * n - x * n == (y - x) * n;
  }

  /** Stepping the remainder by one is stepping the dividend by one. */
  lemma ModSucc(a: int, n: int)
    requires n > 0
    ensures Next(a % n, n) == (a + 1) % n
  {
    var q, r := a / n, a % n;
    if r + 1 < n {
      ModUnique(a + 1, n, q, r + 1);
    } else {
      assert a + 1 == (q + 1) * n;
      ModUnique(a + 1, n, q + 1, 0);
    }
  }

  /** With a single story both updaters leave the index at 0, so switching
      the controls off changes nothing; with no story `Prev` leaves the
      range, which the component guards by rendering nothing. */
  lemma SingleStoryIsFixed()
    ensures !NavigationActive(1) && Next(0, 1) == 0 && Prev(0, 1) == 0
    ensures Prev(0, 0) == -1
  {
  }
}
