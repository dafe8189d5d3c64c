/** Rust `usize` counters and the arithmetic of a runner pane's vertical
    scroll state: the auto-follow rule applied when a captured line arrives,
    and the bounded moves of the `j`/`k` keys. */
module Scrolling {

  /** Largest value of Rust's `usize` on a 64-bit target. */
  const USIZE_MAX: nat := 0xFFFF_FFFF_FFFF_FFFF

  /** Rust's `usize`. */
  type usize = x: nat | x <= USIZE_MAX

  /** `x.saturating_add(1)`. */
  function SatInc(x: usize): (r: usize)
    ensures x <= r <= x + 1
    ensures r == x <==> x == USIZE_MAX
  {
    if x < USIZE_MAX then x + 1 else x
  }

  /** `x.saturating_sub(1)`. */
  function SatDec(x: usize): (r: usize)
    ensures r <= x && x <= r + 1
    ensures r == x <==> x == 0
  {
    if x > 0 then x - 1 else 0
  }

  /** A count kept with saturating increments: `n` capped at `USIZE_MAX`. */
  function SatLen(n: nat): (r: usize)
    ensures r <= n
    ensures n <= USIZE_MAX ==> r == n
    ensures n > USIZE_MAX ==> r == USIZE_MAX
  {
    if n <= USIZE_MAX then n else USIZE_MAX
  }

  /** `vertical_scroll_position` and `vertical_scroll_size` of one runner. */
  datatype Scroll = Scroll(position: usize, size: usize)

  /** The view invariant: the position never passes the extent. */
  predicate InView(s: Scroll) {
    s.position <= s.size
  }

  /** The scroll update made for one captured line: the extent grows by one
      (saturating); the position follows only when the view was at the
      bottom. */
  function AfterAppend(s: Scroll): (r: Scroll)
    ensures r.size == SatInc(s.size)
    ensures InView(s) ==> InView(r)
    ensures s.position == s.size ==> r.position == r.size
    ensures s.position != s.size ==> r.position == s.position
  {
    Scroll(if s.position == s.size then SatInc(s.position) else s.position, SatInc(s.size))
  }

  /** The scroll state after `n` captured lines. */
  function AfterAppends(s: Scroll, n: nat): Scroll
    decreases n
  {
    if n == 0 then s else AfterAppends(AfterAppend(s), n - 1)
  }

  /** `n + 1` appends are `n` appends followed by one more. */
  lemma {:induction false} AppendsStep(s: Scroll, n: nat)
    ensures AfterAppends(s, n + 1) == AfterAppend(AfterAppends(s, n))
    decreases n
  {
    if n > 0 {
      AppendsStep(AfterAppend(s), n - 1);
    }
  }

  /** `m` appends followed by `n` more are `m + n` appends. */
  lemma {:induction false} AppendsCompose(s: Scroll, m: nat, n: nat)
    ensures AfterAppends(AfterAppends(s, m), n) == AfterAppends(s, m + n)
    decreases m
  {
    if m > 0 {
      AppendsCompose(AfterAppend(s), m - 1, n);
    }
  }

  /** Appending never breaks the view invariant. */
  lemma {:induction false} AppendsKeepInView(s: Scroll, n: nat)
    requires InView(s)
    ensures InView(AfterAppends(s, n))
    decreases n
  {
    if n > 0 {
      AppendsKeepInView(AfterAppend(s), n - 1);
    }
  }

  /** The extent counts every appended line, saturating at `USIZE_MAX`. */
  lemma {:induction false} AppendsExtent(s: Scroll, n: nat)
    ensures AfterAppends(s, n).size == SatLen(s.size + n)
    decreases n
  {
    if n > 0 {
      AppendsExtent(AfterAppend(s), n - 1);
    }
  }

  /** Auto-follow: a view at the bottom stays at the bottom, so its position
      advances by exactly `n` (until the extent saturates). */
  lemma {:induction false} AppendsAtBottomFollow(s: Scroll, n: nat)
    requires s.position == s.size
    ensures AfterAppends(s, n).position == AfterAppends(s, n).size == SatLen(s.size + n)
    decreases n
  {
    AppendsExtent(s, n);
    if n > 0 {
      AppendsAtBottomFollow(AfterAppend(s), n - 1);
    }
  }

  /** A view scrolled up keeps its position however many lines arrive,
      while the extent still grows by `n`. */
  lemma {:induction false} AppendsScrolledUpStay(s: Scroll, n: nat)
    requires s.position < s.size
    ensures AfterAppends(s, n) == Scroll(s.position, SatLen(s.size + n))
    decreases n
  {
    AppendsExtent(s, n);
    if n > 0 {
      AppendsScrolledUpStay(AfterAppend(s), n - 1);
    }
  }

  /** The `j` / Down key: one line further, only while below the extent. */
  function ScrollDown(s: Scroll): (r: Scroll)
    ensures r.size == s.size
    ensures InView(s) ==> InView(r)
    ensures s.position < s.size ==> r.position == s.position + 1
    ensures s.position >= s.size ==> r == s
  {
    Scroll(if s.position < s.size then SatInc(s.position) else s.position, s.size)
  }

  /** The `k` / Up key: one line back, only while above the top. */
  function ScrollUp(s: Scroll): (r: Scroll)
    ensures r.size == s.size
    ensures InView(s) ==> InView(r)
    ensures s.position > 0 ==> r.position + 1 == s.position
    ensures s.position == 0 ==> r == s
  {
    Scroll(if s.position > 0 then SatDec(s.position) else s.position, s.size)
  }

  /** Up undoes a Down that moved. */
  lemma UpUndoesDown(s: Scroll)
    requires s.position < s.size
    ensures ScrollUp(ScrollDown(s)) == s
  {
  }

  /** Down undoes an Up that moved. */
  lemma DownUndoesUp(s: Scroll)
    requires InView(s) && 0 < s.position
    ensures ScrollDown(ScrollUp(s)) == s
  {
  }
}
