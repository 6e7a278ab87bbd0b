/**
 * The card stack: the loaded records, the cursor on the foreground card, and
 * the up to three cards drawn below and behind it.
 */
module Cards {
  import opened Storage

  /**
   * One drawn card: the record at `index`, drawn `offset` places behind the
   * foreground with stacking order `zIndex`; only the foreground card casts a shadow.
   */
  datatype Card = Card(index: nat, offset: nat, zIndex: int, shadow: bool, task: Record)

  /** The cards the loop draws from `offset` on, stopping at offset 3 or at the first negative index. */
  function WindowFrom(tasks: seq<Record>, base: int, offset: nat): seq<Card>
    requires offset <= 3 && base < |tasks|
    decreases 3 - offset
  {
    if offset == 3 || base - offset < 0 then []
    else [Card(base - offset, offset, 3 - offset, offset == 0, tasks[base - offset])]
         + WindowFrom(tasks, base, offset + 1)
  }

  /** What `showCards(base)` draws: nothing for an empty list, otherwise the window below `base`. */
  function Window(tasks: seq<Record>, base: int): (w: seq<Card>)
    requires tasks == [] || base < |tasks|
    ensures |w| <= 3
    ensures forall k :: 0 <= k < |w| ==> w[k].index < |tasks| && w[k].task == tasks[w[k].index]
  {
    if tasks == [] then [] else WindowFromShape(tasks, base, 0); WindowFrom(tasks, base, 0)
  }

  function Min(a: int, b: int): int { if a <= b then a else b }

  /** The number of cards drawn for a non-empty list. */
  function WindowSize(base: int): nat { if base < 0 then 0 else Min(3, base + 1) }

  lemma {:induction false} WindowFromShape(tasks: seq<Record>, base: int, offset: nat)
    requires offset <= 3 && base < |tasks|
    ensures |WindowFrom(tasks, base, offset)| == if base - offset < 0 then 0 else Min(3 - offset, base - offset + 1)
    ensures forall k :: 0 <= k < |WindowFrom(tasks, base, offset)| ==>
      WindowFrom(tasks, base, offset)[k]
        == Card(base - offset - k, offset + k, 3 - offset - k, offset + k == 0, tasks[base - offset - k])
    decreases 3 - offset
  {
    if offset < 3 && base - offset >= 0 {
      WindowFromShape(tasks, base, offset + 1);
    }
  }

  /**
   * The drawn window: `min(3, base + 1)` cards for the indices base, base - 1, ...
   * in that order, each with its record, z-index `3 - offset`, and the shadow
   * on the first card alone; nothing when the list is empty.
   */
  lemma WindowShape(tasks: seq<Record>, base: int)
    requires tasks == [] || base < |tasks|
    ensures tasks == [] ==> Window(tasks, base) == []
    ensures tasks != [] ==> |Window(tasks, base)| == WindowSize(base)
    ensures forall k :: 0 <= k < |Window(tasks, base)| ==>
      var c := Window(tasks, base)[k];
      c.index == base - k && c.offset == k && c.task == tasks[base - k]
      && c.zIndex == 3 - k && (c.shadow <==> k == 0)
  {
    if tasks != [] {
      WindowFromShape(tasks, base, 0);
    }
  }

  /** After a reload the foreground card is the newest record, with the shadow. */
  lemma NewestInFront(tasks: seq<Record>)
    requires tasks != []
    ensures |Window(tasks, |tasks| - 1)| > 0
    ensures Window(tasks, |tasks| - 1)[0] == Card(|tasks| - 1, 0, 3, true, tasks[|tasks| - 1])
  {
  }

  /** The cursor after `showNext` on a list of `len` records: one on, wrapping from the last to the first. */
  function Next(c: int, len: int): (r: int)
    requires 0 <= c < len
    ensures 0 <= r < len
    ensures r == if c == len - 1 then 0 else c + 1
  {
    (c + 1) % len
  }

  /** The cursor after `showPrevious`: one back, wrapping from the first to the last. */
  function Previous(c: int, len: int): (r: int)
    requires 0 <= c < len
    ensures 0 <= r < len
    ensures r == if c == 0 then len - 1 else c - 1
  {
    (c - 1 + len) % len
  }

  /** Next and Previous undo each other; on a single record both stay put. */
  lemma NextPreviousInverse(c: int, len: int)
    requires 0 <= c < len
    ensures Previous(Next(c, len), len) == c
    ensures Next(Previous(c, len), len) == c
    ensures len == 1 ==> Next(c, len) == c && Previous(c, len) == c
  {
  }

  /** The cursor after `k` clicks on next. */
  function NextTimes(c: int, len: int, k: nat): (r: int)
    requires 0 <= c < len
    ensures 0 <= r < len
  {
    if k == 0 then c else Next(NextTimes(c, len, k - 1), len)
  }

  /** The cursor after `k` clicks on previous. */
  function PreviousTimes(c: int, len: int, k: nat): (r: int)
    requires 0 <= c < len
    ensures 0 <= r < len
  {
    if k == 0 then c else Previous(PreviousTimes(c, len, k - 1), len)
  }

  lemma MulAtLeast(d: int, n: int)
    requires d >= 1 && n > 0
    ensures d * n >= n
  {
  }

  /** The remainder is determined by any decomposition `a == q * n + r` with `0 <= r < n`. */
  lemma ModOfDecomposition(a: int, n: int, q: int, r: int)
    requires 0 <= r < n && a == q * n + r
    ensures a % n == r
  {
    var q', r' := a / n, a % n;
    assert a == q' * n + r';
    assert (q - q') * n == r' - r by {
      assert (q - q') * n == q * n - q' * n;
    }
    if q > q' {
      MulAtLeast(q - q', n);
    } else if q < q' {
      MulAtLeast(q' - q, n);
    }
  }

  /** Adding one to `a` moves its remainder one on, wrapping at `n`. */
  lemma ModSucc(a: int, n: int)
    requires n > 0
    ensures (a + 1) % n == if a % n == n - 1 then 0 else a % n + 1
  {
    var q, r := a / n, a % n;
    assert a == q * n + r;
    if r == n - 1 {
      assert a + 1 == (q + 1) * n + 0 by {
        assert (q + 1) * n == q * n + n;
      }
      ModOfDecomposition(a + 1, n, q + 1, 0);
    } else {
      ModOfDecomposition(a + 1, n, q, r + 1);
    }
  }

  /** Taking one from `a` moves its remainder one back, wrapping at 0. */
  lemma ModPred(a: int, n: int)
    requires n > 0
    ensures (a - 1) % n == if a % n == 0 then n - 1 else a % n - 1
  {
    var q, r := a / n, a % n;
    assert a == q * n + r;
    if r == 0 {
      assert a - 1 == (q - 1) * n + (n - 1) by {
        assert (q - 1) * n == q * n - n;
      }
      ModOfDecomposition(a - 1, n, q - 1, n - 1);
    } else {
      ModOfDecomposition(a - 1, n, q, r - 1);
    }
  }

  /** Navigation is circular: `k` clicks on next move the cursor to `(c + k) mod len`. */
  lemma {:induction false} NextTimesIsModular(c: int, len: int, k: nat)
    requires 0 <= c < len
    ensures NextTimes(c, len, k) == (c + k) % len
  {
    if k == 0 {
      ModOfDecomposition(c, len, 0, c);
    } else {
      NextTimesIsModular(c, len, k - 1);
      ModSucc(c + k - 1, len);
    }
  }

  /** `k` clicks on previous move the cursor to `(c - k) mod len`, the remainder taken non-negative. */
  lemma {:induction false} PreviousTimesIsModular(c: int, len: int, k: nat)
    requires 0 <= c < len
    ensures PreviousTimes(c, len, k) == (c - k) % len
  {
    if k == 0 {
      ModOfDecomposition(c, len, 0, c);
    } else {
      PreviousTimesIsModular(c, len, k - 1);
      ModPred(c - k + 1, len);
    }
  }

  /** `len` clicks either way bring the cursor back to where it started. */
  lemma FullCycle(c: int, len: int)
    requires 0 <= c < len
    ensures NextTimes(c, len, len) == c && PreviousTimes(c, len, len) == c
  {
    NextTimesIsModular(c, len, len);
    ModOfDecomposition(c + len, len, 1, c);
    PreviousTimesIsModular(c, len, len);
    ModOfDecomposition(c - len, len, -1, c);
  }

  /** The module-level state `allTasks` / `currentIndex` and the content of the card list. */
  class Deck {
    var allTasks: seq<Record>
    var currentIndex: int
    var cards: seq<Card>

    /** The cursor is on a record whenever there is one, and the drawn cards are the window below it. */
    ghost predicate Valid()
      reads this
    {
      (allTasks == [] || 0 <= currentIndex < |allTasks|)
      && cards == Window(allTasks, currentIndex)
    }

    /** The state before the first load: no records, cursor 0, empty card list. */
    constructor ()
      ensures Valid()
      ensures allTasks == [] && currentIndex == 0 && cards == []
    {
      allTasks := [];
      currentIndex := 0;
      cards := [];
    }

    /** `showCards(baseIndex)`: clears the card list and draws the window below `baseIndex`. */
    method ShowCards(baseIndex: int)
      requires allTasks == [] || baseIndex < |allTasks|
      modifies this`cards
      ensures cards == Window(allTasks, baseIndex)
      ensures old(Valid()) && baseIndex == currentIndex ==> Valid()
    {
      cards := [];
      if |allTasks| == 0 {
        return;
      }
      var offset := 0;
      while offset < 3
        invariant 0 <= offset <= 3
        invariant cards + WindowFrom(allTasks, baseIndex, offset) == WindowFrom(allTasks, baseIndex, 0)
      {
        var i := baseIndex - offset;
        if i < 0 {
          break;
        }
        cards := cards + [Card(i, offset, 3 - offset, offset == 0, allTasks[i])];
        offset := offset + 1;
      }
    }

    /** `showPrevious`: nothing on an empty list; otherwise one card back, wrapping, and redraw. */
    method ShowPrevious()
      requires Valid()
      modifies this`currentIndex, this`cards
      ensures Valid() && allTasks == old(allTasks)
      ensures old(allTasks) == [] ==> currentIndex == old(currentIndex) && cards == old(cards)
      ensures old(allTasks) != [] ==> currentIndex == Previous(old(currentIndex), |allTasks|)
    {
      if |allTasks| == 0 {
        return;
      }
      currentIndex := (currentIndex - 1 + |allTasks|) % |allTasks|;
      ShowCards(currentIndex);
    }

    /** `showNext`: nothing on an empty list; otherwise one card on, wrapping, and redraw. */
    method ShowNext()
      requires Valid()
      modifies this`currentIndex, this`cards
      ensures Valid() && allTasks == old(allTasks)
      ensures old(allTasks) == [] ==> currentIndex == old(currentIndex) && cards == old(cards)
      ensures old(allTasks) != [] ==> currentIndex == Next(old(currentIndex), |allTasks|)
    {
      if |allTasks| == 0 {
        return;
      }
      currentIndex := (currentIndex + 1) % |allTasks|;
      ShowCards(currentIndex);
    }

    /** `loadTasksAndRender`: reloads the list from the store and puts the newest record in front. */
    method LoadTasksAndRender(store: TaskStore)
      modifies this
      ensures Valid()
      ensures allTasks == store.Load()
      ensures currentIndex == |allTasks| - 1
    {
      allTasks := store.Load();
      currentIndex := |allTasks| - 1;
      ShowCards(currentIndex);
    }
  }
}
