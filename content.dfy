/** The content panel of the running-scenario screen
    (pkg/tui/components/content.go): the scenario's title, description and
    namespace, a status line, quick commands, and a list of hints shown one
    at a time. The scrolling viewport is reduced to its size. */
module Content {
  import opened Common

  /** The hint index after moving forward through `n` hints; nothing moves
      when there are no hints. Go's `%` truncates toward zero. */
  function NextHintIndex(i: int, n: int): (r: int)
    ensures n <= 0 ==> r == i
    ensures 0 <= i < n ==> 0 <= r < n
  {
    if n > 0 then GoRem(i + 1, n) else i
  }

  /** The hint index after moving back through `n` hints. */
  function PrevHintIndex(i: int, n: int): (r: int)
    ensures n <= 0 ==> r == i
    ensures 0 <= i < n ==> 0 <= r < n
  {
    if n > 0 then GoRem(i - 1 + n, n) else i
  }

  /** Dafny's `%` on an index inside [0, 2n); the wrap step of HintStepsWrap. */
  lemma ModBelowTwice(x: int, n: int)
    requires 0 <= x < 2 * n
    ensures x % n == (if x < n then x else x - n)
  {
    if x < n {
      assert x == 0 * n + x;
    } else {
      assert x == 1 * n + (x - n);
    }
  }

  /** From an index inside the list, Next steps forward and wraps from the
      last hint to the first, and Prev steps back and wraps from the first
      to the last. */
  lemma HintStepsWrap(i: int, n: int)
    requires 0 <= i < n
    ensures NextHintIndex(i, n) == (if i == n - 1 then 0 else i + 1)
    ensures PrevHintIndex(i, n) == (if i == 0 then n - 1 else i - 1)
  {
    GoDivNonNegative(i + 1, n);
    GoDivNonNegative(i - 1 + n, n);
    ModBelowTwice(i + 1, n);
    ModBelowTwice(i - 1 + n, n);
  }

  /** Prev undoes Next and Next undoes Prev on any index inside the list. */
  lemma PrevUndoesNext(i: int, n: int)
    requires 0 <= i < n
    ensures 0 <= NextHintIndex(i, n) < n && 0 <= PrevHintIndex(i, n) < n
    ensures PrevHintIndex(NextHintIndex(i, n), n) == i
    ensures NextHintIndex(PrevHintIndex(i, n), n) == i
  {
    HintStepsWrap(i, n);
    HintStepsWrap(NextHintIndex(i, n), n);
    HintStepsWrap(PrevHintIndex(i, n), n);
  }

  /** The index reached by pressing Next `k` times. */
  function NextHintTimes(i: int, n: int, k: nat): int
  {
    if k == 0 then i else NextHintIndex(NextHintTimes(i, n, k - 1), n)
  }

  /** Pressing Next `k <= n` times from an index inside the list moves
      `k` hints on, wrapping past the end once at most. */
  lemma {:induction false} NextHintTimesWraps(i: int, n: int, k: nat)
    requires 0 <= i < n && k <= n
    ensures NextHintTimes(i, n, k) == (if i + k < n then i + k else i + k - n)
  {
    if k > 0 {
      NextHintTimesWraps(i, n, k - 1);
      HintStepsWrap(NextHintTimes(i, n, k - 1), n);
    }
  }

  /** So n presses of Next come back to the hint shown first. */
  lemma NextHintCycle(i: int, n: int)
    requires 0 <= i < n
    ensures NextHintTimes(i, n, n) == i
  {
    NextHintTimesWraps(i, n, n);
  }

  /** What the hint box shows: "Hints (position/total)" and one hint. */
  datatype HintBox = HintBox(position: int, total: int, text: string)

  /** Every field of the panel, as one value. */
  datatype ContentState = ContentState(
    title: string,
    description: string,
    namespace: string,
    status: string,
    statusOK: bool,
    commands: seq<string>,
    hints: seq<string>,
    currentHint: int,
    showHints: bool,
    width: int,
    height: int,
    viewportWidth: int,
    viewportHeight: int,
    focused: bool)

  class ContentModel {
    var title: string
    var description: string
    var namespace: string
    var status: string
    var statusOK: bool
    var commands: seq<string>
    var hints: seq<string>
    var currentHint: int
    var showHints: bool
    var width: int
    var height: int
    var viewportWidth: int
    var viewportHeight: int
    var focused: bool

    /** The hint index points into the hint list, and is 0 when there are no
        hints. */
    ghost predicate Valid()
      reads this
    {
      0 <= currentHint && (|hints| == 0 ==> currentHint == 0) &&
      (|hints| > 0 ==> currentHint < |hints|)
    }

    ghost function Snapshot(): ContentState
      reads this
    {
      ContentState(title, description, namespace, status, statusOK, commands, hints,
        currentHint, showHints, width, height, viewportWidth, viewportHeight, focused)
    }

    /** Every field starts at Go's zero value. */
    constructor ()
      ensures Valid()
      ensures Snapshot() == ContentState("", "", "", "", false, [], [], 0, false, 0, 0, 0, 0, false)
    {
      title, description, namespace, status, statusOK := "", "", "", "", false;
      commands, hints, currentHint, showHints := [], [], 0, false;
      width, height, viewportWidth, viewportHeight, focused := 0, 0, 0, 0, false;
    }

    /** Shows a new scenario: clears the status and returns to the first
        hint; hints, commands and hint visibility are kept. */
    method SetScenario(t: string, d: string, ns: string)
      requires Valid()
      modifies this
      ensures Valid()
      ensures Snapshot() == old(Snapshot()).(title := t, description := d, namespace := ns,
        status := "", statusOK := false, currentHint := 0)
    {
      title, description, namespace := t, d, ns;
      status, statusOK := "", false;
      currentHint := 0;
    }

    method SetStatus(s: string, ok: bool)
      requires Valid()
      modifies this
      ensures Valid()
      ensures Snapshot() == old(Snapshot()).(status := s, statusOK := ok)
    {
      status, statusOK := s, ok;
    }

    method SetCommands(cs: seq<string>)
      requires Valid()
      modifies this
      ensures Valid()
      ensures Snapshot() == old(Snapshot()).(commands := cs)
    {
      commands := cs;
    }

    /** Replaces the hints and returns to the first one. */
    method SetHints(hs: seq<string>)
      requires Valid()
      modifies this
      ensures Valid()
      ensures Snapshot() == old(Snapshot()).(hints := hs, currentHint := 0)
    {
      hints := hs;
      currentHint := 0;
    }

    /** Flips hint visibility, so two calls restore it. */
    method ToggleHints()
      requires Valid()
      modifies this
      ensures Valid()
      ensures showHints == !old(showHints)
      ensures Snapshot() == old(Snapshot()).(showHints := !old(showHints))
    {
      showHints := !showHints;
    }

    /** Moves to the next hint, wrapping to the first. */
    method NextHint()
      requires Valid()
      modifies this
      ensures Valid()
      ensures Snapshot() == old(Snapshot()).(currentHint := NextHintIndex(old(currentHint), |hints|))
    {
      if |hints| > 0 {
        PrevUndoesNext(currentHint, |hints|);
        currentHint := GoRem(currentHint + 1, |hints|);
      }
    }

    /** Moves to the previous hint, wrapping to the last. */
    method PrevHint()
      requires Valid()
      modifies this
      ensures Valid()
      ensures Snapshot() == old(Snapshot()).(currentHint := PrevHintIndex(old(currentHint), |hints|))
    {
      if |hints| > 0 {
        PrevUndoesNext(currentHint, |hints|);
        currentHint := GoRem(currentHint - 1 + |hints|, |hints|);
      }
    }

    /** Stores the panel size; the viewport is 6 columns narrower and 10
        rows shorter, with no clamping. */
    method SetSize(w: int, h: int)
      requires Valid()
      modifies this
      ensures Valid()
      ensures Snapshot() == old(Snapshot()).(width := w, height := h,
        viewportWidth := w - 6, viewportHeight := h - 10)
    {
      width, height := w, h;
      viewportWidth, viewportHeight := w - 6, h - 10;
    }

    method SetFocus(f: bool)
      requires Valid()
      modifies this
      ensures Valid()
      ensures Snapshot() == old(Snapshot()).(focused := f)
    {
      focused := f;
    }

    /** The hint box of the rendered panel: present exactly when hints are
        shown and there is at least one, labelled with a 1-based position
        and showing the current hint. */
    function HintBoxShown(): (r: Option<HintBox>)
      requires Valid()
      reads this
      ensures r.Some? <==> showHints && |hints| > 0
      ensures r.Some? ==> 1 <= r.value.position <= r.value.total == |hints|
      ensures r.Some? ==> r.value.text == hints[r.value.position - 1]
      ensures r.Some? ==> r.value.position == currentHint + 1
    {
      if showHints && |hints| > 0 then Some(HintBox(currentHint + 1, |hints|, hints[currentHint]))
      else None
    }
  }

  /** Pressing Next then Prev on a panel shows the hint it started with. */
  method NextThenPrevRestores(c: ContentModel)
    requires c.Valid()
    modifies c
    ensures c.Valid()
    ensures c.Snapshot() == old(c.Snapshot())
  {
    c.NextHint();
    c.PrevHint();
    if |c.hints| > 0 {
      PrevUndoesNext(old(c.currentHint), |c.hints|);
    }
  }
}
