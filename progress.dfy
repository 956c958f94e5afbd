/** The progress display of the bootstrap screen
    (pkg/tui/components/progress.go): a title, a subtitle next to a spinner,
    a bar filled to a fraction, and a list of steps. The fraction is a
    float64 in the program and an exact `real` here; the spinner's frame is
    abstracted to a count of the ticks it has consumed. */
module Progress {
  import opened Common

  /** One line of the step list. */
  datatype ProgressStep = ProgressStep(text: string, complete: bool, active: bool)

  /** The messages a progress display is offered: only spinner ticks
      concern it. */
  datatype ProgressMsg = SpinnerTick | OtherMsg

  datatype StepIcon = Done | Working | Pending

  /** The icon that leads a step's line: a complete step shows done even if
      it is also flagged active. */
  function IconOf(s: ProgressStep): (r: StepIcon)
    ensures r == Done <==> s.complete
    ensures r == Working <==> !s.complete && s.active
    ensures r == Pending <==> !s.complete && !s.active
  {
    if s.complete then Done else if s.active then Working else Pending
  }

  /** The glyph drawn for an icon. */
  function IconGlyph(i: StepIcon): string
  {
    match i
    case Done => "✓"
    case Working => "⋯"
    case Pending => "○"
  }

  /** The three glyphs differ, so a reader can tell the states apart. */
  lemma IconGlyphsDistinct(a: StepIcon, b: StepIcon)
    ensures IconGlyph(a) == IconGlyph(b) <==> a == b
  {
    if a != b {
      assert IconGlyph(a)[0] != IconGlyph(b)[0];
    }
  }

  /** The width of the bar for a display `w` columns wide: 20 columns less,
      capped at 50. Nothing stops it from going negative. */
  function BarWidth(w: int): (r: int)
    ensures r <= 50 && r <= w - 20
    ensures r == 50 || r == w - 20
  {
    if w - 20 > 50 then 50 else w - 20
  }

  /** Every field of the display, as one value. */
  datatype ProgressState = ProgressState(
    title: string,
    subtitle: string,
    percent: real,
    steps: seq<ProgressStep>,
    width: int,
    barWidth: int,
    spinnerTicks: nat)

  class ProgressModel {
    var title: string
    var subtitle: string
    var percent: real
    var steps: seq<ProgressStep>
    var width: int
    /** The width of the bar itself. */
    var barWidth: int
    var spinnerTicks: nat

    ghost function Snapshot(): ProgressState
      reads this
    {
      ProgressState(title, subtitle, percent, steps, width, barWidth, spinnerTicks)
    }

    /** A new display has no text, no steps, an empty bar 40 columns wide
        and a zero width. */
    constructor ()
      ensures Snapshot() == ProgressState("", "", 0.0, [], 0, 40, 0)
    {
      title, subtitle, percent, steps := "", "", 0.0, [];
      width, barWidth, spinnerTicks := 0, 40, 0;
    }

    method SetTitle(t: string)
      modifies this
      ensures Snapshot() == old(Snapshot()).(title := t)
    {
      title := t;
    }

    method SetSubtitle(s: string)
      modifies this
      ensures Snapshot() == old(Snapshot()).(subtitle := s)
    {
      subtitle := s;
    }

    method SetPercent(p: real)
      modifies this
      ensures Snapshot() == old(Snapshot()).(percent := p)
    {
      percent := p;
    }

    method SetSteps(ss: seq<ProgressStep>)
      modifies this
      ensures Snapshot() == old(Snapshot()).(steps := ss)
    {
      steps := ss;
    }

    /** A copy of the steps in a new array, so writing to it does not touch
        the display until it is handed back through SetSteps. */
    method GetSteps() returns (a: array<ProgressStep>)
      ensures fresh(a)
      ensures a[..] == steps
    {
      a := new ProgressStep[|steps|](i => ProgressStep("", false, false));
      var i := 0;
      while i < |steps|
        invariant 0 <= i <= |steps|
        invariant a[..i] == steps[..i]
      {
        a[i] := steps[i];
        i := i + 1;
      }
    }

    /** Stores the width and sizes the bar from it. */
    method SetWidth(w: int)
      modifies this
      ensures Snapshot() == old(Snapshot()).(width := w, barWidth := BarWidth(w))
    {
      width := w;
      barWidth := w - 20;
      if barWidth > 50 {
        barWidth := 50;
      }
    }

    /** A spinner tick advances the spinner; any other message changes
        nothing. The fraction and the steps move only through their
        setters. */
    method Update(msg: ProgressMsg)
      modifies this
      ensures msg == SpinnerTick ==> Snapshot() == old(Snapshot()).(spinnerTicks := old(spinnerTicks) + 1)
      ensures msg == OtherMsg ==> Snapshot() == old(Snapshot())
    {
      if msg == SpinnerTick {
        spinnerTicks := spinnerTicks + 1;
      }
    }

    /** The icons of the rendered step list, one per step in order. */
    function StepIcons(): (r: seq<StepIcon>)
      reads this
      ensures |r| == |steps|
      ensures forall i :: 0 <= i < |steps| ==> r[i] == IconOf(steps[i])
    {
      seq(|steps|, i requires 0 <= i < |steps| reads this => IconOf(steps[i]))
    }
  }

  /** Editing a copy obtained from GetSteps leaves the display's steps as
      they were. */
  method EditCopy(p: ProgressModel, k: int, s: ProgressStep)
    requires 0 <= k < |p.steps|
    ensures p.Snapshot() == old(p.Snapshot())
  {
    var a := p.GetSteps();
    a[k] := s;
  }
}
