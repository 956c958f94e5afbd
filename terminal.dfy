/** The embedded terminal (pkg/tui/components/terminal.go): a shell on a
    pseudo-terminal whose output a VT emulator turns into a grid of
    coloured cells. Three parts are modelled: how a cell's colours are
    chosen for display, which bytes a key press sends to the shell, and the
    lifecycle of the session (shell, pseudo-terminal and the temporary file
    that holds the cluster credentials). The shell process, the
    pseudo-terminal and the emulator's parsing are not modelled; the files
    on disk and the bytes written to the shell are ghost state. */
module Terminal {
  import opened Common

  // ---------------------------------------------------------------- colours

  /** The emulator's palette value for "the default foreground". */
  const DefaultFG := 16777216
  /** The emulator's palette value for "the default background". */
  const DefaultBG := 16777217

  /** The dark text colour of the light theme, and its light base. */
  const DarkText := "#4c4f69"
  const LightBase := "#eff1f5"
  const Black := "#000000"

  /** A colour handed to the style: none, a hex code, or an index of the
      xterm 256-colour palette (passed on as its decimal string). */
  datatype Color = NoColor | Hex(code: string) | Palette(index: int)

  /** Whether a palette index has a light background. In the xterm layout
      0-15 are the system colours, 16-231 a 6x6x6 colour cube and 232-255 a
      grey ramp; every value from 244 up counts as light. */
  function IsLightColor(c: int): (light: bool)
    ensures c < 0 || 0 <= c <= 6 || c == 8 || 232 <= c <= 243 ==> !light
    ensures c == 7 || 9 <= c <= 15 || c >= 244 ==> light
  {
    if c == 7 || c == 15 then true
    else if 9 <= c <= 14 then true
    else if c >= 244 then true
    else if 16 <= c <= 231 then
      // non-negative operands: Go's `/` and `%` agree with Dafny's here
      var v := c - 16;
      var b := v % 6;
      var g := (v / 6) % 6;
      var r := (v / 6) / 6;
      r + g + b >= 9
    else false
  }

  /** Among the system colours exactly white (7), bright white (15) and the
      bright colours 9-14 are light; dark grey (8) is not. */
  lemma SystemColorLightness(c: int)
    requires 0 <= c < 16
    ensures IsLightColor(c) <==> c == 7 || 9 <= c <= 15
  {
  }

  /** The grey ramp turns light at 244. */
  lemma GreyRampLightness(c: int)
    requires 232 <= c <= 255
    ensures IsLightColor(c) <==> c >= 244
  {
  }

  /** A cube colour with red, green and blue levels r, g, b in 0..5 is light
      exactly when the levels add up to at least 9. */
  lemma CubeLightness(r: int, g: int, b: int)
    requires 0 <= r < 6 && 0 <= g < 6 && 0 <= b < 6
    ensures 16 <= 16 + 36 * r + 6 * g + b <= 231
    ensures IsLightColor(16 + 36 * r + 6 * g + b) <==> r + g + b >= 9
  {
    var v := 36 * r + 6 * g + b;
    DivModUnique(v, 6, 6 * r + g, b);
    DivModUnique(6 * r + g, 6, r, g);
  }

  /** A foreground palette value as displayed: the two defaults are swapped
      onto the light theme's colours, any other value is a palette index. */
  function ResolveFg(fg: int): (c: Color)
    ensures fg == DefaultFG ==> c == Hex(DarkText)
    ensures fg == DefaultBG ==> c == Hex(LightBase)
    ensures fg != DefaultFG && fg != DefaultBG ==> c == Palette(fg)
  {
    if fg == DefaultFG then Hex(DarkText)
    else if fg == DefaultBG then Hex(LightBase)
    else Palette(fg)
  }

  /** One emulator cell: a character and its foreground and background
      palette values. */
  datatype Cell = Cell(ch: char, fg: int, bg: int)

  /** A cell as styled for display. `bg` is NoColor when no background is
      set. */
  datatype StyledCell = StyledCell(ch: char, fg: Color, bg: Color, reverse: bool)

  /** The style of one cell. The default background leaves the background
      unset and keeps the foreground; the default foreground used as a
      background turns dark with light text; any other background is kept,
      with black text when it is light. The cell under the cursor is reversed
      while the terminal has focus, and an empty cell shows a space. */
  function StyleCell(cell: Cell, focused: bool, atCursor: bool): (s: StyledCell)
    ensures s.ch == if cell.ch == 0 as char then ' ' else cell.ch
    ensures s.reverse <==> focused && atCursor
    ensures cell.bg == DefaultBG ==> s.bg == NoColor && s.fg == ResolveFg(cell.fg)
    ensures cell.bg == DefaultFG ==> s.bg == Hex(DarkText) && s.fg == Hex(LightBase)
    ensures cell.bg != DefaultBG && cell.bg != DefaultFG ==>
      s.bg == Palette(cell.bg) &&
      s.fg == (if IsLightColor(cell.bg) then Hex(Black) else ResolveFg(cell.fg))
  {
    var fgColor := ResolveFg(cell.fg);
    var hasCustomBg := cell.bg != DefaultBG;
    var bgColor := if cell.bg == DefaultBG then NoColor
      else if cell.bg == DefaultFG then Hex(DarkText)
      else Palette(cell.bg);
    var isLight := hasCustomBg && cell.bg != DefaultFG && IsLightColor(cell.bg);
    var fgColor' := if cell.bg == DefaultFG then Hex(LightBase)
      else if isLight then Hex(Black)
      else fgColor;
    StyledCell(if cell.ch == 0 as char then ' ' else cell.ch, fgColor', bgColor, focused && atCursor)
  }

  /** On any explicit background, the text is never drawn in the light base
      colour on a light palette entry nor in the dark text colour on the dark
      default: the two clashes the correction exists to avoid. */
  lemma ContrastCorrected(cell: Cell, focused: bool, atCursor: bool)
    requires cell.bg != DefaultBG
    ensures cell.bg == DefaultFG ==> StyleCell(cell, focused, atCursor).fg != Hex(DarkText)
    ensures cell.bg != DefaultFG && IsLightColor(cell.bg) ==>
      StyleCell(cell, focused, atCursor).fg != Hex(LightBase)
  {
    assert DarkText != LightBase by { assert DarkText[1] != LightBase[1]; }
    assert Black != LightBase by { assert Black[1] != LightBase[1]; }
  }

  /** The emulator's screen: its size, its cells row by row, and its
      cursor. */
  datatype Screen = Screen(cols: nat, rows: nat, cells: seq<seq<Cell>>, cursorX: int, cursorY: int)

  /** The emulator provides a cell at every position of its size. */
  predicate WellShaped(s: Screen)
  {
    |s.cells| == s.rows && forall y :: 0 <= y < s.rows ==> |s.cells[y]| == s.cols
  }

  /** The styled grid, row by row: every cell styled on its own, the cursor
      only where the emulator puts it. */
  method ViewCells(s: Screen, focused: bool) returns (out: seq<seq<StyledCell>>)
    requires WellShaped(s)
    ensures |out| == s.rows
    ensures forall y :: 0 <= y < s.rows ==> |out[y]| == s.cols
    ensures forall y, x :: 0 <= y < s.rows && 0 <= x < s.cols ==>
      out[y][x] == StyleCell(s.cells[y][x], focused, x == s.cursorX && y == s.cursorY)
  {
    out := [];
    var y := 0;
    while y < s.rows
      invariant 0 <= y <= s.rows && |out| == y
      invariant forall j :: 0 <= j < y ==> |out[j]| == s.cols
      invariant forall j, x :: 0 <= j < y && 0 <= x < s.cols ==>
        out[j][x] == StyleCell(s.cells[j][x], focused, x == s.cursorX && j == s.cursorY)
    {
      var line := [];
      var x := 0;
      while x < s.cols
        invariant 0 <= x <= s.cols && |line| == x
        invariant forall i :: 0 <= i < x ==>
          line[i] == StyleCell(s.cells[y][i], focused, i == s.cursorX && y == s.cursorY)
      {
        line := line + [StyleCell(s.cells[y][x], focused, x == s.cursorX && y == s.cursorY)];
        x := x + 1;
      }
      out := out + [line];
      y := y + 1;
    }
  }

  /** An unfocused terminal shows no cursor anywhere. */
  lemma UnfocusedHasNoCursor(s: Screen, out: seq<seq<StyledCell>>)
    requires WellShaped(s)
    requires |out| == s.rows && forall y :: 0 <= y < s.rows ==> |out[y]| == s.cols
    requires forall y, x :: 0 <= y < s.rows && 0 <= x < s.cols ==>
      out[y][x] == StyleCell(s.cells[y][x], false, x == s.cursorX && y == s.cursorY)
    ensures forall y, x :: 0 <= y < s.rows && 0 <= x < s.cols ==> !out[y][x].reverse
  {
    forall y, x | 0 <= y < s.rows && 0 <= x < s.cols
      ensures !out[y][x].reverse
    {
      assert out[y][x] == StyleCell(s.cells[y][x], false, x == s.cursorX && y == s.cursorY);
    }
  }

  // ------------------------------------------------------------------ keys

  /** The key types that have a fixed translation. */
  datatype KeyKind =
    | KeyEnter | KeyBackspace | KeyTab | KeyCtrlC | KeyCtrlD | KeyCtrlZ | KeyCtrlL
    | KeyUp | KeyDown | KeyLeft | KeyRight | KeyHome | KeyEnd | KeyDelete
    | KeyPgUp | KeyPgDown | KeySpace | KeyEsc

  /** A key press as Bubbletea delivers it: a named key, typed or pasted
      characters, or any other key known by its name. */
  datatype Key = Special(kind: KeyKind) | Runes(runes: string, paste: bool) | OtherKey(name: string)

  /** The escape character and the Control Sequence Introducer, section
      8.3.16 of ECMA-48. */
  const Esc := "\U{1B}"
  const CSI := "\U{1B}["

  /** The markers of xterm's bracketed paste mode. */
  const PasteStart := "\U{1B}[200~"
  const PasteEnd := "\U{1B}[201~"

  /** The bytes of a named key. The arrows are the cursor movements CUU,
      CUD, CUF and CUB of sections 8.3.22, 8.3.19, 8.3.20 and 8.3.18 of
      ECMA-48. */
  function SpecialBytes(k: KeyKind): (s: string)
    requires k != KeyTab
    ensures k == KeyUp ==> s == CSI + "A"
    ensures k == KeyDown ==> s == CSI + "B"
    ensures k == KeyRight ==> s == CSI + "C"
    ensures k == KeyLeft ==> s == CSI + "D"
    ensures |s| >= 1
  {
    match k
    case KeyEnter => "\r"
    case KeyBackspace => "\U{7F}"
    case KeyCtrlC => "\U{03}"
    case KeyCtrlD => "\U{04}"
    case KeyCtrlZ => "\U{1A}"
    case KeyCtrlL => "\U{0C}"
    case KeyUp => CSI + "A"
    case KeyDown => CSI + "B"
    case KeyLeft => CSI + "D"
    case KeyRight => CSI + "C"
    case KeyHome => CSI + "H"
    case KeyEnd => CSI + "F"
    case KeyDelete => CSI + "3~"
    case KeyPgUp => CSI + "5~"
    case KeyPgDown => CSI + "6~"
    case KeySpace => " "
    case KeyEsc => Esc
  }

  /** Different named keys send different bytes, so the shell can tell them
      apart. */
  lemma SpecialBytesInjective(a: KeyKind, b: KeyKind)
    requires a != KeyTab && b != KeyTab
    ensures SpecialBytes(a) == SpecialBytes(b) ==> a == b
  {
    if SpecialBytes(a) == SpecialBytes(b) {
      var s, t := SpecialBytes(a), SpecialBytes(b);
      assert |s| == |t| && s[|s| - 1] == t[|s| - 1];
      if |s| == 4 {
        assert s[2] == t[2];
      }
    }
  }

  /** Pasted text between the bracketed-paste markers. */
  function WrapPaste(text: string): (s: string)
    ensures |s| == |text| + 12
  {
    PasteStart + text + PasteEnd
  }

  /** What a receiving shell recovers from a bracketed paste. */
  function UnwrapPaste(s: string): Option<string>
  {
    if |s| >= 12 && s[..6] == PasteStart && s[|s| - 6..] == PasteEnd then Some(s[6..|s| - 6])
    else None
  }

  /** The shell recovers the pasted text unchanged, whatever it contains. */
  lemma PasteRoundTrip(text: string)
    ensures UnwrapPaste(WrapPaste(text)) == Some(text)
  {
    var s := WrapPaste(text);
    assert s[..6] == PasteStart;
    assert s[|s| - 6..] == PasteEnd;
    assert s[6..|s| - 6] == text;
  }

  /** The bytes a key press sends to the shell, or None when it sends
      nothing: Tab is swallowed, and a key known only by name is sent when
      its name is a single byte. */
  function KeyBytes(k: Key): (r: Option<string>)
    ensures k.Special? && k.kind == KeyTab ==> r == None
    ensures k.Special? && k.kind != KeyTab ==> r == Some(SpecialBytes(k.kind))
    ensures k.Runes? && k.paste ==> r == Some(WrapPaste(k.runes))
    ensures k.Runes? && !k.paste ==> r == Some(k.runes)
    ensures k.OtherKey? ==> (r.Some? <==> |k.name| == 1 && k.name[0] < '\U{80}')
    ensures k.OtherKey? && r.Some? ==> r.value == k.name
  {
    match k
    case Runes(runes, paste) => if paste then Some(WrapPaste(runes)) else Some(runes)
    case Special(kind) => if kind == KeyTab then None else Some(SpecialBytes(kind))
    // Go's `len` counts the bytes of the UTF-8 encoding
    case OtherKey(name) => if |name| == 1 && name[0] < '\U{80}' then Some(name) else None
  }

  /** Bubbletea's name for a key, which the key bindings of the application
      match against. */
  function KeyName(k: Key): string
  {
    match k
    case Runes(runes, paste) => if paste then "[" + runes + "]" else runes
    case OtherKey(name) => name
    case Special(kind) =>
      match kind
      case KeyEnter => "enter"
      case KeyBackspace => "backspace"
      case KeyTab => "tab"
      case KeyCtrlC => "ctrl+c"
      case KeyCtrlD => "ctrl+d"
      case KeyCtrlZ => "ctrl+z"
      case KeyCtrlL => "ctrl+l"
      case KeyUp => "up"
      case KeyDown => "down"
      case KeyLeft => "left"
      case KeyRight => "right"
      case KeyHome => "home"
      case KeyEnd => "end"
      case KeyDelete => "delete"
      case KeyPgUp => "pgup"
      case KeyPgDown => "pgdown"
      case KeySpace => " "
      case KeyEsc => "esc"
  }

  // -------------------------------------------------------------- session

  /** The pseudo-terminal's window size, rows and columns as uint16. */
  datatype WinSize = WinSize(rows: int, cols: int)

  /** Every field of a session that changes, as one value. */
  datatype TerminalState = TerminalState(
    hasPty: bool,
    hasCmd: bool,
    width: int,
    height: int,
    termCols: int,
    termRows: int,
    focused: bool,
    running: bool,
    kubeconfig: string,
    kubeconfigPath: string,
    files: set<string>,
    shellInput: string,
    ptySize: Option<WinSize>)

  class TerminalModel {
    /** The shell to run: $SHELL, or /bin/sh when that is empty. */
    const shell: string
    var hasPty: bool
    var hasCmd: bool
    var width: int
    var height: int
    /** The emulator's size. */
    var termCols: int
    var termRows: int
    var focused: bool
    var running: bool
    var kubeconfig: string
    /** The temporary file holding the kubeconfig, "" when there is none. */
    var kubeconfigPath: string
    /** The files on disk holding a copy of the credentials. */
    ghost var files: set<string>
    /** Everything written to the shell. */
    ghost var shellInput: string
    /** The last size given to the pseudo-terminal. */
    ghost var ptySize: Option<WinSize>

    ghost function Snapshot(): TerminalState
      reads this
    {
      TerminalState(hasPty, hasCmd, width, height, termCols, termRows, focused, running,
        kubeconfig, kubeconfigPath, files, shellInput, ptySize)
    }

    /** A running session has a pseudo-terminal, and a recorded credential
        file exists on disk. */
    ghost predicate Valid()
      reads this
    {
      (running ==> hasPty) && (kubeconfigPath != "" ==> kubeconfigPath in files) && "" !in files
    }

    /** Every credential file on disk is the recorded one: none has been
        lost track of. */
    ghost predicate NoStrayFiles()
      reads this
    {
      forall f <- files :: f == kubeconfigPath
    }

    constructor (envShell: string)
      ensures Valid() && NoStrayFiles()
      ensures shell == (if envShell == "" then "/bin/sh" else envShell)
      ensures !hasPty && !hasCmd && !running && !focused
      ensures termCols == 80 && termRows == 24 && width == 0 && height == 0
      ensures kubeconfig == "" && kubeconfigPath == "" && files == {} && shellInput == [] && ptySize == None
    {
      shell := if envShell == "" then "/bin/sh" else envShell;
      hasPty, hasCmd, running, focused := false, false, false, false;
      termCols, termRows, width, height := 80, 24, 0, 0;
      kubeconfig, kubeconfigPath := "", "";
      files, shellInput, ptySize := {}, [], None;
    }

    method SetKubeconfig(k: string)
      modifies this
      ensures kubeconfig == k
      ensures hasPty == old(hasPty) && hasCmd == old(hasCmd) && running == old(running)
      ensures kubeconfigPath == old(kubeconfigPath) && files == old(files)
      ensures width == old(width) && height == old(height) && focused == old(focused)
      ensures termCols == old(termCols) && termRows == old(termRows)
      ensures shellInput == old(shellInput) && ptySize == old(ptySize)
    {
      kubeconfig := k;
    }

    /** Starts the shell. `created` and `written` are whether creating and
        writing the temporary credential file succeed, `tempName` the name
        the system picks, and `ptyStarted` whether the shell starts on a
        pseudo-terminal. Returns whether a refresh is requested. */
    method Start(created: bool, written: bool, tempName: string, ptyStarted: bool) returns (refresh: bool)
      requires Valid()
      requires tempName != "" && tempName !in files
      modifies this
      ensures Valid()
      ensures width == old(width) && height == old(height) && focused == old(focused)
      ensures kubeconfig == old(kubeconfig) && shellInput == old(shellInput)
      // already running: nothing happens
      ensures old(running) ==>
        (!refresh && running && hasPty == old(hasPty) && hasCmd == old(hasCmd) &&
         kubeconfigPath == old(kubeconfigPath) && files == old(files) &&
         termCols == old(termCols) && termRows == old(termRows) && ptySize == old(ptySize))
      ensures !old(running) ==> refresh && hasCmd
      // the credential file could not be prepared: no shell
      ensures !old(running) && kubeconfig != "" && !(created && written) ==>
        !running && hasPty == old(hasPty) && kubeconfigPath == old(kubeconfigPath) && files == old(files)
      // the pseudo-terminal failed: the recorded credential file is removed
      ensures !old(running) && (kubeconfig == "" || (created && written)) && !ptyStarted ==>
        !running && !hasPty && kubeconfigPath == "" &&
        files == (if kubeconfig != "" then old(files) else old(files) - {old(kubeconfigPath)})
      // success: the shell runs with the new credential file
      ensures !old(running) && (kubeconfig == "" || (created && written)) && ptyStarted ==>
        running && hasPty &&
        kubeconfigPath == (if kubeconfig != "" then tempName else old(kubeconfigPath)) &&
        files == (if kubeconfig != "" then old(files) + {tempName} else old(files)) &&
        (width > 0 && height > 0 ==>
           termCols == width - 4 && termRows == height - 2 &&
           ptySize == Some(WinSize(U16(height - 2), U16(width - 4)))) &&
        (!(width > 0 && height > 0) ==>
           termCols == old(termCols) && termRows == old(termRows) && ptySize == old(ptySize))
    {
      if running {
        return false;
      }
      hasCmd := true;
      var ready := WriteCredentials(created, written, tempName);
      if ready {
        Launch(ptyStarted);
      }
      return true;
    }

    /** With a kubeconfig, the temporary credential file is created and
        written and becomes the recorded one; without, there is nothing to
        write. Returns whether the shell can go on to start. */
    method WriteCredentials(created: bool, written: bool, tempName: string) returns (ready: bool)
      requires Valid() && !running
      requires tempName != "" && tempName !in files
      modifies this
      ensures Valid()
      ensures ready <==> kubeconfig == "" || (created && written)
      ensures kubeconfig != "" && ready ==> kubeconfigPath == tempName && files == old(files) + {tempName}
      ensures !(kubeconfig != "" && ready) ==> kubeconfigPath == old(kubeconfigPath) && files == old(files)
      ensures running == old(running) && hasPty == old(hasPty) && hasCmd == old(hasCmd)
      ensures width == old(width) && height == old(height) && focused == old(focused)
      ensures kubeconfig == old(kubeconfig) && shellInput == old(shellInput)
      ensures termCols == old(termCols) && termRows == old(termRows) && ptySize == old(ptySize)
    {
      if kubeconfig == "" {
        return true;
      }
      if !created || !written {
        return false;
      }
      kubeconfigPath := tempName;
      files := files + {tempName};
      return true;
    }

    /** Starts the shell on a pseudo-terminal sized to the panel when it has
        a size; when the pseudo-terminal fails, the recorded credential file
        is removed. */
    method Launch(ptyStarted: bool)
      requires Valid() && !running
      modifies this
      ensures Valid()
      ensures !ptyStarted ==>
        !running && !hasPty && kubeconfigPath == "" && files == old(files) - {old(kubeconfigPath)} &&
        termCols == old(termCols) && termRows == old(termRows) && ptySize == old(ptySize)
      ensures ptyStarted ==>
        running && hasPty && kubeconfigPath == old(kubeconfigPath) && files == old(files) &&
        (width > 0 && height > 0 ==>
           termCols == width - 4 && termRows == height - 2 &&
           ptySize == Some(WinSize(U16(height - 2), U16(width - 4)))) &&
        (!(width > 0 && height > 0) ==>
           termCols == old(termCols) && termRows == old(termRows) && ptySize == old(ptySize))
      ensures hasCmd == old(hasCmd) && width == old(width) && height == old(height) && focused == old(focused)
      ensures kubeconfig == old(kubeconfig) && shellInput == old(shellInput)
    {
      if !ptyStarted {
        hasPty := false;
        if kubeconfigPath != "" {
          files := files - {kubeconfigPath};
          kubeconfigPath := "";
        }
        return;
      }
      hasPty := true;
      if width > 0 && height > 0 {
        ptySize := Some(WinSize(U16(height - 2), U16(width - 4)));
        termCols, termRows := width - 4, height - 2;
      }
      running := true;
    }

    /** The output reader hit a read error other than end of file: it marks
        the session as no longer running, leaving the pseudo-terminal and
        the credential file in place. */
    method ReaderFailed()
      requires Valid() && running
      modifies this
      ensures Valid()
      ensures !running && hasPty && hasCmd == old(hasCmd)
      ensures kubeconfigPath == old(kubeconfigPath) && files == old(files)
      ensures termCols == old(termCols) && termRows == old(termRows) && ptySize == old(ptySize)
      ensures width == old(width) && height == old(height) && focused == old(focused)
      ensures kubeconfig == old(kubeconfig) && shellInput == old(shellInput)
    {
      running := false;
    }

    /** Stops the session. When it is not running nothing happens, the
        credential file included; otherwise the pseudo-terminal is closed,
        the credential file removed and the emulator reset to 80x24. */
    method Stop()
      requires Valid()
      modifies this
      ensures Valid()
      ensures !running
      ensures width == old(width) && height == old(height) && focused == old(focused)
      ensures kubeconfig == old(kubeconfig) && shellInput == old(shellInput) && ptySize == old(ptySize)
      ensures hasCmd == old(hasCmd)
      ensures !old(running) ==>
        (hasPty == old(hasPty) && kubeconfigPath == old(kubeconfigPath) &&
         files == old(files) && termCols == old(termCols) && termRows == old(termRows))
      ensures old(running) ==>
        (!hasPty && kubeconfigPath == "" &&
         files == old(files) - {old(kubeconfigPath)} && termCols == 80 && termRows == 24)
    {
      if !running {
        return;
      }
      running := false;
      if hasPty {
        hasPty := false;
      }
      if kubeconfigPath != "" {
        files := files - {kubeconfigPath};
        kubeconfigPath := "";
      }
      termCols, termRows := 80, 24;
    }

    /** Stop as evidently intended: the credential file is removed even when
        the shell has already died, so no stopped session leaves one on
        disk. */
    method StopReleasingCredentials()
      requires Valid()
      modifies this
      ensures Valid()
      ensures !running && kubeconfigPath == "" && files == old(files) - {old(kubeconfigPath)}
      ensures NoStrayFiles() <== old(NoStrayFiles())
      ensures old(NoStrayFiles()) ==> files == {}
      ensures width == old(width) && height == old(height) && focused == old(focused)
      ensures kubeconfig == old(kubeconfig) && shellInput == old(shellInput) && ptySize == old(ptySize)
      ensures hasCmd == old(hasCmd)
      ensures !old(running) ==> hasPty == old(hasPty) && termCols == old(termCols) && termRows == old(termRows)
      ensures old(running) ==> !hasPty && termCols == 80 && termRows == 24
    {
      if kubeconfigPath != "" {
        files := files - {kubeconfigPath};
        kubeconfigPath := "";
      }
      if !running {
        return;
      }
      running := false;
      if hasPty {
        hasPty := false;
      }
      termCols, termRows := 80, 24;
    }

    /** Resizes the panel; the emulator and any pseudo-terminal get the inner
        size, at least 1x1. */
    method SetSize(w: int, h: int)
      requires Valid()
      modifies this
      ensures Valid()
      ensures width == w && height == h
      ensures termCols == Max(w - 4, 1) && termRows == Max(h - 2, 1)
      ensures ptySize == if hasPty then Some(WinSize(U16(Max(h - 2, 1)), U16(Max(w - 4, 1)))) else old(ptySize)
      ensures hasPty == old(hasPty) && hasCmd == old(hasCmd) && running == old(running)
      ensures kubeconfigPath == old(kubeconfigPath) && files == old(files)
      ensures focused == old(focused) && kubeconfig == old(kubeconfig) && shellInput == old(shellInput)
    {
      width, height := w, h;
      var cols := w - 4;
      var rows := h - 2;
      if cols < 1 {
        cols := 1;
      }
      if rows < 1 {
        rows := 1;
      }
      if hasPty {
        ptySize := Some(WinSize(U16(rows), U16(cols)));
      }
      termCols, termRows := cols, rows;
    }

    method SetFocus(f: bool)
      modifies this
      ensures focused == f
      ensures hasPty == old(hasPty) && hasCmd == old(hasCmd) && running == old(running)
      ensures kubeconfigPath == old(kubeconfigPath) && files == old(files)
      ensures width == old(width) && height == old(height) && kubeconfig == old(kubeconfig)
      ensures termCols == old(termCols) && termRows == old(termRows)
      ensures shellInput == old(shellInput) && ptySize == old(ptySize)
    {
      focused := f;
    }

    /** Writes to the shell, only while a pseudo-terminal is open and the
        session runs. */
    method SendInput(input: string)
      modifies this
      ensures shellInput == old(shellInput) + (if hasPty && running then input else [])
      ensures hasPty == old(hasPty) && hasCmd == old(hasCmd) && running == old(running)
      ensures kubeconfigPath == old(kubeconfigPath) && files == old(files)
      ensures width == old(width) && height == old(height) && focused == old(focused)
      ensures termCols == old(termCols) && termRows == old(termRows)
      ensures kubeconfig == old(kubeconfig) && ptySize == old(ptySize)
    {
      if hasPty && running {
        shellInput := shellInput + input;
      }
    }

    /** A key press: a focused terminal sends the key's bytes to the shell;
        an unfocused one sends nothing. */
    method Update(k: Key)
      modifies this
      ensures shellInput == old(shellInput) +
        (if focused && hasPty && running && KeyBytes(k).Some? then KeyBytes(k).value else [])
      ensures hasPty == old(hasPty) && hasCmd == old(hasCmd) && running == old(running)
      ensures kubeconfigPath == old(kubeconfigPath) && files == old(files)
      ensures width == old(width) && height == old(height) && focused == old(focused)
      ensures termCols == old(termCols) && termRows == old(termRows)
      ensures kubeconfig == old(kubeconfig) && ptySize == old(ptySize)
    {
      if !focused {
        return;
      }
      var bytes := KeyBytes(k);
      if bytes.Some? {
        SendInput(bytes.value);
      }
    }
  }

  /** A shell that dies on its own (its output reader fails) before the
      session is stopped leaves the credential file on disk: Stop returns
      early and never removes it. A second Start then records a new file
      and loses track of the first one for good. */
  method ReaderFailureLeaksCredentials(t: TerminalModel, first: string, second: string)
    requires t.Valid() && !t.running && t.kubeconfig != "" && t.kubeconfigPath == "" && t.files == {}
    requires first != "" && second != "" && first != second
    modifies t
    ensures first in t.files && !t.NoStrayFiles()
  {
    var _ := t.Start(true, true, first, true);
    t.ReaderFailed();
    t.Stop();
    assert first in t.files && t.kubeconfigPath == first;
    var _ := t.Start(true, true, second, true);
    assert t.kubeconfigPath == second;
  }

  /** With the corrected Stop the same sequence leaves no credential file
      behind. */
  method ReaderFailureReleasesCredentials(t: TerminalModel, first: string)
    requires t.Valid() && !t.running && t.kubeconfig != "" && t.kubeconfigPath == "" && t.files == {}
    requires first != ""
    modifies t
    ensures t.files == {} && t.NoStrayFiles()
  {
    var _ := t.Start(true, true, first, true);
    t.ReaderFailed();
    t.StopReleasingCredentials();
  }
}
