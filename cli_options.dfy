/** The analysis option widgets: CliOptionsPanel (src/cli_options_panel.cpp)
    and CliOptionsDialog (src/cli_options_dialog.cpp). Both hold three
    analysis check boxes, an "All" box, an enabled flag for the three, and a
    verbose spin box with range 0..3, wired by the same stateChanged lambdas;
    they differ in how getCommandOptions treats "All". */
module CliOptions {
  import opened Text

  /** The widget state: the four boxes, whether the three individual boxes
      are enabled, and the spin box value. */
  datatype Checks = Checks(
    symbolic: bool,
    staticAnalysis: bool,
    dynamic: bool,
    all: bool,
    othersEnabled: bool,
    verbose: int)

  /** The three individual analysis boxes. */
  datatype Box = Symbolic | StaticAnalysis | Dynamic

  function IsChecked(c: Checks, b: Box): bool
  {
    match b
    case Symbolic => c.symbolic
    case StaticAnalysis => c.staticAnalysis
    case Dynamic => c.dynamic
  }

  predicate AnyChecked(c: Checks)
  {
    c.symbolic || c.staticAnalysis || c.dynamic
  }

  /** What the wiring keeps: the three boxes are enabled exactly when All is
      unchecked, and the spin box stays in its range. */
  predicate Interlocked(c: Checks)
  {
    c.othersEnabled == !c.all && 0 <= c.verbose <= 3
  }

  /** QSpinBox::setValue: the value clamped to the range 0..3. */
  function ClampVerbose(c: Checks, v: int): (r: Checks)
    ensures 0 <= r.verbose <= 3
    ensures 0 <= v <= 3 ==> r.verbose == v
    ensures r.(verbose := c.verbose) == c
  {
    c.(verbose := if v < 0 then 0 else if v > 3 then 3 else v)
  }

  /** allCheck->setChecked(checked). A change emits stateChanged, whose
      lambda enables the three boxes exactly when All is not checked. */
  function SetAll(c: Checks, checked: bool): (r: Checks)
    ensures r.all == checked
    ensures IsChecked(r, Symbolic) == IsChecked(c, Symbolic)
    ensures IsChecked(r, StaticAnalysis) == IsChecked(c, StaticAnalysis)
    ensures IsChecked(r, Dynamic) == IsChecked(c, Dynamic)
    ensures r.verbose == c.verbose
    ensures Interlocked(c) ==> Interlocked(r)
  {
    if checked == c.all then c
    else c.(all := checked, othersEnabled := !checked)
  }

  /** setChecked on an individual box. A change emits stateChanged, whose
      lambda unchecks All when any individual box is checked; unchecking All
      emits All's stateChanged in turn, which enables the boxes. */
  function SetBox(c: Checks, b: Box, checked: bool): (r: Checks)
    ensures IsChecked(r, b) == checked
    ensures forall o: Box :: o != b ==> IsChecked(r, o) == IsChecked(c, o)
    ensures r.verbose == c.verbose
    ensures Interlocked(c) ==> Interlocked(r)
  {
    if IsChecked(c, b) == checked then c
    else
      var t := match b
        case Symbolic => c.(symbolic := checked)
        case StaticAnalysis => c.(staticAnalysis := checked)
        case Dynamic => c.(dynamic := checked);
      if AnyChecked(t) then SetAll(t, false) else t
  }

  /** A user click on All toggles it. */
  function ToggleAll(c: Checks): (r: Checks)
    ensures r.all == !c.all
  {
    SetAll(c, !c.all)
  }

  /** A user click on an individual box toggles it, unless the box is
      disabled, in which case the click does nothing. */
  function ToggleBox(c: Checks, b: Box): (r: Checks)
    ensures !c.othersEnabled ==> r == c
    ensures c.othersEnabled ==> IsChecked(r, b) == !IsChecked(c, b)
  {
    if c.othersEnabled then SetBox(c, b, !IsChecked(c, b)) else c
  }

  /** Checking All disables the three boxes and unchecking it enables them
      again; their checked state is kept either way. */
  lemma AllTogglesEnabled(c: Checks)
    requires Interlocked(c)
    ensures var r := ToggleAll(c);
      && Interlocked(r)
      && r.othersEnabled == !r.all && r.othersEnabled == c.all
      && (forall b: Box :: IsChecked(r, b) == IsChecked(c, b))
  {
  }

  /** Right after an individual box changes, All is unchecked if any box is checked. */
  lemma BoxChangeClearsAll(c: Checks, b: Box, checked: bool)
    requires IsChecked(c, b) != checked
    ensures var r := SetBox(c, b, checked);
      AnyChecked(r) ==> !r.all && (Interlocked(c) ==> r.othersEnabled)
  {
  }

  /** Under the interlock a user can check a box only while All is unchecked,
      and All stays unchecked. */
  lemma ClickKeepsAllUnchecked(c: Checks, b: Box)
    requires Interlocked(c) && c.othersEnabled
    ensures !ToggleBox(c, b).all && ToggleBox(c, b).othersEnabled
  {
  }

  /** All checked after an individual box: All does not clear the box, so
      both can be checked at once; the boxes are then just disabled. */
  lemma AllKeepsCheckedBoxes()
    ensures var c := ToggleAll(ToggleBox(Checks(false, false, false, false, true, 0), Symbolic));
      c.all && c.symbolic && !c.othersEnabled
  {
  }

  // ---------------------------------------------------------------------
  // The option strings

  const Separator: char := ' '

  /** "--verbose N" when the spin box is above 0. */
  function VerboseTokens(v: int): seq<string>
  {
    if v > 0 then ["--verbose", Decimal(v)] else []
  }

  /** The individual analysis flags, in the order symbolic, static, dynamic. */
  function AnalysisTokens(c: Checks): seq<string>
  {
    Flag(c.symbolic, "--symbolic") + Flag(c.staticAnalysis, "--static") + Flag(c.dynamic, "--dynamic")
  }

  /** CliOptionsPanel::getCommandOptions's list: the individual flags, never "--all". */
  function PanelTokens(c: Checks): seq<string>
  {
    AnalysisTokens(c) + VerboseTokens(c.verbose)
  }

  /** CliOptionsDialog::getCommandOptions's list: "--all" in place of the
      individual flags when All is checked. */
  function DialogTokens(c: Checks): seq<string>
  {
    (if c.all then ["--all"] else AnalysisTokens(c)) + VerboseTokens(c.verbose)
  }

  /** QStringList::join(" "). */
  function OptionString(tokens: seq<string>): string
  {
    Join(tokens, [Separator])
  }

  /** Reading an option string back into its tokens. */
  function ParseOptions(s: string): (tokens: seq<string>)
    ensures s == "" <==> tokens == []
  {
    if s == "" then [] else Split(s, Separator)
  }

  /** A token that survives a join and a split: non-empty and without a space. */
  predicate IsToken(t: string)
  {
    t != "" && Separator !in t
  }

  lemma DecimalIsToken(n: nat)
    ensures IsToken(Decimal(n))
  {
    assert IsDigit(Decimal(n)[0]);
  }

  /** Joining tokens with spaces loses nothing: the tokens read back. */
  lemma OptionsRoundTrip(tokens: seq<string>)
    requires forall i :: 0 <= i < |tokens| ==> IsToken(tokens[i])
    ensures ParseOptions(OptionString(tokens)) == tokens
  {
    JoinEmpty(tokens, [Separator]);
    if tokens != [] {
      SplitJoin(tokens, Separator);
    }
  }

  /** Where a token may stand in an option string: the analysis part, then
      "--verbose", then its number. */
  function Rank(t: string): nat
  {
    if t == "--all" || t == "--symbolic" then 0
    else if t == "--static" then 1
    else if t == "--dynamic" then 2
    else if t == "--verbose" then 3
    else 4
  }

  /** The flags' ranks; they are pairwise different strings. */
  lemma FlagRanks()
    ensures Rank("--all") == 0 && Rank("--symbolic") == 0 && Rank("--static") == 1
    ensures Rank("--dynamic") == 2 && Rank("--verbose") == 3
    ensures "--all" != "--symbolic" && "--all" != "--static" && "--all" != "--dynamic"
    ensures "--symbolic" != "--static" && "--symbolic" != "--dynamic" && "--static" != "--dynamic"
    ensures "--verbose" !in ["--all", "--symbolic", "--static", "--dynamic"]
  {
  }

  predicate IsNumeral(s: string)
  {
    forall i :: 0 <= i < |s| ==> IsDigit(s[i])
  }

  /** Tokens in strictly increasing rank: the fixed order, each at most once. */
  ghost predicate Ordered(tokens: seq<string>)
  {
    forall i, j :: 0 <= i < j < |tokens| ==> Rank(tokens[i]) < Rank(tokens[j])
  }

  lemma OrderedConcat(a: seq<string>, b: seq<string>)
    requires Ordered(a) && Ordered(b)
    requires forall i, j :: 0 <= i < |a| && 0 <= j < |b| ==> Rank(a[i]) < Rank(b[j])
    ensures Ordered(a + b)
  {
    forall i, j | 0 <= i < j < |a + b| ensures Rank((a + b)[i]) < Rank((a + b)[j]) {
      if j < |a| {
      } else if i >= |a| {
        assert (a + b)[i] == b[i - |a|] && (a + b)[j] == b[j - |a|];
      } else {
        assert (a + b)[j] == b[j - |a|];
      }
    }
  }

  /** The number after "--verbose" is not a flag. */
  lemma DecimalRank(n: nat)
    ensures Rank(Decimal(n)) == 4
  {
    assert IsDigit(Decimal(n)[0]);
  }

  lemma VerboseTokensFacts(v: int)
    ensures var t := VerboseTokens(v);
      && (forall i :: 0 <= i < |t| ==> IsToken(t[i]) && Rank(t[i]) >= 3)
      && Ordered(t)
      && ("--verbose" in t <==> v > 0)
      && (v > 0 ==>
            && |t| == 2 && t[0] == "--verbose"
            && IsNumeral(t[1]) && DecimalValue(t[1]) == v)
  {
    if v > 0 {
      DecimalIsToken(v);
      DecimalRank(v);
      DecimalRoundTrip(v);
    }
  }

  /** The flag for a checked box, nothing for an unchecked one. */
  function Flag(checked: bool, flag: string): (t: seq<string>)
    ensures |t| <= 1
    ensures forall g :: g in t <==> checked && g == flag
  {
    if checked then [flag] else []
  }

  /** The three individual flags are tokens. */
  lemma FlagsAreTokens()
    ensures IsToken("--symbolic") && IsToken("--static") && IsToken("--dynamic")
  {
    assert forall i :: 0 <= i < |"--symbolic"| ==> "--symbolic"[i] != Separator;
    assert forall i :: 0 <= i < |"--static"| ==> "--static"[i] != Separator;
    assert forall i :: 0 <= i < |"--dynamic"| ==> "--dynamic"[i] != Separator;
  }

  /** A flag's list is ordered, and every token in it has the flag's rank. */
  lemma FlagFacts(checked: bool, flag: string)
    requires IsToken(flag)
    ensures var t := Flag(checked, flag);
      && Ordered(t)
      && forall i :: 0 <= i < |t| ==> IsToken(t[i]) && Rank(t[i]) == Rank(flag)
  {
  }

  /** Three flags of increasing rank below 3, each present or not, in order. */
  lemma ThreeFlagsOrdered(x: bool, f: string, y: bool, g: string, z: bool, h: string)
    requires IsToken(f) && IsToken(g) && IsToken(h)
    requires Rank(f) < Rank(g) < Rank(h) < 3
    ensures var t := Flag(x, f) + Flag(y, g) + Flag(z, h);
      && (forall i :: 0 <= i < |t| ==> IsToken(t[i]) && Rank(t[i]) < 3)
      && Ordered(t)
  {
    var s, st, d := Flag(x, f), Flag(y, g), Flag(z, h);
    FlagFacts(x, f);
    FlagFacts(y, g);
    FlagFacts(z, h);
    OrderedConcat(s, st);
    OrderedConcat(s + st, d);
    forall i | 0 <= i < |s + st + d| ensures IsToken((s + st + d)[i]) && Rank((s + st + d)[i]) < 3 {
      if i < |s| {
        assert (s + st + d)[i] == s[i];
      } else if i < |s + st| {
        assert (s + st + d)[i] == st[i - |s|];
      } else {
        assert (s + st + d)[i] == d[i - |s + st|];
      }
    }
  }

  lemma AnalysisTokensOrdered(c: Checks)
    ensures var t := AnalysisTokens(c);
      && (forall i :: 0 <= i < |t| ==> IsToken(t[i]) && Rank(t[i]) < 3)
      && Ordered(t)
  {
    FlagRanks();
    FlagsAreTokens();
    ThreeFlagsOrdered(c.symbolic, "--symbolic", c.staticAnalysis, "--static", c.dynamic, "--dynamic");
  }

  lemma AnalysisTokensFacts(c: Checks)
    ensures var t := AnalysisTokens(c);
      && (forall i :: 0 <= i < |t| ==> IsToken(t[i]) && Rank(t[i]) < 3)
      && Ordered(t)
      && ("--symbolic" in t <==> c.symbolic)
      && ("--static" in t <==> c.staticAnalysis)
      && ("--dynamic" in t <==> c.dynamic)
      && "--all" !in t && "--verbose" !in t
  {
    FlagRanks();
    AnalysisTokensOrdered(c);
    var s := Flag(c.symbolic, "--symbolic");
    var st := Flag(c.staticAnalysis, "--static");
    var d := Flag(c.dynamic, "--dynamic");
    assert AnalysisTokens(c) == s + st + d;
  }

  lemma TokensAreTokens(a: seq<string>, b: seq<string>)
    requires forall i :: 0 <= i < |a| ==> IsToken(a[i])
    requires forall i :: 0 <= i < |b| ==> IsToken(b[i])
    ensures forall i :: 0 <= i < |a + b| ==> IsToken((a + b)[i])
  {
    forall i | 0 <= i < |a + b| ensures IsToken((a + b)[i]) {
      if i >= |a| { assert (a + b)[i] == b[i - |a|]; }
    }
  }

  /** The panel's tokens: its flags in the fixed order, each individual
      flag exactly when its box is checked (disabled or not), never "--all",
      and "--verbose N" last exactly when verbose > 0. */
  lemma PanelTokensMeaning(c: Checks)
    ensures var t := PanelTokens(c);
      && (forall i :: 0 <= i < |t| ==> IsToken(t[i]))
      && Ordered(t)
      && "--all" !in t
      && ("--symbolic" in t <==> c.symbolic)
      && ("--static" in t <==> c.staticAnalysis)
      && ("--dynamic" in t <==> c.dynamic)
      && ("--verbose" in t <==> c.verbose > 0)
      && (c.verbose > 0 ==>
            && |t| >= 2 && t[|t| - 2] == "--verbose"
            && IsNumeral(t[|t| - 1])
            && DecimalValue(t[|t| - 1]) == c.verbose)
  {
    var a := AnalysisTokens(c);
    var v := VerboseTokens(c.verbose);
    FlagRanks();
    AnalysisTokensFacts(c);
    VerboseTokensFacts(c.verbose);
    OrderedConcat(a, v);
    TokensAreTokens(a, v);
    assert forall g :: g in v ==> Rank(g) >= 3;
    if c.verbose > 0 {
      assert (a + v)[|a + v| - 1] == v[1];
      assert (a + v)[|a + v| - 2] == v[0];
    }
  }

  /** The panel's string reads back as its tokens. */
  lemma PanelOptionsRoundTrip(c: Checks)
    ensures ParseOptions(OptionString(PanelTokens(c))) == PanelTokens(c)
  {
    PanelTokensMeaning(c);
    OptionsRoundTrip(PanelTokens(c));
  }

  /** The dialog's tokens: "--all" alone in place of the individual flags
      when All is checked, the individual flags in order otherwise, then
      "--verbose N" exactly when verbose > 0. */
  lemma DialogTokensMeaning(c: Checks)
    ensures var t := DialogTokens(c);
      && (forall i :: 0 <= i < |t| ==> IsToken(t[i]))
      && Ordered(t)
      && ("--all" in t <==> c.all)
      && ("--symbolic" in t <==> !c.all && c.symbolic)
      && ("--static" in t <==> !c.all && c.staticAnalysis)
      && ("--dynamic" in t <==> !c.all && c.dynamic)
      && ("--verbose" in t <==> c.verbose > 0)
      && (c.verbose > 0 ==>
            && |t| >= 2 && t[|t| - 2] == "--verbose"
            && IsNumeral(t[|t| - 1])
            && DecimalValue(t[|t| - 1]) == c.verbose)
  {
    var v := VerboseTokens(c.verbose);
    FlagRanks();
    VerboseTokensFacts(c.verbose);
    assert forall g :: g in v ==> Rank(g) >= 3;
    if c.all {
      DialogAllTokens(c);
    } else {
      PanelTokensMeaning(c);
      assert DialogTokens(c) == PanelTokens(c);
    }
  }

  lemma DialogAllTokens(c: Checks)
    requires c.all
    ensures var t := DialogTokens(c);
      && (forall i :: 0 <= i < |t| ==> IsToken(t[i]))
      && Ordered(t)
      && t[0] == "--all"
      && "--symbolic" !in t && "--static" !in t && "--dynamic" !in t
      && ("--verbose" in t <==> c.verbose > 0)
      && (c.verbose > 0 ==>
            && |t| == 3 && t[1] == "--verbose"
            && IsNumeral(t[2]) && DecimalValue(t[2]) == c.verbose)
  {
    var a := ["--all"];
    var v := VerboseTokens(c.verbose);
    FlagRanks();
    VerboseTokensFacts(c.verbose);
    OrderedConcat(a, v);
    TokensAreTokens(a, v);
    assert forall g :: g in v ==> Rank(g) >= 3;
  }

  /** The dialog's string reads back as its tokens. */
  lemma DialogOptionsRoundTrip(c: Checks)
    ensures ParseOptions(OptionString(DialogTokens(c))) == DialogTokens(c)
  {
    DialogTokensMeaning(c);
    OptionsRoundTrip(DialogTokens(c));
  }

  /** The panel starts with nothing checked and verbose 0. */
  const PanelInitial := Checks(false, false, false, false, true, 0)

  /** The dialog starts with nothing checked and verbose 1. */
  const DialogInitial := Checks(false, false, false, false, true, 1)

  /** The initial strings: "" for the panel, "--verbose 1" for the dialog. */
  lemma InitialOptions()
    ensures Interlocked(PanelInitial) && Interlocked(DialogInitial)
    ensures OptionString(PanelTokens(PanelInitial)) == ""
    ensures OptionString(DialogTokens(DialogInitial)) == "--verbose 1"
  {
    assert DigitChar(1) == '1';
    assert Decimal(1) == "1";
    assert DialogTokens(DialogInitial) == ["--verbose", "1"];
    assert ["--verbose", "1"][1..] == ["1"];
    assert Join(["--verbose", "1"], [Separator]) == "--verbose" + [Separator] + "1";
  }

  class CliOptionsPanel {
    var symbolic: bool
    var staticAnalysis: bool
    var dynamic: bool
    var all: bool
    var othersEnabled: bool
    var verbose: int

    function State(): (c: Checks)
      reads this
      ensures c.symbolic == symbolic && c.staticAnalysis == staticAnalysis && c.dynamic == dynamic
      ensures c.all == all && c.othersEnabled == othersEnabled && c.verbose == verbose
    {
      Checks(symbolic, staticAnalysis, dynamic, all, othersEnabled, verbose)
    }

    ghost predicate Valid()
      reads this
    {
      Interlocked(State())
    }

    method Assign(c: Checks)
      modifies this
      ensures State() == c
    {
      symbolic, staticAnalysis, dynamic := c.symbolic, c.staticAnalysis, c.dynamic;
      all, othersEnabled, verbose := c.all, c.othersEnabled, c.verbose;
    }

    /** The constructor with setupUi: nothing checked, verbose 0. */
    constructor ()
      ensures State() == PanelInitial && Valid()
    {
      symbolic, staticAnalysis, dynamic := false, false, false;
      all, othersEnabled, verbose := false, true, 0;
    }

    /** A click on All, with the stateChanged lambda. */
    method ClickAll()
      modifies this
      ensures State() == ToggleAll(old(State()))
      ensures old(Valid()) ==> Valid()
    {
      Assign(ToggleAll(State()));
    }

    /** A click on an individual box, with the disableAll lambda. */
    method ClickBox(b: Box)
      modifies this
      ensures State() == ToggleBox(old(State()), b)
      ensures old(Valid()) ==> Valid()
    {
      Assign(ToggleBox(State(), b));
    }

    method SetVerbose(v: int)
      modifies this
      ensures State() == ClampVerbose(old(State()), v)
      ensures old(Valid()) ==> Valid()
    {
      Assign(ClampVerbose(State(), v));
    }

    /** getCommandOptions: the string reads back as the panel's tokens. */
    function GetCommandOptions(): (s: string)
      reads this
      ensures ParseOptions(s) == PanelTokens(State())
    {
      PanelOptionsRoundTrip(State());
      OptionString(PanelTokens(State()))
    }
  }

  class CliOptionsDialog {
    var symbolic: bool
    var staticAnalysis: bool
    var dynamic: bool
    var all: bool
    var othersEnabled: bool
    var verbose: int

    function State(): (c: Checks)
      reads this
      ensures c.symbolic == symbolic && c.staticAnalysis == staticAnalysis && c.dynamic == dynamic
      ensures c.all == all && c.othersEnabled == othersEnabled && c.verbose == verbose
    {
      Checks(symbolic, staticAnalysis, dynamic, all, othersEnabled, verbose)
    }

    ghost predicate Valid()
      reads this
    {
      Interlocked(State())
    }

    method Assign(c: Checks)
      modifies this
      ensures State() == c
    {
      symbolic, staticAnalysis, dynamic := c.symbolic, c.staticAnalysis, c.dynamic;
      all, othersEnabled, verbose := c.all, c.othersEnabled, c.verbose;
    }

    /** The constructor with setupUi: nothing checked, verbose 1. */
    constructor ()
      ensures State() == DialogInitial && Valid()
    {
      symbolic, staticAnalysis, dynamic := false, false, false;
      all, othersEnabled, verbose := false, true, 1;
    }

    method ClickAll()
      modifies this
      ensures State() == ToggleAll(old(State()))
      ensures old(Valid()) ==> Valid()
    {
      Assign(ToggleAll(State()));
    }

    method ClickBox(b: Box)
      modifies this
      ensures State() == ToggleBox(old(State()), b)
      ensures old(Valid()) ==> Valid()
    {
      Assign(ToggleBox(State(), b));
    }

    method SetVerbose(v: int)
      modifies this
      ensures State() == ClampVerbose(old(State()), v)
      ensures old(Valid()) ==> Valid()
    {
      Assign(ClampVerbose(State(), v));
    }

    /** getCommandOptions: the string reads back as the dialog's tokens. */
    function GetCommandOptions(): (s: string)
      reads this
      ensures ParseOptions(s) == DialogTokens(State())
    {
      DialogOptionsRoundTrip(State());
      OptionString(DialogTokens(State()))
    }
  }
}
