/** The stub analysis command (ctrace-cli.c): it looks only at its first
    argument, compares a fixed number of leading bytes against each known
    option in turn, and prints one of five constant JSON objects. */
module StubCli {
  import opened Text

  datatype Mode = Dynamic | Static | Help | All | Unknown

  /** The byte of a C string at index i: past the end, the NUL terminator. */
  function CChar(s: string, i: nat): char
  {
    if i < |s| then s[i] else '\0'
  }

  /** memcmp(arg, lit, n) == 0: the first n bytes of the C string arg equal
      those of lit. A shorter arg differs at its terminator. */
  predicate MemEqual(arg: string, lit: string, n: nat)
    requires n <= |lit|
  {
    forall i :: 0 <= i < n ==> CChar(arg, i) == lit[i]
  }

  /** For a literal without NUL bytes, the comparison is a prefix test on
      the first n characters of the literal. */
  lemma MemEqualIsPrefix(arg: string, lit: string, n: nat)
    requires n <= |lit|
    requires forall i :: 0 <= i < n ==> lit[i] != '\0'
    ensures MemEqual(arg, lit, n) <==> HasPrefix(arg, lit[..n])
  {
    if |arg| < n {
      assert CChar(arg, |arg|) != lit[|arg|];
    } else if MemEqual(arg, lit, n) {
      assert arg[..n] == lit[..n] by {
        forall i | 0 <= i < n ensures arg[i] == lit[i] {
          assert CChar(arg, i) == lit[i];
        }
      }
    } else if HasPrefix(arg, lit[..n]) {
      forall i | 0 <= i < n ensures CChar(arg, i) == lit[i] {
        assert arg[..n][i] == lit[..n][i];
      }
    }
  }

  /** The if/else chain of main: dynamic, static and help compare 5 bytes,
      all compares 4, and the first match wins. */
  function Classify(arg: string): Mode
  {
    if MemEqual(arg, "--dynamic", 5) then Dynamic
    else if MemEqual(arg, "--static", 5) then Static
    else if MemEqual(arg, "--help", 5) then Help
    else if MemEqual(arg, "--all", 4) then All
    else Unknown
  }

  /** Classify in terms of the prefixes actually compared: "--dyn", "--sta",
      "--hel" and "--al", compared in that order. */
  lemma ClassifyMeaning(arg: string)
    ensures Classify(arg) == Dynamic <==> HasPrefix(arg, "--dyn")
    ensures Classify(arg) == Static <==> !HasPrefix(arg, "--dyn") && HasPrefix(arg, "--sta")
    ensures Classify(arg) == Help <==>
      !HasPrefix(arg, "--dyn") && !HasPrefix(arg, "--sta") && HasPrefix(arg, "--hel")
    ensures Classify(arg) == All <==>
      !HasPrefix(arg, "--dyn") && !HasPrefix(arg, "--sta") && !HasPrefix(arg, "--hel") && HasPrefix(arg, "--al")
    ensures Classify(arg) == Unknown <==>
      !HasPrefix(arg, "--dyn") && !HasPrefix(arg, "--sta") && !HasPrefix(arg, "--hel") && !HasPrefix(arg, "--al")
  {
    assert "--dynamic"[..5] == "--dyn";
    assert "--static"[..5] == "--sta";
    assert "--help"[..5] == "--hel";
    assert "--all"[..4] == "--al";
    MemEqualIsPrefix(arg, "--dynamic", 5);
    MemEqualIsPrefix(arg, "--static", 5);
    MemEqualIsPrefix(arg, "--help", 5);
    MemEqualIsPrefix(arg, "--all", 4);
  }

  /** Only the compared bytes count: "--stack" is static, "--alpha" is all,
      and an argument shorter than the compared length is unknown. */
  lemma PrefixExamples()
    ensures Classify("--stack") == Static
    ensures Classify("--alpha") == All
    ensures Classify("--dy") == Unknown
  {
    ClassifyMeaning("--stack");
    ClassifyMeaning("--alpha");
    ClassifyMeaning("--dy");
    assert "--stack"[..5] == "--sta";
    assert "--alpha"[..4] == "--al";
    assert "--dy"[2] != "--al"[2];
  }

  /** The value of the JSON "type" field. */
  function TypeName(m: Mode): string
  {
    match m
    case Dynamic => "dynamic"
    case Static => "static"
    case Help => "help"
    case All => "all"
    case Unknown => "unknown"
  }

  /** The value of the JSON "description" field. */
  function Description(m: Mode): string
  {
    match m
    case Dynamic => "Dynamically configured behavior activated"
    case Static => "Statically configured behavior activated"
    case Help => "Available options: --dynamic, --static, --help"
    case All => "All options activated"
    case Unknown => "Unrecognized option"
  }

  const TypeLineHead := "  \"type\": \""
  const TypeLineTail := "\","
  const DescriptionLineHead := "  \"description\": \""
  const DescriptionLineTail := "\""

  /** A four-line JSON object with the given "type" and "description". */
  function Object(typeName: string, description: string): string
  {
    "{" + "\n" + TypeLineHead + typeName + TypeLineTail + "\n"
      + DescriptionLineHead + description + DescriptionLineTail + "\n" + "}"
  }

  /** The buffer each branch prints. */
  function Json(m: Mode): string
  {
    Object(TypeName(m), Description(m))
  }

  /** main: exit code 1 and no output with fewer than two arguments (argv[0]
      included); otherwise the JSON for argv[1], a line break, and exit code 0. */
  function Main(argv: seq<string>): (r: (int, string))
    ensures |argv| < 2 ==> r == (1, "")
    ensures |argv| >= 2 ==> r.0 == 0 && |r.1| >= 1 && r.1[|r.1| - 1] == '\n'
    ensures |argv| >= 2 ==> exists m: Mode :: r.1 == Json(m) + "\n"
  {
    if |argv| < 2 then (1, "")
    else (0, Json(Classify(argv[1])) + "\n")
  }

  /** Only argv[1] is inspected. */
  lemma OnlyFirstArgument(a: seq<string>, b: seq<string>)
    requires |a| >= 2 && |b| >= 2 && a[1] == b[1]
    ensures Main(a) == Main(b)
  {
  }

  /** Where the value of "type" starts in every output. */
  const TypeOffset := |"{" + "\n" + TypeLineHead|

  /** The mode named by an output, read from the first letter of its "type"
      value; anything unrecognised reads as Unknown. */
  function ModeOf(out: string): Mode
  {
    if |out| <= TypeOffset then Unknown
    else
      var c := out[TypeOffset];
      if c == 'd' then Dynamic
      else if c == 's' then Static
      else if c == 'h' then Help
      else if c == 'a' then All
      else Unknown
  }

  lemma TypeValueAt(typeName: string, description: string, rest: string)
    requires |typeName| >= 1
    ensures var out := Object(typeName, description) + rest;
      |out| > TypeOffset && out[TypeOffset] == typeName[0]
  {
    var head := "{" + "\n" + TypeLineHead;
    var tail := TypeLineTail + "\n" + DescriptionLineHead + description + DescriptionLineTail + "\n" + "}" + rest;
    assert Object(typeName, description) + rest == head + (typeName + tail);
  }

  lemma ReadsBackMode(m: Mode)
    ensures ModeOf(Json(m) + "\n") == m
  {
    TypeValueAt(TypeName(m), Description(m), "\n");
  }

  /** The output names the mode that was selected: reading it back gives the
      classification of argv[1]. */
  lemma OutputNamesMode(argv: seq<string>)
    requires |argv| >= 2
    ensures ModeOf(Main(argv).1) == Classify(argv[1])
  {
    ReadsBackMode(Classify(argv[1]));
  }

  /** Different modes print different outputs. */
  lemma OutputsDistinct(a: seq<string>, b: seq<string>)
    requires |a| >= 2 && |b| >= 2
    requires Classify(a[1]) != Classify(b[1])
    ensures Main(a).1 != Main(b).1
  {
    OutputNamesMode(a);
    OutputNamesMode(b);
  }
}
