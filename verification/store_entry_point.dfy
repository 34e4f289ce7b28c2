/**
 * StoreEntryPoint, the base class of the store commands: the report output
 * primitives (println, warn, heading) over the output stream, the parsing of
 * the positional arguments, and the mapping from a failure to an exit code.
 *
 * The output stream is modelled as the sequence of lines written to it, one
 * element per println call; a line may itself hold newline characters, as a
 * heading does. Arguments of String.format arrive already formatted. Java
 * measures a string in UTF-16 code units (String.length()), which is what
 * Utf16Length counts; a char above U+FFFF takes two of them.
 */
module StoreEntry {
  import opened Results
  import opened JavaStrings

  /** The failures exitOnThrowable tells apart; a Java class is exactly one of these. */
  datatype Throwable =
    | UnknownOptionException(message: string)   // CommandFormat.UnknownOptionException
    | StoreExitException(exitCode: int, message: string)
    | OtherThrowable(description: string)        // any other class; description is its toString()

  /** The exit codes used by exitOnThrowable: EXIT_USAGE and StoreExitCodes.E_ERROR. */
  datatype ExitCodes = ExitCodes(usage: int, error: int)

  /**
   * How exitOnThrowable ends: ExitUtil.terminate is asked to exit with this
   * status and text, or the String.format inside errorln throws an
   * IllegalFormatException first, which leaves exitOnThrowable unterminated.
   */
  datatype Termination = Terminate(status: int, text: string) | FormatFailure

  /** CommandFormat.parse: the positional arguments, or the failure it throws. */
  type CommandFormat = seq<string> -> Result<seq<string>, Throwable>

  /** The Throwable raised when a null command format is dereferenced. */
  const NULL_POINTER := OtherThrowable("java.lang.NullPointerException")

  const WARNING_PREFIX := "WARNING: "

  /** The line warn() writes: the fixed prefix, then the text. */
  function WarningLine(text: string): (line: string)
    ensures |line| == |WARNING_PREFIX| + |text|
    ensures line[..|WARNING_PREFIX|] == WARNING_PREFIX && line[|WARNING_PREFIX|..] == text
  {
    WARNING_PREFIX + text
  }

  /** The lines warn() writes for each text in turn. */
  function WarningLines(texts: seq<string>): (lines: seq<string>)
    ensures |lines| == |texts|
    ensures forall k :: 0 <= k < |texts| ==> lines[k] == WarningLine(texts[k])
  {
    if texts == [] then [] else [WarningLine(texts[0])] + WarningLines(texts[1..])
  }

  /** Warning about one more text appends its line to the others. */
  lemma WarningLinesSnocText(texts: seq<string>, text: string)
    ensures WarningLines(texts + [text]) == WarningLines(texts) + [WarningLine(text)]
  {
    var lines := WarningLines(texts + [text]);
    forall k | 0 <= k < |texts| ensures lines[k] == WarningLine(texts[k]) {
      assert (texts + [text])[k] == texts[k];
    }
  }

  /** Whether a line is one that warn() wrote. */
  predicate IsWarningLine(line: string) {
    |WARNING_PREFIX| <= |line| && line[..|WARNING_PREFIX|] == WARNING_PREFIX
  }

  /** The number of warning lines in an output. */
  function CountWarnings(lines: seq<string>): nat {
    if lines == [] then 0
    else (if IsWarningLine(lines[0]) then 1 else 0) + CountWarnings(lines[1..])
  }

  lemma {:induction false} CountWarningsAppend(a: seq<string>, b: seq<string>)
    ensures CountWarnings(a + b) == CountWarnings(a) + CountWarnings(b)
  {
    if a == [] {
      assert a + b == b;
    } else {
      assert (a + b)[1..] == a[1..] + b;
      CountWarningsAppend(a[1..], b);
    }
  }

  /** Every line of WarningLines(texts) is a warning: it counts exactly |texts| of them. */
  lemma {:induction false} CountWarningLines(texts: seq<string>)
    ensures CountWarnings(WarningLines(texts)) == |texts|
  {
    if texts != [] {
      assert WarningLines(texts)[1..] == WarningLines(texts[1..]);
      CountWarningLines(texts[1..]);
    }
  }

  /** An underline of n '=' characters. */
  function Rule(n: nat): (r: string)
    ensures |r| == n
    ensures forall k :: 0 <= k < n ==> r[k] == '='
  {
    if n == 0 then "" else Rule(n - 1) + "="
  }

  /**
   * The line heading() writes: a blank line, the text, its underline, a blank
   * line. The underline has one '=' per UTF-16 unit of the text, so the line
   * holds the text once in chars and once more in units, plus three newlines.
   */
  function HeadingLine(text: string): (line: string)
    ensures |line| == |text| + Utf16Length(text) + 3
    ensures line[0] == '\n' && line[1..1 + |text|] == text
  {
    var line := "\n" + text + "\n" + Rule(Utf16Length(text)) + "\n";
    assert line[1..1 + |text|] == text;
    line
  }

  /** The text of a heading can be read back from the line: the line determines it. */
  lemma HeadingLineInjective(a: string, b: string)
    requires HeadingLine(a) == HeadingLine(b)
    ensures a == b
  {
    var line := HeadingLine(a);
    if |a| <= |b| {
      assert b[..|a|] == line[1..1 + |a|];
      Utf16LengthOfPrefix(a, b);
    } else {
      assert a[..|b|] == line[1..1 + |b|];
      Utf16LengthOfPrefix(b, a);
    }
  }

  /**
   * The underline of a heading lies between its second and third newline and
   * has one '=' per UTF-16 unit of the text.
   */
  lemma HeadingUnderlineMatchesText(text: string)
    ensures HeadingLine(text)[..1] == "\n"
    ensures HeadingLine(text)[1..1 + |text|] == text
    ensures HeadingLine(text)[1 + |text|] == '\n'
    ensures forall k :: 2 + |text| <= k < 2 + |text| + Utf16Length(text) ==> HeadingLine(text)[k] == '='
    ensures HeadingLine(text)[2 + |text| + Utf16Length(text)] == '\n'
  {
    FramedLine(text, Rule(Utf16Length(text)));
  }

  /** Where the parts of "\n" + text + "\n" + u + "\n" lie, for any text and underline u. */
  lemma FramedLine(text: string, u: string)
    ensures ("\n" + text + "\n" + u + "\n")[..1] == "\n"
    ensures ("\n" + text + "\n" + u + "\n")[1..1 + |text|] == text
    ensures ("\n" + text + "\n" + u + "\n")[1 + |text|] == '\n'
    ensures forall k :: 2 + |text| <= k < 2 + |text| + |u| ==>
      ("\n" + text + "\n" + u + "\n")[k] == u[k - 2 - |text|]
    ensures ("\n" + text + "\n" + u + "\n")[2 + |text| + |u|] == '\n'
  {
    var line := "\n" + text + "\n" + u + "\n";
    assert line == ("\n" + text + "\n") + u + "\n";
    assert ("\n" + text + "\n")[1 + |text|] == '\n';
  }

  /** A char above U+FFFF is a surrogate pair to Java: its heading is underlined twice. */
  lemma SupplementaryCharUnderlinedTwice(c: char)
    requires c as int > 0xFFFF
    ensures HeadingLine([c]) == ['\n', c, '\n', '=', '=', '\n']
  {
    assert Utf16Length([c]) == 2 by {
      assert Supplementary([c]) == {0};
    }
    assert Rule(2) == "==";
  }

  /** The loop of heading(): one '=' appended per UTF-16 unit of the text. */
  method Underline(text: string) returns (sb: string)
    ensures |sb| == Utf16Length(text)
    ensures forall k :: 0 <= k < |sb| ==> sb[k] == '='
    ensures sb == Rule(Utf16Length(text))
  {
    var l := Utf16Length(text);
    sb := "";
    for i := 0 to l
      invariant sb == Rule(i)
    {
      sb := sb + "=";
    }
  }

  /** A line that does not start with 'W' is not a warning. */
  lemma NotWarningLine(line: string)
    requires line == [] || line[0] != 'W'
    ensures !IsWarningLine(line)
  {
  }

  /** A heading is never mistaken for a warning: it starts with a newline. */
  lemma HeadingIsNotWarning(text: string)
    ensures !IsWarningLine(HeadingLine(text))
  {
    NotWarningLine(HeadingLine(text));
  }

  /**
   * exitOnThrowable as written: an unknown option is first reported through
   * errorln, which uses its message as the format string, and then exits with
   * the usage code; a StoreExitException exits with its own code, anything
   * else with the error code. A message holding a conversion such as "%d"
   * makes errorln throw, so that unknown option never reaches the exit.
   */
  function ExitOnThrowable(ex: Throwable, codes: ExitCodes): (t: Termination)
    ensures ex.UnknownOptionException? && FormatWithoutArguments(ex.message).Some? ==>
      t == Terminate(codes.usage, ex.message)
    ensures ex.UnknownOptionException? && FormatWithoutArguments(ex.message).None? ==>
      t == FormatFailure
    ensures ex.StoreExitException? ==> t == Terminate(ex.exitCode, ex.message)
    ensures ex.OtherThrowable? ==> t == Terminate(codes.error, ex.description)
  {
    match ex
    case UnknownOptionException(message) =>
      // errorln(ex.getMessage()): String.format(message) with no arguments.
      if FormatWithoutArguments(message).None? then FormatFailure
      else Terminate(codes.usage, message)
    case StoreExitException(code, message) => Terminate(code, message)
    case OtherThrowable(description) => Terminate(codes.error, description)
  }

  /**
   * exitOnThrowable as evidently intended: the message of an unknown option is
   * printed verbatim (errorln("%s", message)), so every throwable terminates.
   */
  function ExitOnThrowableCorrected(ex: Throwable, codes: ExitCodes): (t: Termination)
    ensures t.Terminate?
    ensures ex.UnknownOptionException? ==> t == Terminate(codes.usage, ex.message)
    ensures ex.StoreExitException? ==> t == Terminate(ex.exitCode, ex.message)
    ensures ex.OtherThrowable? ==> t == Terminate(codes.error, ex.description)
  {
    match ex
    case UnknownOptionException(message) => Terminate(codes.usage, message)
    case StoreExitException(code, message) => Terminate(code, message)
    case OtherThrowable(description) => Terminate(codes.error, description)
  }

  /** The code as written and the corrected one part only on unknown options whose message cannot be formatted. */
  lemma ExitOnThrowableDiffersOnlyOnFormat(ex: Throwable, codes: ExitCodes)
    ensures ExitOnThrowable(ex, codes) ==
      if ex.UnknownOptionException? && FormatWithoutArguments(ex.message).None? then FormatFailure
      else ExitOnThrowableCorrected(ex, codes)
  {
  }

  /**
   * An unknown option "-%d": errorln's format throws, so the code as written
   * never exits with the usage code, while the corrected one does.
   */
  lemma UnknownOptionWithConversionEscapes(codes: ExitCodes)
    ensures ExitOnThrowable(UnknownOptionException("Illegal option -%d"), codes) == FormatFailure
    ensures ExitOnThrowableCorrected(UnknownOptionException("Illegal option -%d"), codes)
         == Terminate(codes.usage, "Illegal option -%d")
  {
    FormatFailsOnConversion("Illegal option -", 'd', "");
    assert "Illegal option -" + ['%', 'd'] + "" == "Illegal option -%d";
  }

  /**
   * When the usage and error codes differ, the exit status tells a usage error
   * from a generic failure; a StoreExitException keeps whatever code it carries.
   */
  lemma ExitStatusSeparatesUsageFromError(ex: Throwable, codes: ExitCodes)
    requires codes.usage != codes.error
    requires !ex.StoreExitException?
    ensures ExitOnThrowableCorrected(ex, codes).status == codes.usage <==> ex.UnknownOptionException?
    ensures ExitOnThrowableCorrected(ex, codes).status == codes.error <==> ex.OtherThrowable?
    ensures ExitOnThrowable(ex, codes).Terminate? && ExitOnThrowable(ex, codes).status == codes.usage
        <==> ex.UnknownOptionException? && FormatWithoutArguments(ex.message).Some?
  {
  }

  /**
   * A command given arguments before any command format was set fails on the
   * null format, and exitOnThrowable turns that into the generic error code.
   */
  lemma MissingCommandFormatExitsWithError(entry: StoreEntryPoint, args: seq<string>, codes: ExitCodes)
    requires |args| > 0 && entry.commandFormat.None?
    ensures entry.ParseArgs(args).Err?
    ensures ExitOnThrowable(entry.ParseArgs(args).error, codes)
         == Terminate(codes.error, "java.lang.NullPointerException")
    ensures ExitOnThrowableCorrected(entry.ParseArgs(args).error, codes)
         == Terminate(codes.error, "java.lang.NullPointerException")
  {
  }

  class StoreEntryPoint {
    /** The lines written so far to the current output stream. */
    var out: seq<string>
    /** The command format; null until a subclass sets one. */
    var commandFormat: Option<CommandFormat>

    constructor ()
      ensures out == [] && commandFormat == None
    {
      out := [];
      commandFormat := None;
    }

    /** setOut: later output goes to a stream that already holds these lines. */
    method SetOut(stream: seq<string>)
      modifies this`out
      ensures out == stream
    {
      out := stream;
    }

    method SetCommandFormat(format: Option<CommandFormat>)
      modifies this`commandFormat
      ensures commandFormat == format
    {
      commandFormat := format;
    }

    /** println: appends the text as one line; earlier output is untouched. */
    method Println(text: string)
      modifies this`out
      ensures out == old(out) + [text]
      ensures out[..|old(out)|] == old(out) && out[|old(out)|] == text
    {
      out := out + [text];
    }

    /** warn: appends one line, the text behind the fixed warning prefix. */
    method Warn(text: string)
      modifies this`out
      ensures out == old(out) + [WarningLine(text)]
      ensures out[..|old(out)|] == old(out)
    {
      out := out + [WARNING_PREFIX + text];
    }

    /** heading: builds an underline as long as the text and prints both through println. */
    method Heading(text: string)
      modifies this`out
      ensures out == old(out) + [HeadingLine(text)]
      ensures out[..|old(out)|] == old(out)
    {
      var sb := Underline(text);
      Println("\n" + text + "\n" + sb + "\n");
    }

    /**
     * parseArgs: no arguments give an empty list without touching the command
     * format; otherwise the command format parses them, and a missing one is a
     * null dereference.
     */
    function ParseArgs(args: seq<string>): (r: Result<seq<string>, Throwable>)
      reads this
      ensures |args| == 0 ==> r == Ok([])
      ensures |args| > 0 && commandFormat.None? ==> r == Err(NULL_POINTER)
      ensures |args| > 0 && commandFormat.Some? ==> r == commandFormat.value(args)
    {
      if |args| > 0 then
        match commandFormat
        case None => Err(NULL_POINTER)
        case Some(parse) => parse(args)
      else Ok([])
    }
  }
}
