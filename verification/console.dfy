/** The toy command console of the portfolio page (class TerminalEasterEgg in
    script.js) together with the two global functions that open and close it.

    The console's output element is a list of children. `addOutput` inserts a
    new line just before the prompt element, `clearOutput` removes every output
    line, and `processCommand` decides, from a fixed table of six commands,
    which of these to do. */
module Console {

  /** The `type` argument of addOutput; it becomes the line's second CSS class.
      `Plain` is the default empty type. */
  datatype Kind = Plain | Command | Success | Error

  /** A child of the console's output element. */
  datatype Element =
    | OutputLine(text: string, kind: Kind)  // a `.terminal-output-line` div made by addOutput
    | Other(markup: string)                 // any other child the page markup places there
    | Prompt                                // the `.terminal-prompt` row that holds the input field

  // ---------------------------------------------------------------------------
  // The command table
  // ---------------------------------------------------------------------------

  /** The reply of `clear` is not shown: it tells processCommand to wipe the output. */
  const ClearSentinel: string := "CLEAR_OUTPUT"

  const HelloText: string :=
    "👋 Hello! Welcome to my portfolio. Try typing \"hack\" for a surprise!"
  const HackText: string :=
    "🎉 Achievement Unlocked: Curious Mind! 💻\n\nYou found the secret console! As an AI/ML engineer, I believe the best discoveries come from curiosity.\n\nBonus fact: This portfolio was built with vanilla JS, no frameworks needed. Sometimes the simplest solutions are the most elegant.\n\nTry \"skills\" or \"contact\" for more info!"
  const SkillsText: string :=
    "💪 Core Skills:\n• Machine Learning & Deep Learning\n• Python, Go, TensorFlow, PyTorch\n• Distributed Systems & MLOps\n• CI/CD with GitHub Actions\n• Linux & Cloud Infrastructure"
  const ContactText: string :=
    "📧 Let's connect!\nEmail: contact@example.com\nGitHub: github.com\nLinkedIn: linkedin.com"
  const HelpText: string :=
    "Available commands:\n• hello - Greeting message\n• hack - Easter egg surprise 🎉\n• skills - View my technical skills\n• contact - Get in touch\n• clear - Clear console\n• exit - Close console"

  /** The six entries of the console's command table, and nothing else. */
  const Commands: map<string, string> := map[
    "hello" := HelloText,
    "hack" := HackText,
    "skills" := SkillsText,
    "contact" := ContactText,
    "clear" := ClearSentinel,
    "help" := HelpText
  ]

  /** The commands whose reply is printed as a success line. */
  const Replying: set<string> := {"hello", "hack", "skills", "contact", "help"}

  function Echo(command: string): string {
    "$> " + command
  }

  function NotFound(command: string): string {
    "Command not found: " + command + ". Type \"help\" for available commands."
  }

  // ---------------------------------------------------------------------------
  // Normalising the raw input: trim, then lower-case
  // ---------------------------------------------------------------------------

  /** The characters JavaScript's String.prototype.trim removes: the
      WhiteSpace and LineTerminator code points of ECMAScript (tab, vertical
      tab, form feed, the byte order mark, every space separator of Unicode
      category Zs, line feed, carriage return, line and paragraph separator). */
  const Spaces: set<char> := {
    '\t', '\n', '\U{B}', '\U{C}', '\r', ' ', '\U{A0}', '\U{1680}',
    '\U{2000}', '\U{2001}', '\U{2002}', '\U{2003}', '\U{2004}', '\U{2005}',
    '\U{2006}', '\U{2007}', '\U{2008}', '\U{2009}', '\U{200A}',
    '\U{2028}', '\U{2029}', '\U{202F}', '\U{205F}', '\U{3000}', '\U{FEFF}'
  }

  predicate IsSpace(c: char) {
    c in Spaces
  }

  predicate AllSpace(s: string) {
    forall i :: 0 <= i < |s| ==> IsSpace(s[i])
  }

  /** The length of the longest all-whitespace prefix of `s`. */
  function LeadingSpaces(s: string): (k: nat)
    ensures k <= |s|
    ensures forall i :: 0 <= i < k ==> IsSpace(s[i])
    ensures k < |s| ==> !IsSpace(s[k])
  {
    if s != [] && IsSpace(s[0]) then
      1 + LeadingSpaces(s[1..])
    else
      0
  }

  /** The length of the longest all-whitespace suffix of `s`. */
  function TrailingSpaces(s: string): (k: nat)
    ensures k <= |s|
    ensures forall i :: |s| - k <= i < |s| ==> IsSpace(s[i])
    ensures k < |s| ==> !IsSpace(s[|s| - k - 1])
  {
    if s != [] && IsSpace(s[|s| - 1]) then
      1 + TrailingSpaces(s[..|s| - 1])
    else
      0
  }

  /** `s` with the whitespace at both ends cut off: what remains is a slice
      of `s` framed by whitespace, and it neither starts nor ends with
      whitespace. */
  function Trim(s: string): (r: string)
    ensures exists a, b :: 0 <= a <= b <= |s| && AllSpace(s[..a]) && AllSpace(s[b..]) && r == s[a..b]
    ensures r != [] ==> !IsSpace(r[0]) && !IsSpace(r[|r| - 1])
  {
    var a := LeadingSpaces(s);
    var rest := s[a..];
    var t := TrailingSpaces(rest);
    var b := |s| - t;
    assert AllSpace(s[..a]);
    assert AllSpace(s[b..]) by {
      assert s[b..] == rest[|rest| - t..];
    }
    assert s[a..b] == rest[..|rest| - t];
    s[a..b]
  }

  /** The KELVIN SIGN, the one non-ASCII character whose lower-case form is
      a single ASCII letter (`k`). */
  const Kelvin: char := '\U{212A}'

  /** The case mapping of toLowerCase on ASCII letters and the Kelvin sign. */
  function LowerChar(c: char): char {
    if 'A' <= c <= 'Z' then (c as int + 32) as char
    else if c == Kelvin then 'k'
    else c
  }

  function Lower(s: string): (r: string)
    ensures |r| == |s|
    ensures forall i :: 0 <= i < |r| ==> !('A' <= r[i] <= 'Z') && r[i] != Kelvin
    ensures forall i :: 0 <= i < |s| && !('A' <= s[i] <= 'Z') && s[i] != Kelvin ==> r[i] == s[i]
    ensures forall i :: 0 <= i < |s| && 'A' <= s[i] <= 'Z' ==> r[i] as int == s[i] as int + 32
    ensures forall i :: 0 <= i < |s| && s[i] == Kelvin ==> r[i] == 'k'
    ensures forall i :: 0 <= i < |s| ==> (IsSpace(r[i]) <==> IsSpace(s[i]))
  {
    seq(|s|, i requires 0 <= i < |s| => LowerChar(s[i]))
  }

  /** What the keypress handler hands to processCommand: `value.trim().toLowerCase()`.
      The result has no whitespace at either end and no upper-case letter. */
  function Normalize(raw: string): (r: string)
    ensures |r| <= |raw|
    ensures r != [] ==> !IsSpace(r[0]) && !IsSpace(r[|r| - 1])
    ensures forall i :: 0 <= i < |r| ==> !('A' <= r[i] <= 'Z') && r[i] != Kelvin
  {
    Lower(Trim(raw))
  }

  /** Trim removes exactly the whitespace padding around a word, so the
      command run is the lower-cased word. */
  lemma TrimPadded(pre: string, word: string, post: string)
    requires AllSpace(pre) && AllSpace(post)
    requires word != [] && !IsSpace(word[0]) && !IsSpace(word[|word| - 1])
    ensures Trim(pre + word + post) == word
    ensures Normalize(pre + word + post) == Lower(word)
  {
    var s := pre + word + post;
    assert s[|pre|] == word[0];
    assert forall i :: 0 <= i < |pre| ==> s[i] == pre[i];
    assert LeadingSpaces(s) == |pre|;
    var rest := s[|pre|..];
    assert rest == word + post;
    assert rest[|word| - 1] == word[|word| - 1];
    assert forall i :: |word| <= i < |rest| ==> rest[i] == post[i - |word|];
    assert TrailingSpaces(rest) == |post|;
  }

  lemma KelvinLower()
    ensures Lower("HAC\U{212A}") == "hack"
  {
    var lower := Lower("HAC\U{212A}");
    assert lower[0] == 'h' && lower[1] == 'a' && lower[2] == 'c' && lower[3] == 'k';
  }

  /** A command typed with a Kelvin sign for its `k` normalises to `hack`. */
  lemma KelvinHack()
    ensures Normalize("HAC\U{212A}") == "hack"
  {
    var typed := "HAC\U{212A}";
    assert "" + typed + "" == typed;
    TrimPadded("", typed, "");
    assert Trim(typed) == typed;
    KelvinLower();
  }

  /** ... and so prints the reply of `hack`, as in the browser. */
  lemma KelvinHackReply()
    ensures Dispatch(Normalize("HAC\U{212A}")) == Reply(HackText, Success)
  {
    KelvinHack();
    assert "hack" in Replying;
  }

  // ---------------------------------------------------------------------------
  // Choosing what a command does
  // ---------------------------------------------------------------------------

  /** The outcome processCommand chooses for a normalised command, after the echo. */
  datatype Action =
    | Ignore                          // empty command: nothing at all happens
    | Exit                            // close the console
    | Wipe                            // the table answered with the clear sentinel
    | Reply(text: string, kind: Kind) // add one more output line

  function Dispatch(command: string): (a: Action)
    ensures a == Ignore <==> command == ""
    ensures a == Exit <==> command == "exit"
    ensures a == Wipe <==> command == "clear"
    ensures a.Reply? && a.kind == Success <==> command in Replying
    ensures a.Reply? && a.kind == Success ==> command in Commands && a.text == Commands[command]
    ensures a.Reply? && a.kind == Error <==> command !in Commands && command != "" && command != "exit"
    ensures a.Reply? && a.kind == Error ==> a.text == NotFound(command)
    ensures a.Reply? ==> a.kind == Success || a.kind == Error
  {
    if command == "" then Ignore
    else if command == "exit" then Exit
    else
      var response := if command in Commands then Commands[command] else "";
      if response == ClearSentinel then Wipe
      else if response != "" then Reply(response, Success)
      else Reply(NotFound(command), Error)
  }

  // ---------------------------------------------------------------------------
  // The output element
  // ---------------------------------------------------------------------------

  /** insertBefore(e, prompt): `e` goes just before the first prompt, or at the
      end when there is no prompt (a null reference node appends). */
  function InsertBeforePrompt(xs: seq<Element>, e: Element): (r: seq<Element>)
    ensures |r| == |xs| + 1
    ensures multiset(r) == multiset(xs) + multiset{e}
  {
    if xs == [] then [e]
    else if xs[0].Prompt? then [e] + xs
    else
      assert xs == [xs[0]] + xs[1..];
      [xs[0]] + InsertBeforePrompt(xs[1..], e)
  }

  /** Every `.terminal-output-line` child removed, the other children kept. */
  function RemoveLines(xs: seq<Element>): (r: seq<Element>)
    ensures |r| <= |xs|
    ensures forall e :: e in r <==> e in xs && !e.OutputLine?
  {
    if xs == [] then []
    else
      var front := xs[..|xs| - 1];
      assert xs == front + [xs[|xs| - 1]];
      var kept := RemoveLines(front);
      if xs[|xs| - 1].OutputLine? then kept else kept + [xs[|xs| - 1]]
  }

  /** The prompt is the last child and there is no other prompt. */
  predicate WellFormed(xs: seq<Element>) {
    |xs| > 0 && xs[|xs| - 1].Prompt? && Prompt !in xs[..|xs| - 1]
  }

  /** The children above the prompt. */
  function AbovePrompt(xs: seq<Element>): seq<Element>
    requires |xs| > 0
  {
    xs[..|xs| - 1]
  }

  lemma {:induction false} InsertAbovePrompt(xs: seq<Element>, e: Element)
    requires WellFormed(xs)
    ensures InsertBeforePrompt(xs, e) == AbovePrompt(xs) + [e, Prompt]
  {
    if |xs| > 1 {
      var above := xs[..|xs| - 1];
      assert xs[0] == above[0];
      assert xs[1..][..|xs| - 2] == above[1..];
      InsertAbovePrompt(xs[1..], e);
    }
  }

  lemma {:induction false} RemoveLinesAppend(xs: seq<Element>, ys: seq<Element>)
    ensures RemoveLines(xs + ys) == RemoveLines(xs) + RemoveLines(ys)
  {
    if ys != [] {
      var front := ys[..|ys| - 1];
      assert (xs + ys)[..|xs + ys| - 1] == xs + front;
      RemoveLinesAppend(xs, front);
    } else {
      assert xs + ys == xs;
    }
  }

  /** A list without output lines passes through clearOutput unchanged, in order. */
  lemma {:induction false} RemoveLinesKeeps(xs: seq<Element>)
    requires forall i :: 0 <= i < |xs| ==> !xs[i].OutputLine?
    ensures RemoveLines(xs) == xs
  {
    if xs != [] {
      RemoveLinesKeeps(xs[..|xs| - 1]);
    }
  }

  lemma {:induction false} RemoveLinesDropsAll(xs: seq<Element>)
    requires forall i :: 0 <= i < |xs| ==> xs[i].OutputLine?
    ensures RemoveLines(xs) == []
  {
    if xs != [] {
      RemoveLinesDropsAll(xs[..|xs| - 1]);
    }
  }

  /** Clearing keeps the prompt as the one and last child. */
  lemma RemoveLinesKeepsPrompt(xs: seq<Element>)
    requires WellFormed(xs)
    ensures WellFormed(RemoveLines(xs))
  {
    var r := RemoveLines(xs);
    assert r == RemoveLines(AbovePrompt(xs)) + [Prompt];
    assert AbovePrompt(r) == RemoveLines(AbovePrompt(xs));
  }

  // ---------------------------------------------------------------------------
  // The whole console as a value: output children and the two flags
  // ---------------------------------------------------------------------------

  /** `active`: the console element has class `active` (it is open).
      `hidden`: the toggle button has class `hidden`. */
  datatype Screen = Screen(output: seq<Element>, active: bool, hidden: bool)

  /** closeTerminal: both classes removed. */
  function Closed(s: Screen): (r: Screen)
    ensures !r.active && r.hidden == r.active && r.output == s.output
  {
    s.(active := false, hidden := false)
  }

  /** toggleTerminal: close an open console, otherwise open it and hide the button. */
  function Toggled(s: Screen): (r: Screen)
    ensures r.active == !s.active && r.hidden == r.active && r.output == s.output
  {
    if s.active then Closed(s) else s.(active := true, hidden := true)
  }

  lemma ClosedIdempotent(s: Screen)
    ensures Closed(Closed(s)) == Closed(s)
    ensures !Closed(s).active && Closed(s).hidden == Closed(s).active
  {
  }

  lemma ToggledTwice(s: Screen)
    requires s.hidden == s.active
    ensures Toggled(Toggled(s)) == s
  {
  }

  /** The echo of a command: one command line directly above the prompt. */
  function Echoed(s: Screen, command: string): (r: Screen)
    ensures r.active == s.active && r.hidden == s.hidden
    ensures WellFormed(s.output) ==>
      r.output == AbovePrompt(s.output) + [OutputLine(Echo(command), Command), Prompt]
  {
    var echo := OutputLine(Echo(command), Command);
    if WellFormed(s.output) then
      InsertAbovePrompt(s.output, echo);
      s.(output := InsertBeforePrompt(s.output, echo))
    else
      s.(output := InsertBeforePrompt(s.output, echo))
  }

  /** processCommand on an already normalised command. Only `exit` touches
      the flags, and it closes the console. */
  function Process(s: Screen, command: string): (r: Screen)
    ensures command != "exit" ==> r.active == s.active && r.hidden == s.hidden
    ensures command == "exit" ==> !r.active && !r.hidden
  {
    match Dispatch(command)
    case Ignore => s
    case Exit => Closed(Echoed(s, command))
    case Wipe =>
      var t := Echoed(s, command);
      t.(output := RemoveLines(t.output))
    case Reply(text, kind) =>
      var t := Echoed(s, command);
      t.(output := InsertBeforePrompt(t.output, OutputLine(text, kind)))
  }

  lemma ProcessEmpty(s: Screen)
    ensures Process(s, "") == s
  {
  }

  /** Input made only of whitespace normalises to the empty command and changes nothing. */
  lemma BlankInputIgnored(s: Screen, raw: string)
    requires AllSpace(raw)
    ensures Normalize(raw) == ""
    ensures Process(s, Normalize(raw)) == s
  {
    assert LeadingSpaces(raw) == |raw|;
  }

  lemma ProcessExit(s: Screen)
    requires WellFormed(s.output)
    ensures Process(s, "exit") ==
      Screen(AbovePrompt(s.output) + [OutputLine(Echo("exit"), Command), Prompt], false, false)
  {
    InsertAbovePrompt(s.output, OutputLine(Echo("exit"), Command));
  }

  /** `clear`: the echo and every earlier output line go, other children and
      the flags stay, and the prompt is still last. */
  lemma ProcessClear(s: Screen)
    requires WellFormed(s.output)
    ensures Process(s, "clear") == s.(output := RemoveLines(AbovePrompt(s.output)) + [Prompt])
    ensures forall e :: e in Process(s, "clear").output ==> !e.OutputLine?
  {
    var echo := OutputLine(Echo("clear"), Command);
    InsertAbovePrompt(s.output, echo);
    RemoveLinesAppend(AbovePrompt(s.output), [echo, Prompt]);
    RemoveLinesAppend([echo], [Prompt]);
    RemoveLinesKeeps([Prompt]);
  }

  /** With only output lines above the prompt, `clear` leaves the prompt alone. */
  lemma ProcessClearOnlyLines(s: Screen)
    requires WellFormed(s.output)
    requires forall i :: 0 <= i < |s.output| - 1 ==> s.output[i].OutputLine?
    ensures Process(s, "clear").output == [Prompt]
  {
    ProcessClear(s);
    RemoveLinesDropsAll(AbovePrompt(s.output));
  }

  /** A command of the table other than `clear`: the echo and then the table
      text as a success line, both just above the prompt; the flags stay. */
  lemma ProcessKnown(s: Screen, command: string)
    requires WellFormed(s.output)
    requires command in Replying
    ensures Process(s, command) == s.(output := AbovePrompt(s.output) +
      [OutputLine(Echo(command), Command), OutputLine(Commands[command], Success), Prompt])
  {
    var echo := OutputLine(Echo(command), Command);
    InsertAbovePrompt(s.output, echo);
    InsertAbovePrompt(AbovePrompt(s.output) + [echo, Prompt], OutputLine(Commands[command], Success));
    assert AbovePrompt(AbovePrompt(s.output) + [echo, Prompt]) == AbovePrompt(s.output) + [echo];
  }

  /** Any other non-empty command: the echo and then the error line. */
  lemma ProcessUnknown(s: Screen, command: string)
    requires WellFormed(s.output)
    requires command != "" && command != "exit" && command !in Commands
    ensures Process(s, command) == s.(output := AbovePrompt(s.output) +
      [OutputLine(Echo(command), Command), OutputLine(NotFound(command), Error), Prompt])
  {
    var echo := OutputLine(Echo(command), Command);
    InsertAbovePrompt(s.output, echo);
    InsertAbovePrompt(AbovePrompt(s.output) + [echo, Prompt], OutputLine(NotFound(command), Error));
    assert AbovePrompt(AbovePrompt(s.output) + [echo, Prompt]) == AbovePrompt(s.output) + [echo];
  }

  /** Whatever the command, the prompt stays the last child. */
  lemma ProcessKeepsPrompt(s: Screen, command: string)
    requires WellFormed(s.output)
    ensures WellFormed(Process(s, command).output)
  {
    var t := Echoed(s, command);
    assert AbovePrompt(t.output) == AbovePrompt(s.output) + [OutputLine(Echo(command), Command)];
    match Dispatch(command)
    case Ignore =>
    case Exit =>
    case Wipe => RemoveLinesKeepsPrompt(t.output);
    case Reply(text, kind) => InsertAbovePrompt(t.output, OutputLine(text, kind));
  }

  // ---------------------------------------------------------------------------
  // The console object
  // ---------------------------------------------------------------------------

  class TerminalEasterEgg {
    var output: seq<Element>
    var active: bool
    var hidden: bool
    /** The value of the input field; the browser writes it as the user types. */
    var input: string

    function State(): Screen
      reads this
    {
      Screen(output, active, hidden)
    }

    ghost predicate Valid()
      reads this
    {
      WellFormed(output)
    }

    /** The console as the page markup builds it: its children, the classes
        on the console and the toggle button, and the field's value. */
    constructor (markup: seq<Element>, open: bool, buttonHidden: bool, value: string)
      requires WellFormed(markup)
      ensures Valid() && State() == Screen(markup, open, buttonHidden) && input == value
    {
      output := markup;
      active := open;
      hidden := buttonHidden;
      input := value;
    }

    method AddOutput(text: string, kind: Kind)
      modifies this`output
      ensures output == InsertBeforePrompt(old(output), OutputLine(text, kind))
    {
      output := InsertBeforePrompt(output, OutputLine(text, kind));
    }

    /** Removes the output lines one by one, in document order. */
    method ClearOutput()
      modifies this`output
      ensures output == RemoveLines(old(output))
    {
      ghost var original := output;
      ghost var seen := 0;
      var i := 0;
      while i < |output|
        invariant 0 <= i <= |output| && seen <= |original|
        invariant output[..i] == RemoveLines(original[..seen])
        invariant output[i..] == original[seen..]
        decreases |output| - i
      {
        assert original[..seen + 1][..seen] == original[..seen];
        assert original[seen] == output[i];
        if output[i].OutputLine? {
          output := output[..i] + output[i + 1..];
        } else {
          i := i + 1;
        }
        seen := seen + 1;
      }
      assert original[..seen] == original;
    }

    method CloseTerminal()
      modifies this`active, this`hidden
      ensures State() == Closed(old(State()))
    {
      active := false;
      hidden := false;
    }

    method ToggleTerminal()
      modifies this`active, this`hidden
      ensures State() == Toggled(old(State()))
    {
      if active {
        CloseTerminal();
      } else {
        active := true;
        hidden := true;
      }
    }

    method ProcessCommand(command: string)
      requires Valid()
      modifies this`output, this`active, this`hidden
      ensures Valid() && State() == Process(old(State()), command)
    {
      ProcessKeepsPrompt(State(), command);
      if command == "" {
        return;
      }
      AddOutput(Echo(command), Command);
      if command == "exit" {
        CloseTerminal();
        return;
      }
      var response := if command in Commands then Commands[command] else "";
      if response == ClearSentinel {
        ClearOutput();
      } else if response != "" {
        AddOutput(response, Success);
      } else {
        AddOutput(NotFound(command), Error);
      }
    }

    /** The keypress listener: on Enter, run the normalised field value and empty the field. */
    method OnKeyPress(key: string)
      requires Valid()
      modifies this
      ensures Valid()
      ensures key == "Enter" ==> State() == Process(old(State()), Normalize(old(input))) && input == ""
      ensures key != "Enter" ==> State() == old(State()) && input == old(input)
    {
      if key == "Enter" {
        ProcessCommand(Normalize(input));
        input := "";
      }
    }
  }
}
