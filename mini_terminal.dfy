// The portfolio's `MiniTerminal` overlay: a pop-up command line toggled by
// Ctrl+K, whose few commands print a line, jump to a page section or open
// the CV.
module MiniTerminal {
  import opened JsText

  datatype LineKind = Cmd | Output

  /** One line of the terminal's scroll-back. */
  datatype Line = Line(kind: LineKind, text: string)

  /** What a command does outside the terminal. */
  datatype Effect =
    | Stay
    | Navigate(anchor: string)   // `window.location.href = anchor`
    | OpenTab(url: string)       // `window.open(url, '_blank')`

  /** The cases of the `switch`, and its `default`. */
  datatype Command = Help | Projects | About | Skills | Contact | Cv | ClearScreen | Unknown

  const Welcome := Line(Output, "SYSTEM_READY. TYPE \"HELP\"")

  /** `cmd.toLowerCase().trim()`. */
  function Clean(cmd: string): string
  {
    Trim(ToLower(cmd))
  }

  /** The case label a cleaned command matches; only "clear" empties the screen. */
  function Parse(c: string): (r: Command)
    ensures r == ClearScreen <==> c == "clear"
  {
    if c == "help" then Help
    else if c == "projects" then Projects
    else if c == "about" then About
    else if c == "skills" then Skills
    else if c == "contact" then Contact
    else if c == "cv" then Cv
    else if c == "clear" then ClearScreen
    else Unknown
  }

  const NotFound := "COMMAND NOT FOUND: "
  const TypeHelp := ". TYPE 'HELP'"

  /** The reply line of every case but `clear`; an unknown command is echoed in it. */
  function Response(cmd: Command, c: string): (r: string)
    requires cmd != ClearScreen
    ensures |r| > 0
    ensures cmd == Unknown ==> r == NotFound + c + TypeHelp
  {
    match cmd
    case Help => "AVAILABLE: PROJECTS, ABOUT, SKILLS, CONTACT, CV, CLEAR"
    case Projects => "DISPLAYING PROJECT LOGS..."
    case About => "LEANDRO GRANEROS: IT SPECIALIST & WEB DEVELOPER."
    case Skills => "CORE_STACK: JS, C, SQL, PYTHON, VBA, PS, UI/UX..."
    case Contact => "ESTABLISHING CONNECTION..."
    case Cv => "LINKING TO SECURE_CV_V2.025..."
    case Unknown => NotFound + c + TypeHelp
  }

  /** The command's effect outside the terminal. */
  function EffectOf(cmd: Command): Effect
  {
    match cmd
    case Projects => Navigate("#projects")
    case About => Navigate("#about")
    case Skills => Navigate("#skills")
    case Contact => Navigate("#contact")
    case Cv => OpenTab("/cv.pdf")
    case _ => Stay
  }

  /** `setIsOpen(false)` inside the case. */
  predicate Closes(cmd: Command)
  {
    cmd in {Projects, About, Skills, Contact}
  }

  /** The terminal closes exactly when the command jumps to a section of the page. */
  lemma ClosesOnNavigation(cmd: Command)
    ensures Closes(cmd) <==> EffectOf(cmd).Navigate?
  {
  }

  /** A cleaned command is lower-case and has no white space at either end. */
  predicate IsClean(c: string)
  {
    ToLower(c) == c && Trim(c) == c
  }

  /** The text that reaches the `switch` is already clean: cleaning is idempotent. */
  lemma CleanIsClean(cmd: string)
    ensures IsClean(Clean(cmd))
    ensures Clean(Clean(cmd)) == Clean(cmd)
  {
    var l := ToLower(cmd);
    var c := Trim(l);
    TrimChars(l);
    LowerCharsFixed(cmd);
    forall i | 0 <= i < |c|
      ensures LowerChar(c[i]) == c[i]
    {
      assert c[i] in l;
    }
    assert ToLower(c) == c;
    TrimIdempotent(l);
  }

  /** Commands are recognised whatever their letter case. */
  lemma CaseInsensitive(cmd: string)
    ensures Clean(ToUpper(cmd)) == Clean(cmd)
  {
    LowerOfUpper(cmd);
  }

  /** A scroll-back whose command lines all read "> " and a clean, non-empty command other than `clear`. */
  predicate WellFormed(history: seq<Line>)
  {
    forall i :: 0 <= i < |history| && history[i].kind == Cmd ==>
      |history[i].text| > 2 && history[i].text[..2] == "> "
      && IsClean(history[i].text[2..]) && history[i].text[2..] != "clear"
  }

  /** The two lines a command other than `clear` adds: the echoed command and its reply. */
  function Echo(c: string): seq<Line>
    requires c != "clear"
  {
    [Line(Cmd, "> " + c), Line(Output, Response(Parse(c), c))]
  }

  /** Echoing a clean command other than `clear`, with any reply, keeps the scroll-back well formed. */
  lemma EchoKeepsWellFormed(history: seq<Line>, c: string, reply: seq<Line>)
    requires WellFormed(history) && IsClean(c) && c != "" && c != "clear"
    requires forall i :: 0 <= i < |reply| ==> reply[i].kind == Output
    ensures WellFormed(history + ([Line(Cmd, "> " + c)] + reply))
  {
    var line := Line(Cmd, "> " + c);
    assert line.text[2..] == c;
    var h := history + ([line] + reply);
    forall i | |history| < i < |h|
      ensures h[i].kind == Output
    {
      assert h[i] == reply[i - |history| - 1];
    }
    forall i | 0 <= i < |h| && h[i].kind == Cmd
      ensures |h[i].text| > 2 && h[i].text[..2] == "> "
      ensures IsClean(h[i].text[2..]) && h[i].text[2..] != "clear"
    {
      if i < |history| {
        assert h[i] == history[i];
      } else {
        assert h[i] == line;
      }
    }
  }

  /** The component's state: visibility, the input box and the scroll-back. */
  class Terminal {
    var isOpen: bool
    var input: string
    var history: seq<Line>

    constructor ()
      ensures !isOpen && input == "" && history == [Welcome]
      ensures WellFormed(history)
    {
      isOpen := false;
      input := "";
      history := [Welcome];
    }

    /** The window's `keydown` listener: Ctrl+K or Cmd+K toggles, Escape closes. */
    method HotKey(key: string, ctrl: bool, meta: bool)
      modifies this`isOpen
      ensures key == "Escape" ==> !isOpen
      ensures key != "Escape" && (ctrl || meta) && key == "k" ==> isOpen == !old(isOpen)
      ensures key != "Escape" && !((ctrl || meta) && key == "k") ==> isOpen == old(isOpen)
    {
      if (ctrl || meta) && key == "k" {
        isOpen := !isOpen;
      }
      if key == "Escape" {
        isOpen := false;
      }
    }

    /** The input box's `onChange`. */
    method Type(text: string)
      modifies this`input
      ensures input == text
    {
      input := text;
    }

    /**
     * `executeCommand(cmd)`: a blank command does nothing; `clear` empties
     * the scroll-back; anything else appends the echoed command and its
     * reply, may close the terminal and returns its outside effect.
     */
    method Execute(cmd: string) returns (effect: Effect)
      requires WellFormed(history)
      modifies this`history, this`isOpen
      ensures WellFormed(history)
      ensures Clean(cmd) == "" ==> history == old(history) && isOpen == old(isOpen) && effect == Stay
      ensures Clean(cmd) == "clear" ==> history == [] && isOpen == old(isOpen) && effect == Stay
      ensures var c := Clean(cmd); c != "" && c != "clear" ==>
        history == old(history) + Echo(c)
        && isOpen == (old(isOpen) && !Closes(Parse(c)))
        && effect == EffectOf(Parse(c))
    {
      var c := Clean(cmd);
      if c == "" {
        return Stay;
      }
      var command := Parse(c);
      if command == ClearScreen {
        history := [];
        return Stay;
      }
      CleanIsClean(cmd);
      var echoed := [Line(Cmd, "> " + c)];
      if Closes(command) {
        isOpen := false;
      }
      var text := Response(command, c);
      var reply := [];
      if text != "" {
        reply := [Line(Output, text)];
      }
      EchoKeepsWellFormed(history, c, reply);
      assert echoed + reply == Echo(c);
      history := history + (echoed + reply);
      effect := EffectOf(command);
    }

    /** `handleInputKeyDown`: Enter runs the typed command and empties the box. */
    method InputKeyDown(key: string) returns (effect: Effect)
      requires WellFormed(history)
      modifies this`history, this`isOpen, this`input
      ensures WellFormed(history)
      ensures key != "Enter" ==> history == old(history) && isOpen == old(isOpen) && input == old(input) && effect == Stay
      ensures key == "Enter" ==> input == ""
      ensures key == "Enter" && Clean(old(input)) !in {"", "clear"} ==>
        history == old(history) + Echo(Clean(old(input)))
    {
      effect := Stay;
      if key == "Enter" {
        effect := Execute(input);
        input := "";
      }
    }
  }
}
