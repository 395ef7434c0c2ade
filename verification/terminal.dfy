/**
 The simulated command line: a fixed name-to-output registry, a scrollback
 history that starts with two greeting lines, and the submit handler that
 queues React state updates. The state the component renders next is the
 result of applying those queued updates in order.
 */
module Terminal {
  import opened Text

  /** A registry value: one line of text, or an ordered block of lines. */
  datatype Output = Line(text: string) | Block(lines: seq<string>)

  /** The history lines an output contributes: one for a line, one per element for a block. */
  function Lines(o: Output): seq<string> {
    match o
    case Line(t) => [t]
    case Block(ls) => ls
  }

  /** JavaScript truthiness of the looked-up value: an empty string is falsy, any array is truthy. */
  predicate Truthy(o: Output) {
    o.Block? || o.text != ""
  }

  type Registry = map<string, Output>

  /** One row of the help block: a command name and what it does. */
  datatype HelpEntry = HelpEntry(name: string, summary: string)

  const HelpEntries: seq<HelpEntry> := [
    HelpEntry("about", "Learn about ArpitStack"),
    HelpEntry("projects", "List core open-source projects"),
    HelpEntry("secretstack", "Scan current context for secrets"),
    HelpEntry("cloudstack", "Validate cloud configuration"),
    HelpEntry("contact", "Get contact details"),
    HelpEntry("clear", "Clear the terminal"),
    HelpEntry("neofetch", "Display system information")
  ]

  function Spaces(n: nat): (r: string)
    ensures |r| == n && AllSpace(r)
  {
    seq(n, _ => ' ')
  }

  /** A help row as displayed: two spaces of indent, the name padded to fifteen columns, a dash, the summary. */
  function HelpRow(e: HelpEntry): string {
    "  " + e.name + Spaces(if |e.name| < 15 then 15 - |e.name| else 1) + "- " + e.summary
  }

  /** The help output: a title line, then one row per entry. */
  const HelpText: seq<string> := ["Available commands:"] + seq(|HelpEntries|, i requires 0 <= i < |HelpEntries| => HelpRow(HelpEntries[i]))

  /**
   The component's command table. The longer lines are written as their leading
   label followed by the rest, so that their first character can be read off directly.
   */
  const Commands: Registry := map[
    "help" := Block(HelpText),
    "about" := Line("ArpitStack: " + "Innovating Stack of Solutions. Senior Technical Lead specializing in Security & Cloud Architecture."),
    "projects" := Block([
      "Core Portfolio:",
      "  - SecretStack (VSCode Security)",
      "  - CloudStack (Multi-Cloud CLI)",
      "  - VaultStack (Encrypted Storage)",
      "  - ScaleStack (EC2 Elastic Scaler)"
    ]),
    "neofetch" := Block([
      "ArpitStack@Portfolio",
      "-------------------",
      "OS: ArpitStackOS v1.1 (Custom Kernel)",
      "Host: Digital Nomad MBP",
      "Kernel: 6.12.0-arpitstack",
      "Uptime: 7+ years (Experienced Professional)",
      "Packages: " + "Node v20, Go 1.22, Python 3.12, Rust 1.75",
      "Shell: zsh (StackShell)",
      "Resolution: Premium Aesthetic 4K",
      "Focus: " + "Frontend, Backend, GenAI, System Design, Security, Cloud"
    ]),
    "secretstack" := Line("Scanning... " + "[||||||||||] 100% - No secrets exposed. Safe to commit!"),
    "cloudstack" := Line("Connecting to AWS/GCP/Azure... " + "Credentials validated. Multi-cloud sync active."),
    "contact" := Line("Email: " + "arpitstack@gmail.com | GitHub: ArpitStack | LinkedIn: ArpitStack")
  ]

  const Greeting: seq<string> := ["Welcome to ArpitStack CLI v1.1", "Type \"help\" to see available commands."]

  /** The text field's contents and the scrollback, oldest line first. */
  datatype TermState = TermState(input: string, history: seq<string>)

  const Init: TermState := TermState("", Greeting)

  /** The prompt line recording what the user typed, untrimmed and in its original case. */
  function Echo(input: string): string {
    "> " + input
  }

  function NotFound(cmd: string): string {
    "Command not found: " + cmd + ". Type \"help\" for options."
  }

  /** The renderer draws a line in prompt style when it starts with '>'. */
  predicate IsEchoLine(line: string) {
    |line| > 0 && line[0] == '>'
  }

  /** `reg[cmd]` passes the handler's truthiness test. */
  predicate Known(reg: Registry, cmd: string) {
    cmd in reg && Truthy(reg[cmd])
  }

  /** The lines a non-`clear` command appends after its echo. */
  function Reply(reg: Registry, cmd: string): seq<string> {
    if Known(reg, cmd) then Lines(reg[cmd]) else [NotFound(cmd)]
  }

  /** One queued state update: a functional append to the history, a plain history replacement, or an input replacement. */
  datatype Update = Append(lines: seq<string>) | SetHistory(lines: seq<string>) | SetInput(value: string)

  function Apply(s: TermState, u: Update): TermState {
    match u
    case Append(ls) => s.(history := s.history + ls)
    case SetHistory(ls) => s.(history := ls)
    case SetInput(v) => s.(input := v)
  }

  /** Applies queued updates in the order they were issued. */
  function Flush(s: TermState, ups: seq<Update>): (r: TermState)
    ensures (forall i :: 0 <= i < |ups| ==> !ups[i].SetHistory?) ==> s.history <= r.history
    ensures (forall i :: 0 <= i < |ups| ==> !ups[i].SetInput?) ==> r.input == s.input
    decreases |ups|
  {
    if ups == [] then s else Flush(Apply(s, ups[0]), ups[1..])
  }

  lemma FlushThree(s: TermState, a: Update, b: Update, c: Update)
    ensures Flush(s, [a, b, c]) == Apply(Apply(Apply(s, a), b), c)
  {
    assert [a, b, c][1..] == [b, c];
    assert [b, c][1..] == [c];
    assert [c][1..] == [];
    assert Flush(s, [a, b, c]) == Flush(Apply(s, a), [b, c]);
    assert Flush(Apply(s, a), [b, c]) == Flush(Apply(Apply(s, a), b), [c]);
    assert Flush(Apply(Apply(s, a), b), [c]) == Flush(Apply(Apply(Apply(s, a), b), c), []);
  }

  /**
   The updates `handleCommand` queues for the current input. Before any of
   them, on every submit including a blank one, the handler suppresses the
   form's default submission, so the page is not reloaded and the state below
   survives; that call has no other effect and is not listed.
   */
  function Handle(reg: Registry, input: string): (ups: seq<Update>)
    ensures ups == [] <==> AllSpace(input)
    ensures ups != [] ==> ups[0] == Append([Echo(input)]) && ups[|ups| - 1] == SetInput("")
  {
    var cmd := Normalize(input);
    if cmd == [] then []
    else
      [Append([Echo(input)])]
      + (if cmd == "clear" then [SetHistory([])] else [Append(Reply(reg, cmd))])
      + [SetInput("")]
  }

  /** Submitting the form: the state after React applies everything `handleCommand` queued. */
  function Submit(reg: Registry, s: TermState): (r: TermState)
    ensures AllSpace(s.input) ==> r == s
    ensures !AllSpace(s.input) ==> r.input == ""
    ensures !AllSpace(s.input) && Normalize(s.input) == "clear" ==> r.history == []
    ensures var cmd := Normalize(s.input);
      !AllSpace(s.input) && cmd != "clear" && Known(reg, cmd) ==>
        r.history == s.history + [Echo(s.input)] + Lines(reg[cmd])
    ensures var cmd := Normalize(s.input);
      !AllSpace(s.input) && cmd != "clear" && !Known(reg, cmd) ==>
        r.history == s.history + [Echo(s.input), NotFound(cmd)]
  {
    SubmitOutcome(reg, s);
    Flush(s, Handle(reg, s.input))
  }

  /** What applying the queued updates amounts to, case by case. */
  lemma {:induction false} SubmitOutcome(reg: Registry, s: TermState)
    ensures var cmd := Normalize(s.input);
      Flush(s, Handle(reg, s.input)) ==
        if cmd == [] then s
        else if cmd == "clear" then TermState("", [])
        else TermState("", s.history + [Echo(s.input)] + Reply(reg, cmd))
  {
    var cmd := Normalize(s.input);
    if cmd != [] {
      var mid := if cmd == "clear" then SetHistory([]) else Append(Reply(reg, cmd));
      assert Handle(reg, s.input) == [Append([Echo(s.input)]), mid, SetInput("")];
      FlushThree(s, Append([Echo(s.input)]), mid, SetInput(""));
    }
  }

  /** Typing into the field replaces the input and leaves the history alone. */
  function Edit(s: TermState, value: string): (r: TermState)
    ensures r.input == value && r.history == s.history
  {
    s.(input := value)
  }

  /** The scrollback starts with the two greeting lines, neither drawn as a prompt line, and an empty field. */
  lemma InitialState()
    ensures Init.input == "" && |Init.history| == 2
    ensures Init.history[0] == "Welcome to ArpitStack CLI v1.1"
    ensures Init.history[1] == "Type \"help\" to see available commands."
    ensures forall i :: 0 <= i < |Init.history| ==> !IsEchoLine(Init.history[i])
  {
  }

  /**
   Any non-blank submission other than `clear` keeps the old scrollback as a prefix
   and appends exactly one echo line followed by the reply, in order.
   */
  lemma SubmitExtends(reg: Registry, s: TermState)
    requires !AllSpace(s.input) && Normalize(s.input) != "clear"
    ensures var r := Submit(reg, s);
      && s.history <= r.history
      && |r.history| == |s.history| + 1 + |Reply(reg, Normalize(s.input))|
      && r.history[|s.history|] == Echo(s.input)
      && r.history[|s.history| + 1..] == Reply(reg, Normalize(s.input))
  {
    var r := Submit(reg, s);
    var cmd := Normalize(s.input);
    assert r.history == s.history + [Echo(s.input)] + Reply(reg, cmd);
  }

  /**
   Two inputs with the same trimmed, lower-cased form do the same thing to the
   scrollback; only the echo line, which keeps the text as typed, can differ.
   */
  lemma SubmitIgnoresCaseAndPadding(reg: Registry, h: seq<string>, a: string, b: string)
    requires Normalize(a) == Normalize(b)
    ensures var ra := Submit(reg, TermState(a, h));
      var rb := Submit(reg, TermState(b, h));
      && |ra.history| == |rb.history|
      && (AllSpace(a) || Normalize(a) == "clear" ==> ra.history == rb.history)
      && (!AllSpace(a) && Normalize(a) != "clear" ==>
            ra.history[..|h|] == rb.history[..|h|] == h
            && ra.history[|h| + 1..] == rb.history[|h| + 1..])
  {
    var cmd := Normalize(a);
    SubmitOutcome(reg, TermState(a, h));
    SubmitOutcome(reg, TermState(b, h));
    if cmd != [] && cmd != "clear" {
      EchoSplit(h, Echo(a), Reply(reg, cmd));
      EchoSplit(h, Echo(b), Reply(reg, cmd));
    }
  }

  lemma EchoSplit(h: seq<string>, e: string, reply: seq<string>)
    ensures var l := h + [e] + reply;
      |l| == |h| + 1 + |reply| && l[..|h|] == h && l[|h|] == e && l[|h| + 1..] == reply
  {
    var l := h + [e] + reply;
    assert l[..|h|] == h;
    assert l[|h| + 1..] == reply;
  }

  /**
   `help` typed in any letter case and with any surrounding white space, such as
   `" HELP "`, prints the help block; the echo keeps the text exactly as typed.
   */
  lemma HelpAnyCase(p: string, w: string, q: string, h: seq<string>)
    requires AllSpace(p) && AllSpace(q) && ToLower(w) == "help"
    ensures Submit(Commands, TermState(p + w + q, h)) == TermState("", h + [Echo(p + w + q)] + HelpText)
  {
    NormalizeSpelling(p, w, q, "help");
    HelpLookup(p + w + q, h);
  }

  lemma HelpLookup(x: string, h: seq<string>)
    requires Normalize(x) == "help"
    ensures Submit(Commands, TermState(x, h)) == TermState("", h + [Echo(x)] + HelpText)
  {
    assert Known(Commands, "help") && Commands["help"] == Block(HelpText);
  }

  /**
   An unknown command is reported in its trimmed, lower-cased form, while the
   echo above it keeps the text as typed: `" Foo"` gives the echo `"> " + " Foo"`
   and then the not-found message for `foo`.
   */
  lemma {:induction false} UnknownShowsNormalized(h: seq<string>)
    ensures Submit(Commands, TermState(" Foo", h)).history == h + [Echo(" Foo"), NotFound("foo")]
  {
    FooNormalizes();
    FooUnknown();
    UnknownLookup(" Foo", "foo", h);
  }

  lemma FooNormalizes()
    ensures Normalize(" Foo") == "foo"
  {
    assert " Foo" == " " + "Foo" + "";
    assert IsLower("foo") && Trimmed("foo");
    NormalizeSpelling(" ", "Foo", "", "foo");
  }

  lemma FooUnknown()
    ensures "foo" !in Commands
  {
    RegistryNames();
  }

  lemma UnknownLookup(x: string, cmd: string, h: seq<string>)
    requires Normalize(x) == cmd && cmd != [] && cmd != "clear" && cmd !in Commands
    ensures Submit(Commands, TermState(x, h)).history == h + [Echo(x), NotFound(cmd)]
  {
  }

  /** Submitting a registry key exactly as declared runs that command. */
  lemma RunsAsTyped(k: string, h: seq<string>)
    requires k in Commands && IsLower(k) && Trimmed(k) && k != [] && k != "clear"
    ensures Normalize(k) == k && Known(Commands, k)
    ensures Submit(Commands, TermState(k, h)).history == h + [Echo(k)] + Lines(Commands[k])
  {
    NormalizeFixesIff(k);
  }

  /** The registry holds exactly the seven declared names. */
  lemma RegistryNames()
    ensures Commands.Keys == {"help", "about", "projects", "neofetch", "secretstack", "cloudstack", "contact"}
  {
  }

  /** A non-empty run of lower-case ASCII letters, as every command name is. */
  predicate Letters(w: string) {
    w != [] && forall i :: 0 <= i < |w| ==> 'a' <= w[i] <= 'z'
  }

  lemma LettersNormal(w: string)
    requires Letters(w)
    ensures IsLower(w) && Trimmed(w) && IsWord(w)
  {
  }

  lemma DeclaredNamesNormal()
    ensures forall k :: k in {"help", "about", "projects", "neofetch", "secretstack", "cloudstack", "contact"} ==>
      Letters(k) && k != "clear"
  {
  }

  /** Every registry key is a non-empty, trimmed, lower-case name other than `clear`. */
  lemma {:induction false} RegistryKeysNormal()
    ensures forall k :: k in Commands ==> IsLower(k) && Trimmed(k) && k != [] && k != "clear"
  {
    RegistryNames();
    DeclaredNamesNormal();
    forall k | k in Commands
      ensures IsLower(k) && Trimmed(k) && k != [] && k != "clear"
    {
      LettersNormal(k);
    }
  }

  /** Every registry value passes the handler's truthiness test: no single-line output is empty. */
  lemma RegistryOutputsTruthy()
    ensures forall k :: k in Commands ==> Truthy(Commands[k])
  {
    assert Commands["help"].Block? && Commands["projects"].Block? && Commands["neofetch"].Block?;
    assert Commands["about"].text != [] && Commands["secretstack"].text != [];
    assert Commands["cloudstack"].text != [] && Commands["contact"].text != [];
  }

  /** Hence typing any registry key runs that command, and none is shadowed by `clear`. */
  lemma {:induction false} CommandsReachable(h: seq<string>)
    ensures forall k :: k in Commands ==>
      && Normalize(k) == k && k != "clear" && Known(Commands, k)
      && Submit(Commands, TermState(k, h)).history == h + [Echo(k)] + Lines(Commands[k])
  {
    RegistryKeysNormal();
    RegistryOutputsTruthy();
    forall k | k in Commands
      ensures Normalize(k) == k && k != "clear" && Known(Commands, k)
      ensures Submit(Commands, TermState(k, h)).history == h + [Echo(k)] + Lines(Commands[k])
    {
      RunsAsTyped(k, h);
    }
  }

  /** A non-empty run of non-space characters. */
  predicate IsWord(w: string) {
    w != [] && NoSpace(w)
  }

  predicate NoSpace(w: string) {
    forall i :: 0 <= i < |w| ==> !IsSpace(w[i])
  }

  /** The command name a help line advertises: its first word. */
  function FirstWord(line: string): (w: string)
    ensures |w| <= |line|
    ensures NoSpace(w)
  {
    TakeWord(line[LeadingSpace(line)..])
  }

  function TakeWord(s: string): (w: string)
    ensures w <= s
    ensures NoSpace(w)
    ensures |w| < |s| ==> IsSpace(s[|w|])
  {
    if s == [] || IsSpace(s[0]) then [] else [s[0]] + TakeWord(s[1..])
  }

  lemma TakeWordOf(w: string, rest: string)
    requires NoSpace(w)
    requires rest == [] || IsSpace(rest[0])
    ensures TakeWord(w + rest) == w
  {
    var s := w + rest;
    var r := TakeWord(s);
    assert forall i :: 0 <= i < |w| ==> s[i] == w[i];
    if rest != [] {
      assert s[|w|] == rest[0];
    }
    assert |r| == |w|;
    assert r == s[..|w|] == w;
  }

  /** A help line laid out as indentation, a name, then white space advertises that name. */
  lemma FirstWordOf(pad: string, w: string, rest: string)
    requires AllSpace(pad) && IsWord(w)
    requires rest == [] || IsSpace(rest[0])
    ensures FirstWord(pad + w + rest) == w
  {
    var line := pad + (w + rest);
    assert pad + w + rest == line;
    LeadingSpaceOf(pad, w + rest);
    assert line[|pad|..] == w + rest;
    TakeWordOf(w, rest);
  }

  /** Each help row advertises its entry's name, provided the name is one word. */
  lemma HelpRowName(e: HelpEntry)
    requires IsWord(e.name)
    ensures FirstWord(HelpRow(e)) == e.name
  {
    var n := if |e.name| < 15 then 15 - |e.name| else 1;
    var rest := Spaces(n) + "- " + e.summary;
    assert HelpRow(e) == "  " + e.name + rest;
    assert rest[0] == ' ';
    FirstWordOf("  ", e.name, rest);
  }

  lemma EntryNamesAreLetters()
    ensures forall i :: 0 <= i < |HelpEntries| ==> Letters(HelpEntries[i].name)
  {
  }

  lemma EntryNamesAreWords()
    ensures forall i :: 0 <= i < |HelpEntries| ==> IsWord(HelpEntries[i].name)
  {
    EntryNamesAreLetters();
    forall i | 0 <= i < |HelpEntries|
      ensures IsWord(HelpEntries[i].name)
    {
      LettersNormal(HelpEntries[i].name);
    }
  }

  /** Line `i` of the help block (after the title) advertises the name of entry `i - 1`. */
  lemma AdvertisedName(i: nat)
    requires 1 <= i < |HelpText|
    ensures FirstWord(HelpText[i]) == HelpEntries[i - 1].name
  {
    var e := HelpEntries[i - 1];
    assert HelpText[i] == HelpRow(e);
    EntryNamesAreWords();
    HelpRowName(e);
  }

  lemma EntryNamesRunnable()
    ensures forall i :: 0 <= i < |HelpEntries| ==> HelpEntries[i].name in Commands || HelpEntries[i].name == "clear"
  {
  }

  /** Everything the help block advertises is runnable: a registry key or the special-cased `clear`. */
  lemma HelpListsOnlyCommands()
    ensures forall i :: 1 <= i < |HelpText| ==>
      FirstWord(HelpText[i]) in Commands || FirstWord(HelpText[i]) == "clear"
  {
    EntryNamesRunnable();
    forall i | 1 <= i < |HelpText|
      ensures FirstWord(HelpText[i]) in Commands || FirstWord(HelpText[i]) == "clear"
    {
      AdvertisedName(i);
    }
  }

  /** Every registry command except `help` itself is advertised by some help line. */
  lemma HelpListsEveryCommand()
    ensures forall k :: k in Commands && k != "help" ==>
      exists i :: 1 <= i < |HelpText| && FirstWord(HelpText[i]) == k
  {
    RegistryNames();
    forall k | k in Commands && k != "help"
      ensures exists i :: 1 <= i < |HelpText| && FirstWord(HelpText[i]) == k
    {
      var j := if k == "about" then 0 else if k == "projects" then 1 else if k == "secretstack" then 2
        else if k == "cloudstack" then 3 else if k == "contact" then 4 else 6;
      assert HelpEntries[j].name == k;
      AdvertisedName(j + 1);
    }
  }

  /** How many scrollback lines the renderer draws in prompt style. */
  function EchoCount(h: seq<string>): nat
    decreases |h|
  {
    if h == [] then 0 else EchoCount(h[..|h| - 1]) + (if IsEchoLine(h[|h| - 1]) then 1 else 0)
  }

  lemma {:induction false} EchoCountConcat(a: seq<string>, b: seq<string>)
    ensures EchoCount(a + b) == EchoCount(a) + EchoCount(b)
    decreases |b|
  {
    if b == [] {
      assert a + b == a;
    } else {
      var b' := b[..|b| - 1];
      assert (a + b)[..|a + b| - 1] == a + b';
      EchoCountConcat(a, b');
    }
  }

  /** No registry output line could be mistaken for an echo line. */
  predicate NoEchoOutput(reg: Registry) {
    forall k :: k in reg ==> EchoCount(Lines(reg[k])) == 0
  }

  lemma NoEchoLines(ls: seq<string>)
    requires forall i :: 0 <= i < |ls| ==> !IsEchoLine(ls[i])
    ensures EchoCount(ls) == 0
    decreases |ls|
  {
    if ls != [] {
      NoEchoLines(ls[..|ls| - 1]);
    }
  }

  /**
   When no output line starts with '>', each non-blank submission other than `clear`
   adds exactly one line drawn in prompt style: its echo.
   */
  lemma {:induction false} OneEchoPerSubmit(reg: Registry, s: TermState)
    requires NoEchoOutput(reg)
    requires !AllSpace(s.input) && Normalize(s.input) != "clear"
    ensures EchoCount(Submit(reg, s).history) == EchoCount(s.history) + 1
  {
    var cmd := Normalize(s.input);
    var reply := Reply(reg, cmd);
    SubmitOutcome(reg, s);
    assert Submit(reg, s).history == s.history + [Echo(s.input)] + reply;
    assert EchoCount(reply) == 0 by {
      if !Known(reg, cmd) {
        assert NotFound(cmd)[0] == 'C';
        NoEchoLines(reply);
      }
    }
    assert EchoCount([Echo(s.input)]) == 1 by {
      assert [Echo(s.input)][..0] == [];
    }
    EchoCountConcat(s.history, [Echo(s.input)]);
    EchoCountConcat(s.history + [Echo(s.input)], reply);
  }

  /** No line of the help block starts with '>', so none is drawn as an echo. */
  lemma HelpTextNoEcho()
    ensures forall i :: 0 <= i < |HelpText| ==> !IsEchoLine(HelpText[i])
  {
    forall i | 0 <= i < |HelpText|
      ensures !IsEchoLine(HelpText[i])
    {
      if i > 0 {
        assert HelpText[i] == HelpRow(HelpEntries[i - 1]);
        assert HelpText[i][0] == ' ';
      }
    }
  }

  /**
   No output line of the component's own table starts with '>': the help rows start
   with a space, the project rows with a space, the neofetch rule with '-', and
   every other line with a letter.
   */
  lemma CommandsNoEcho()
    ensures NoEchoOutput(Commands)
  {
    RegistryNames();
    HelpTextNoEcho();
    forall k | k in Commands
      ensures EchoCount(Lines(Commands[k])) == 0
    {
      var ls := Lines(Commands[k]);
      forall i | 0 <= i < |ls|
        ensures !IsEchoLine(ls[i])
      {
        if k != "help" {
          assert ls[i][0] != '>';
        }
      }
      NoEchoLines(ls);
    }
  }

  /** Hence in the component itself, each non-blank submission other than `clear` adds exactly one echo line. */
  lemma {:induction false} CommandsOneEchoPerSubmit(s: TermState)
    requires !AllSpace(s.input) && Normalize(s.input) != "clear"
    ensures EchoCount(Submit(Commands, s).history) == EchoCount(s.history) + 1
  {
    CommandsNoEcho();
    OneEchoPerSubmit(Commands, s);
  }

  /** Where a scrollback line can come from: a greeting, an echo, registry output, or a not-found message. */
  ghost predicate Accounted(reg: Registry, line: string) {
    || line in Greeting
    || IsEchoLine(line)
    || (exists k :: k in reg && line in Lines(reg[k]))
    || (exists cmd :: line == NotFound(cmd))
  }

  ghost predicate Consistent(reg: Registry, s: TermState) {
    forall i :: 0 <= i < |s.history| ==> Accounted(reg, s.history[i])
  }

  /** One user interaction with the widget: typing into the field, or pressing Enter. */
  datatype UserAction = Type(value: string) | Enter

  function Step(reg: Registry, s: TermState, a: UserAction): TermState {
    match a
    case Type(v) => Edit(s, v)
    case Enter => Submit(reg, s)
  }

  /** Extending an accounted-for history by accounted-for lines keeps it accounted for. */
  lemma ExtendKeepsConsistent(reg: Registry, h: seq<string>, extra: seq<string>)
    requires Consistent(reg, TermState("", h))
    requires forall j :: 0 <= j < |extra| ==> Accounted(reg, extra[j])
    ensures Consistent(reg, TermState("", h + extra))
  {
    forall i | 0 <= i < |h + extra|
      ensures Accounted(reg, (h + extra)[i])
    {
      if i >= |h| {
        assert (h + extra)[i] == extra[i - |h|];
      }
    }
  }

  /** The echo and reply of one submission are accounted for. */
  lemma ReplyAccounted(reg: Registry, input: string, cmd: string)
    ensures forall j :: 0 <= j < 1 + |Reply(reg, cmd)| ==> Accounted(reg, ([Echo(input)] + Reply(reg, cmd))[j])
  {
    var extra := [Echo(input)] + Reply(reg, cmd);
    forall j | 0 <= j < |extra|
      ensures Accounted(reg, extra[j])
    {
      if j == 0 {
        assert IsEchoLine(extra[j]);
      } else if Known(reg, cmd) {
        assert extra[j] in Lines(reg[cmd]);
      } else {
        assert extra[j] == NotFound(cmd);
      }
    }
  }

  /** A submission keeps every scrollback line accounted for. */
  lemma SubmitKeepsConsistent(reg: Registry, s: TermState)
    requires Consistent(reg, s)
    ensures Consistent(reg, Submit(reg, s))
  {
    var cmd := Normalize(s.input);
    SubmitOutcome(reg, s);
    if cmd != [] && cmd != "clear" {
      ReplyKeepsConsistent(reg, s, cmd);
    }
  }

  lemma ReplyKeepsConsistent(reg: Registry, s: TermState, cmd: string)
    requires Consistent(reg, s)
    ensures Consistent(reg, TermState("", s.history + [Echo(s.input)] + Reply(reg, cmd)))
  {
    var extra := [Echo(s.input)] + Reply(reg, cmd);
    assert s.history + [Echo(s.input)] + Reply(reg, cmd) == s.history + extra;
    ReplyAccounted(reg, s.input, cmd);
    ExtendKeepsConsistent(reg, s.history, extra);
  }

  /** Every step keeps every scrollback line accounted for. */
  lemma StepKeepsConsistent(reg: Registry, s: TermState, a: UserAction)
    requires Consistent(reg, s)
    ensures Consistent(reg, Step(reg, s, a))
  {
    if a.Enter? {
      SubmitKeepsConsistent(reg, s);
    }
  }

  /** A run of user actions from state `s`, applied in order. */
  function Session(reg: Registry, s: TermState, acts: seq<UserAction>): (r: TermState)
    ensures Consistent(reg, s) ==> Consistent(reg, r)
    decreases |acts|
  {
    if acts == [] then s
    else
      var next := Step(reg, s, acts[0]);
      assert Consistent(reg, s) ==> Consistent(reg, next) by {
        if Consistent(reg, s) {
          StepKeepsConsistent(reg, s, acts[0]);
        }
      }
      Session(reg, next, acts[1..])
  }

  /** From the initial greeting, no sequence of actions puts a line in the scrollback that has no origin. */
  lemma SessionFromInit(reg: Registry, acts: seq<UserAction>)
    ensures Consistent(reg, Session(reg, Init, acts))
  {
    assert Consistent(reg, Init);
  }
}
