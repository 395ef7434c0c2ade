/**
 The command palette: a dialog whose only state is whether it is open.
 A global Cmd/Ctrl+K listener flips it, the dialog itself may set it
 (escape, backdrop click), and choosing an item closes the palette and
 then runs the item's browser effect. Each handler is modelled as the
 ordered list of things it does: suppressing the browser default,
 queueing a state update, running an effect.
 */
module Palette {

  datatype Group = Navigation | Tools | Connect

  /** The `heading` of each `CommandGroup`, as on lines 59, 77 and 92 of the palette component. */
  function Heading(g: Group): string {
    match g
    case Navigation => "Navigation"
    case Tools => "The Stack (Tools)"
    case Connect => "Connect"
  }

  /** The browser call an item makes; the browser itself is outside the model. */
  datatype Effect =
    | SetHash(fragment: string)                  // the page's location hash becomes `fragment`
    | OpenWindow(url: string, target: string)    // `url` opens in the browsing context `target`
    | ScrollToSection(id: string)                // the window scrolls to the element with this id

  /** The keyboard hint shown beside an item; display only. */
  datatype Hint = NoHint | Keys(keys: string)

  datatype Item = Item(group: Group, title: string, hint: Hint, effect: Effect)

  /** The palette's entries in display order. */
  const Items: seq<Item> := [
    Item(Navigation, "About ArpitStack", Keys("G A"), SetHash("#about")),
    Item(Navigation, "Professional Impact", Keys("G E"), SetHash("#experience")),
    Item(Navigation, "Core Innovations", Keys("G W"), SetHash("#work")),
    Item(Tools, "SecretStack Scanner", NoHint, SetHash("#work")),
    Item(Tools, "CloudStack CLI", NoHint, SetHash("#work")),
    Item(Tools, "Interactive Terminal", NoHint, ScrollToSection("work")),
    Item(Connect, "GitHub Profile", NoHint, OpenWindow("https://github.com/ArpitStack", "_blank")),
    Item(Connect, "LinkedIn", NoHint, OpenWindow("https://linkedin.com/in/ArpitStack", "_blank")),
    Item(Connect, "Buy Me A Coffee", NoHint, OpenWindow("https://buymeacoffee.com/ArpitStack", "_blank")),
    Item(Connect, "Get in Touch", NoHint, SetHash("#contact"))
  ]

  datatype PaletteState = PaletteState(open: bool)

  const Init: PaletteState := PaletteState(false)

  datatype KeyEvent = KeyEvent(key: string, metaKey: bool, ctrlKey: bool)

  /** What can reach the palette: a document keydown, a dialog open-change, or an item selection. */
  datatype Event = KeyDown(e: KeyEvent) | OpenChange(value: bool) | Choose(item: Item)

  /** One thing a handler does, in the order it does it. */
  datatype Signal =
    | PreventDefault          // the browser's default action for the key is suppressed
    | Flip                    // a functional request to negate `open`
    | SetOpen(value: bool)    // a request to set `open` to `value`
    | Perform(effect: Effect) // the item's action runs

  /** The shortcut: key exactly "k" with the Command or Control modifier. */
  predicate IsShortcut(e: KeyEvent) {
    e.key == "k" && (e.metaKey || e.ctrlKey)
  }

  /**
   The ordered actions of the handler an event reaches: the keydown listener
   suppresses the browser default and queues a flip only for the shortcut,
   the dialog queues the value it asks for, and `runCommand` queues the close
   before it runs the item's action.
   */
  function Handle(ev: Event): (r: seq<Signal>)
    ensures PreventDefault in r <==> ev.KeyDown? && IsShortcut(ev.e)
    ensures ev.KeyDown? ==> r == (if IsShortcut(ev.e) then [PreventDefault, Flip] else [])
    ensures ev.OpenChange? ==> r == [SetOpen(ev.value)]
    ensures ev.Choose? ==> r == [SetOpen(false), Perform(ev.item.effect)]
    ensures forall i :: 0 <= i < |r| && r[i].Perform? ==>
      ev.Choose? && i == |r| - 1 && 0 < i && r[i - 1] == SetOpen(false)
  {
    match ev
    case KeyDown(e) => if IsShortcut(e) then [PreventDefault, Flip] else []
    case OpenChange(v) => [SetOpen(v)]
    case Choose(item) => [SetOpen(false), Perform(item.effect)]
  }

  /** The effect of one signal on `open`: only the queued state updates change it. */
  function Update(open: bool, sig: Signal): bool {
    match sig
    case Flip => !open
    case SetOpen(v) => v
    case _ => open
  }

  /** The value of `open` once the queued updates in a trace are applied in order. */
  function Settle(open: bool, t: seq<Signal>): bool
    decreases |t|
  {
    if t == [] then open else Update(Settle(open, t[..|t| - 1]), t[|t| - 1])
  }

  lemma {:induction false} SettleConcat(open: bool, a: seq<Signal>, b: seq<Signal>)
    ensures Settle(open, a + b) == Settle(Settle(open, a), b)
    decreases |b|
  {
    if b == [] {
      assert a + b == a;
    } else {
      assert (a + b)[..|a + b| - 1] == a + b[..|b| - 1];
      SettleConcat(open, a, b[..|b| - 1]);
    }
  }

  /** The effects a trace runs, in order. */
  function Effects(t: seq<Signal>): seq<Effect>
    decreases |t|
  {
    if t == [] then []
    else Effects(t[..|t| - 1]) + (if t[|t| - 1].Perform? then [t[|t| - 1].effect] else [])
  }

  lemma {:induction false} EffectsConcat(a: seq<Signal>, b: seq<Signal>)
    ensures Effects(a + b) == Effects(a) + Effects(b)
    decreases |b|
  {
    if b == [] {
      assert a + b == a;
    } else {
      assert (a + b)[..|a + b| - 1] == a + b[..|b| - 1];
      EffectsConcat(a, b[..|b| - 1]);
    }
  }

  lemma SettleShort(open: bool, t: seq<Signal>)
    requires |t| <= 2
    ensures |t| == 1 ==> Settle(open, t) == Update(open, t[0])
    ensures |t| == 1 ==> Effects(t) == (if t[0].Perform? then [t[0].effect] else [])
    ensures |t| == 2 ==> Settle(open, t) == Update(Update(open, t[0]), t[1])
    ensures |t| == 2 ==> Effects(t) == (if t[0].Perform? then [t[0].effect] else []) + (if t[1].Perform? then [t[1].effect] else [])
  {
    if |t| >= 1 {
      assert t[..|t| - 1][..0] == [];
    }
  }

  datatype Outcome = Outcome(state: PaletteState, trace: seq<Signal>)

  /** One event handled: what the handler did, and the state React settles on afterwards. */
  function Step(s: PaletteState, ev: Event): (r: Outcome)
    ensures ev.KeyDown? ==> r.state.open == (s.open != IsShortcut(ev.e))
    ensures ev.KeyDown? ==> (PreventDefault in r.trace <==> IsShortcut(ev.e))
    ensures ev.KeyDown? ==> Effects(r.trace) == []
    ensures ev.OpenChange? ==> r.state.open == ev.value && PreventDefault !in r.trace && Effects(r.trace) == []
    ensures ev.Choose? ==> !r.state.open && Effects(r.trace) == [ev.item.effect]
  {
    var t := Handle(ev);
    SettleShort(s.open, t);
    Outcome(PaletteState(Settle(s.open, t)), t)
  }

  /** Events handled one after another: the final state and the concatenated trace. */
  function Run(s: PaletteState, evs: seq<Event>): (r: Outcome)
    ensures r.state.open == Settle(s.open, r.trace)
    ensures Effects(r.trace) == ChosenEffects(evs)
    decreases |evs|
  {
    if evs == [] then Outcome(s, [])
    else
      var first := Step(s, evs[0]);
      var rest := Run(first.state, evs[1..]);
      SettleConcat(s.open, first.trace, rest.trace);
      EffectsConcat(first.trace, rest.trace);
      assert evs == [evs[0]] + evs[1..];
      Outcome(rest.state, first.trace + rest.trace)
  }

  /** The effects of the items chosen in a sequence of events, in order. */
  function ChosenEffects(evs: seq<Event>): seq<Effect>
    decreases |evs|
  {
    if evs == [] then []
    else (if evs[0].Choose? then [evs[0].item.effect] else []) + ChosenEffects(evs[1..])
  }

  /** The palette starts closed, so the first shortcut press opens it. */
  lemma StartsClosed(e: KeyEvent)
    ensures !Init.open
    ensures IsShortcut(e) ==> Step(Init, KeyDown(e)).state.open
  {
  }

  /** The shortcut is a pure flip: pressing it twice restores `open`, whatever it was. */
  lemma ShortcutTwiceRestores(s: PaletteState, e: KeyEvent)
    requires IsShortcut(e)
    ensures Step(Step(s, KeyDown(e)).state, KeyDown(e)).state == s
    ensures Step(s, KeyDown(e)).state != s
  {
  }

  /** Only lower-case "k" with Command or Control is the shortcut: "K", or "k" alone, do nothing. */
  lemma ShortcutExamples(s: PaletteState)
    ensures Step(s, KeyDown(KeyEvent("k", true, false))).state.open == !s.open
    ensures Step(s, KeyDown(KeyEvent("k", false, true))).state.open == !s.open
    ensures Step(s, KeyDown(KeyEvent("K", true, false))) == Outcome(s, [])
    ensures Step(s, KeyDown(KeyEvent("k", false, false))) == Outcome(s, [])
    ensures Step(s, KeyDown(KeyEvent("j", true, true))) == Outcome(s, [])
  {
  }

  /** Each effect in trace `t` directly follows a close request, and `open` as queued so far is false. */
  predicate ClosedBeforeEffects(open: bool, t: seq<Signal>) {
    forall i :: 0 <= i < |t| && t[i].Perform? ==>
      i > 0 && t[i - 1] == SetOpen(false) && !Settle(open, t[..i])
  }

  lemma ClosedConcat(open: bool, a: seq<Signal>, b: seq<Signal>)
    requires ClosedBeforeEffects(open, a) && ClosedBeforeEffects(Settle(open, a), b)
    ensures ClosedBeforeEffects(open, a + b)
  {
    var t := a + b;
    forall i | 0 <= i < |t| && t[i].Perform?
      ensures i > 0 && t[i - 1] == SetOpen(false) && !Settle(open, t[..i])
    {
      if i < |a| {
        assert a[i] == t[i];
        assert t[..i] == a[..i];
      } else {
        var j := i - |a|;
        assert b[j] == t[i];
        assert t[i - 1] == b[j - 1];
        assert t[..i] == a + b[..j];
        SettleConcat(open, a, b[..j]);
      }
    }
  }

  /** A single handler never runs an effect before asking to close. */
  lemma StepClosesFirst(s: PaletteState, ev: Event)
    ensures ClosedBeforeEffects(s.open, Step(s, ev).trace)
    ensures Step(s, ev).state.open == Settle(s.open, Step(s, ev).trace)
  {
    var t := Step(s, ev).trace;
    if ev.Choose? {
      assert t[..1] == [SetOpen(false)];
      SettleShort(s.open, t[..1]);
    }
  }

  /**
   In any run of events, every effect is immediately preceded by the request to
   close the palette, and at that moment the queued value of `open` is false.
   */
  lemma {:induction false} CloseBeforeEffect(s: PaletteState, evs: seq<Event>)
    ensures ClosedBeforeEffects(s.open, Run(s, evs).trace)
    decreases |evs|
  {
    if evs != [] {
      var first := Step(s, evs[0]);
      var rest := Run(first.state, evs[1..]);
      StepClosesFirst(s, evs[0]);
      CloseBeforeEffect(first.state, evs[1..]);
      ClosedConcat(s.open, first.trace, rest.trace);
    }
  }

  /** Choosing an item closes the palette from either state and runs that item's effect exactly once. */
  lemma ChooseClosesThenActs(s: PaletteState, item: Item)
    ensures Run(s, [Choose(item)]).state == PaletteState(false)
    ensures Run(s, [Choose(item)]).trace == [SetOpen(false), Perform(item.effect)]
    ensures Effects(Run(s, [Choose(item)]).trace) == [item.effect]
  {
    assert [Choose(item)][1..] == [];
  }

  /** How many entries a group has. */
  function CountIn(items: seq<Item>, g: Group): nat {
    Count(Groups(items), g)
  }

  function Rank(g: Group): nat {
    match g
    case Navigation => 0
    case Tools => 1
    case Connect => 2
  }

  function Groups(items: seq<Item>): (gs: seq<Group>)
    ensures |gs| == |items| && forall i :: 0 <= i < |items| ==> gs[i] == items[i].group
  {
    seq(|items|, i requires 0 <= i < |items| => items[i].group)
  }

  function Count(gs: seq<Group>, g: Group): nat
    decreases |gs|
  {
    if gs == [] then 0 else (if gs[0] == g then 1 else 0) + Count(gs[1..], g)
  }

  function Repeat(g: Group, n: nat): (gs: seq<Group>)
    ensures |gs| == n && forall i :: 0 <= i < n ==> gs[i] == g
  {
    seq(n, _ => g)
  }

  /** The group of each entry, in display order: three, three, then four. */
  const Layout: seq<Group> := Repeat(Navigation, 3) + Repeat(Tools, 3) + Repeat(Connect, 4)

  lemma ItemsLayout()
    ensures Groups(Items) == Layout
  {
  }

  lemma {:induction false} CountConcat(a: seq<Group>, b: seq<Group>, g: Group)
    ensures Count(a + b, g) == Count(a, g) + Count(b, g)
    decreases |a|
  {
    if a == [] {
      assert a + b == b;
    } else {
      assert (a + b)[1..] == a[1..] + b;
      CountConcat(a[1..], b, g);
    }
  }

  lemma {:induction false} CountRepeat(x: Group, n: nat, g: Group)
    ensures Count(Repeat(x, n), g) == if x == g then n else 0
    decreases n
  {
    if n > 0 {
      assert Repeat(x, n)[1..] == Repeat(x, n - 1);
      CountRepeat(x, n - 1, g);
    }
  }

  lemma LayoutCounts()
    ensures Count(Layout, Navigation) == 3 && Count(Layout, Tools) == 3 && Count(Layout, Connect) == 4
  {
    forall g: Group
      ensures Count(Layout, g) == Count(Repeat(Navigation, 3), g) + Count(Repeat(Tools, 3), g) + Count(Repeat(Connect, 4), g)
    {
      CountConcat(Repeat(Navigation, 3) + Repeat(Tools, 3), Repeat(Connect, 4), g);
      CountConcat(Repeat(Navigation, 3), Repeat(Tools, 3), g);
    }
    forall g: Group, h: Group, n: nat
      ensures Count(Repeat(h, n), g) == if g == h then n else 0
    {
      CountRepeat(h, n, g);
    }
  }

  lemma GroupCounts()
    ensures CountIn(Items, Navigation) == 3 && CountIn(Items, Tools) == 3 && CountIn(Items, Connect) == 4
  {
    ItemsLayout();
    LayoutCounts();
  }

  /**
   The table holds ten entries in three consecutive groups of 3, 3 and 4, under
   three different headings, each entry with a distinct title.
   */
  lemma ItemTable()
    ensures |Items| == 10
    ensures CountIn(Items, Navigation) == 3 && CountIn(Items, Tools) == 3 && CountIn(Items, Connect) == 4
    ensures forall i :: 0 < i < |Items| ==> Rank(Items[i - 1].group) <= Rank(Items[i].group)
    ensures forall g, h :: Heading(g) == Heading(h) ==> g == h
  {
    GroupCounts();
    ItemsOrdered();
  }

  /** Entries appear group by group: Navigation, then Tools, then Connect. */
  lemma ItemsOrdered()
    ensures forall i :: 0 < i < |Items| ==> Rank(Items[i - 1].group) <= Rank(Items[i].group)
  {
    ItemsLayout();
    assert forall i :: 0 <= i < |Layout| ==> Rank(Layout[i]) == if i < 3 then 0 else if i < 6 then 1 else 2;
  }

  /** No two entries share a title. */
  lemma TitlesDistinct()
    ensures forall i, j :: 0 <= i < j < |Items| ==> Items[i].title != Items[j].title
  {
  }

  /**
   The bindings of three entries, one from each group: "About ArpitStack" sets the
   hash `#about`, "Interactive Terminal" scrolls to the `work` section, and "GitHub
   Profile" opens the GitHub page in a new tab; every Connect entry that opens a
   window opens it in a new tab.
   */
  lemma ItemEffects()
    ensures Items[0].title == "About ArpitStack" && Items[0].effect == SetHash("#about")
    ensures Items[5].title == "Interactive Terminal" && Items[5].effect == ScrollToSection("work")
    ensures Items[6].title == "GitHub Profile" && Items[6].effect == OpenWindow("https://github.com/ArpitStack", "_blank")
    ensures forall i :: 0 <= i < |Items| && Items[i].group == Connect && Items[i].effect.OpenWindow? ==>
      Items[i].effect.target == "_blank"
  {
  }
}
