/** Model of the navigation panel: the single-select accordion state, its
    toggle, and what the panel shows as a function of its props and that
    state. */
module MenuSidebar {

  datatype Option<T> = None | Some(value: T)

  /** The title of the only section that has sub-links, and the only title
      the panel ever passes to the toggle. */
  const AboutTitle: string := "À PROPOS"

  // ------------------------------------------------------------ accordion

  /** The updater given to the state setter: toggling the open section
      closes it, toggling any other title opens that one instead. */
  function Toggle(active: Option<string>, title: string): (next: Option<string>)
    ensures next == None <==> active == Some(title)
    ensures next != None ==> next == Some(title)
  {
    if active == Some(title) then None else Some(title)
  }

  /** The state after a run of clicks, first click first. */
  function ToggleAll(active: Option<string>, titles: seq<string>): Option<string>
    decreases |titles|
  {
    if titles == [] then active else ToggleAll(Toggle(active, titles[0]), titles[1..])
  }

  /** `k` clicks on the same title. */
  function Repeat(title: string, k: nat): (titles: seq<string>)
    ensures |titles| == k
    ensures forall i :: 0 <= i < k ==> titles[i] == title
  {
    if k == 0 then [] else [title] + Repeat(title, k - 1)
  }

  /** A second toggle of the same title restores the state exactly when no
      other section was open; if another one was, it leaves all collapsed. */
  lemma ToggleTwice(active: Option<string>, title: string)
    ensures Toggle(Toggle(active, title), title) == active <==> (active == None || active == Some(title))
    ensures active != None && active != Some(title) ==> Toggle(Toggle(active, title), title) == None
  {
  }

  /** Toggling "À PROPOS", then "X", then "X" ends collapsed, not on "À PROPOS". */
  lemma ToggleTwiceFromOther()
    ensures ToggleAll(None, [AboutTitle, "X", "X"]) == None
    ensures ToggleAll(None, ["X", "X"]) == None
  {
    assert [AboutTitle, "X", "X"][1..] == ["X", "X"];
    assert ["X", "X"][1..] == ["X"];
  }

  /** After any non-empty run of clicks, either nothing is open or the
      section open is the one clicked last. */
  lemma {:induction false} LastToggleWins(active: Option<string>, titles: seq<string>)
    requires titles != []
    ensures ToggleAll(active, titles) == None || ToggleAll(active, titles) == Some(titles[|titles| - 1])
    decreases |titles|
  {
    if |titles| > 1 {
      LastToggleWins(Toggle(active, titles[0]), titles[1..]);
    }
  }

  /** One more click acts on the state the earlier clicks left. */
  lemma {:induction false} ToggleAllSnoc(active: Option<string>, titles: seq<string>, title: string)
    ensures ToggleAll(active, titles + [title]) == Toggle(ToggleAll(active, titles), title)
    decreases |titles|
  {
    if titles != [] {
      assert (titles + [title])[1..] == titles[1..] + [title];
      ToggleAllSnoc(Toggle(active, titles[0]), titles[1..], title);
    }
  }

  /** The last section toggled is open exactly when the state before that
      click was not already that section. */
  lemma LastOpenIff(active: Option<string>, titles: seq<string>, title: string)
    ensures ToggleAll(active, titles + [title]) == Some(title) <==> ToggleAll(active, titles) != Some(title)
  {
    ToggleAllSnoc(active, titles, title);
  }

  /** `k` clicks on one title: the first click acts as a single toggle, and
      from then on the section alternates between open and closed. */
  lemma {:induction false} ToggleRepeat(active: Option<string>, title: string, k: nat)
    ensures ToggleAll(active, Repeat(title, k)) ==
      if k == 0 then active
      else if k % 2 == 1 then Toggle(active, title)
      else Toggle(Toggle(active, title), title)
    decreases k
  {
    if k > 0 {
      assert Repeat(title, k)[1..] == Repeat(title, k - 1);
      ToggleRepeat(Toggle(active, title), title, k - 1);
    }
  }

  /** The panel only ever toggles "À PROPOS": from the initial state, it is
      open after an odd number of clicks and closed after an even number. */
  lemma AboutClicks(k: nat)
    ensures ToggleAll(None, Repeat(AboutTitle, k)) == if k % 2 == 1 then Some(AboutTitle) else None
  {
    ToggleRepeat(None, AboutTitle, k);
  }

  /** Whether section `title` is expanded. */
  predicate Expanded(active: Option<string>, title: string)
  {
    active == Some(title)
  }

  /** Of any list of section titles, at most one is expanded. */
  lemma AtMostOneExpanded(active: Option<string>, titles: seq<string>)
    ensures |set t | t in titles && Expanded(active, t)| <= 1
  {
    var open := set t | t in titles && Expanded(active, t);
    if active.Some? && active.value in titles {
      assert open == {active.value};
    } else {
      assert open == {};
    }
  }

  // ---------------------------------------------------------------- view

  datatype Link = Link(text: string, href: string)

  /** The sub-links under "À PROPOS". */
  const AboutLinks: seq<Link> := [
    Link("Notre histoire", "/about/#history"),
    Link("Notre équipe", "/about/#team"),
    Link("Nos valeurs", "/about/#values")
  ]

  /** What the panel shows that depends on props or state: its slide
      position, the chevron's rotation class, the sub-links listed under
      "À PROPOS", and the theme control's label. */
  datatype MenuView = MenuView(transform: string, chevronClass: string, aboutLinks: seq<Link>, themeLabel: string)

  function Render(isOpen: bool, isDarkMode: bool, active: Option<string>): (v: MenuView)
    ensures v.transform == "translate-x-0" <==> isOpen
    ensures v.chevronClass == "transform rotate-180" <==> active == Some(AboutTitle)
    ensures v.aboutLinks != [] <==> active == Some(AboutTitle)
    ensures v.aboutLinks != [] ==> v.aboutLinks == AboutLinks
    ensures v.themeLabel == "Mode clair" <==> isDarkMode
    ensures v.themeLabel == "Mode sombre" <==> !isDarkMode
  {
    var expanded := active == Some(AboutTitle);
    MenuView(
      if isOpen then "translate-x-0" else "-translate-x-full",
      if expanded then "transform rotate-180" else "",
      if expanded then AboutLinks else [],
      if isDarkMode then "Mode clair" else "Mode sombre")
  }

  /** Each part of the view reads only its own input: the slide position
      only `isOpen`, the theme label only `isDarkMode`, the accordion part
      only the accordion state. */
  lemma RenderDependencies(o1: bool, d1: bool, a1: Option<string>, o2: bool, d2: bool, a2: Option<string>)
    ensures o1 == o2 ==> Render(o1, d1, a1).transform == Render(o2, d2, a2).transform
    ensures d1 == d2 ==> Render(o1, d1, a1).themeLabel == Render(o2, d2, a2).themeLabel
    ensures Expanded(a1, AboutTitle) == Expanded(a2, AboutTitle) ==>
      Render(o1, d1, a1).aboutLinks == Render(o2, d2, a2).aboutLinks &&
      Render(o1, d1, a1).chevronClass == Render(o2, d2, a2).chevronClass
  {
  }

  // ---------------------------------------------------------------- panel

  /** The panel's own state is the accordion; the counters record calls of
      the owner's callbacks. It keeps no theme and no visibility state. */
  class MenuPanel {
    var activeDropdown: Option<string>
    var closeCalls: nat
    var themeToggleCalls: nat

    constructor ()
      ensures activeDropdown == None
      ensures closeCalls == 0 && themeToggleCalls == 0
    {
      activeDropdown := None;
      closeCalls := 0;
      themeToggleCalls := 0;
    }

    method ToggleDropdown(title: string)
      modifies this`activeDropdown
      ensures activeDropdown == Toggle(old(activeDropdown), title)
    {
      activeDropdown := Toggle(activeDropdown, title);
    }

    /** The "À PROPOS" button. */
    method ClickAbout()
      modifies this`activeDropdown
      ensures activeDropdown == Toggle(old(activeDropdown), AboutTitle)
    {
      ToggleDropdown(AboutTitle);
    }

    /** The close button only calls `onClose`. */
    method Close()
      modifies this`closeCalls
      ensures closeCalls == old(closeCalls) + 1
    {
      closeCalls := closeCalls + 1;
    }

    /** The theme control only calls `toggleDarkMode`. */
    method ClickTheme()
      modifies this`themeToggleCalls
      ensures themeToggleCalls == old(themeToggleCalls) + 1
    {
      themeToggleCalls := themeToggleCalls + 1;
    }
  }

  /** A fresh panel opens "À PROPOS" on the first click and shows its
      sub-links with the chevron turned; the close button and the theme
      control leave that alone; a second click closes it again. */
  method AboutScenario(isDarkMode: bool) returns (afterOne: MenuView, afterTwo: MenuView, closes: nat, themes: nat)
    ensures afterOne.aboutLinks == AboutLinks && afterOne.chevronClass == "transform rotate-180"
    ensures afterTwo.aboutLinks == [] && afterTwo.chevronClass == ""
    ensures closes == 1 && themes == 1
  {
    var panel := new MenuPanel();
    panel.ClickAbout();
    panel.Close();
    panel.ClickTheme();
    afterOne := Render(false, isDarkMode, panel.activeDropdown);
    panel.ClickAbout();
    afterTwo := Render(false, isDarkMode, panel.activeDropdown);
    closes, themes := panel.closeCalls, panel.themeToggleCalls;
  }
}
