/** The application shell: it loads the stored app settings and the
    welcome flag, persists the settings once loading is over, switches
    between the six modules and the settings panel, and offers the welcome
    text and a reset of the microphone permission flag. */
module App {
  import opened Common
  import opened Types
  import opened Json
  import opened Constants
  import opened Storage

  const ActiveModuleKey: string := "activeModule"

  /** `{ ...prev, activeModule: module }`. */
  function ModuleChanged(prev: Json, m: ModuleType): (r: Json)
    ensures r.JObj? && ActiveModuleKey in r.fields && r.fields[ActiveModuleKey] == JStr(ModuleName(m))
    ensures forall k :: k != ActiveModuleKey ==> (k in r.fields <==> k in Spread(prev))
  {
    JObj(Spread(prev)[ActiveModuleKey := JStr(ModuleName(m))])
  }

  /** Switching modules keeps every other setting of a stored object as it
      was, and switching twice to the same module is the same as once. */
  lemma ModuleChangedKeepsOthers(prev: Json, m: ModuleType)
    ensures prev.JObj? ==> forall k :: k in prev.fields && k != ActiveModuleKey ==>
      ModuleChanged(prev, m).fields[k] == prev.fields[k]
    ensures ModuleChanged(ModuleChanged(prev, m), m) == ModuleChanged(prev, m)
  {
    var r := ModuleChanged(prev, m);
    assert Spread(r) == r.fields;
    assert r.fields[ActiveModuleKey := JStr(ModuleName(m))] == r.fields;
  }

  /** Whether the nav button of module `m` is drawn as the selected one:
      `appSettings.activeModule === module`. */
  predicate Highlighted(settings: Json, m: ModuleType) {
    settings.JObj? && ActiveModuleKey in settings.fields && settings.fields[ActiveModuleKey] == JStr(ModuleName(m))
  }

  /** After a switch exactly the chosen module is highlighted. */
  lemma OneHighlighted(prev: Json, m: ModuleType, n: ModuleType)
    ensures Highlighted(ModuleChanged(prev, m), n) <==> n == m
  {
    if n != m {
      ModuleNamesDistinct(m, n);
    }
  }

  lemma ModuleNamesDistinct(m: ModuleType, n: ModuleType)
    requires m != n
    ensures ModuleName(m) != ModuleName(n)
  {
    ParseModuleName(m);
    ParseModuleName(n);
  }

  /** What the shell shows once loading is over: the HUD line naming the
      active module, and the module in the main area. */
  datatype Screen = Screen(hud: string, shown: ModuleType)

  /** The render of the loaded shell for `settings`. The HUD upper-cases
      `appSettings.activeModule`, which throws unless that property is a
      string (None); `renderModule` shows Radionics for any value that is
      not a module name. */
  function Rendered(settings: Json): (r: Option<Screen>)
    ensures r.None? <==> !(settings.JObj? && ActiveModuleKey in settings.fields && settings.fields[ActiveModuleKey].JStr?)
    ensures r.Some? ==> r.value.hud == AsciiUpper(settings.fields[ActiveModuleKey].s)
    ensures r.Some? ==> (r.value.shown != Radionics ==> Highlighted(settings, r.value.shown))
    ensures r.Some? ==> ((forall m :: !Highlighted(settings, m)) ==> r.value.shown == Radionics)
  {
    if settings.JObj? && ActiveModuleKey in settings.fields && settings.fields[ActiveModuleKey].JStr? then
      var s := settings.fields[ActiveModuleKey].s;
      var shown := match ParseModule(s) case Some(m) => m case None => Radionics;
      assert ParseModule(s).Some? ==> Highlighted(settings, ParseModule(s).value);
      Some(Screen(AsciiUpper(s), shown))
    else
      None
  }

  /** Whatever was stored before, the shell shows the module just chosen. */
  lemma ChosenModuleShown(prev: Json, m: ModuleType)
    ensures Rendered(ModuleChanged(prev, m)) == Some(Screen(AsciiUpper(ModuleName(m)), m))
  {
    var r := ModuleChanged(prev, m);
    ParseModuleName(m);
    assert r.fields[ActiveModuleKey] == JStr(ModuleName(m));
  }

  // ---------------------------------------------------------------------
  // Nav labels

  /** `s.replace(/([A-Z])/g, ' $1')`: a space before every ASCII capital. */
  function Spaced(s: string): (r: string)
  {
    if s == [] then []
    else (if IsAsciiUpper(s[0]) then [' ', s[0]] else [s[0]]) + Spaced(s[1..])
  }

  /** The label of a module's nav button. */
  function NavLabel(m: ModuleType): string {
    AsciiUpper(Trim(Spaced(ModuleName(m))))
  }

  /** Spacing a concatenation spaces each part. */
  lemma {:induction false} SpacedAppend(a: string, b: string)
    ensures Spaced(a + b) == Spaced(a) + Spaced(b)
  {
    if a == [] {
      assert a + b == b;
    } else {
      assert (a + b)[0] == a[0];
      assert (a + b)[1..] == a[1..] + b;
      SpacedAppend(a[1..], b);
    }
  }

  /** A capitalised word with no other capital gets one space in front. */
  lemma {:induction false} SpacedWord(w: string)
    requires Word(w)
    ensures Spaced(w) == [' '] + w
  {
    NoCapitalUnspaced(w[1..]);
  }

  lemma {:induction false} NoCapitalUnspaced(w: string)
    requires forall i :: 0 <= i < |w| ==> !IsAsciiUpper(w[i])
    ensures Spaced(w) == w
  {
    if w != [] {
      NoCapitalUnspaced(w[1..]);
    }
  }

  /** A name made of letters and digits that starts with a capital. */
  predicate Capitalised(w: string) {
    |w| >= 1 && IsAsciiUpper(w[0]) && forall i :: 0 <= i < |w| ==> IsAsciiAlnum(w[i])
  }

  /** A capitalised word with no other capital. */
  predicate Word(w: string) {
    Capitalised(w) && forall i :: 1 <= i < |w| ==> !IsAsciiUpper(w[i])
  }

  lemma AlnumNotSpace(c: char)
    requires IsAsciiAlnum(c)
    ensures !IsJsSpace(c)
  {
  }

  /** Trimming a space-led capitalised text drops only the leading space. */
  lemma TrimLeadingSpace(x: string)
    requires |x| >= 1 && !IsJsSpace(x[0]) && !IsJsSpace(x[|x| - 1])
    ensures Trim([' '] + x) == x
  {
    assert ([' '] + x)[1..] == x;
    assert TrimStart([' '] + x) == TrimStart(x);
  }

  lemma UpperJoin(a: string, b: string)
    ensures AsciiUpper(a + " " + b) == AsciiUpper(a) + " " + AsciiUpper(b)
  {
    var l, r := AsciiUpper(a + " " + b), AsciiUpper(a) + " " + AsciiUpper(b);
    assert |l| == |r|;
    forall i | 0 <= i < |l| ensures l[i] == r[i] {
      if i < |a| {
      } else if i == |a| {
      } else {
        assert (a + " " + b)[i] == b[i - |a| - 1];
      }
    }
  }

  /** Spacing two words puts a space before each. */
  lemma SpacedTwoWords(w1: string, w2: string)
    requires Word(w1) && Word(w2)
    ensures Spaced(w1 + w2) == [' '] + (w1 + " " + w2)
  {
    SpacedAppend(w1, w2);
    SpacedWord(w1);
    SpacedWord(w2);
    assert ([' '] + w1) + ([' '] + w2) == [' '] + (w1 + " " + w2);
  }

  /** The label of a two-word name: the words upper-cased with one space
      between them. */
  lemma TwoWordLabel(w1: string, w2: string)
    requires Word(w1) && Word(w2)
    ensures AsciiUpper(Trim(Spaced(w1 + w2))) == AsciiUpper(w1) + " " + AsciiUpper(w2)
  {
    var x := w1 + " " + w2;
    SpacedTwoWords(w1, w2);
    assert x[0] == w1[0] && x[|x| - 1] == w2[|w2| - 1];
    assert IsAsciiAlnum(w1[0]) && IsAsciiAlnum(w2[|w2| - 1]);
    AlnumNotSpace(w1[0]);
    AlnumNotSpace(w2[|w2| - 1]);
    TrimLeadingSpace(x);
    UpperJoin(w1, w2);
  }

  /** The label of a one-word name: the word upper-cased. */
  lemma OneWordLabel(w: string)
    requires Word(w)
    ensures AsciiUpper(Trim(Spaced(w))) == AsciiUpper(w)
  {
    SpacedWord(w);
    assert IsAsciiAlnum(w[0]) && IsAsciiAlnum(w[|w| - 1]);
    AlnumNotSpace(w[0]);
    AlnumNotSpace(w[|w| - 1]);
    TrimLeadingSpace(w);
  }

  /** The label of a module named by two words. */
  lemma TwoWordNavLabel(m: ModuleType, w1: string, w2: string, u1: string, u2: string, text: string)
    requires ModuleName(m) == w1 + w2 && Word(w1) && Word(w2)
    requires AsciiUpper(w1) == u1 && AsciiUpper(w2) == u2 && text == u1 + " " + u2
    ensures NavLabel(m) == text
  {
    TwoWordLabel(w1, w2);
  }

  /** The label of a module named by one word. */
  lemma OneWordNavLabel(m: ModuleType, w: string, text: string)
    requires ModuleName(m) == w && Word(w) && text == AsciiUpper(w)
    ensures NavLabel(m) == text
  {
    OneWordLabel(w);
  }

  // The labels of the one-word modules and of the subliminal amplifier;
  // the other two-word modules follow from TwoWordNavLabel the same way.

  lemma NavLabelRadionics()
    ensures NavLabel(Radionics) == "RADIONICS"
  {
    OneWordNavLabel(Radionics, "Radionics", "RADIONICS");
  }

  // Facts about the literals, each checked on its own.
  lemma SubliminalAmplifierWords()
    ensures ModuleName(SubliminalAmplifier) == "Subliminal" + "Amplifier" && Word("Subliminal") && Word("Amplifier")
  {
  }

  lemma SubliminalUpper()
    ensures AsciiUpper("Subliminal") == "SUBLIMINAL"
  {
  }

  lemma AmplifierUpper()
    ensures AsciiUpper("Amplifier") == "AMPLIFIER"
  {
  }

  lemma SubliminalAmplifierJoined()
    ensures "SUBLIMINAL" + " " + "AMPLIFIER" == "SUBLIMINAL AMPLIFIER"
  {
  }

  lemma NavLabelSubliminalAmplifier()
    ensures NavLabel(SubliminalAmplifier) == "SUBLIMINAL AMPLIFIER"
  {
    SubliminalAmplifierWords();
    SubliminalUpper();
    AmplifierUpper();
    SubliminalAmplifierJoined();
    TwoWordNavLabel(SubliminalAmplifier, "Subliminal", "Amplifier", "SUBLIMINAL", "AMPLIFIER", "SUBLIMINAL AMPLIFIER");
  }

  lemma NavLabelSettings()
    ensures NavLabel(Settings) == "SETTINGS"
  {
    OneWordNavLabel(Settings, "Settings", "SETTINGS");
  }

  // ---------------------------------------------------------------------
  // The shell

  /** What the page shows: the loader while loading, otherwise the loaded
      shell (None where its render throws) with or without the welcome
      dialog on top. */
  datatype View = Loading | Loaded(screen: Option<Screen>, welcome: bool)

  class App {
    var appSettings: Json
    var isLoading: bool
    var showWelcomeModal: bool
    const svc: StorageService

    /** The initial state: default settings, loading, no welcome dialog. */
    constructor (svc: StorageService)
      ensures this.svc == svc
      ensures appSettings == DefaultAppSettings && isLoading && !showWelcomeModal
    {
      this.svc := svc;
      appSettings, isLoading, showWelcomeModal := DefaultAppSettings, true, false;
    }

    function View(): (v: View)
      reads this
      ensures v.Loading? <==> isLoading
      ensures v.Loaded? ==> v.screen == Rendered(appSettings) && v.welcome == showWelcomeModal
    {
      if isLoading then Loading else Loaded(Rendered(appSettings), showWelcomeModal)
    }

    /** `loadAppSettings`: the stored settings replace the defaults, and the
        welcome dialog opens when the welcome flag is not set. `parse` is
        `JSON.parse`, None where it throws. */
    method LoadAppSettings(parse: string -> Option<Json>)
      modifies this
      ensures appSettings == AppSettingsFrom(svc.ls.GetItem(AppSettingsKey), parse)
      ensures showWelcomeModal == (old(showWelcomeModal) || !svc.GetWelcomeMessageShown())
      ensures !isLoading
    {
      isLoading := true;
      appSettings := svc.GetAppSettings(parse);
      var welcomeMessageShown := svc.GetWelcomeMessageShown();
      if !welcomeMessageShown {
        showWelcomeModal := true;
      }
      isLoading := false;
    }

    /** The effect that saves the settings whenever they change, except
        while loading; saved settings that the serialiser and the parser
        agree on read back unchanged. */
    method Persist(stringify: Json -> string, parse: string -> Option<Json>)
      modifies svc.ls
      ensures svc.ls.items == if !isLoading && svc.ls.available
        then old(svc.ls.items)[AppSettingsKey := stringify(appSettings)]
        else old(svc.ls.items)
      ensures !isLoading && svc.ls.available && appSettings.JObj? && LegacyKey !in appSettings.fields
        && stringify(appSettings) != "" && parse(stringify(appSettings)) == Some(appSettings)
        ==> svc.GetAppSettings(parse) == appSettings
    {
      if !isLoading {
        svc.SaveAppSettings(appSettings, stringify);
        if svc.ls.available && appSettings.JObj? && LegacyKey !in appSettings.fields
          && stringify(appSettings) != "" && parse(stringify(appSettings)) == Some(appSettings)
        {
          AppSettingsRoundTrip(appSettings, parse, stringify);
        }
      }
    }

    /** `handleModuleChange`. */
    method ModuleChange(m: ModuleType)
      modifies this
      ensures appSettings == ModuleChanged(old(appSettings), m)
      ensures isLoading == old(isLoading) && showWelcomeModal == old(showWelcomeModal)
    {
      appSettings := ModuleChanged(appSettings, m);
    }

    /** `handleCloseWelcomeModal`: hides the dialog and records that the
        welcome text has been shown. */
    method CloseWelcomeModal()
      modifies this, svc.ls
      ensures !showWelcomeModal && appSettings == old(appSettings) && isLoading == old(isLoading)
      ensures svc.ls.items == if svc.ls.available then old(svc.ls.items)[WelcomeShownKey := "true"] else old(svc.ls.items)
      ensures svc.ls.available ==> svc.GetWelcomeMessageShown()
    {
      showWelcomeModal := false;
      svc.SetWelcomeMessageShown(true);
    }

    /** The "View Welcome" button of the settings panel. */
    method ViewWelcome()
      modifies this
      ensures showWelcomeModal && appSettings == old(appSettings) && isLoading == old(isLoading)
    {
      showWelcomeModal := true;
    }

    /** The "Reset Permission" button: the flag is removed, so the
        permission reads as not granted. */
    method ResetMicPermission()
      modifies svc.ls
      ensures svc.ls.items == if svc.ls.available then old(svc.ls.items) - {MicPermissionKey} else old(svc.ls.items)
      ensures !svc.GetMicPermissionGranted()
    {
      svc.ls.RemoveItem(MicPermissionKey);
    }
  }

  /** On a first visit (no welcome flag) loading opens the welcome dialog,
      and on a later visit it does not. */
  method FirstLoad(svc: StorageService, parse: string -> Option<Json>) returns (app: App)
    ensures fresh(app) && app.svc == svc
    ensures app.View() == Loaded(Rendered(AppSettingsFrom(svc.ls.GetItem(AppSettingsKey), parse)), !svc.GetWelcomeMessageShown())
  {
    app := new App(svc);
    app.LoadAppSettings(parse);
  }
}
