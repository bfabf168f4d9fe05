/** The language set-up and tear-down the test modules perform. */
module RegistryExamples {
  import opened Options
  import opened Registry

  /** Every supported language loaded, "en-us" made the default, then every
      active language unloaded: the set-up succeeds, the default resolves to
      "en-us" while the languages are loaded, and the tear-down leaves no
      language and no default. */
  method FormatModuleLifecycle(langs: seq<string>)
    returns (loadedAll: bool, defaultSet: bool, during: Option<string>,
             activeAfter: seq<string>, defaultAfter: Option<string>)
    requires "en" in langs
    requires forall x :: x in langs ==> '-' !in x
    ensures loadedAll && defaultSet
    ensures during == Some("en-us")
    ensures activeAfter == [] && defaultAfter == None
  {
    var reg := new LanguageRegistry(set x | x in langs :: x);
    loadedAll := reg.LoadLanguages(langs);
    AllPlainSupported(langs);
    EnglishLoaded(langs);
    EnUsIsEnglish();
    defaultSet := reg.SetDefaultLang("en-us");
    during := reg.ResolveLang(None);
    var all := reg.active;
    reg.UnloadLanguages(all);
    NothingLeft(all, reg.active);
    activeAfter, defaultAfter := reg.active, reg.defaultLang;
  }

  /** "en-us" is a code of the English language. */
  lemma EnUsIsEnglish()
    ensures Primary("en-us") == "en"
  {
    assert "en-us"[2] == '-';
  }

  lemma EnglishLoaded(langs: seq<string>)
    requires "en" in langs
    requires AllSupported(set x | x in langs :: x, langs)
    ensures "en" in LoadAll(set x | x in langs :: x, [], langs)
  {
    LoadAllContents(set x | x in langs :: x, [], langs);
    var k :| 0 <= k < |langs| && langs[k] == "en";
    PrimaryOfPlain("en");
    assert Primary(langs[k]) == "en";
  }

  /** Unloading every active language, by its own code, leaves none. */
  lemma NothingLeft(all: seq<string>, after: seq<string>)
    requires forall x :: x in all ==> '-' !in x
    requires forall x :: x in after <==>
      x in all && forall i :: 0 <= i < |all| ==> x != Primary(all[i])
    ensures after == []
  {
    if after != [] {
      var x := after[0];
      assert x in after;
      var i :| 0 <= i < |all| && all[i] == x;
      PrimaryOfPlain(x);
      assert false;
    }
  }

  lemma AllPlainSupported(langs: seq<string>)
    requires forall x :: x in langs ==> '-' !in x
    ensures AllSupported(set x | x in langs :: x, langs)
  {
    forall i | 0 <= i < |langs| ensures Primary(langs[i]) in (set x | x in langs :: x) {
      PrimaryOfPlain(langs[i]);
    }
  }

  /** English loaded and made the default by its own code, then unloaded:
      the default follows it out. */
  method ParseModuleLifecycle()
    returns (loaded: bool, defaultSet: bool, during: Option<string>, defaultAfter: Option<string>)
    ensures loaded && defaultSet
    ensures during == Some("en")
    ensures defaultAfter == None
  {
    var reg := new LanguageRegistry({"en"});
    assert Primary("en") == "en" by { PrimaryOfPlain("en"); }
    loaded := reg.LoadLanguage("en");
    defaultSet := reg.SetDefaultLang("en");
    during := reg.ResolveLang(None);
    reg.UnloadLanguage("en");
    assert reg.active == [] by { assert "en" !in reg.active; }
    defaultAfter := reg.defaultLang;
  }
}
