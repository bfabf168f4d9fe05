/** The language registry: which languages are loaded and which one is the
    default that a rendering call without an explicit language uses. */
module Registry {
  import opened Options

  /** The primary part of a language code: "en" for "en-us" and for "en". */
  function Primary(code: string): (p: string)
    ensures |p| <= |code| && p == code[..|p|] && '-' !in p
    ensures |p| < |code| ==> code[|p|] == '-'
    decreases |code|
  {
    if code == "" || code[0] == '-' then ""
    else
      var rest := Primary(code[1..]);
      assert [code[0]] + code[1..][..|rest|] == code[..|rest| + 1];
      [code[0]] + rest
  }

  /** Taking the primary part twice changes nothing. */
  lemma PrimaryIdempotent(code: string)
    ensures Primary(Primary(code)) == Primary(code)
  {
    PrimaryOfPlain(Primary(code));
  }

  lemma {:induction false} PrimaryOfPlain(p: string)
    requires '-' !in p
    ensures Primary(p) == p
    decreases |p|
  {
    if p != "" {
      assert p[1..] == p[1..] && '-' !in p[1..] by {
        forall i | 0 <= i < |p[1..]| ensures p[1..][i] != '-' {
          assert p[1..][i] == p[i + 1];
        }
      }
      PrimaryOfPlain(p[1..]);
    }
  }

  predicate NoDuplicates(s: seq<string>)
  {
    forall i, j :: 0 <= i < j < |s| ==> s[i] != s[j]
  }

  /** The loaded languages, in the order they were loaded, and the default
      language code. */
  datatype State = State(active: seq<string>, default: Option<string>)

  /** What the registry keeps true: every loaded language is a supported
      primary code, loaded once, and the default, when there is one, is a
      code of a loaded language. */
  predicate Consistent(supported: set<string>, st: State)
  {
    NoDuplicates(st.active) &&
    (forall x :: x in st.active ==> x in supported && '-' !in x) &&
    (st.default.Some? ==> Primary(st.default.value) in st.active)
  }

  /** `active` with `lang` added at the end unless it is there already. */
  function Loaded(active: seq<string>, lang: string): (r: seq<string>)
    ensures lang in r
    ensures forall x :: x in r <==> x in active || x == lang
  {
    if lang in active then active else active + [lang]
  }

  /** Loading a language twice is the same as loading it once. */
  lemma LoadIdempotent(active: seq<string>, lang: string)
    ensures Loaded(Loaded(active, lang), lang) == Loaded(active, lang)
  {
  }

  lemma LoadedKeepsNoDuplicates(active: seq<string>, lang: string)
    requires NoDuplicates(active)
    ensures NoDuplicates(Loaded(active, lang))
  {
  }

  /** `active` without `lang`, the others keeping their order. */
  function Removed(active: seq<string>, lang: string): (r: seq<string>)
    ensures forall x :: x in r <==> x in active && x != lang
    ensures |r| <= |active|
    decreases |active|
  {
    if active == [] then []
    else if active[0] == lang then Removed(active[1..], lang)
    else [active[0]] + Removed(active[1..], lang)
  }

  lemma {:induction false} RemovedKeepsNoDuplicates(active: seq<string>, lang: string)
    requires NoDuplicates(active)
    ensures NoDuplicates(Removed(active, lang))
    decreases |active|
  {
    if active != [] {
      RemovedKeepsNoDuplicates(active[1..], lang);
      if active[0] != lang {
        var rest := Removed(active[1..], lang);
        assert active[0] !in active[1..] by {
          forall k | 0 <= k < |active[1..]| ensures active[1..][k] != active[0] {
            assert active[1..][k] == active[k + 1];
          }
        }
        assert active[0] !in rest;
        var r := [active[0]] + rest;
        forall i, j | 0 <= i < j < |r| ensures r[i] != r[j] {
          if i == 0 {
            assert r[j] == rest[j - 1] && rest[j - 1] in rest;
          } else {
            assert r[i] == rest[i - 1] && r[j] == rest[j - 1];
          }
        }
      }
    }
  }

  /** `load_language(code)`: fails for an unsupported language; otherwise
      its primary code is loaded, once. */
  function Load(supported: set<string>, st: State, code: string): (r: Result)
    ensures r.Failed? <==> Primary(code) !in supported
    ensures r.Done? ==> Primary(code) in r.st.active && r.st.default == st.default
    ensures r.Done? ==> forall x :: x in r.st.active <==> x in st.active || x == Primary(code)
  {
    var lang := Primary(code);
    if lang !in supported then Failed else Done(State(Loaded(st.active, lang), st.default))
  }

  /** The outcome of a registry call: the new state, or a failure that
      leaves the state as it was. */
  datatype Result = Done(st: State) | Failed

  /** Every code of `codes` has a supported primary language. */
  predicate AllSupported(supported: set<string>, codes: seq<string>)
  {
    forall i :: 0 <= i < |codes| ==> Primary(codes[i]) in supported
  }

  /** `load_languages(codes)`: the codes loaded one after another, stopping
      at the first unsupported one with the earlier ones loaded. */
  function LoadAll(supported: set<string>, active: seq<string>, codes: seq<string>): (r: seq<string>)
    decreases |codes|
  {
    if codes == [] then active
    else
      var prev := LoadAll(supported, active, codes[..|codes| - 1]);
      if AllSupported(supported, codes) then Loaded(prev, Primary(codes[|codes| - 1])) else prev
  }

  /** After a successful `load_languages` exactly the earlier languages and
      the primary codes of the given ones are loaded. */
  lemma {:induction false} LoadAllContents(supported: set<string>, active: seq<string>, codes: seq<string>)
    requires AllSupported(supported, codes)
    ensures forall x :: x in LoadAll(supported, active, codes) <==>
      x in active || exists i :: 0 <= i < |codes| && x == Primary(codes[i])
    decreases |codes|
  {
    if codes != [] {
      var init := codes[..|codes| - 1];
      assert AllSupported(supported, init) by {
        forall i | 0 <= i < |init| ensures Primary(init[i]) in supported {
          assert init[i] == codes[i];
        }
      }
      LoadAllContents(supported, active, init);
      forall x
        ensures x in LoadAll(supported, active, codes) <==>
          x in active || exists i :: 0 <= i < |codes| && x == Primary(codes[i])
      {
        if exists i :: 0 <= i < |init| && x == Primary(init[i]) {
          var i :| 0 <= i < |init| && x == Primary(init[i]);
          assert x == Primary(codes[i]);
        }
        if exists i :: 0 <= i < |codes| && x == Primary(codes[i]) {
          var i :| 0 <= i < |codes| && x == Primary(codes[i]);
          if i < |init| {
            assert x == Primary(init[i]);
          }
        }
      }
    }
  }

  /** `set_default_lang(code)`: fails unless the code's primary language is
      loaded; the loaded languages do not change. */
  function SetDefault(st: State, code: string): (r: Result)
    ensures r.Failed? <==> Primary(code) !in st.active
    ensures r.Done? ==> r.st == State(st.active, Some(code))
  {
    if Primary(code) in st.active then Done(State(st.active, Some(code))) else Failed
  }

  /** `unload_language(code)`: the primary language is dropped; when it was
      the default's, the first language still loaded becomes the default,
      or there is none. */
  function Unload(st: State, code: string): (r: State)
    ensures forall x :: x in r.active <==> x in st.active && x != Primary(code)
    ensures r.active == Removed(st.active, Primary(code))
    ensures r.default ==
      if st.default.Some? && Primary(st.default.value) == Primary(code) then
        (if r.active == [] then None else Some(r.active[0]))
      else st.default
  {
    var active := Removed(st.active, Primary(code));
    var default :=
      if st.default.Some? && Primary(st.default.value) == Primary(code) then
        (if active == [] then None else Some(active[0]))
      else st.default;
    State(active, default)
  }

  /** `unload_languages(codes)`: the codes unloaded one after another. A
      default that none of the codes names stays the default. */
  function UnloadAll(st: State, codes: seq<string>): (r: State)
    ensures forall x :: x in r.active <==>
      x in st.active && forall i :: 0 <= i < |codes| ==> x != Primary(codes[i])
    ensures st.default.Some? && (forall i :: 0 <= i < |codes| ==> Primary(codes[i]) != Primary(st.default.value)) ==>
      r.default == st.default
    decreases |codes|
  {
    if codes == [] then st
    else
      var init := codes[..|codes| - 1];
      var prev := UnloadAll(st, init);
      var r := Unload(prev, codes[|codes| - 1]);
      assert forall x :: x in r.active <==>
        x in st.active && forall i :: 0 <= i < |codes| ==> x != Primary(codes[i]) by {
        forall x
          ensures x in r.active <==>
            x in st.active && forall i :: 0 <= i < |codes| ==> x != Primary(codes[i])
        {
          if x in r.active {
            forall i | 0 <= i < |codes| ensures x != Primary(codes[i]) {
              if i < |init| {
                assert codes[i] == init[i];
              }
            }
          }
          if x in st.active && forall i :: 0 <= i < |codes| ==> x != Primary(codes[i]) {
            forall i | 0 <= i < |init| ensures x != Primary(init[i]) {
              assert init[i] == codes[i];
            }
          }
        }
      }
      assert st.default.Some? && (forall i :: 0 <= i < |codes| ==> Primary(codes[i]) != Primary(st.default.value)) ==>
        forall i :: 0 <= i < |init| ==> Primary(init[i]) != Primary(st.default.value) by {
        if st.default.Some? && (forall i :: 0 <= i < |codes| ==> Primary(codes[i]) != Primary(st.default.value)) {
          forall i | 0 <= i < |init| ensures Primary(init[i]) != Primary(st.default.value) {
            assert init[i] == codes[i];
          }
        }
      }
      r
  }

  /** Each call keeps the registry consistent. */
  lemma LoadConsistent(supported: set<string>, st: State, code: string)
    requires Consistent(supported, st)
    ensures Load(supported, st, code).Done? ==> Consistent(supported, Load(supported, st, code).st)
  {
    LoadedKeepsNoDuplicates(st.active, Primary(code));
  }

  lemma SetDefaultConsistent(supported: set<string>, st: State, code: string)
    requires Consistent(supported, st)
    ensures SetDefault(st, code).Done? ==> Consistent(supported, SetDefault(st, code).st)
  {
  }

  lemma UnloadConsistent(supported: set<string>, st: State, code: string)
    requires Consistent(supported, st)
    ensures Consistent(supported, Unload(st, code))
  {
    var r := Unload(st, code);
    RemovedKeepsNoDuplicates(st.active, Primary(code));
    if r.default.Some? {
      if st.default.Some? && Primary(st.default.value) == Primary(code) {
        assert r.default.value == r.active[0];
        assert r.active[0] in r.active;
        PrimaryOfPlain(r.active[0]);
      }
    }
  }

  /** The process-wide registry. */
  class LanguageRegistry {
    /** The primary codes of the languages rule data exists for. */
    const supported: set<string>
    var active: seq<string>
    var defaultLang: Option<string>

    function Snapshot(): State
      reads this
    {
      State(active, defaultLang)
    }

    ghost predicate Valid()
      reads this
    {
      Consistent(supported, Snapshot())
    }

    constructor (supported: set<string>)
      ensures this.supported == supported
      ensures active == [] && defaultLang == None
      ensures Valid()
    {
      this.supported := supported;
      active := [];
      defaultLang := None;
    }

    method LoadLanguage(code: string) returns (ok: bool)
      requires Valid()
      modifies this
      ensures Valid()
      ensures ok <==> Load(supported, old(Snapshot()), code).Done?
      ensures Snapshot() == if ok then Load(supported, old(Snapshot()), code).st else old(Snapshot())
    {
      var r := Load(supported, Snapshot(), code);
      LoadConsistent(supported, Snapshot(), code);
      if r.Done? {
        active := r.st.active;
        ok := true;
      } else {
        ok := false;
      }
    }

    method LoadLanguages(codes: seq<string>) returns (ok: bool)
      requires Valid()
      modifies this
      ensures Valid()
      ensures ok <==> AllSupported(supported, codes)
      ensures active == LoadAll(supported, old(active), codes)
      ensures defaultLang == old(defaultLang)
    {
      var i := 0;
      while i < |codes|
        invariant 0 <= i <= |codes|
        invariant Valid()
        invariant AllSupported(supported, codes[..i])
        invariant active == LoadAll(supported, old(active), codes[..i])
        invariant defaultLang == old(defaultLang)
      {
        assert codes[..i + 1][..i] == codes[..i];
        var loaded := LoadLanguage(codes[i]);
        if !loaded {
          StopsAtUnsupported(supported, old(active), codes, i);
          return false;
        }
        assert AllSupported(supported, codes[..i + 1]) by {
          var c := codes[..i + 1];
          forall j | 0 <= j < i + 1 ensures Primary(c[j]) in supported {
            if j < i {
              assert c[j] == codes[..i][j];
            }
          }
        }
        i := i + 1;
      }
      assert codes[..i] == codes;
      return true;
    }

    method SetDefaultLang(code: string) returns (ok: bool)
      requires Valid()
      modifies this
      ensures Valid()
      ensures ok <==> Primary(code) in old(active)
      ensures Snapshot() == if ok then SetDefault(old(Snapshot()), code).st else old(Snapshot())
    {
      var r := SetDefault(Snapshot(), code);
      if r.Done? {
        defaultLang := Some(code);
        ok := true;
      } else {
        ok := false;
      }
    }

    method UnloadLanguage(code: string)
      requires Valid()
      modifies this
      ensures Valid()
      ensures Snapshot() == Unload(old(Snapshot()), code)
    {
      UnloadConsistent(supported, Snapshot(), code);
      var r := Unload(Snapshot(), code);
      active, defaultLang := r.active, r.default;
    }

    method UnloadLanguages(codes: seq<string>)
      requires Valid()
      modifies this
      ensures Valid()
      ensures Snapshot() == UnloadAll(old(Snapshot()), codes)
      ensures forall x :: x in active <==>
        x in old(active) && forall i :: 0 <= i < |codes| ==> x != Primary(codes[i])
    {
      var i := 0;
      while i < |codes|
        invariant 0 <= i <= |codes|
        invariant Valid()
        invariant Snapshot() == UnloadAll(old(Snapshot()), codes[..i])
      {
        assert codes[..i + 1][..i] == codes[..i];
        UnloadLanguage(codes[i]);
        i := i + 1;
      }
      assert codes[..i] == codes;
    }

    /** The language a rendering call uses: the one it names, else the
        default. */
    function ResolveLang(explicit: Option<string>): (r: Option<string>)
      reads this
      ensures explicit.Some? ==> r == explicit
      ensures explicit.None? ==> r == defaultLang
    {
      if explicit.Some? then explicit else defaultLang
    }
  }

  /** Loading stops at the first unsupported code. */
  lemma StopsAtUnsupported(supported: set<string>, active: seq<string>, codes: seq<string>, i: nat)
    requires i < |codes| && AllSupported(supported, codes[..i])
    requires Primary(codes[i]) !in supported
    ensures !AllSupported(supported, codes)
    ensures LoadAll(supported, active, codes) == LoadAll(supported, active, codes[..i])
  {
    StopsAfter(supported, active, codes, i, |codes|);
    assert codes[..|codes|] == codes;
  }

  lemma {:induction false} StopsAfter(supported: set<string>, active: seq<string>, codes: seq<string>, i: nat, k: nat)
    requires i < k <= |codes| && Primary(codes[i]) !in supported
    ensures LoadAll(supported, active, codes[..k]) == LoadAll(supported, active, codes[..i])
    decreases k
  {
    var c := codes[..k];
    assert c[..|c| - 1] == codes[..k - 1];
    assert !AllSupported(supported, c) by {
      assert c[i] == codes[i];
    }
    if k - 1 > i {
      StopsAfter(supported, active, codes, i, k - 1);
    }
  }
}
