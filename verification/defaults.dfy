/**
 Default configuration settings and the configuration-file path resolver of
 MCP Client for Ollama (mcp_client_for_ollama/config/defaults.py).

 The resolver turns a user-supplied configuration name into a file path under
 the configuration directory: the name is reduced to ASCII letters, digits,
 `-` and `_`, lowercased, and replaced by "default" when nothing is left; the
 name "default" selects the application's default configuration file, any
 other name selects `<name>.json`.

 The configuration directory, the default file name and the default model
 identifier are constants defined elsewhere in the application; here they are
 parameters.
 */
module Defaults {

  datatype Option<T> = None | Some(value: T)

  // ---------------------------------------------------------------------------
  // Characters
  // ---------------------------------------------------------------------------

  predicate IsUpper(c: char) { 'A' <= c <= 'Z' }

  predicate IsLower(c: char) { 'a' <= c <= 'z' }

  predicate IsDigit(c: char) { '0' <= c <= '9' }

  /** `str.isalnum`, restricted to ASCII. */
  predicate IsAlnum(c: char)
    ensures IsAlnum(c) ==> c as int < 128
    ensures IsAlnum(c) ==> c != '-' && c != '_' && c != '/' && c != '.'
  {
    IsUpper(c) || IsLower(c) || IsDigit(c)
  }

  /**
   The test `c.isalnum() or c in ['-', '_']`: the characters the sanitiser
   lets through. None of them is a path separator or a dot.
   */
  predicate Keep(c: char)
    ensures Keep(c) ==> c as int < 128
    ensures Keep(c) ==> c != '/' && c != '.' && c != ' '
  {
    IsAlnum(c) || c == '-' || c == '_'
  }

  /** The characters a sanitised name is made of. */
  predicate IsNameChar(c: char) { IsLower(c) || IsDigit(c) || c == '-' || c == '_' }

  /** `str.lower` on one ASCII character. */
  function LowerChar(c: char): (r: char)
    ensures Keep(r) == Keep(c)
    ensures Keep(c) ==> IsNameChar(r)
    ensures IsNameChar(c) ==> r == c
    ensures r != c ==> IsUpper(c)
  {
    if IsUpper(c) then (c as int - 'A' as int + 'a' as int) as char else c
  }

  // ---------------------------------------------------------------------------
  // Strings
  // ---------------------------------------------------------------------------

  /** `str.lower` on an ASCII string: every character lowered, in place. */
  function ToLower(s: string): (r: string)
    ensures |r| == |s|
  {
    if s == [] then [] else [LowerChar(s[0])] + ToLower(s[1..])
  }

  /** The generator `c for c in s if c.isalnum() or c in ['-', '_']`, joined. */
  function KeepOnly(s: string): (r: string)
    ensures |r| <= |s|
  {
    if s == [] then []
    else (if Keep(s[0]) then [s[0]] else []) + KeepOnly(s[1..])
  }

  const DefaultName: string := "default"

  const JsonSuffix: string := ".json"

  /**
   The sanitised configuration name: kept characters, lowercased, or
   "default" when none is kept.
   */
  function Sanitize(name: string): (r: string)
    ensures r != []
    ensures |r| <= if |name| < |DefaultName| then |DefaultName| else |name|
  {
    var lowered := ToLower(KeepOnly(name));
    if lowered == [] then DefaultName else lowered
  }

  // ---------------------------------------------------------------------------
  // Paths
  // ---------------------------------------------------------------------------

  /** `os.path.join(dir, f)` for a relative `f` without a leading separator. */
  function Join(dir: string, f: string): (p: string)
    ensures |p| == |dir| + 1 + |f|
    ensures p[..|dir|] == dir && p[|dir|] == '/' && p[|dir| + 1..] == f
  {
    dir + "/" + f
  }

  /** `get_config_path(config_name)` without the directory creation. */
  function ConfigPath(dir: string, defaultFile: string, name: string): (p: string)
    ensures |p| > |dir| && p[..|dir| + 1] == dir + "/"
    ensures Sanitize(name) == DefaultName ==> p == Join(dir, defaultFile)
    ensures Sanitize(name) != DefaultName ==> p == Join(dir, Sanitize(name) + JsonSuffix)
  {
    var sanitized := Sanitize(name);
    if sanitized == DefaultName then Join(dir, defaultFile)
    else Join(dir, sanitized + JsonSuffix)
  }

  // ---------------------------------------------------------------------------
  // Lemmas: sanitisation
  // ---------------------------------------------------------------------------

  /** Lowering works character by character. */
  lemma {:induction false} ToLowerAt(s: string)
    ensures forall i :: 0 <= i < |s| ==> ToLower(s)[i] == LowerChar(s[i])
  {
    if s != [] {
      ToLowerAt(s[1..]);
    }
  }

  /** Filtering distributes over concatenation, so the kept characters keep their order. */
  lemma {:induction false} KeepOnlyAppend(a: string, b: string)
    ensures KeepOnly(a + b) == KeepOnly(a) + KeepOnly(b)
  {
    if a == [] {
      assert a + b == b;
    } else {
      var ab := a + b;
      assert ab[0] == a[0] && ab[1..] == a[1..] + b;
      KeepOnlyAppend(a[1..], b);
      var h := if Keep(a[0]) then [a[0]] else [];
      calc {
        KeepOnly(ab);
        h + KeepOnly(a[1..] + b);
        h + (KeepOnly(a[1..]) + KeepOnly(b));
        (h + KeepOnly(a[1..])) + KeepOnly(b);
        KeepOnly(a) + KeepOnly(b);
      }
    }
  }

  /** Lowering distributes over concatenation. */
  lemma {:induction false} ToLowerAppend(a: string, b: string)
    ensures ToLower(a + b) == ToLower(a) + ToLower(b)
  {
    if a == [] {
      assert a + b == b;
    } else {
      assert (a + b)[1..] == a[1..] + b;
      ToLowerAppend(a[1..], b);
    }
  }

  /** The filter drops exactly the characters that are not kept: nothing kept is lost. */
  lemma {:induction false} KeepOnlyMembers(s: string)
    ensures forall c :: c in KeepOnly(s) <==> c in s && Keep(c)
  {
    if s != [] {
      KeepOnlyMembers(s[1..]);
      assert forall c :: c in s <==> c == s[0] || c in s[1..];
    }
  }

  /** A string made only of kept characters passes the filter unchanged. */
  lemma {:induction false} KeepOnlyAllKept(s: string)
    requires forall i :: 0 <= i < |s| ==> Keep(s[i])
    ensures KeepOnly(s) == s
  {
    if s != [] {
      KeepOnlyAllKept(s[1..]);
    }
  }

  /** A string with no kept character filters to nothing. */
  lemma {:induction false} KeepOnlyNoneKept(s: string)
    requires forall i :: 0 <= i < |s| ==> !Keep(s[i])
    ensures KeepOnly(s) == []
  {
    if s != [] {
      KeepOnlyNoneKept(s[1..]);
    }
  }

  /** Lowering leaves a string of name characters unchanged. */
  lemma {:induction false} ToLowerOfNameChars(s: string)
    requires forall i :: 0 <= i < |s| ==> IsNameChar(s[i])
    ensures ToLower(s) == s
  {
    ToLowerAt(s);
  }

  /** Filtering and lowering commute: lowering never turns a kept character into a dropped one or back. */
  lemma {:induction false} KeepOnlyToLower(s: string)
    ensures KeepOnly(ToLower(s)) == ToLower(KeepOnly(s))
  {
    if s != [] {
      var t := ToLower(s);
      assert t[0] == LowerChar(s[0]);
      assert t[1..] == ToLower(s[1..]);
      KeepOnlyToLower(s[1..]);
      ToLowerAppend(if Keep(s[0]) then [s[0]] else [], KeepOnly(s[1..]));
    }
  }

  /** Lowering is idempotent. */
  lemma {:induction false} ToLowerIdempotent(s: string)
    ensures ToLower(ToLower(s)) == ToLower(s)
  {
    ToLowerAt(s);
    ToLowerAt(ToLower(s));
  }

  /**
   Every character of a sanitised name is a lowercase ASCII letter, a digit,
   `-` or `_`; in particular it holds no path separator and no dot.
   */
  lemma SanitizeNameChars(name: string)
    ensures forall i :: 0 <= i < |Sanitize(name)| ==> IsNameChar(Sanitize(name)[i])
    ensures '/' !in Sanitize(name) && '.' !in Sanitize(name)
  {
    var k := KeepOnly(name);
    KeepOnlyMembers(name);
    ToLowerAt(k);
    assert forall i :: 0 <= i < |k| ==> k[i] in k;
  }

  /** Sanitising an already sanitised name changes nothing. */
  lemma SanitizeIdempotent(name: string)
    ensures Sanitize(Sanitize(name)) == Sanitize(name)
  {
    var r := Sanitize(name);
    SanitizeNameChars(name);
    KeepOnlyAllKept(r);
    ToLowerOfNameChars(r);
  }

  /** A name differing only in letter case sanitises to the same name. */
  lemma SanitizeIgnoresCase(name: string)
    ensures Sanitize(ToLower(name)) == Sanitize(name)
  {
    KeepOnlyToLower(name);
    ToLowerIdempotent(KeepOnly(name));
  }

  /**
   A name none of whose characters is kept sanitises to the fallback
   "default"; a name with at least one kept character sanitises to its kept
   characters, in order, lowercased.
   */
  lemma SanitizeCharacterization(name: string)
    ensures (forall i :: 0 <= i < |name| ==> !Keep(name[i])) ==> Sanitize(name) == DefaultName
    ensures (exists i :: 0 <= i < |name| && Keep(name[i])) ==> Sanitize(name) == ToLower(KeepOnly(name))
    ensures KeepOnly(name) == [] <==> forall i :: 0 <= i < |name| ==> !Keep(name[i])
  {
    KeepOnlyMembers(name);
    if forall i :: 0 <= i < |name| ==> !Keep(name[i]) {
      KeepOnlyNoneKept(name);
    } else {
      var i :| 0 <= i < |name| && Keep(name[i]);
      assert name[i] in name;
      assert name[i] in KeepOnly(name);
    }
  }

  /** Sanitising a concatenation, when both parts keep something, sanitises each part. */
  lemma SanitizeAppend(a: string, b: string)
    requires KeepOnly(a) != [] && KeepOnly(b) != []
    ensures Sanitize(a + b) == ToLower(KeepOnly(a)) + ToLower(KeepOnly(b))
  {
    KeepOnlyAppend(a, b);
    ToLowerAppend(KeepOnly(a), KeepOnly(b));
  }

  /**
   A name made of four runs, kept, dropped, kept, dropped: the dropped runs
   vanish and the kept runs close up, in order.
   */
  lemma KeepOnlyRuns(a: string, b: string, c: string, d: string)
    requires forall i :: 0 <= i < |a| ==> Keep(a[i])
    requires forall i :: 0 <= i < |b| ==> !Keep(b[i])
    requires forall i :: 0 <= i < |c| ==> Keep(c[i])
    requires forall i :: 0 <= i < |d| ==> !Keep(d[i])
    ensures KeepOnly(a + b + c + d) == a + c
  {
    KeepOnlyAppend(a + b + c, d);
    KeepOnlyAppend(a + b, c);
    KeepOnlyAppend(a, b);
    KeepOnlyAllKept(a);
    KeepOnlyAllKept(c);
    KeepOnlyNoneKept(b);
    KeepOnlyNoneKept(d);
    assert KeepOnly(a + b) == a;
    assert KeepOnly(a + b + c) == a + c;
  }

  // The worked examples below take the input as a parameter fixed by their
  // precondition, so that the verifier reasons with the lemmas above instead
  // of evaluating the functions on string literals.

  /** "default", the value of the omitted argument, is its own sanitised form. */
  lemma SanitizeDefaultName(name: string)
    requires name == DefaultName
    ensures Sanitize(name) == DefaultName
  {
    // Not needed for soundness; these calls keep the verifier from
    // evaluating the functions on the literal.
    KeepOnlyAllKept(name);
    ToLowerOfNameChars(name);
  }

  /** Input with no kept character, such as "" or "!!!", falls back to "default". */
  lemma SanitizeNothingKept(name: string)
    requires name == "" || name == "!!!"
    ensures Sanitize(name) == DefaultName
  {
    KeepOnlyNoneKept(name);
  }

  /** Spaces and punctuation are dropped and letters lowered: "My Config!" becomes "myconfig". */
  lemma SanitizeMyConfig(name: string)
    requires name == "My Config!"
    ensures Sanitize(name) == "myconfig"
  {
    var kept := "My" + "Config";
    assert KeepOnly(name) == kept by {
      KeepOnlyRuns("My", " ", "Config", "!");
      assert "My" + " " + "Config" + "!" == name;
    }
    assert ToLower(kept) == "myconfig" by {
      ToLowerAt(kept);
    }
  }

  /** Upper-case spellings are lowered: "DEFAULT" sanitises to "default". */
  lemma SanitizeUpperDefault(name: string)
    requires name == "DEFAULT"
    ensures Sanitize(name) == DefaultName
  {
    KeepOnlyAllKept(name);
    ToLowerAt(name);
  }

  /** Dropped characters close up: "de fault" sanitises to "default". */
  lemma SanitizeSpacedDefault(name: string)
    requires name == "de fault"
    ensures Sanitize(name) == DefaultName
  {
    var kept := "de" + "fault";
    KeepOnlyRuns("de", " ", "fault", "");
    assert "de" + " " + "fault" + "" == name;
    assert KeepOnly(name) == kept;
    ToLowerOfNameChars(kept);
    assert kept == DefaultName;
  }

  /** "Config" sanitises to "config". */
  lemma SanitizeConfig(name: string)
    requires name == "Config"
    ensures Sanitize(name) == "config"
  {
    KeepOnlyAllKept(name);
    ToLowerAt(name);
  }

  // ---------------------------------------------------------------------------
  // Lemmas: path selection
  // ---------------------------------------------------------------------------

  /** Joining onto the same directory is injective in the file name. */
  lemma JoinInjective(dir: string, f: string, g: string)
    ensures Join(dir, f) == Join(dir, g) <==> f == g
  {
  }

  /** Appending the ".json" suffix is injective. */
  lemma JsonSuffixInjective(a: string, b: string)
    ensures a + JsonSuffix == b + JsonSuffix <==> a == b
  {
    if a + JsonSuffix == b + JsonSuffix {
      assert |a| == |b|;
      assert a == (a + JsonSuffix)[..|a|];
      assert b == (b + JsonSuffix)[..|b|];
    }
  }

  /**
   Two names select the same path exactly when they sanitise to the same
   name, or when one sanitises to "default" and the default file name is the
   other's `<name>.json`.
   */
  lemma ConfigPathEqualIff(dir: string, defaultFile: string, a: string, b: string)
    ensures ConfigPath(dir, defaultFile, a) == ConfigPath(dir, defaultFile, b)
        <==> || Sanitize(a) == Sanitize(b)
             || (Sanitize(a) == DefaultName && defaultFile == Sanitize(b) + JsonSuffix)
             || (Sanitize(b) == DefaultName && defaultFile == Sanitize(a) + JsonSuffix)
  {
    var sa, sb := Sanitize(a), Sanitize(b);
    var fa := if sa == DefaultName then defaultFile else sa + JsonSuffix;
    var fb := if sb == DefaultName then defaultFile else sb + JsonSuffix;
    JoinInjective(dir, fa, fb);
    JsonSuffixInjective(sa, sb);
  }

  /** Two different non-default sanitised names give different paths. */
  lemma ConfigPathDistinct(dir: string, defaultFile: string, a: string, b: string)
    requires Sanitize(a) != DefaultName && Sanitize(b) != DefaultName
    requires Sanitize(a) != Sanitize(b)
    ensures ConfigPath(dir, defaultFile, a) != ConfigPath(dir, defaultFile, b)
  {
    ConfigPathEqualIff(dir, defaultFile, a, b);
  }

  /**
   When the default file name is itself `<n>.json` for a sanitised name `n`
   other than "default", the name `n` selects the default file.
   */
  lemma ConfigPathDefaultFileCollision(dir: string, n: string)
    requires Sanitize(n) == n && n != DefaultName
    ensures ConfigPath(dir, n + JsonSuffix, n) == ConfigPath(dir, n + JsonSuffix, DefaultName)
  {
    SanitizeDefaultName(DefaultName);
  }

  /** With the default file "config.json", the names "Config" and "default" select the same file. */
  lemma ConfigPathCollisionExample(dir: string, name: string, omitted: string)
    requires name == "Config" && omitted == DefaultName
    ensures ConfigPath(dir, "config.json", name) == ConfigPath(dir, "config.json", omitted)
  {
    SanitizeConfig(name);
    SanitizeDefaultName(omitted);
    assert "config" + JsonSuffix == "config.json";
    ConfigPathEqualIff(dir, "config.json", name, omitted);
  }

  /**
   The part of the path after the directory is a single path component when
   the default file name is: the resolved file always sits directly in the
   configuration directory.
   */
  lemma ConfigPathStaysInDir(dir: string, defaultFile: string, name: string)
    requires '/' !in defaultFile
    ensures var p := ConfigPath(dir, defaultFile, name);
      p[..|dir| + 1] == dir + "/" && '/' !in p[|dir| + 1..]
  {
    var s := Sanitize(name);
    SanitizeNameChars(name);
    if s != DefaultName {
      assert '/' !in JsonSuffix;
      assert forall c :: c in s + JsonSuffix ==> c in s || c in JsonSuffix;
    }
  }

  /** A non-default configuration file name ends in ".json" and has no other dot. */
  lemma ConfigPathNamedFile(dir: string, defaultFile: string, name: string)
    requires Sanitize(name) != DefaultName
    ensures var leaf := ConfigPath(dir, defaultFile, name)[|dir| + 1..];
      && |leaf| > |JsonSuffix|
      && leaf[|leaf| - |JsonSuffix|..] == JsonSuffix
      && '.' !in leaf[..|leaf| - |JsonSuffix|]
  {
    var s := Sanitize(name);
    SanitizeNameChars(name);
    var leaf := ConfigPath(dir, defaultFile, name)[|dir| + 1..];
    assert leaf == s + JsonSuffix;
    assert leaf[..|leaf| - |JsonSuffix|] == s;
  }

  /** The omitted argument "default" selects the default file. */
  lemma ConfigPathOmittedName(dir: string, defaultFile: string, name: string)
    requires name == DefaultName
    ensures ConfigPath(dir, defaultFile, name) == Join(dir, defaultFile)
  {
    SanitizeDefaultName(name);
  }

  /** Names with nothing left after sanitising, or spelling "default", select the default file. */
  lemma ConfigPathFallsBack(dir: string, defaultFile: string, name: string)
    requires name in ["", "!!!", "DEFAULT", "de fault"]
    ensures ConfigPath(dir, defaultFile, name) == Join(dir, defaultFile)
  {
    if name == "" || name == "!!!" {
      SanitizeNothingKept(name);
    } else if name == "DEFAULT" {
      SanitizeUpperDefault(name);
    } else {
      SanitizeSpacedDefault(name);
    }
  }

  /** "My Config!" selects `<dir>/myconfig.json`. */
  lemma ConfigPathMyConfig(dir: string, defaultFile: string, name: string)
    requires name == "My Config!"
    ensures ConfigPath(dir, defaultFile, name) == dir + "/myconfig.json"
  {
    SanitizeMyConfig(name);
    assert "myconfig" + JsonSuffix == "myconfig.json";
  }

  // ---------------------------------------------------------------------------
  // Default configuration
  // ---------------------------------------------------------------------------

  datatype ContextSettings = ContextSettings(retainContext: bool)

  datatype ModelSettings = ModelSettings(thinkingMode: bool, showThinking: bool)

  /** Generation parameters passed to the model runtime; `None` stands for Python's `None`. */
  datatype ModelConfig = ModelConfig(
    systemPrompt: string,
    numKeep: int,
    seed: Option<int>,
    numPredict: int,
    topK: int,
    topP: real,
    minP: real,
    typicalP: real,
    repeatLastN: int,
    temperature: real,
    repeatPenalty: real,
    presencePenalty: real,
    frequencyPenalty: real,
    stop: Option<seq<string>>,
    numCtx: int)

  datatype DisplaySettings = DisplaySettings(showToolExecution: bool, showMetrics: bool)

  datatype HilSettings = HilSettings(enabled: bool)

  /** The configuration record; its fields are the fixed top-level keys. */
  datatype Config = Config(
    model: string,
    enabledTools: map<string, bool>,
    contextSettings: ContextSettings,
    modelSettings: ModelSettings,
    modelConfig: ModelConfig,
    displaySettings: DisplaySettings,
    hilSettings: HilSettings)

  /** `default_config()`: a fresh configuration with the documented defaults. */
  function DefaultConfig(defaultModel: string): (c: Config)
    ensures c.model == defaultModel
    ensures c.enabledTools == map[]
    ensures c.contextSettings.retainContext && c.hilSettings.enabled
    ensures c.modelSettings.thinkingMode && !c.modelSettings.showThinking
    ensures c.displaySettings.showToolExecution && !c.displaySettings.showMetrics
    ensures c.modelConfig.seed.None? && c.modelConfig.stop.None?
  {
    Config(
      defaultModel,
      map[],
      ContextSettings(true),
      ModelSettings(true, false),
      ModelConfig(
        "You are an assistant and speak {Language} and your name is {Name}. My name is {Name}.",
        5, None, 2048, 40, 0.9, 0.05, 1.0, 64, 0.7, 1.1, 0.0, 0.0, None, 8192),
      DisplaySettings(true, false),
      HilSettings(true))
  }
}
