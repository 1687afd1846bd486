/**
 * Whole files run through the deferred-provider scan, showing what `reset`
 * leaves behind: it clears the captures but not the `extends` and
 * `implements` watches, so a sniff reused for the next file (as
 * PHP_CodeSniffer reuses it) can judge that file by a watch the previous
 * file left on. Class names are kept symbolic (`name`), so that each file
 * is a token list over an arbitrary quoted name.
 */
module DeferredScenarios {
  import opened Tokens
  import opened PhpArrays
  import opened ClassNames
  import opened DeferredScan
  import opened DeferredSniff
  import opened DeferredFacts

  /** A name that is not empty and has no quote at either end. */
  predicate Bare(name: string)
  {
    name != [] && name[0] != '\'' && name[|name| - 1] != '\''
  }

  /** The single-quoted literal spelling a name. */
  function Quoted(name: string): string
  {
    ['\''] + name + ['\'']
  }

  /** Without an open provides region, a token other than `public` and the
      text `provides` passes the `$bindings` and provides handlers untouched. */
  lemma OnlyBindActs(f: Fields, tokens: seq<Token>, i: nat)
    requires i < |tokens|
    requires !f.inProvides && tokens[i].content != "provides" && tokens[i].code != Public
    ensures Extract(f, tokens, i) == BindStep(f, tokens, i)
  {
    var b := BindStep(f, tokens, i);
    assert BindingsPropertyStep(b, tokens, i) == b;
    assert ProvidesStep(b, tokens, i) == b;
  }

  /** A token that reaches no handler: the bind capture is off and the
      token neither arms it, opens a provides region nor starts a `$bindings`
      walk. */
  lemma InertExtract(f: Fields, tokens: seq<Token>, i: nat)
    requires i < |tokens|
    requires !f.inBindOrSingleton && !f.inProvides
    requires tokens[i].content !in BindingMethods && tokens[i].content != "provides"
    requires tokens[i].code != Public
    ensures Extract(f, tokens, i) == f
  {
    OnlyBindActs(f, tokens, i);
  }

  /** `bind` arms the capture (it resolves to no class name itself). */
  lemma BindArms(f: Fields, tokens: seq<Token>, i: nat)
    requires i + 1 < |tokens|
    requires tokens[i] == Token(String, "bind") && tokens[i + 1].code != DoubleColon
    requires !f.inProvides
    ensures Extract(f, tokens, i) == f.(inBindOrSingleton := true)
  {
    OnlyBindActs(f, tokens, i);
    assert tokens[i].content in BindingMethods;
    assert !IsClassConstant(tokens, i);
  }

  /** While armed, a quoted name is stored under its own index, unquoted,
      and the capture disarms. */
  lemma ArmedStoresName(f: Fields, tokens: seq<Token>, i: nat, name: string)
    requires Bare(name)
    requires i < |tokens|
    requires tokens[i] == Token(ConstString, Quoted(name))
    requires f.boundClasses == [] && f.inBindOrSingleton && !f.inProvides
    ensures Extract(f, tokens, i) == f.(boundClasses := [Entry(i, name)], inBindOrSingleton := false)
  {
    assert tokens[i].content[0] == '\'' != "provides"[0];
    OnlyBindActs(f, tokens, i);
    TrimQuotesUnquotes(name);
    assert CapturedAt(tokens, i) == Some(name);
  }

  /** A file that names `ServiceProvider` before its `extends`, is deferred
      by `$defer = true`, binds one name and provides none:
      `ServiceProvider $defer true bind 'name' extends`. */
  function ReentryFile(name: string): seq<Token>
  {
    [Token(String, "ServiceProvider"), Token(Variable, "$defer"), Token(True, "true"),
     Token(String, "bind"), Token(ConstString, Quoted(name)), Token(Extends, "extends")]
  }

  /** Tokens 1 to 4 of that file, whatever the provider status (still open
      or already true): `$defer` watches, `true` decides deferred, `bind`
      arms, and the quoted name is stored under index 4. */
  lemma ReentryDefer(name: string, p: Option<bool>)
    requires Bare(name) && p != Some(false)
    ensures Pass(ScanState(p, None, Initial), ReentryFile(name), 1) ==
      Pass(ScanState(p, None, Initial.(checkingForDeferredValue := true)), ReentryFile(name), 2)
  {
    var tokens := ReentryFile(name);
    var next := ScanState(p, None, Initial.(checkingForDeferredValue := true));
    InertExtract(next.fields, tokens, 1);
    Advance(ScanState(p, None, Initial), tokens, 1, next);
  }

  lemma ReentryTrue(name: string, p: Option<bool>)
    requires Bare(name) && p != Some(false)
    ensures Pass(ScanState(p, None, Initial.(checkingForDeferredValue := true)), ReentryFile(name), 2) ==
      Pass(ScanState(p, Some(true), Initial), ReentryFile(name), 3)
  {
    var tokens := ReentryFile(name);
    InertExtract(Initial, tokens, 2);
    Advance(ScanState(p, None, Initial.(checkingForDeferredValue := true)), tokens, 2, ScanState(p, Some(true), Initial));
  }

  lemma ReentryBind(name: string, p: Option<bool>)
    requires Bare(name) && p != Some(false)
    ensures Pass(ScanState(p, Some(true), Initial), ReentryFile(name), 3) ==
      Pass(ScanState(p, Some(true), Initial.(inBindOrSingleton := true)), ReentryFile(name), 4)
  {
    var tokens := ReentryFile(name);
    BindArms(Initial, tokens, 3);
    Advance(ScanState(p, Some(true), Initial), tokens, 3, ScanState(p, Some(true), Initial.(inBindOrSingleton := true)));
  }

  lemma ReentryName(name: string, p: Option<bool>)
    requires Bare(name) && p != Some(false)
    ensures Pass(ScanState(p, Some(true), Initial.(inBindOrSingleton := true)), ReentryFile(name), 4) ==
      Pass(ScanState(p, Some(true), Initial.(boundClasses := [Entry(4, name)])), ReentryFile(name), 5)
  {
    var tokens := ReentryFile(name);
    var armed := ScanState(p, Some(true), Initial.(inBindOrSingleton := true));
    ArmedStoresName(armed.fields, tokens, 4, name);
    Advance(armed, tokens, 4, ScanState(p, Some(true), Initial.(boundClasses := [Entry(4, name)])));
  }

  /** Token 0: a new sniff ignores `ServiceProvider`; one whose `extends`
      watch is on answers the provider question with it. */
  lemma ReentryStart(name: string, watching: bool)
    requires Bare(name)
    ensures Pass(ScanState(None, None, Initial.(checkingForServiceProvider := watching)), ReentryFile(name), 0) ==
      Pass(ScanState(if watching then Some(true) else None, None, Initial), ReentryFile(name), 1)
  {
    var tokens := ReentryFile(name);
    InertExtract(Initial, tokens, 0);
    Advance(ScanState(None, None, Initial.(checkingForServiceProvider := watching)), tokens, 0,
            ScanState(if watching then Some(true) else None, None, Initial));
  }

  /** Token 5: `extends` turns the watch on while the provider question is
      open, and changes nothing once it is answered. */
  lemma ReentryEnd(name: string, p: Option<bool>)
    requires Bare(name) && p != Some(false)
    ensures Pass(ScanState(p, Some(true), Initial.(boundClasses := [Entry(4, name)])), ReentryFile(name), 5) ==
      ScanState(p, Some(true), Initial.(boundClasses := [Entry(4, name)], checkingForServiceProvider := p.None?))
  {
    var tokens := ReentryFile(name);
    var last := ScanState(p, Some(true), Initial.(boundClasses := [Entry(4, name)], checkingForServiceProvider := p.None?));
    InertExtract(last.fields, tokens, 5);
    Advance(ScanState(p, Some(true), Initial.(boundClasses := [Entry(4, name)])), tokens, 5, last);
  }

  /** The first pass over that file, from a new sniff: deferred, the provider
      question still open, the name bound, and the `extends` watch left on. */
  lemma ReentryFirstPass(name: string)
    requires Bare(name)
    ensures Run(Initial, ReentryFile(name)) ==
      ScanState(None, Some(true), Initial.(boundClasses := [Entry(4, name)], checkingForServiceProvider := true))
  {
    assert Initial.(checkingForServiceProvider := false) == Initial;
    ReentryStart(name, false);
    ReentryDefer(name, None);
    ReentryTrue(name, None);
    ReentryBind(name, None);
    ReentryName(name, None);
    ReentryEnd(name, None);
  }

  /** The second pass, from what `reset` left: the `extends` watch turns the
      leading `ServiceProvider` into a provider, and the bound name is
      then reconciled against an empty provides list. */
  lemma ReentrySecondPass(name: string)
    requires Bare(name)
    ensures Run(Initial.(checkingForServiceProvider := true), ReentryFile(name)) ==
      ScanState(Some(true), Some(true), Initial.(boundClasses := [Entry(4, name)]))
  {
    ReentryStart(name, true);
    ReentryDefer(name, Some(true));
    ReentryTrue(name, Some(true));
    ReentryBind(name, Some(true));
    ReentryName(name, Some(true));
    ReentryEnd(name, Some(true));
  }

  /** Reset then leaves the `extends` watch on: a second `process` call on
      the same file reports an error the first call did not. */
  lemma ReentryReports(name: string)
    requires Bare(name)
    ensures Report(Initial, ReentryFile(name)) == []
    ensures ResetFields(Run(Initial, ReentryFile(name)).fields) == Initial.(checkingForServiceProvider := true)
    ensures Report(Initial.(checkingForServiceProvider := true), ReentryFile(name)) ==
      [Error(4, Message(NotProvidedPrefix, name), "Found")]
  {
    ReentryFirstPass(name);
    ReentrySecondPass(name);
    var bound := [Entry(4, name)];
    assert Diff([], bound) == [];
    assert Diff(bound, []) == bound by {
      assert Values([]) == {};
    }
  }

  /** `extends parent implements`: a class that extends anything other than
      `ServiceProvider` and implements an interface. */
  function ModelFile(parent: string): seq<Token>
  {
    [Token(Extends, "extends"), Token(String, parent), Token(Implements, "implements")]
  }

  /** Its first two tokens: `extends` turns the provider watch on and the
      parent name, not being `ServiceProvider`, answers nothing. */
  lemma ModelFileHead(parent: string)
    requires parent != "ServiceProvider" && parent !in BindingMethods && parent != "provides"
    ensures Pass(ScanState(None, None, Initial), ModelFile(parent), 0) ==
      Pass(ScanState(None, None, Initial.(checkingForServiceProvider := true)), ModelFile(parent), 2)
  {
    var tokens := ModelFile(parent);
    var s1 := ScanState(None, None, Initial.(checkingForServiceProvider := true));
    InertExtract(s1.fields, tokens, 0);
    Advance(ScanState(None, None, Initial), tokens, 0, s1);
    InertExtract(s1.fields, tokens, 1);
    Advance(s1, tokens, 1, s1);
  }

  /** That file is rejected at `implements`, and the same token has already
      turned the `implements` watch on; `reset` keeps it on. */
  lemma ModelFileLeavesWatch(parent: string)
    requires parent != "ServiceProvider" && parent !in BindingMethods && parent != "provides"
    ensures Run(Initial, ModelFile(parent)) ==
      ScanState(Some(false), None, Initial.(checkingForDeferrableProvider := true))
    ensures Report(Initial, ModelFile(parent)) == []
    ensures ResetFields(Run(Initial, ModelFile(parent)).fields) == Initial.(checkingForDeferrableProvider := true)
  {
    ModelFileHead(parent);
    var s1 := ScanState(None, None, Initial.(checkingForServiceProvider := true));
    assert Classify(s1, ModelFile(parent), 2) == ScanState(Some(false), None, Initial.(checkingForDeferrableProvider := true));
  }

  /** A provider that imports `DeferrableProvider` without implementing it,
      and binds one name: `DeferrableProvider extends ServiceProvider bind 'name'`. */
  function ImporterFile(name: string): seq<Token>
  {
    [Token(String, "DeferrableProvider"), Token(Extends, "extends"), Token(String, "ServiceProvider"),
     Token(String, "bind"), Token(ConstString, Quoted(name))]
  }

  /** Tokens 0 to 2 of that file: the leading `DeferrableProvider` decides
      deferred only when the `implements` watch is already on. */
  lemma ImporterHead(name: string, watching: bool)
    requires Bare(name)
    ensures Pass(ScanState(None, None, Initial.(checkingForDeferrableProvider := watching)), ImporterFile(name), 0) ==
      Pass(ScanState(None, if watching then Some(true) else None, Initial), ImporterFile(name), 1)
  {
    var tokens := ImporterFile(name);
    InertExtract(Initial, tokens, 0);
    Advance(ScanState(None, None, Initial.(checkingForDeferrableProvider := watching)), tokens, 0,
            ScanState(None, if watching then Some(true) else None, Initial));
  }

  lemma ImporterExtends(name: string, d: Option<bool>)
    requires Bare(name) && d != Some(false)
    ensures Pass(ScanState(None, d, Initial), ImporterFile(name), 1) ==
      Pass(ScanState(None, d, Initial.(checkingForServiceProvider := true)), ImporterFile(name), 2)
  {
    var tokens := ImporterFile(name);
    var next := ScanState(None, d, Initial.(checkingForServiceProvider := true));
    InertExtract(next.fields, tokens, 1);
    Advance(ScanState(None, d, Initial), tokens, 1, next);
  }

  lemma ImporterProvider(name: string, d: Option<bool>)
    requires Bare(name) && d != Some(false)
    ensures Pass(ScanState(None, d, Initial.(checkingForServiceProvider := true)), ImporterFile(name), 2) ==
      Pass(ScanState(Some(true), d, Initial), ImporterFile(name), 3)
  {
    var tokens := ImporterFile(name);
    InertExtract(Initial, tokens, 2);
    Advance(ScanState(None, d, Initial.(checkingForServiceProvider := true)), tokens, 2, ScanState(Some(true), d, Initial));
  }

  lemma ImporterBind(name: string, d: Option<bool>)
    requires Bare(name) && d != Some(false)
    ensures Pass(ScanState(Some(true), d, Initial), ImporterFile(name), 3) ==
      Pass(ScanState(Some(true), d, Initial.(inBindOrSingleton := true)), ImporterFile(name), 4)
  {
    var tokens := ImporterFile(name);
    BindArms(Initial, tokens, 3);
    Advance(ScanState(Some(true), d, Initial), tokens, 3, ScanState(Some(true), d, Initial.(inBindOrSingleton := true)));
  }

  lemma ImporterName(name: string, d: Option<bool>)
    requires Bare(name) && d != Some(false)
    ensures Pass(ScanState(Some(true), d, Initial.(inBindOrSingleton := true)), ImporterFile(name), 4) ==
      Pass(ScanState(Some(true), d, Initial.(boundClasses := [Entry(4, name)])), ImporterFile(name), 5)
  {
    var tokens := ImporterFile(name);
    var armed := ScanState(Some(true), d, Initial.(inBindOrSingleton := true));
    var last := ScanState(Some(true), d, Initial.(boundClasses := [Entry(4, name)]));
    assert Classify(armed, tokens, 4) == armed by {
      assert tokens[4].code == ConstString;
    }
    ArmedStoresName(armed.fields, tokens, 4, name);
    Advance(armed, tokens, 4, last);
  }

  /** The whole importing file, from a sniff whose `implements` watch is on
      or off: it is a provider with the name bound, and deferred only when
      the watch was on. */
  lemma ImporterPass(name: string, watching: bool)
    requires Bare(name)
    ensures Run(Initial.(checkingForDeferrableProvider := watching), ImporterFile(name)) ==
      ScanState(Some(true), if watching then Some(true) else None, Initial.(boundClasses := [Entry(4, name)]))
  {
    var d := if watching then Some(true) else None;
    ImporterHead(name, watching);
    ImporterExtends(name, d);
    ImporterProvider(name, d);
    ImporterBind(name, d);
    ImporterName(name, d);
    assert |ImporterFile(name)| == 5;
  }

  /** The `implements` watch left on by one file decides the next: a new
      sniff reports nothing for the importing provider, a sniff reused after
      the rejected file reports its bound name as not provided. */
  lemma WatchLeaksIntoNextFile(parent: string, name: string)
    requires parent != "ServiceProvider" && parent !in BindingMethods && parent != "provides"
    requires Bare(name)
    ensures Report(Initial, ImporterFile(name)) == []
    ensures Report(ResetFields(Run(Initial, ModelFile(parent)).fields), ImporterFile(name)) ==
      [Error(4, Message(NotProvidedPrefix, name), "Found")]
  {
    ModelFileLeavesWatch(parent);
    assert Initial.(checkingForDeferrableProvider := false) == Initial;
    ImporterPass(name, false);
    ImporterPass(name, true);
    var bound := [Entry(4, name)];
    assert Diff([], bound) == [];
    assert Diff(bound, []) == bound by {
      assert Values([]) == {};
    }
  }

  /** `public $bindings = [Key::class => Value::class]`, with whitespace:
      the key's `=>` is four tokens after it, the value has nothing there. */
  function BindingsFile(key: string, value: string): seq<Token>
  {
    [Token(Public, "public"), Token(Other, " "), Token(Variable, "$bindings"), Token(Other, " "),
     Token(Other, "="), Token(Other, " "), Token(OpenShortArray, "["),
     Token(String, key), Token(DoubleColon, "::"), Token(String, "class"), Token(Other, " "),
     Token(DoubleArrow, "=>"), Token(Other, " "),
     Token(String, value), Token(DoubleColon, "::"), Token(String, "class"), Token(CloseShortArray, "]")]
  }

  /** The only token of that file followed by `=>` four places on is the key. */
  lemma BindingsFileKeys(key: string, value: string)
    ensures forall m :: 0 <= m < 16 && IsClassNameArrayIndex(BindingsFile(key, value), m) ==> m == 7
    ensures forall m :: 0 <= m <= 7 ==> BindingsFile(key, value)[m].code != CloseShortArray
  {
  }

  /** The key resolves to `Key::class`. */
  lemma BindingsFileName(key: string, value: string)
    requires key != [] && key[0] != '\''
    ensures CapturedAt(BindingsFile(key, value), 7) == Some(key + "::class")
  {
    var tokens := BindingsFile(key, value);
    var name := key + "::class";
    assert ClassNameAt(tokens, 7) == Some(name) by {
      assert key + "::" + "class" == name;
    }
    assert Truthy(name) by {
      assert |name| == |key| + 7;
    }
    assert name[|name| - 1] == 's';
    TrimQuotesKeepsBare(name);
    assert CapturedAt(tokens, 7) == Some(TrimQuotes(name));
  }

  /** The `public` at index 0 starts the walk. */
  lemma BindingsFileTriggers(key: string, value: string)
    ensures BindingsPropertyStep(Initial, BindingsFile(key, value), 0).boundClasses ==
      ExtractBindings(BindingsFile(key, value), 0, [])
  {
    var tokens := BindingsFile(key, value);
    assert tokens[0].code == Public && tokens[2] == Token(Variable, "$bindings");
  }

  /** The `$bindings` walk stores the key `Key::class` under its index and
      not the value `Value::class`. */
  lemma BindingsKeyNotValue(key: string, value: string)
    requires key != [] && key[0] != '\''
    ensures forall e :: e in BindingsPropertyStep(Initial, BindingsFile(key, value), 0).boundClasses <==>
      e == Entry(7, key + "::class")
  {
    var tokens := BindingsFile(key, value);
    BindingsFileTriggers(key, value);
    BindingsFileName(key, value);
    BindingsFileKeys(key, value);
    ExtractBindingsSingleKey(tokens, 0, 16, 7);
  }

  /** A deferrable provider that binds one name and returns a one-slot
      array from `provides()`; the slot holds the same quoted name when
      `listed`, and whitespace otherwise:
      `extends ServiceProvider implements DeferrableProvider { bind 'name'
      provides { [ 'name' ] }`. */
  function ProvidesFile(name: string, listed: bool): seq<Token>
  {
    [Token(Extends, "extends"), Token(String, "ServiceProvider"), Token(Implements, "implements"),
     Token(String, "DeferrableProvider"), Token(OpenCurly, "{"),
     Token(String, "bind"), Token(ConstString, Quoted(name)),
     Token(String, "provides"), Token(OpenCurly, "{"), Token(OpenShortArray, "["),
     if listed then Token(ConstString, Quoted(name)) else Token(Other, " "),
     Token(CloseShortArray, "]"), Token(CloseCurly, "}")]
  }

  /** Both questions answered true: the pass only extracts. */
  function Decided(f: Fields): ScanState
  {
    ScanState(Some(true), Some(true), f)
  }

  /** Once both questions are answered, a token only runs the extractors. */
  lemma DecidedStep(f: Fields, tokens: seq<Token>, i: nat, g: Fields)
    requires i < |tokens| && Extract(f, tokens, i) == g
    ensures Pass(Decided(f), tokens, i) == Pass(Decided(g), tokens, i + 1)
  {
    assert Classify(Decided(f), tokens, i) == Decided(f);
    Advance(Decided(f), tokens, i, Decided(g));
  }

  /** With the bind capture off, a token that neither arms it nor is `public`
      reaches only the provides handler. */
  lemma RegionStep(f: Fields, tokens: seq<Token>, i: nat)
    requires i < |tokens|
    requires !f.inBindOrSingleton && tokens[i].content !in BindingMethods && tokens[i].code != Public
    ensures Extract(f, tokens, i) == ProvidesStep(f, tokens, i)
  {
    assert BindStep(f, tokens, i) == f;
    assert BindingsPropertyStep(f, tokens, i) == f;
  }

  /** Token 0: `extends` starts watching for the provider's parent. */
  lemma ProvidesFileExtends(name: string, listed: bool)
    requires Bare(name)
    ensures Pass(ScanState(None, None, Initial), ProvidesFile(name, listed), 0) ==
      Pass(ScanState(None, None, Initial.(checkingForServiceProvider := true)), ProvidesFile(name, listed), 1)
  {
    var tokens := ProvidesFile(name, listed);
    var watching := ScanState(None, None, Initial.(checkingForServiceProvider := true));
    InertExtract(watching.fields, tokens, 0);
    Advance(ScanState(None, None, Initial), tokens, 0, watching);
  }

  /** Token 1: `ServiceProvider` answers the provider question. */
  lemma ProvidesFileParent(name: string, listed: bool)
    requires Bare(name)
    ensures Pass(ScanState(None, None, Initial.(checkingForServiceProvider := true)), ProvidesFile(name, listed), 1) ==
      Pass(ScanState(Some(true), None, Initial), ProvidesFile(name, listed), 2)
  {
    var tokens := ProvidesFile(name, listed);
    InertExtract(Initial, tokens, 1);
    Advance(ScanState(None, None, Initial.(checkingForServiceProvider := true)), tokens, 1,
            ScanState(Some(true), None, Initial));
  }

  /** Token 2: `implements` starts watching for the interface. */
  lemma ProvidesFileImplements(name: string, listed: bool)
    requires Bare(name)
    ensures Pass(ScanState(Some(true), None, Initial), ProvidesFile(name, listed), 2) ==
      Pass(ScanState(Some(true), None, Initial.(checkingForDeferrableProvider := true)), ProvidesFile(name, listed), 3)
  {
    var tokens := ProvidesFile(name, listed);
    var watching := ScanState(Some(true), None, Initial.(checkingForDeferrableProvider := true));
    InertExtract(watching.fields, tokens, 2);
    Advance(ScanState(Some(true), None, Initial), tokens, 2, watching);
  }

  /** Token 3: `DeferrableProvider` answers the deferred question. */
  lemma ProvidesFileInterface(name: string, listed: bool)
    requires Bare(name)
    ensures Pass(ScanState(Some(true), None, Initial.(checkingForDeferrableProvider := true)), ProvidesFile(name, listed), 3) ==
      Pass(Decided(Initial), ProvidesFile(name, listed), 4)
  {
    var tokens := ProvidesFile(name, listed);
    InertExtract(Initial, tokens, 3);
    Advance(ScanState(Some(true), None, Initial.(checkingForDeferrableProvider := true)), tokens, 3, Decided(Initial));
  }

  /** Token 4: the class's `{` is inert. */
  lemma ProvidesFileBrace(name: string, listed: bool)
    requires Bare(name)
    ensures Pass(Decided(Initial), ProvidesFile(name, listed), 4) ==
      Pass(Decided(Initial), ProvidesFile(name, listed), 5)
  {
    var tokens := ProvidesFile(name, listed);
    InertExtract(Initial, tokens, 4);
    DecidedStep(Initial, tokens, 4, Initial);
  }

  /** Token 5: `bind` arms the capture. */
  lemma ProvidesFileArm(name: string, listed: bool)
    requires Bare(name)
    ensures Pass(Decided(Initial), ProvidesFile(name, listed), 5) ==
      Pass(Decided(Initial.(inBindOrSingleton := true)), ProvidesFile(name, listed), 6)
  {
    var tokens := ProvidesFile(name, listed);
    BindArms(Initial, tokens, 5);
    DecidedStep(Initial, tokens, 5, Initial.(inBindOrSingleton := true));
  }

  /** Token 6: the quoted name is bound under 6. */
  lemma ProvidesFileBound(name: string, listed: bool)
    requires Bare(name)
    ensures Pass(Decided(Initial.(inBindOrSingleton := true)), ProvidesFile(name, listed), 6) ==
      Pass(Decided(Initial.(boundClasses := [Entry(6, name)])), ProvidesFile(name, listed), 7)
  {
    var tokens := ProvidesFile(name, listed);
    ArmedStoresName(Initial.(inBindOrSingleton := true), tokens, 6, name);
    DecidedStep(Initial.(inBindOrSingleton := true), tokens, 6, Initial.(boundClasses := [Entry(6, name)]));
  }

  /** The fields inside the provides region of that file. */
  function InRegion(name: string, provided: PhpArray, depth: int, inArray: bool): Fields
  {
    Initial.(boundClasses := [Entry(6, name)], inProvides := true, providesClasses := provided,
             providesOpenCurlyBrackets := depth, inProvidesReturnArray := inArray)
  }

  /** The text `provides` opens the region; nothing else changes. */
  lemma ProvidesOpensRegion(f: Fields, tokens: seq<Token>, i: nat)
    requires i < |tokens| && tokens[i] == Token(String, "provides")
    requires !f.inBindOrSingleton && !f.inProvides && !f.inProvidesReturnArray
    ensures Extract(f, tokens, i) == f.(inProvides := true)
  {
    assert tokens[i].content !in BindingMethods;
    RegionStep(f, tokens, i);
  }

  /** Inside the region and outside the array, `{` adds one to the depth. */
  lemma BraceDeepens(f: Fields, tokens: seq<Token>, i: nat)
    requires i < |tokens| && tokens[i] == Token(OpenCurly, "{")
    requires !f.inBindOrSingleton && f.inProvides && !f.inProvidesReturnArray
    ensures Extract(f, tokens, i) == f.(providesOpenCurlyBrackets := f.providesOpenCurlyBrackets + 1)
  {
    assert tokens[i].content !in BindingMethods;
    RegionStep(f, tokens, i);
  }

  /** Inside the region, `[` sets the in-array flag. */
  lemma BracketOpensArray(f: Fields, tokens: seq<Token>, i: nat)
    requires i < |tokens| && tokens[i] == Token(OpenShortArray, "[")
    requires !f.inBindOrSingleton && f.inProvides && !f.inProvidesReturnArray
    ensures Extract(f, tokens, i) == f.(inProvidesReturnArray := true)
  {
    assert tokens[i].content !in BindingMethods;
    RegionStep(f, tokens, i);
  }

  /** A quoted name resolves to the bare name and is no binding-method name. */
  lemma QuotedNameCaptured(tokens: seq<Token>, i: nat, name: string)
    requires Bare(name)
    requires i < |tokens| && tokens[i] == Token(ConstString, Quoted(name))
    ensures CapturedAt(tokens, i) == Some(name)
    ensures tokens[i].content !in BindingMethods
  {
    var q := Quoted(name);
    assert |q| == |name| + 2 && q[0] == '\'';
    assert q !in BindingMethods by {
      forall m | m in BindingMethods
        ensures m != q
      {
        assert m[0] != '\'';
      }
    }
    assert ClassNameAt(tokens, i) == Some(q);
    assert Truthy(q);
    TrimQuotesUnquotes(name);
  }

  /** Inside the array, a quoted name is captured under its own index. */
  lemma QuotedSlotCaptured(f: Fields, tokens: seq<Token>, i: nat, name: string)
    requires Bare(name)
    requires i < |tokens| && tokens[i] == Token(ConstString, Quoted(name))
    requires !f.inBindOrSingleton && f.inProvides && f.inProvidesReturnArray && f.providesClasses == []
    ensures Extract(f, tokens, i) == f.(providesClasses := [Entry(i, name)])
  {
    QuotedNameCaptured(tokens, i, name);
    RegionStep(f, tokens, i);
    var g := f.(providesClasses := [Entry(i, name)]);
    assert CaptureInto([], tokens, i) == [Entry(i, name)];
    assert TrackProvides(g, ConstString) == g;
  }

  /** Whitespace inside the region changes nothing. */
  lemma BlankSlotIgnored(f: Fields, tokens: seq<Token>, i: nat)
    requires i < |tokens| && tokens[i] == Token(Other, " ")
    requires !f.inBindOrSingleton && f.inProvides
    ensures Extract(f, tokens, i) == f
  {
    assert tokens[i].content !in BindingMethods;
    assert CapturedAt(tokens, i) == None;
    RegionStep(f, tokens, i);
  }

  /** Inside the array, `]` clears the in-array flag. */
  lemma BracketClosesArray(f: Fields, tokens: seq<Token>, i: nat)
    requires i < |tokens| && tokens[i] == Token(CloseShortArray, "]")
    requires !f.inBindOrSingleton && f.inProvides
    ensures Extract(f, tokens, i) == f.(inProvidesReturnArray := false)
  {
    assert tokens[i].content !in BindingMethods;
    assert CapturedAt(tokens, i) == None;
    RegionStep(f, tokens, i);
  }

  /** At depth 1, `}` brings the depth to 0 and closes the region. */
  lemma BraceClosesRegion(f: Fields, tokens: seq<Token>, i: nat)
    requires i < |tokens| && tokens[i] == Token(CloseCurly, "}")
    requires !f.inBindOrSingleton && f.inProvides && !f.inProvidesReturnArray && f.providesOpenCurlyBrackets == 1
    ensures Extract(f, tokens, i) == f.(providesOpenCurlyBrackets := 0, inProvides := false)
  {
    assert tokens[i].content !in BindingMethods;
    RegionStep(f, tokens, i);
  }

  /** Token 7: `provides` opens the region. */
  lemma ProvidesFileOpen(name: string, listed: bool)
    requires Bare(name)
    ensures Pass(Decided(Initial.(boundClasses := [Entry(6, name)])), ProvidesFile(name, listed), 7) ==
      Pass(Decided(InRegion(name, [], 0, false)), ProvidesFile(name, listed), 8)
  {
    var tokens := ProvidesFile(name, listed);
    var bound := Initial.(boundClasses := [Entry(6, name)]);
    assert tokens[7] == Token(String, "provides");
    ProvidesOpensRegion(bound, tokens, 7);
    DecidedStep(bound, tokens, 7, InRegion(name, [], 0, false));
  }

  /** Token 8: `{` enters depth 1. */
  lemma ProvidesFileBody(name: string, listed: bool)
    requires Bare(name)
    ensures Pass(Decided(InRegion(name, [], 0, false)), ProvidesFile(name, listed), 8) ==
      Pass(Decided(InRegion(name, [], 1, false)), ProvidesFile(name, listed), 9)
  {
    var tokens := ProvidesFile(name, listed);
    assert tokens[8] == Token(OpenCurly, "{");
    BraceDeepens(InRegion(name, [], 0, false), tokens, 8);
    DecidedStep(InRegion(name, [], 0, false), tokens, 8, InRegion(name, [], 1, false));
  }

  /** Token 9: `[` sets the in-array flag (nothing is captured at it). */
  lemma ProvidesFileArray(name: string, listed: bool)
    requires Bare(name)
    ensures Pass(Decided(InRegion(name, [], 1, false)), ProvidesFile(name, listed), 9) ==
      Pass(Decided(InRegion(name, [], 1, true)), ProvidesFile(name, listed), 10)
  {
    var tokens := ProvidesFile(name, listed);
    assert tokens[9] == Token(OpenShortArray, "[");
    BracketOpensArray(InRegion(name, [], 1, false), tokens, 9);
    DecidedStep(InRegion(name, [], 1, false), tokens, 9, InRegion(name, [], 1, true));
  }

  /** What the provides map holds once the slot has been read. */
  function ProvidedIf(name: string, listed: bool): PhpArray
  {
    if listed then [Entry(10, name)] else []
  }

  /** Token 10: inside the array, a listed name is captured under 10. */
  lemma ProvidesFileSlot(name: string, listed: bool)
    requires Bare(name)
    ensures Pass(Decided(InRegion(name, [], 1, true)), ProvidesFile(name, listed), 10) ==
      Pass(Decided(InRegion(name, ProvidedIf(name, listed), 1, true)), ProvidesFile(name, listed), 11)
  {
    var tokens := ProvidesFile(name, listed);
    var f := InRegion(name, [], 1, true);
    if listed {
      assert tokens[10] == Token(ConstString, Quoted(name));
      QuotedSlotCaptured(f, tokens, 10, name);
    } else {
      assert tokens[10] == Token(Other, " ");
      BlankSlotIgnored(f, tokens, 10);
    }
    DecidedStep(f, tokens, 10, InRegion(name, ProvidedIf(name, listed), 1, true));
  }

  /** Token 11: `]` clears the in-array flag. */
  lemma ProvidesFileArrayEnd(name: string, listed: bool)
    requires Bare(name)
    ensures Pass(Decided(InRegion(name, ProvidedIf(name, listed), 1, true)), ProvidesFile(name, listed), 11) ==
      Pass(Decided(InRegion(name, ProvidedIf(name, listed), 1, false)), ProvidesFile(name, listed), 12)
  {
    var tokens := ProvidesFile(name, listed);
    var provided := ProvidedIf(name, listed);
    assert tokens[11] == Token(CloseShortArray, "]");
    BracketClosesArray(InRegion(name, provided, 1, true), tokens, 11);
    DecidedStep(InRegion(name, provided, 1, true), tokens, 11, InRegion(name, provided, 1, false));
  }

  /** Token 12: `}` closes the region, and the pass ends. */
  lemma ProvidesFileClose(name: string, listed: bool)
    requires Bare(name)
    ensures Pass(Decided(InRegion(name, ProvidedIf(name, listed), 1, false)), ProvidesFile(name, listed), 12) ==
      Decided(Initial.(boundClasses := [Entry(6, name)], providesClasses := ProvidedIf(name, listed)))
  {
    var tokens := ProvidesFile(name, listed);
    var provided := ProvidedIf(name, listed);
    var last := Initial.(boundClasses := [Entry(6, name)], providesClasses := provided);
    assert tokens[12] == Token(CloseCurly, "}");
    BraceClosesRegion(InRegion(name, provided, 1, false), tokens, 12);
    DecidedStep(InRegion(name, provided, 1, false), tokens, 12, last);
  }

  /** The whole pass: a deferrable provider with the name bound under 6 and,
      when listed, provided under 10; the provides region is closed again. */
  lemma ProvidesFilePass(name: string, listed: bool)
    requires Bare(name)
    ensures Run(Initial, ProvidesFile(name, listed)) ==
      Decided(Initial.(boundClasses := [Entry(6, name)], providesClasses := ProvidedIf(name, listed)))
  {
    ProvidesFileExtends(name, listed);
    ProvidesFileParent(name, listed);
    ProvidesFileImplements(name, listed);
    ProvidesFileInterface(name, listed);
    ProvidesFileBrace(name, listed);
    ProvidesFileArm(name, listed);
    ProvidesFileBound(name, listed);
    ProvidesFileOpen(name, listed);
    ProvidesFileBody(name, listed);
    ProvidesFileArray(name, listed);
    ProvidesFileSlot(name, listed);
    ProvidesFileArrayEnd(name, listed);
    ProvidesFileClose(name, listed);
  }

  /** A bound name that `provides()` returns is not reported. */
  lemma ProvidedBindingReportsNothing(name: string)
    requires Bare(name)
    ensures Report(Initial, ProvidesFile(name, true)) == []
  {
    ProvidesFilePass(name, true);
    assert Values([Entry(6, name)]) == {name} == Values([Entry(10, name)]) by {
      assert Entry(6, name) in [Entry(6, name)];
      assert Entry(10, name) in [Entry(10, name)];
    }
    ReconcileEmptyIff([Entry(6, name)], [Entry(10, name)]);
  }

  /** A bound name missing from an empty `provides()` array is reported as
      not in provides, at the bound token. */
  lemma MissingProvideReported(name: string)
    requires Bare(name)
    ensures Report(Initial, ProvidesFile(name, false)) == [Error(6, Message(NotProvidedPrefix, name), "Found")]
  {
    ProvidesFilePass(name, false);
    assert Diff([], [Entry(6, name)]) == [];
    assert Diff([Entry(6, name)], []) == [Entry(6, name)];
  }

  /** One sniff object processing the same file twice: the first call
      reports nothing, the second reports the bound name as not provided. */
  method ProcessTwice(name: string) returns (first: seq<Error>, second: seq<Error>)
    requires Bare(name)
    ensures first == []
    ensures second == [Error(4, Message(NotProvidedPrefix, name), "Found")]
  {
    var sniff := new DeferredProvidersSniff();
    ReentryReports(name);
    first := sniff.Process(ReentryFile(name));
    second := sniff.Process(ReentryFile(name));
  }
}
