/**
 * What the deferred-provider sniff promises, proved about the scan of
 * DeferredScan: decisions are final, a report needs a service provider
 * that is deferred, the capture maps only hold names resolved at their own
 * token, and every error names such a capture with the side it is missing on.
 */
module DeferredFacts {
  import opened Tokens
  import opened PhpArrays
  import opened ClassNames
  import opened DeferredScan

  /** The token that answers the provider question. */
  const ServiceProviderName := Token(String, "ServiceProvider")

  /** Once a status is true or false, the rest of the pass keeps it. */
  lemma {:induction false} PassKeepsDecisions(st: ScanState, tokens: seq<Token>, i: nat)
    requires i <= |tokens|
    ensures st.provider.Some? ==> Pass(st, tokens, i).provider == st.provider
    ensures st.deferred.Some? ==> Pass(st, tokens, i).deferred == st.deferred
    decreases |tokens| - i
  {
    if i < |tokens| {
      var c := Classify(st, tokens, i);
      if !Disqualified(c) {
        PassKeepsDecisions(c.(fields := Extract(c.fields, tokens, i)), tokens, i + 1);
      }
    }
  }

  /** The token that ends the pass early is classified but reaches no
      extractor: the pass ends in its classification, and only the three
      watches can differ from the fields before it. */
  lemma BreakSkipsExtractors(st: ScanState, tokens: seq<Token>, i: nat)
    requires i < |tokens|
    requires Disqualified(Classify(st, tokens, i))
    ensures Pass(st, tokens, i) == Classify(st, tokens, i)
    ensures var g := Pass(st, tokens, i).fields;
      g == st.fields.(checkingForServiceProvider := g.checkingForServiceProvider,
                      checkingForDeferredValue := g.checkingForDeferredValue,
                      checkingForDeferrableProvider := g.checkingForDeferrableProvider)
  {
  }

  /** The handlers never touch the three watching flags. */
  lemma ExtractKeepsWatches(f: Fields, tokens: seq<Token>, i: nat)
    requires i < |tokens|
    ensures Extract(f, tokens, i).checkingForServiceProvider == f.checkingForServiceProvider
    ensures Extract(f, tokens, i).checkingForDeferredValue == f.checkingForDeferredValue
    ensures Extract(f, tokens, i).checkingForDeferrableProvider == f.checkingForDeferrableProvider
  {
    var g := BindingsPropertyStep(BindStep(f, tokens, i), tokens, i);
    if g.inProvides || tokens[i].content == "provides" {
      var captured := if g.inProvidesReturnArray then CaptureInto(g.providesClasses, tokens, i) else g.providesClasses;
      var h := TrackProvides(g.(inProvides := true, providesClasses := captured), tokens[i].code);
      assert ProvidesStep(g, tokens, i) == h;
    }
  }

  /** `handleBind`: the capture is armed by a binding-method name or by an
      earlier arming; while armed, a comma disarms without storing, the first
      token that resolves to a truthy name stores it under its own index and
      disarms, and any other token keeps the capture armed. */
  lemma BindStepEffect(f: Fields, tokens: seq<Token>, i: nat)
    requires i < |tokens|
    ensures var armed := f.inBindOrSingleton || tokens[i].content in BindingMethods;
      var g := BindStep(f, tokens, i);
      && (g.inBindOrSingleton <==> armed && tokens[i].code != Comma && CapturedAt(tokens, i).None?)
      && (armed && tokens[i].code != Comma && CapturedAt(tokens, i).Some? ==>
            Entry(i, CapturedAt(tokens, i).value) in g.boundClasses)
      && (forall e :: e in g.boundClasses ==> e in f.boundClasses || (armed && e.key == i && Some(e.value) == CapturedAt(tokens, i)))
      && (forall e :: e in f.boundClasses && e.key != i ==> e in g.boundClasses)
  {
    CaptureContents(f.boundClasses, tokens, i);
  }

  /** `handleProvides`: outside the region only the text `provides` acts;
      it touches only the provides fields; and the region closes exactly
      when a `}` brings the depth from 1 to 0. */
  lemma ProvidesStepRegion(f: Fields, tokens: seq<Token>, i: nat)
    requires i < |tokens|
    ensures var g := ProvidesStep(f, tokens, i);
      var inRegion := f.inProvides || tokens[i].content == "provides";
      && g == f.(inProvides := g.inProvides, inProvidesReturnArray := g.inProvidesReturnArray,
                 providesClasses := g.providesClasses, providesOpenCurlyBrackets := g.providesOpenCurlyBrackets)
      && (!inRegion ==> g == f)
      && (inRegion ==> (!g.inProvides <==> tokens[i].code == CloseCurly && f.providesOpenCurlyBrackets == 1))
  {
    if f.inProvides || tokens[i].content == "provides" {
      var captured := if f.inProvidesReturnArray then CaptureInto(f.providesClasses, tokens, i) else f.providesClasses;
      assert ProvidesStep(f, tokens, i) == TrackProvides(f.(inProvides := true, providesClasses := captured), tokens[i].code);
    }
  }

  /** Inside the provides region, `{` and `}` move the depth by one, `[` and
      `array` set the in-array flag, `]` and `)` clear it, and any other token
      keeps both. */
  lemma ProvidesStepBrackets(f: Fields, tokens: seq<Token>, i: nat)
    requires i < |tokens|
    requires f.inProvides || tokens[i].content == "provides"
    ensures var g := ProvidesStep(f, tokens, i); var code := tokens[i].code;
      && g.providesOpenCurlyBrackets ==
           f.providesOpenCurlyBrackets + (if code == OpenCurly then 1 else if code == CloseCurly then -1 else 0)
      && ((code == OpenShortArray || code == Array) ==> g.inProvidesReturnArray)
      && ((code == CloseShortArray || code == CloseParen) ==> !g.inProvidesReturnArray)
      && (code != OpenShortArray && code != Array && code != CloseShortArray && code != CloseParen ==>
            g.inProvidesReturnArray == f.inProvidesReturnArray)
  {
    var captured := if f.inProvidesReturnArray then CaptureInto(f.providesClasses, tokens, i) else f.providesClasses;
    assert ProvidesStep(f, tokens, i) == TrackProvides(f.(inProvides := true, providesClasses := captured), tokens[i].code);
  }

  /** Inside the provides region, a name is stored under its own index only
      while the in-array flag was already set; nothing else is added. */
  lemma ProvidesStepCapture(f: Fields, tokens: seq<Token>, i: nat)
    requires i < |tokens|
    ensures var g := ProvidesStep(f, tokens, i);
      var inRegion := f.inProvides || tokens[i].content == "provides";
      && (inRegion && f.inProvidesReturnArray && CapturedAt(tokens, i).Some? ==>
            Entry(i, CapturedAt(tokens, i).value) in g.providesClasses)
      && (forall e :: e in g.providesClasses ==>
            e in f.providesClasses || (inRegion && f.inProvidesReturnArray && e.key == i && Some(e.value) == CapturedAt(tokens, i)))
  {
    if f.inProvides || tokens[i].content == "provides" {
      var captured := if f.inProvidesReturnArray then CaptureInto(f.providesClasses, tokens, i) else f.providesClasses;
      assert ProvidesStep(f, tokens, i).providesClasses == captured;
      CaptureContents(f.providesClasses, tokens, i);
    }
  }

  /** A pass that turns the provider status true meets the identifier
      `ServiceProvider` while the `extends` watch is on: the watch was on
      when the pass started, or an `extends` came before that identifier. */
  lemma {:induction false} ProviderNeedsExtends(st: ScanState, tokens: seq<Token>, i: nat)
    requires i <= |tokens|
    requires st.provider != Some(true)
    requires Pass(st, tokens, i).provider == Some(true)
    ensures exists j :: (i <= j < |tokens| && tokens[j] == ServiceProviderName &&
                         (st.fields.checkingForServiceProvider || exists k :: i <= k < j && tokens[k].code == Extends))
    decreases |tokens| - i
  {
    PassKeepsDecisions(st, tokens, i);
    assert i < |tokens|;
    var c := Classify(st, tokens, i);
    var v := ProviderVerdict(st.fields, tokens[i]);
    assert c.provider == v.status;
    if c.provider == Some(true) {
      assert tokens[i] == ServiceProviderName && st.fields.checkingForServiceProvider;
    } else {
      assert !Disqualified(c) by {
        PassKeepsDecisions(c, tokens, i);
      }
      var next := c.(fields := Extract(c.fields, tokens, i));
      ExtractKeepsWatches(c.fields, tokens, i);
      ProviderNeedsExtends(next, tokens, i + 1);
      var j :| i + 1 <= j < |tokens| && tokens[j] == ServiceProviderName &&
        (next.fields.checkingForServiceProvider || exists k :: i + 1 <= k < j && tokens[k].code == Extends);
      if !st.fields.checkingForServiceProvider && tokens[i].code != Extends {
        assert !v.after.checkingForServiceProvider;
        assert !next.fields.checkingForServiceProvider;
      }
    }
  }

  const DeferrableProviderName := Token(String, "DeferrableProvider")
  const DeferVariable := Token(Variable, "$defer")

  /** No `{` among the tokens `from` to `to` (exclusive). */
  predicate NoOpenCurly(tokens: seq<Token>, from: nat, to: nat)
  {
    forall m :: from <= m < to && m < |tokens| ==> tokens[m].code != OpenCurly
  }

  /** No boolean literal among the tokens `from` to `to` (exclusive). */
  predicate NoBoolean(tokens: seq<Token>, from: nat, to: nat)
  {
    forall m :: from <= m < to && m < |tokens| ==> tokens[m].code != True && tokens[m].code != False
  }

  /** Starting at `i` with the `implements` watch `on`, the watch can still be
      on at `j`: it was on and no `{` came, or an `implements` came before `j`
      with no `{` after it. */
  predicate ImplementsWatchReaches(tokens: seq<Token>, i: nat, j: nat, on: bool)
  {
    (on && NoOpenCurly(tokens, i, j)) ||
    exists k :: i <= k < j && k < |tokens| && tokens[k].code == Implements && NoOpenCurly(tokens, k + 1, j)
  }

  /** Starting at `i` with the `$defer` watch `on`, the watch can still be on
      at `j`: it was on and no boolean came, or a `$defer` came before `j`
      with no boolean after it. */
  predicate DeferWatchReaches(tokens: seq<Token>, i: nat, j: nat, on: bool)
  {
    (on && NoBoolean(tokens, i, j)) ||
    exists k :: i <= k < j && k < |tokens| && tokens[k] == DeferVariable && NoBoolean(tokens, k + 1, j)
  }

  /** Token `j` decides "deferred" from watches that started at `i` as in
      `f`: it is `DeferrableProvider` under the `implements` watch or `true`
      under the `$defer` watch. */
  predicate WatchedMarker(tokens: seq<Token>, i: nat, j: nat, f: Fields)
    requires j < |tokens|
  {
    (tokens[j] == DeferrableProviderName && ImplementsWatchReaches(tokens, i, j, f.checkingForDeferrableProvider)) ||
    (tokens[j].code == True && DeferWatchReaches(tokens, i, j, f.checkingForDeferredValue))
  }

  /** One token back: the `implements` watch after token `i` reaching `j`
      means the watch before it reaches `j` from `i`. */
  lemma ImplementsWatchBack(tokens: seq<Token>, i: nat, j: nat, on: bool)
    requires i < j <= |tokens|
    requires ImplementsWatchReaches(tokens, i + 1, j,
      tokens[i].code == Implements || (on && tokens[i].code != OpenCurly && tokens[i] != DeferrableProviderName))
    ensures ImplementsWatchReaches(tokens, i, j, on)
  {
    if exists k :: i + 1 <= k < j && k < |tokens| && tokens[k].code == Implements && NoOpenCurly(tokens, k + 1, j) {
      var k :| i + 1 <= k < j && k < |tokens| && tokens[k].code == Implements && NoOpenCurly(tokens, k + 1, j);
      assert i <= k;
    } else if tokens[i].code == Implements {
      assert NoOpenCurly(tokens, i + 1, j);
    } else {
      assert on && NoOpenCurly(tokens, i, j);
    }
  }

  /** One token back, for the `$defer` watch. */
  lemma DeferWatchBack(tokens: seq<Token>, i: nat, j: nat, on: bool)
    requires i < j <= |tokens|
    requires DeferWatchReaches(tokens, i + 1, j,
      tokens[i] == DeferVariable || (on && tokens[i].code != True && tokens[i].code != False))
    ensures DeferWatchReaches(tokens, i, j, on)
  {
    if exists k :: i + 1 <= k < j && k < |tokens| && tokens[k] == DeferVariable && NoBoolean(tokens, k + 1, j) {
      var k :| i + 1 <= k < j && k < |tokens| && tokens[k] == DeferVariable && NoBoolean(tokens, k + 1, j);
      assert i <= k;
    } else if tokens[i] == DeferVariable {
      assert NoBoolean(tokens, i + 1, j);
    } else {
      assert on && NoBoolean(tokens, i, j);
    }
  }

  /** A pass that turns the deferred status true meets, at some `j`, either
      the identifier `DeferrableProvider` while the `implements` watch is on
      (an `implements` before it with no `{` in between, or the watch on from
      the start with no `{` since), or a `true` literal while the `$defer`
      watch is on (a `$defer` before it with no boolean in between, or the
      watch on from the start with no boolean since). */
  lemma {:induction false} DeferredNeedsMarker(st: ScanState, tokens: seq<Token>, i: nat)
    requires i <= |tokens|
    requires st.deferred != Some(true)
    requires Pass(st, tokens, i).deferred == Some(true)
    ensures exists j :: i <= j < |tokens| && WatchedMarker(tokens, i, j, st.fields)
    decreases |tokens| - i
  {
    PassKeepsDecisions(st, tokens, i);
    assert i < |tokens| && st.deferred.None?;
    var c := Classify(st, tokens, i);
    var p := if st.provider.None? then ProviderVerdict(st.fields, tokens[i]) else Judged(st.provider, st.fields);
    var v := DeferredVerdict(p.after, tokens[i]);
    assert c.deferred == v.status && c.fields == v.after;
    if c.deferred == Some(true) {
      assert WatchedMarker(tokens, i, i, st.fields);
    } else {
      assert !Disqualified(c) by {
        PassKeepsDecisions(c, tokens, i);
      }
      var next := c.(fields := Extract(c.fields, tokens, i));
      ExtractKeepsWatches(c.fields, tokens, i);
      DeferredNeedsMarker(next, tokens, i + 1);
      var j :| i + 1 <= j < |tokens| && WatchedMarker(tokens, i + 1, j, next.fields);
      assert next.fields.checkingForDeferrableProvider == v.after.checkingForDeferrableProvider;
      assert next.fields.checkingForDeferredValue == v.after.checkingForDeferredValue;
      if tokens[j] == DeferrableProviderName &&
         ImplementsWatchReaches(tokens, i + 1, j, next.fields.checkingForDeferrableProvider) {
        ImplementsWatchBack(tokens, i, j, st.fields.checkingForDeferrableProvider);
      } else {
        DeferWatchBack(tokens, i, j, st.fields.checkingForDeferredValue);
      }
      assert WatchedMarker(tokens, i, j, st.fields);
    }
  }

  /** A report is never empty for a file without the identifier
      `ServiceProvider`, nor for one without `DeferrableProvider` and without
      a `true` literal. */
  lemma ReportNeedsMarkers(f: Fields, tokens: seq<Token>)
    requires Report(f, tokens) != []
    ensures exists j :: 0 <= j < |tokens| && tokens[j] == ServiceProviderName
    ensures exists j :: 0 <= j < |tokens| && (tokens[j] == Token(String, "DeferrableProvider") || tokens[j].code == True)
  {
    ProviderNeedsExtends(ScanState(None, None, f), tokens, 0);
    DeferredNeedsMarker(ScanState(None, None, f), tokens, 0);
    var j :| 0 <= j < |tokens| && WatchedMarker(tokens, 0, j, f);
  }

  /** For a sniff whose `extends` watch is off (a new sniff), a report needs
      an `extends` followed later by the identifier `ServiceProvider`. */
  lemma FreshReportNeedsExtends(f: Fields, tokens: seq<Token>)
    requires !f.checkingForServiceProvider
    requires Report(f, tokens) != []
    ensures exists k, j :: 0 <= k < j < |tokens| && tokens[k].code == Extends && tokens[j] == ServiceProviderName
  {
    ProviderNeedsExtends(ScanState(None, None, f), tokens, 0);
  }

  /** Every entry of a capture map holds the name resolved at its own key. */
  ghost predicate Sound(a: PhpArray, tokens: seq<Token>)
  {
    forall e :: e in a ==> e.key < |tokens| && CapturedAt(tokens, e.key) == Some(e.value)
  }

  /** Both capture maps are sound. */
  ghost predicate SoundFields(f: Fields, tokens: seq<Token>)
  {
    Sound(f.boundClasses, tokens) && Sound(f.providesClasses, tokens)
  }

  /** A capture site adds at most the entry for its own index, holding the
      name resolved there, and keeps every entry under another index. */
  lemma CaptureContents(a: PhpArray, tokens: seq<Token>, i: nat)
    requires i < |tokens|
    ensures forall e :: e in CaptureInto(a, tokens, i) ==> e in a || (e.key == i && Some(e.value) == CapturedAt(tokens, i))
    ensures forall e :: e in a && e.key != i ==> e in CaptureInto(a, tokens, i)
    ensures CapturedAt(tokens, i).Some? ==> Entry(i, CapturedAt(tokens, i).value) in CaptureInto(a, tokens, i)
  {
    if CapturedAt(tokens, i).Some? {
      AssignContents(a, i, CapturedAt(tokens, i).value);
    }
  }

  /** Storing the name resolved at `i` keeps a map sound. */
  lemma CaptureKeepsSound(a: PhpArray, tokens: seq<Token>, i: nat)
    requires i < |tokens|
    requires Sound(a, tokens)
    ensures Sound(CaptureInto(a, tokens, i), tokens)
  {
    CaptureContents(a, tokens, i);
  }

  /** The `$bindings` walk only stores array keys at or after its start,
      each with the name resolved at that key, and keeps every entry it had. */
  lemma {:induction false} ExtractBindingsSound(tokens: seq<Token>, j: nat, bound: PhpArray)
    requires Sound(bound, tokens)
    ensures Sound(ExtractBindings(tokens, j, bound), tokens)
    ensures forall e :: e in ExtractBindings(tokens, j, bound) ==>
      e in bound || (j <= e.key && IsClassNameArrayIndex(tokens, e.key))
    decreases |tokens| - j
  {
    if j < |tokens| && tokens[j].code != CloseShortArray {
      var bound' := if IsClassNameArrayIndex(tokens, j) then CaptureInto(bound, tokens, j) else bound;
      if IsClassNameArrayIndex(tokens, j) {
        CaptureKeepsSound(bound, tokens, j);
        CaptureContents(bound, tokens, j);
      }
      ExtractBindingsSound(tokens, j + 1, bound');
    }
  }

  /** Entries stored under keys the extractor has already passed stay. */
  lemma {:induction false} ExtractBindingsKeepsEarlier(tokens: seq<Token>, j: nat, bound: PhpArray, e: Entry)
    requires e in bound && e.key < j
    ensures e in ExtractBindings(tokens, j, bound)
    decreases |tokens| - j
  {
    if j < |tokens| && tokens[j].code != CloseShortArray {
      var bound' := if IsClassNameArrayIndex(tokens, j) then CaptureInto(bound, tokens, j) else bound;
      if IsClassNameArrayIndex(tokens, j) {
        CaptureContents(bound, tokens, j);
      }
      ExtractBindingsKeepsEarlier(tokens, j + 1, bound', e);
    }
  }

  /** Every resolvable array key before the first `]` is stored under its own
      index: the extractor misses no key of the `$bindings` array. */
  lemma {:induction false} ExtractBindingsComplete(tokens: seq<Token>, j: nat, bound: PhpArray, k: nat)
    requires j <= k < |tokens|
    requires forall m :: j <= m <= k ==> tokens[m].code != CloseShortArray
    requires IsClassNameArrayIndex(tokens, k) && CapturedAt(tokens, k).Some?
    ensures Entry(k, CapturedAt(tokens, k).value) in ExtractBindings(tokens, j, bound)
    decreases k - j
  {
    var bound' := if IsClassNameArrayIndex(tokens, j) then CaptureInto(bound, tokens, j) else bound;
    assert ExtractBindings(tokens, j, bound) == ExtractBindings(tokens, j + 1, bound');
    if j == k {
      CaptureContents(bound, tokens, k);
      ExtractBindingsKeepsEarlier(tokens, j + 1, bound', Entry(k, CapturedAt(tokens, k).value));
    } else {
      ExtractBindingsComplete(tokens, j + 1, bound', k);
    }
  }

  /** Nothing at or after the first `]` is stored. */
  lemma {:induction false} ExtractBindingsStopsAtClose(tokens: seq<Token>, j: nat, bound: PhpArray, c: nat)
    requires j <= c < |tokens| && tokens[c].code == CloseShortArray
    ensures forall e :: e in ExtractBindings(tokens, j, bound) && e.key >= c ==> e in bound
    decreases c - j
  {
    if tokens[j].code != CloseShortArray {
      var bound' := if IsClassNameArrayIndex(tokens, j) then CaptureInto(bound, tokens, j) else bound;
      if IsClassNameArrayIndex(tokens, j) {
        CaptureContents(bound, tokens, j);
      }
      assert j < c;
      assert ExtractBindings(tokens, j, bound) == ExtractBindings(tokens, j + 1, bound');
      ExtractBindingsStopsAtClose(tokens, j + 1, bound', c);
    }
  }

  /** A `$bindings` array with exactly one resolvable key before its `]`
      yields exactly that key's entry. */
  lemma ExtractBindingsSingleKey(tokens: seq<Token>, j: nat, c: nat, k: nat)
    requires j <= k < c < |tokens| && tokens[c].code == CloseShortArray
    requires forall m :: j <= m <= k ==> tokens[m].code != CloseShortArray
    requires forall m :: j <= m < c && IsClassNameArrayIndex(tokens, m) ==> m == k
    requires IsClassNameArrayIndex(tokens, k) && CapturedAt(tokens, k).Some?
    ensures forall e :: e in ExtractBindings(tokens, j, []) <==> e == Entry(k, CapturedAt(tokens, k).value)
  {
    ExtractBindingsSound(tokens, j, []);
    ExtractBindingsStopsAtClose(tokens, j, [], c);
    ExtractBindingsComplete(tokens, j, [], k);
  }

  /** `handleBind` keeps the bound map sound. */
  lemma BindKeepsSound(f: Fields, tokens: seq<Token>, i: nat)
    requires i < |tokens|
    requires Sound(f.boundClasses, tokens)
    ensures Sound(BindStep(f, tokens, i).boundClasses, tokens)
  {
    CaptureKeepsSound(f.boundClasses, tokens, i);
  }

  /** `handleProvides` keeps the provides map sound. */
  lemma ProvidesKeepsSound(f: Fields, tokens: seq<Token>, i: nat)
    requires i < |tokens|
    requires Sound(f.providesClasses, tokens)
    ensures Sound(ProvidesStep(f, tokens, i).providesClasses, tokens)
  {
    if f.inProvides || tokens[i].content == "provides" {
      var captured := if f.inProvidesReturnArray then CaptureInto(f.providesClasses, tokens, i) else f.providesClasses;
      CaptureKeepsSound(f.providesClasses, tokens, i);
      assert ProvidesStep(f, tokens, i) == TrackProvides(f.(inProvides := true, providesClasses := captured), tokens[i].code);
    }
  }

  /** One token's handlers keep both capture maps sound. */
  lemma ExtractKeepsSound(f: Fields, tokens: seq<Token>, i: nat)
    requires i < |tokens|
    requires SoundFields(f, tokens)
    ensures SoundFields(Extract(f, tokens, i), tokens)
  {
    var b := BindStep(f, tokens, i);
    BindKeepsSound(f, tokens, i);
    var g := BindingsPropertyStep(b, tokens, i);
    ExtractBindingsSound(tokens, i, b.boundClasses);
    assert SoundFields(g, tokens);
    ProvidesKeepsSound(g, tokens, i);
  }

  /** The whole pass keeps both capture maps sound. */
  lemma {:induction false} PassKeepsSound(st: ScanState, tokens: seq<Token>, i: nat)
    requires i <= |tokens|
    requires SoundFields(st.fields, tokens)
    ensures SoundFields(Pass(st, tokens, i).fields, tokens)
    decreases |tokens| - i
  {
    if i < |tokens| {
      var c := Classify(st, tokens, i);
      assert c.fields.boundClasses == st.fields.boundClasses;
      assert c.fields.providesClasses == st.fields.providesClasses;
      if !Disqualified(c) {
        ExtractKeepsSound(c.fields, tokens, i);
        PassKeepsSound(c.(fields := Extract(c.fields, tokens, i)), tokens, i + 1);
      }
    }
  }

  /** A message determines the name it quotes. */
  lemma MessageInjective(prefix: string, v: string, w: string)
    requires Message(prefix, v) == Message(prefix, w)
    ensures v == w
  {
    var m := Message(prefix, v);
    assert m[|prefix|..|m| - 1] == v;
    assert Message(prefix, w)[|prefix|..|m| - 1] == w;
  }

  /** The two messages never coincide: they differ at their seventh character. */
  lemma MessagesDiffer(v: string, w: string)
    ensures Message(UnboundPrefix, v) != Message(NotProvidedPrefix, w)
  {
    assert Message(UnboundPrefix, v)[6] == 'u';
    assert Message(NotProvidedPrefix, w)[6] == 'b';
  }

  /** The errors for a list of entries are exactly one per entry. */
  lemma ErrorsForMembership(entries: PhpArray, prefix: string, k: nat, v: string)
    ensures Error(k, Message(prefix, v), "Found") in ErrorsFor(entries, prefix) <==> Entry(k, v) in entries
  {
    var errs := ErrorsFor(entries, prefix);
    if Error(k, Message(prefix, v), "Found") in errs {
      var n :| 0 <= n < |errs| && errs[n] == Error(k, Message(prefix, v), "Found");
      MessageInjective(prefix, entries[n].value, v);
      assert entries[n] == Entry(k, v);
    }
    if Entry(k, v) in entries {
      var n :| 0 <= n < |entries| && entries[n] == Entry(k, v);
      assert errs[n] == Error(k, Message(prefix, v), "Found");
    }
  }

  /** `handleErrors` reports a provided name under its index exactly when no
      bound name equals it, and a bound name exactly when no provided name
      equals it. */
  lemma ReconcileMembership(bound: PhpArray, provided: PhpArray, k: nat, v: string)
    ensures Error(k, Message(UnboundPrefix, v), "Found") in Reconcile(bound, provided) <==>
      Entry(k, v) in provided && v !in Values(bound)
    ensures Error(k, Message(NotProvidedPrefix, v), "Found") in Reconcile(bound, provided) <==>
      Entry(k, v) in bound && v !in Values(provided)
  {
    var unbound := ErrorsFor(Diff(provided, bound), UnboundPrefix);
    var notProvided := ErrorsFor(Diff(bound, provided), NotProvidedPrefix);
    DiffContents(provided, bound);
    DiffContents(bound, provided);
    ErrorsForMembership(Diff(provided, bound), UnboundPrefix, k, v);
    ErrorsForMembership(Diff(bound, provided), NotProvidedPrefix, k, v);
    if Error(k, Message(UnboundPrefix, v), "Found") in notProvided {
      var n :| 0 <= n < |notProvided| && notProvided[n] == Error(k, Message(UnboundPrefix, v), "Found");
      MessagesDiffer(v, Diff(bound, provided)[n].value);
    }
    if Error(k, Message(NotProvidedPrefix, v), "Found") in unbound {
      var n :| 0 <= n < |unbound| && unbound[n] == Error(k, Message(NotProvidedPrefix, v), "Found");
      MessagesDiffer(Diff(provided, bound)[n].value, v);
    }
  }

  /** Every error of `handleErrors` comes from an entry of one map whose
      value the other map lacks. */
  lemma ReconcileShape(bound: PhpArray, provided: PhpArray, err: Error)
    requires err in Reconcile(bound, provided)
    ensures err.code == "Found"
    ensures (exists v :: Entry(err.index, v) in provided && v !in Values(bound) && err.message == Message(UnboundPrefix, v)) ||
            (exists v :: Entry(err.index, v) in bound && v !in Values(provided) && err.message == Message(NotProvidedPrefix, v))
  {
    var unbound := ErrorsFor(Diff(provided, bound), UnboundPrefix);
    var notProvided := ErrorsFor(Diff(bound, provided), NotProvidedPrefix);
    DiffContents(provided, bound);
    DiffContents(bound, provided);
    if err in unbound {
      var n :| 0 <= n < |unbound| && unbound[n] == err;
      assert Diff(provided, bound)[n] in Diff(provided, bound);
    } else {
      assert err in notProvided;
      var n :| 0 <= n < |notProvided| && notProvided[n] == err;
      assert Diff(bound, provided)[n] in Diff(bound, provided);
    }
  }

  /** `handleErrors` reports nothing exactly when both maps hold the same names. */
  lemma ReconcileEmptyIff(bound: PhpArray, provided: PhpArray)
    ensures Reconcile(bound, provided) == [] <==> Values(bound) == Values(provided)
  {
    DiffEmptyIff(provided, bound);
    DiffEmptyIff(bound, provided);
    assert |ErrorsFor(Diff(provided, bound), UnboundPrefix)| == |Diff(provided, bound)|;
    assert |ErrorsFor(Diff(bound, provided), NotProvidedPrefix)| == |Diff(bound, provided)|;
  }

  /** For a sniff holding no captures (new, or after `reset`), every reported
      error is anchored at a token that resolves to a class name, and its
      message quotes that name as unbound or as not provided. */
  lemma ReportAnchored(f: Fields, tokens: seq<Token>, err: Error)
    requires f.boundClasses == [] && f.providesClasses == []
    requires err in Report(f, tokens)
    ensures err.code == "Found" && err.index < |tokens| && CapturedAt(tokens, err.index).Some?
    ensures err.message == Message(UnboundPrefix, CapturedAt(tokens, err.index).value) ||
            err.message == Message(NotProvidedPrefix, CapturedAt(tokens, err.index).value)
  {
    var s := Run(f, tokens);
    PassKeepsSound(ScanState(None, None, f), tokens, 0);
    ReconcileShape(s.fields.boundClasses, s.fields.providesClasses, err);
  }
}
