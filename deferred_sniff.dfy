/**
 * DeferredProvidersSniff as the object PHP_CodeSniffer holds: its instance
 * fields are updated token by token while `Process` makes one forward pass
 * over a file's tokens. Every method is proved to do exactly what the
 * corresponding function of DeferredScan says.
 */
module DeferredSniff {
  import opened Tokens
  import opened PhpArrays
  import opened ClassNames
  import opened DeferredScan

  class DeferredProvidersSniff {
    var inBindOrSingleton: bool
    var inProvides: bool
    var inProvidesReturnArray: bool
    var boundClasses: PhpArray
    var providesClasses: PhpArray
    var providesOpenCurlyBrackets: int
    var checkingForServiceProvider: bool
    var checkingForDeferredValue: bool
    var checkingForDeferrableProvider: bool

    /** The fields as one value. */
    function Snapshot(): Fields
      reads this
    {
      Fields(inBindOrSingleton, inProvides, inProvidesReturnArray, boundClasses, providesClasses,
             providesOpenCurlyBrackets, checkingForServiceProvider, checkingForDeferredValue,
             checkingForDeferrableProvider)
    }

    constructor ()
      ensures Snapshot() == Initial
    {
      inBindOrSingleton, inProvides, inProvidesReturnArray := false, false, false;
      boundClasses, providesClasses := [], [];
      providesOpenCurlyBrackets := 0;
      checkingForServiceProvider, checkingForDeferredValue, checkingForDeferrableProvider := false, false, false;
    }

    /** `process`: one pass over the file's tokens, the errors when the class
        is a deferred service provider, then `reset`, on every path. */
    method Process(tokens: seq<Token>) returns (errors: seq<Error>)
      modifies this
      ensures errors == Report(old(Snapshot()), tokens)
      ensures Snapshot() == ResetFields(Run(old(Snapshot()), tokens).fields)
    {
      var isServiceProvider: Option<bool> := None;
      var isDeferred: Option<bool> := None;
      ghost var st := ScanState(None, None, Snapshot());
      ghost var final := Pass(st, tokens, 0);
      var index := 0;
      while index < |tokens|
        invariant index <= |tokens|
        invariant st == ScanState(isServiceProvider, isDeferred, Snapshot())
        invariant Pass(st, tokens, index) == final
      {
        isServiceProvider, isDeferred := ClassifyToken(index, tokens, isServiceProvider, isDeferred);
        ghost var classified := ScanState(isServiceProvider, isDeferred, Snapshot());
        if isServiceProvider == Some(false) || isDeferred == Some(false) {
          st := classified;
          break;
        }
        ExtractFromToken(index, tokens);
        ghost var next := ScanState(isServiceProvider, isDeferred, Snapshot());
        Advance(st, tokens, index, next);
        st := next;
        index := index + 1;
      }
      assert st == final;
      errors := [];
      if isServiceProvider == Some(true) && isDeferred == Some(true) {
        errors := HandleErrors();
      }
      Reset();
    }

    /** The head of the loop body of `process`: each status that is still
        null is asked again, the provider question first. */
    method ClassifyToken(index: nat, tokens: seq<Token>, provider: Option<bool>, deferred: Option<bool>)
      returns (provider': Option<bool>, deferred': Option<bool>)
      requires index < |tokens|
      modifies this
      ensures ScanState(provider', deferred', Snapshot()) ==
        Classify(ScanState(provider, deferred, old(Snapshot())), tokens, index)
    {
      provider', deferred' := provider, deferred;
      if provider'.None? {
        provider' := IsServiceProvider(index, tokens);
      }
      if deferred'.None? {
        deferred' := IsDeferred(index, tokens);
      }
    }

    /** The rest of the loop body: the three extractors, in order. */
    method ExtractFromToken(index: nat, tokens: seq<Token>)
      requires index < |tokens|
      modifies this
      ensures Snapshot() == Extract(old(Snapshot()), tokens, index)
    {
      HandleBind(index, tokens);
      HandleBindingsProperty(index, tokens);
      HandleProvides(index, tokens);
    }

    /** `isServiceProvider`. */
    method IsServiceProvider(index: nat, tokens: seq<Token>) returns (status: Option<bool>)
      requires index < |tokens|
      modifies this
      ensures Judged(status, Snapshot()) == ProviderVerdict(old(Snapshot()), tokens[index])
    {
      if tokens[index].code == Extends {
        checkingForServiceProvider := true;
        return None;
      }
      if checkingForServiceProvider {
        if tokens[index].code == OpenCurly || tokens[index].code == Implements {
          checkingForServiceProvider := false;
          return Some(false);
        }
        if tokens[index].code == String && tokens[index].content == "ServiceProvider" {
          checkingForServiceProvider := false;
          return Some(true);
        }
      }
      return None;
    }

    /** `isDeferred`. */
    method IsDeferred(index: nat, tokens: seq<Token>) returns (status: Option<bool>)
      requires index < |tokens|
      modifies this
      ensures Judged(status, Snapshot()) == DeferredVerdict(old(Snapshot()), tokens[index])
    {
      if tokens[index].code == Implements {
        checkingForDeferrableProvider := true;
        return None;
      }
      if tokens[index].code == Variable && tokens[index].content == "$defer" {
        checkingForDeferredValue := true;
        return None;
      }
      if checkingForDeferrableProvider {
        if tokens[index].code == OpenCurly {
          checkingForDeferrableProvider := false;
          return None;
        }
        if tokens[index].code == String && tokens[index].content == "DeferrableProvider" {
          checkingForDeferrableProvider := false;
          return Some(true);
        }
      }
      if checkingForDeferredValue {
        if tokens[index].code == True {
          checkingForDeferredValue := false;
          return Some(true);
        } else if tokens[index].code == False {
          checkingForDeferredValue := false;
          return Some(false);
        }
      }
      return None;
    }

    /** `handleBindingsProperty`. */
    method HandleBindingsProperty(index: nat, tokens: seq<Token>)
      requires index < |tokens|
      modifies this
      ensures Snapshot() == BindingsPropertyStep(old(Snapshot()), tokens, index)
    {
      if tokens[index].code != Public {
        return;
      }
      var bindingsIndex := index + BindingsVariableOffset;
      if bindingsIndex >= |tokens| {
        return;
      }
      if tokens[bindingsIndex].code != Variable {
        return;
      }
      if tokens[bindingsIndex].content != "$bindings" {
        return;
      }
      ExtractServicesFromBindingsProperty(index, tokens);
    }

    /** `extractServicesFromBindingsProperty`: walks from `index` to the first
        `]`, storing every resolvable array key under its own index. The walk
        also stops at the end of the tokens. */
    method ExtractServicesFromBindingsProperty(index: nat, tokens: seq<Token>)
      modifies this
      ensures Snapshot() == old(Snapshot()).(boundClasses := ExtractBindings(tokens, index, old(boundClasses)))
    {
      var i := index;
      while i < |tokens| && tokens[i].code != CloseShortArray
        invariant index <= i
        invariant Snapshot() == old(Snapshot()).(boundClasses := boundClasses)
        invariant ExtractBindings(tokens, i, boundClasses) == ExtractBindings(tokens, index, old(boundClasses))
        decreases |tokens| - i
      {
        ghost var before := boundClasses;
        CaptureBindingKey(i, tokens);
        assert ExtractBindings(tokens, i, before) == ExtractBindings(tokens, i + 1, boundClasses);
        i := i + 1;
      }
    }

    /** The loop body of `extractServicesFromBindingsProperty`: a truthy
        name that is an array key is stored under its own index. */
    method CaptureBindingKey(i: nat, tokens: seq<Token>)
      requires i < |tokens|
      modifies this
      ensures Snapshot() == old(Snapshot()).(boundClasses :=
        if IsClassNameArrayIndex(tokens, i) then CaptureInto(old(boundClasses), tokens, i) else old(boundClasses))
    {
      var className := ClassNameAt(tokens, i);
      if className.Some? && Truthy(className.value) && IsClassNameArrayIndex(tokens, i) {
        boundClasses := Assign(boundClasses, i, TrimQuotes(className.value));
      }
    }

    /** `handleBind`. */
    method HandleBind(index: nat, tokens: seq<Token>)
      requires index < |tokens|
      modifies this
      ensures Snapshot() == BindStep(old(Snapshot()), tokens, index)
    {
      if tokens[index].content in BindingMethods {
        inBindOrSingleton := true;
      }
      if !inBindOrSingleton {
        return;
      }
      if tokens[index].code == Comma {
        inBindOrSingleton := false;
      } else {
        CaptureBound(index, tokens);
      }
    }

    /** The capture of `handleBind`: a truthy name is stored and disarms. */
    method CaptureBound(index: nat, tokens: seq<Token>)
      requires index < |tokens|
      requires inBindOrSingleton
      modifies this
      ensures Snapshot() == old(Snapshot()).(boundClasses := CaptureInto(old(boundClasses), tokens, index),
                                             inBindOrSingleton := CapturedAt(tokens, index).None?)
    {
      var className := ClassNameAt(tokens, index);
      if className.Some? && Truthy(className.value) {
        boundClasses := Assign(boundClasses, index, TrimQuotes(className.value));
        inBindOrSingleton := false;
      }
    }

    /** `handleProvides`. */
    method HandleProvides(index: nat, tokens: seq<Token>)
      requires index < |tokens|
      modifies this
      ensures Snapshot() == ProvidesStep(old(Snapshot()), tokens, index)
    {
      if tokens[index].content == "provides" {
        inProvides := true;
      }
      if !inProvides {
        return;
      }
      if inProvidesReturnArray {
        CaptureProvided(index, tokens);
      }
      TrackBrackets(tokens[index].code);
    }

    /** The capture of `handleProvides`. */
    method CaptureProvided(index: nat, tokens: seq<Token>)
      requires index < |tokens|
      modifies this
      ensures Snapshot() == old(Snapshot()).(providesClasses := CaptureInto(old(providesClasses), tokens, index))
    {
      var className := ClassNameAt(tokens, index);
      if className.Some? && Truthy(className.value) {
        providesClasses := Assign(providesClasses, index, TrimQuotes(className.value));
      }
    }

    /** The `switch` of `handleProvides`. */
    method TrackBrackets(code: TokenCode)
      modifies this
      ensures Snapshot() == TrackProvides(old(Snapshot()), code)
    {
      match code
      case OpenCurly => providesOpenCurlyBrackets := providesOpenCurlyBrackets + 1;
      case CloseCurly =>
        providesOpenCurlyBrackets := providesOpenCurlyBrackets - 1;
        if providesOpenCurlyBrackets == 0 {
          inProvides := false;
        }
      case OpenShortArray => inProvidesReturnArray := true;
      case Array => inProvidesReturnArray := true;
      case CloseShortArray => inProvidesReturnArray := false;
      case CloseParen => inProvidesReturnArray := false;
      case _ =>
    }

    /** `handleErrors`: one error per provides capture whose name is not
        bound, then one per bound capture whose name is not provided, each
        anchored at its capture's index. */
    method HandleErrors() returns (errors: seq<Error>)
      ensures errors == Reconcile(boundClasses, providesClasses)
    {
      var inProvidesOnly := Diff(providesClasses, boundClasses);
      var boundOnly := Diff(boundClasses, providesClasses);
      errors := AddErrors([], inProvidesOnly, UnboundPrefix);
      errors := AddErrors(errors, boundOnly, NotProvidedPrefix);
    }

    /** One of the two `foreach` loops of `handleErrors`: an error per entry,
        in order, appended to those already collected. */
    static method AddErrors(collected: seq<Error>, entries: PhpArray, prefix: string) returns (errors: seq<Error>)
      ensures errors == collected + ErrorsFor(entries, prefix)
    {
      errors := collected;
      for k := 0 to |entries|
        invariant errors == collected + ErrorsFor(entries[..k], prefix)
      {
        errors := errors + [Error(entries[k].key, Message(prefix, entries[k].value), "Found")];
        assert entries[..k + 1] == entries[..k] + [entries[k]];
      }
      assert entries[..|entries|] == entries;
    }

    /** `reset`, as written: the `extends` and `implements` watches are not
        cleared. */
    method Reset()
      modifies this
      ensures Snapshot() == ResetFields(old(Snapshot()))
    {
      inBindOrSingleton := false;
      inProvides := false;
      inProvidesReturnArray := false;
      boundClasses := [];
      providesClasses := [];
      providesOpenCurlyBrackets := 0;
      checkingForDeferredValue := false;
    }
  }
}
