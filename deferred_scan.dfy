/**
 * DeferredProvidersSniff as values: the sniff's instance fields as a record,
 * each per-token handler as a function from the fields before to the fields
 * after, the whole forward pass of `process` with its early break, the
 * reconciliation of `handleErrors` and the field values `reset` leaves.
 * The sniff class in DeferredSniff is proved to behave exactly like these.
 */
module DeferredScan {
  import opened Tokens
  import opened PhpArrays
  import opened ClassNames

  /** The sniff's instance fields. */
  datatype Fields = Fields(
    inBindOrSingleton: bool,
    inProvides: bool,
    inProvidesReturnArray: bool,
    boundClasses: PhpArray,
    providesClasses: PhpArray,
    providesOpenCurlyBrackets: int,
    checkingForServiceProvider: bool,
    checkingForDeferredValue: bool,
    checkingForDeferrableProvider: bool)

  /** The field initialisers of a newly constructed sniff. */
  const Initial := Fields(false, false, false, [], [], 0, false, false, false)

  /** A status answer (null, true or false) together with the fields after it. */
  datatype Judged = Judged(status: Option<bool>, after: Fields)

  /** `isServiceProvider`: `extends` starts watching; while watching, `{` or
      `implements` decides false and the identifier `ServiceProvider` decides
      true; any other token decides nothing. Only the watching flag changes. */
  function ProviderVerdict(f: Fields, t: Token): (r: Judged)
    ensures r.after == f.(checkingForServiceProvider := r.after.checkingForServiceProvider)
    ensures r.status == Some(true) <==>
      f.checkingForServiceProvider && t == Token(String, "ServiceProvider")
    ensures r.status == Some(false) <==>
      f.checkingForServiceProvider && (t.code == OpenCurly || t.code == Implements)
    ensures r.after.checkingForServiceProvider <==>
      t.code == Extends || (f.checkingForServiceProvider && r.status.None?)
  {
    if t.code == Extends then
      Judged(None, f.(checkingForServiceProvider := true))
    else if f.checkingForServiceProvider && (t.code == OpenCurly || t.code == Implements) then
      Judged(Some(false), f.(checkingForServiceProvider := false))
    else if f.checkingForServiceProvider && t.code == String && t.content == "ServiceProvider" then
      Judged(Some(true), f.(checkingForServiceProvider := false))
    else
      Judged(None, f)
  }

  /** `isDeferred`: `implements` watches for the identifier `DeferrableProvider`
      until `{` or that identifier; the variable `$defer` watches for the first
      boolean literal. Only the two watching flags change. */
  function DeferredVerdict(f: Fields, t: Token): (r: Judged)
    ensures r.after == f.(checkingForDeferrableProvider := r.after.checkingForDeferrableProvider,
                          checkingForDeferredValue := r.after.checkingForDeferredValue)
    ensures r.status == Some(true) <==>
      t.code != Implements && t != Token(Variable, "$defer") &&
      ((f.checkingForDeferrableProvider && t == Token(String, "DeferrableProvider")) ||
       (f.checkingForDeferredValue && t.code == True))
    ensures r.status == Some(false) <==>
      t.code != Implements && t != Token(Variable, "$defer") &&
      !(f.checkingForDeferrableProvider && t.code == OpenCurly) &&
      f.checkingForDeferredValue && t.code == False
    ensures r.after.checkingForDeferrableProvider <==>
      t.code == Implements || (f.checkingForDeferrableProvider && t.code != OpenCurly && t != Token(String, "DeferrableProvider"))
    ensures r.after.checkingForDeferredValue <==>
      t == Token(Variable, "$defer") || (f.checkingForDeferredValue && t.code != True && t.code != False)
  {
    if t.code == Implements then
      Judged(None, f.(checkingForDeferrableProvider := true))
    else if t.code == Variable && t.content == "$defer" then
      Judged(None, f.(checkingForDeferredValue := true))
    else if f.checkingForDeferrableProvider && t.code == OpenCurly then
      Judged(None, f.(checkingForDeferrableProvider := false))
    else if f.checkingForDeferrableProvider && t.code == String && t.content == "DeferrableProvider" then
      Judged(Some(true), f.(checkingForDeferrableProvider := false))
    else if f.checkingForDeferredValue && t.code == True then
      Judged(Some(true), f.(checkingForDeferredValue := false))
    else if f.checkingForDeferredValue && t.code == False then
      Judged(Some(false), f.(checkingForDeferredValue := false))
    else
      Judged(None, f)
  }

  /** A capture site: the name resolved at `i`, when truthy, stored under `i`. */
  function CaptureInto(a: PhpArray, tokens: seq<Token>, i: nat): (r: PhpArray)
    requires i < |tokens|
  {
    match CapturedAt(tokens, i)
    case Some(name) => Assign(a, i, name)
    case None => a
  }

  /** `handleBind`: a binding-method name arms the capture; while armed, a
      comma disarms without capturing, and otherwise the first resolvable class
      name is stored under its own index and disarms. */
  function BindStep(f: Fields, tokens: seq<Token>, i: nat): (g: Fields)
    requires i < |tokens|
    ensures g == f.(inBindOrSingleton := g.inBindOrSingleton, boundClasses := g.boundClasses)
  {
    var armed := f.inBindOrSingleton || tokens[i].content in BindingMethods;
    if !armed then f
    else if tokens[i].code == Comma then f.(inBindOrSingleton := false)
    else f.(boundClasses := CaptureInto(f.boundClasses, tokens, i), inBindOrSingleton := CapturedAt(tokens, i).None?)
  }

  /** `extractServicesFromBindingsProperty` from index `j` on: every resolvable
      name up to the first `]` (or the end of the list) that is an array key is
      stored under its own index. */
  function ExtractBindings(tokens: seq<Token>, j: nat, bound: PhpArray): (r: PhpArray)
    decreases |tokens| - j
  {
    if j >= |tokens| || tokens[j].code == CloseShortArray then bound
    else
      var bound' := if IsClassNameArrayIndex(tokens, j) then CaptureInto(bound, tokens, j) else bound;
      ExtractBindings(tokens, j + 1, bound')
  }

  /** The trigger of `handleBindingsProperty`: `public` whose token two
      places ahead is the variable `$bindings`. */
  predicate BindingsTrigger(tokens: seq<Token>, i: nat)
    requires i < |tokens|
  {
    tokens[i].code == Public && CodeAt(tokens, i + BindingsVariableOffset, Variable) &&
    tokens[i + BindingsVariableOffset].content == "$bindings"
  }

  /** `handleBindingsProperty`: on its trigger, the bound map becomes the
      result of the walk from the `public` token; elsewhere nothing changes. */
  function BindingsPropertyStep(f: Fields, tokens: seq<Token>, i: nat): (g: Fields)
    requires i < |tokens|
    ensures g == f.(boundClasses := g.boundClasses)
    ensures g != f ==> BindingsTrigger(tokens, i)
    ensures BindingsTrigger(tokens, i) ==> g.boundClasses == ExtractBindings(tokens, i, f.boundClasses)
  {
    if BindingsTrigger(tokens, i) then
      f.(boundClasses := ExtractBindings(tokens, i, f.boundClasses))
    else
      f
  }

  /** `handleProvides`: the text `provides` opens the region; inside it, a name
      is captured when the in-array flag was already set, then `{`/`}` move the
      depth (a `}` reaching 0 closes the region), `[`/`array` set the flag and
      `]`/`)` clear it. */
  function ProvidesStep(f: Fields, tokens: seq<Token>, i: nat): (g: Fields)
    requires i < |tokens|
  {
    if !f.inProvides && tokens[i].content != "provides" then f
    else
      var captured := if f.inProvidesReturnArray then CaptureInto(f.providesClasses, tokens, i) else f.providesClasses;
      TrackProvides(f.(inProvides := true, providesClasses := captured), tokens[i].code)
  }

  /** The `switch` of `handleProvides`: brace depth and the in-array flag. */
  function TrackProvides(g: Fields, code: TokenCode): (r: Fields)
    ensures r == g.(providesOpenCurlyBrackets := r.providesOpenCurlyBrackets, inProvides := r.inProvides,
                    inProvidesReturnArray := r.inProvidesReturnArray)
    ensures r.providesOpenCurlyBrackets ==
      g.providesOpenCurlyBrackets + (if code == OpenCurly then 1 else if code == CloseCurly then -1 else 0)
    ensures (code == OpenShortArray || code == Array) ==> r.inProvidesReturnArray
    ensures (code == CloseShortArray || code == CloseParen) ==> !r.inProvidesReturnArray
    ensures code != OpenShortArray && code != Array && code != CloseShortArray && code != CloseParen ==>
      r.inProvidesReturnArray == g.inProvidesReturnArray
    ensures r.inProvides <==> g.inProvides && !(code == CloseCurly && g.providesOpenCurlyBrackets == 1)
  {
    match code
    case OpenCurly => g.(providesOpenCurlyBrackets := g.providesOpenCurlyBrackets + 1)
    case CloseCurly =>
      var depth := g.providesOpenCurlyBrackets - 1;
      g.(providesOpenCurlyBrackets := depth, inProvides := g.inProvides && depth != 0)
    case OpenShortArray => g.(inProvidesReturnArray := true)
    case Array => g.(inProvidesReturnArray := true)
    case CloseShortArray => g.(inProvidesReturnArray := false)
    case CloseParen => g.(inProvidesReturnArray := false)
    case _ => g
  }

  /** The three extractors, in the order `process` calls them. */
  function Extract(f: Fields, tokens: seq<Token>, i: nat): Fields
    requires i < |tokens|
  {
    ProvidesStep(BindingsPropertyStep(BindStep(f, tokens, i), tokens, i), tokens, i)
  }

  /** The two local statuses of `process` and the sniff's fields. */
  datatype ScanState = ScanState(provider: Option<bool>, deferred: Option<bool>, fields: Fields)

  /** The classification at token `i`: each status is recomputed only while
      it is still null, the provider question first. */
  function Classify(st: ScanState, tokens: seq<Token>, i: nat): (r: ScanState)
    requires i < |tokens|
  {
    var p := if st.provider.None? then ProviderVerdict(st.fields, tokens[i]) else Judged(st.provider, st.fields);
    var d := if st.deferred.None? then DeferredVerdict(p.after, tokens[i]) else Judged(st.deferred, p.after);
    ScanState(p.status, d.status, d.after)
  }

  /** Either status is `=== false`: the loop breaks. */
  predicate Disqualified(st: ScanState)
  {
    st.provider == Some(false) || st.deferred == Some(false)
  }

  /** The `foreach` of `process` from token `i` on: classify, break when
      disqualified (that token reaches no extractor), else extract and go on. */
  function Pass(st: ScanState, tokens: seq<Token>, i: nat): ScanState
    requires i <= |tokens|
    decreases |tokens| - i
  {
    if i == |tokens| then st
    else
      var c := Classify(st, tokens, i);
      if Disqualified(c) then c
      else Pass(c.(fields := Extract(c.fields, tokens, i)), tokens, i + 1)
  }

  /** One step of the pass that does not break. */
  lemma Advance(st: ScanState, tokens: seq<Token>, i: nat, next: ScanState)
    requires i < |tokens|
    requires !Disqualified(Classify(st, tokens, i))
    requires next == Classify(st, tokens, i).(fields := Extract(Classify(st, tokens, i).fields, tokens, i))
    ensures Pass(st, tokens, i) == Pass(next, tokens, i + 1)
  {
  }

  /** The whole pass of one `process` call over a file, from the fields the
      sniff holds when it is called. */
  function Run(f: Fields, tokens: seq<Token>): ScanState
  {
    Pass(ScanState(None, None, f), tokens, 0)
  }

  const UnboundPrefix := "Found unbound class in provides \""
  const NotProvidedPrefix := "Found bound class not in provides \""

  /** The message for a name, the prefix and a closing double quote around it. */
  function Message(prefix: string, name: string): string
  {
    prefix + name + "\""
  }

  /** One error per entry, at the entry's index, with code `Found`. */
  function ErrorsFor(entries: PhpArray, prefix: string): (errs: seq<Error>)
  {
    seq(|entries|, k requires 0 <= k < |entries| =>
      Error(entries[k].key, Message(prefix, entries[k].value), "Found"))
  }

  /** `handleErrors`: an error for every provides capture whose name is not
      bound, then one for every bound capture whose name is not provided. */
  function Reconcile(bound: PhpArray, provided: PhpArray): seq<Error>
  {
    ErrorsFor(Diff(provided, bound), UnboundPrefix) + ErrorsFor(Diff(bound, provided), NotProvidedPrefix)
  }

  /** What one `process` call reports: the reconciliation, when the pass ended
      with both statuses true; nothing otherwise. */
  function Report(f: Fields, tokens: seq<Token>): seq<Error>
  {
    var s := Run(f, tokens);
    if s.provider == Some(true) && s.deferred == Some(true)
    then Reconcile(s.fields.boundClasses, s.fields.providesClasses)
    else []
  }

  /** `reset`: clears the maps, the bind and provides flags, the depth and
      the `$defer` watch; the `extends` and `implements` watches are kept. */
  function ResetFields(f: Fields): (g: Fields)
  {
    f.(inBindOrSingleton := false, inProvides := false, inProvidesReturnArray := false,
       boundClasses := [], providesClasses := [], providesOpenCurlyBrackets := 0,
       checkingForDeferredValue := false)
  }
}
