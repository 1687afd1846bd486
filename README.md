# Laravel coding-standard sniffs, modelled in Dafny

This project models two PHP_CodeSniffer sniffs of the DealerInspire Laravel
coding standard and proves what they report.

**DeferredProvidersSniff** checks deferred Laravel service providers. A
provider is deferred either by `protected $defer = true` or by implementing
`DeferrableProvider`. The sniff makes one forward pass over a file's tokens:

- A classifier answers two questions: is the class a `ServiceProvider`, and
  is it deferred? Either answer being *false* ends the pass early.
- For every token the pass reaches, three extractors run in order:
  - `handleBind` collects the first class name after a container
    binding-method name (`bind`, `singleton`, ...).
  - `handleBindingsProperty` collects the array keys of a
    `public $bindings = [...]` property.
  - `handleProvides` collects the names in the array returned by
    `provides()`.
- When both answers are true, `handleErrors` reports every name present on
  one side and missing on the other.
- Finally `reset` clears the state.

PHP_CodeSniffer keeps one sniff object for a whole run, so whatever `reset`
leaves behind is seen by the next file.

**NoGuardedAttributesSniff** fires on every `protected` token. It looks at
the first variable token at or after it and reports that variable if it is
spelled `$guarded`.

Modules:

- `Tokens` (`tokens.dfy`): token kinds, token records, diagnostics and
  `findNext`.
- `PhpArrays` (`php_arrays.dfy`): the sniff's two capture maps are ordered
  PHP arrays.
  - Assigning to an existing key keeps that key's position; assigning to a
    new key appends it.
  - `array_diff` compares values as strings and keeps keys.
- `ClassNames` (`class_names.dfy`): the class-name resolver
  `getClassNameForIndex`, the `trim($name, "'")` applied at every capture
  site, PHP truthiness of the resolved name, and the fixed lookaheads (+2
  for `$bindings`, +4 for `=>`).
- `DeferredScan` (`deferred_scan.dfy`): the specification as values.
  - The nine instance fields form a record.
  - Each handler is a function from the fields before to the fields after.
  - `Pass` is the `foreach` of `process` with its `break`, `Reconcile` is
    `handleErrors`, and `ResetFields` is `reset`.
- `DeferredSniff` (`deferred_sniff.dfy`): the sniff as a class with the same
  nine fields.
  - Every method changes the fields in place, as the PHP does, and is
    proved to leave exactly the fields that its `DeferredScan` function
    computes.
  - `Process` returns the errors that `process` hands to `addError`.
- `DeferredFacts` (`deferred_facts.dfy`): what the sniff promises, proved
  for all inputs:
  - decisions are final;
  - a report needs the `ServiceProvider` and deferral markers;
  - each capture map holds only names resolved at their own token (and the
    `$bindings` walk misses no key before the first `]`);
  - an error is reported exactly for a name absent from the other side;
  - nothing is reported exactly when both sides hold the same names.
- `DeferredScenarios` (`deferred_scenarios.dfy`): whole token lists over
  symbolic class names:
  - a `$bindings` array whose key is captured and whose value is not;
  - a provider that lists its bound name in `provides()` (no report) and one
    that returns an empty array (one "not in provides" report);
  - what the state left by `reset` does to the next call (below).
- `NoGuardedAttributes` (`guarded.dfy`): `process` as a function returning
  at most one error, and `FileErrors`, which calls it on every `protected`
  token of a file.

**What `reset` keeps.** The comment above `reset`
(DeferredProvidersSniff.php:349-353) says that it restores every variable to
its default, so that one provider cannot affect the next. The code does not
do that. It never clears the `extends` watch (`checkingForServiceProvider`)
or the `implements` watch (`checkingForDeferrableProvider`). The model
follows the code, and two lemmas show the consequence:

- `ReentryReports`: the same file processed twice by one sniff reports
  nothing the first time and an error the second time.
- `WatchLeaksIntoNextFile`: a non-provider class that is rejected at its
  `implements` leaves the `implements` watch on. A later file that merely
  mentions `DeferrableProvider` (in a `use` line, say) is then judged
  deferred. Its bound class is reported, although a new sniff would report
  nothing for it.

## Model

Source paths: `DeferredProvidersSniff.php` is under
`DealerInspireLaravelCodingStandard/Sniffs/Providers/`, and
`NoGuardedAttributesSniff.php` is under
`DealerInspireLaravelCodingStandard/Sniffs/Models/`.

| member | source | states |
|---|---|---|
| Tokens.FindNext | DealerInspireLaravelCodingStandard/Sniffs/Models/NoGuardedAttributesSniff.php:37 | the answer is the first index at or after the start whose kind is in the set; None exactly when no such index exists |
| PhpArrays.AssignContents | DealerInspireLaravelCodingStandard/Sniffs/Providers/DeferredProvidersSniff.php:259 | `$a[$k] = $v` leaves `k => v` in the array, adds nothing else, and keeps every entry under another key |
| PhpArrays.AssignPlacement | DealerInspireLaravelCodingStandard/Sniffs/Providers/DeferredProvidersSniff.php:259 | a new key is appended at the end; overwriting an existing key keeps the array's length (its position is stated by `AssignInPlace`) |
| PhpArrays.AssignInPlace | DealerInspireLaravelCodingStandard/Sniffs/Providers/DeferredProvidersSniff.php:259 | overwriting an existing key (keys unique) keeps every position: the entry under that key now holds the new value and every other entry is unchanged |
| PhpArrays.AssignUnique | DealerInspireLaravelCodingStandard/Sniffs/Providers/DeferredProvidersSniff.php:225 | assignment keeps keys unique |
| PhpArrays.DiffContents | DealerInspireLaravelCodingStandard/Sniffs/Providers/DeferredProvidersSniff.php:335-336 | `array_diff(a, b)` holds exactly the entries of `a` (with their keys) whose value is no value of `b` |
| PhpArrays.DiffUnique | DealerInspireLaravelCodingStandard/Sniffs/Providers/DeferredProvidersSniff.php:335-336 | `array_diff` keeps keys unique |
| PhpArrays.DiffValues | DealerInspireLaravelCodingStandard/Sniffs/Providers/DeferredProvidersSniff.php:335-336 | the values of `array_diff(a, b)` are the values of `a` minus those of `b` |
| PhpArrays.DiffEmptyIff | DealerInspireLaravelCodingStandard/Sniffs/Providers/DeferredProvidersSniff.php:337-346 | `array_diff(a, b)` is empty exactly when every value of `a` is a value of `b` |
| ClassNames.TrimQuotes | DealerInspireLaravelCodingStandard/Sniffs/Providers/DeferredProvidersSniff.php:259 | `trim($s, "'")` yields a string that neither starts nor ends with a quote and is no longer than `s` |
| ClassNames.TrimLeftDropsQuotes | DealerInspireLaravelCodingStandard/Sniffs/Providers/DeferredProvidersSniff.php:259 | the leading characters `trim` drops are all quotes |
| ClassNames.TrimRightDropsQuotes | DealerInspireLaravelCodingStandard/Sniffs/Providers/DeferredProvidersSniff.php:259 | the trailing characters `trim` drops are all quotes |
| ClassNames.TrimQuotesOnlyQuotes | DealerInspireLaravelCodingStandard/Sniffs/Providers/DeferredProvidersSniff.php:259 | `trim($s, "'")` is a contiguous slice of `s`, and everything before and after that slice is a quote |
| ClassNames.TrimQuotesKeepsBare | DealerInspireLaravelCodingStandard/Sniffs/Providers/DeferredProvidersSniff.php:225 | a name without a quote at either end (a `Foo::class` spelling) is stored unchanged |
| ClassNames.TrimQuotesUnquotes | DealerInspireLaravelCodingStandard/Sniffs/Providers/DeferredProvidersSniff.php:282 | a quoted literal `'body'` is stored as `body` |
| ClassNames.TrimQuotesIdempotent | DealerInspireLaravelCodingStandard/Sniffs/Providers/DeferredProvidersSniff.php:259 | trimming twice is trimming once |
| ClassNames.ClassNameAt | DealerInspireLaravelCodingStandard/Sniffs/Providers/DeferredProvidersSniff.php:313-325 | a name is resolved exactly for an identifier followed by `::` or a string literal; a literal resolves to its raw text; a resolved name starts with the token's own text |
| ClassNames.CapturedAt | DealerInspireLaravelCodingStandard/Sniffs/Providers/DeferredProvidersSniff.php:258-259 | a capture happens exactly when the resolved name is truthy (not "" or "0"), and it stores the trimmed name |
| ClassNames.ClassConstantName | DealerInspireLaravelCodingStandard/Sniffs/Providers/DeferredProvidersSniff.php:315-318 | for any identifier `X`, `X :: class` resolves to `X::class` |
| ClassNames.ThirdTokenUnchecked | DealerInspireLaravelCodingStandard/Sniffs/Providers/DeferredProvidersSniff.php:315-318 | the token after `::` is not checked to be `class`, and a missing one reads as empty text |
| DeferredScan.ProviderVerdict | DealerInspireLaravelCodingStandard/Sniffs/Providers/DeferredProvidersSniff.php:129-149 | true exactly for the identifier `ServiceProvider` while watching; false exactly for `{` or `implements` while watching; the watch is on after the call exactly after `extends` or while still undecided; no other field changes |
| DeferredScan.DeferredVerdict | DealerInspireLaravelCodingStandard/Sniffs/Providers/DeferredProvidersSniff.php:158-193 | true exactly for `DeferrableProvider` while the `implements` watch is on or for `true` while the `$defer` watch is on (neither on an `implements` or `$defer` token); false exactly for `false` while the `$defer` watch is on (and not `{` under the `implements` watch); the `implements` watch is on afterwards exactly after `implements`, or when it was on and the token is neither `{` nor `DeferrableProvider`; the `$defer` watch is on afterwards exactly after `$defer`, or when it was on and the token is no boolean; only the two watches change |
| DeferredScan.BindStep | DealerInspireLaravelCodingStandard/Sniffs/Providers/DeferredProvidersSniff.php:244-262 | `handleBind` changes only the bind flag and the bound map |
| DeferredScan.BindingsPropertyStep | DealerInspireLaravelCodingStandard/Sniffs/Providers/DeferredProvidersSniff.php:195-217 | `handleBindingsProperty` changes only the bound map; it changes anything only on a `public` token with the variable `$bindings` two places on, and on such a token the bound map becomes the result of the `$bindings` walk from that token |
| DeferredScan.TrackProvides | DealerInspireLaravelCodingStandard/Sniffs/Providers/DeferredProvidersSniff.php:285-303 | the `switch`: `{` adds one to the depth and `}` takes one away; `[` and `array` set the in-array flag, `]` and `)` clear it, any other token keeps it; the region stays open exactly unless it was closed or the token is `}` at depth 1; no other field changes |
| DeferredSniff.DeferredProvidersSniff.constructor | DealerInspireLaravelCodingStandard/Sniffs/Providers/DeferredProvidersSniff.php:28-73 | a new sniff holds the field initialisers |
| DeferredSniff.DeferredProvidersSniff.Process | DealerInspireLaravelCodingStandard/Sniffs/Providers/DeferredProvidersSniff.php:93-120 | the errors are those of the whole pass from the current fields (the reconciliation when both answers are true, none otherwise), and the fields end as `reset` leaves the fields after the pass |
| DeferredSniff.DeferredProvidersSniff.ClassifyToken | DealerInspireLaravelCodingStandard/Sniffs/Providers/DeferredProvidersSniff.php:99-105 | each answer still null is recomputed, the provider question first |
| DeferredSniff.DeferredProvidersSniff.ExtractFromToken | DealerInspireLaravelCodingStandard/Sniffs/Providers/DeferredProvidersSniff.php:111-113 | the three extractors run in order on one token |
| DeferredSniff.DeferredProvidersSniff.IsServiceProvider | DealerInspireLaravelCodingStandard/Sniffs/Providers/DeferredProvidersSniff.php:129-149 | the answer and the new fields are those of `ProviderVerdict` |
| DeferredSniff.DeferredProvidersSniff.IsDeferred | DealerInspireLaravelCodingStandard/Sniffs/Providers/DeferredProvidersSniff.php:158-193 | the answer and the new fields are those of `DeferredVerdict`: the status it decides, and the watches turned on by `implements`/`$defer` and off by `{`, `DeferrableProvider` or a boolean |
| DeferredSniff.DeferredProvidersSniff.HandleBindingsProperty | DealerInspireLaravelCodingStandard/Sniffs/Providers/DeferredProvidersSniff.php:195-217 | the new fields are those of `BindingsPropertyStep`: unchanged unless the token is `public` with `$bindings` two places on, and then only the bound map changes, to the walk's result |
| DeferredSniff.DeferredProvidersSniff.ExtractServicesFromBindingsProperty | DealerInspireLaravelCodingStandard/Sniffs/Providers/DeferredProvidersSniff.php:219-230 | only the bound map changes, to the result of the walk from `index` to the first `]` |
| DeferredSniff.DeferredProvidersSniff.CaptureBindingKey | DealerInspireLaravelCodingStandard/Sniffs/Providers/DeferredProvidersSniff.php:222-226 | a truthy name followed by `=>` four tokens later is stored under its index; nothing else changes |
| DeferredSniff.DeferredProvidersSniff.HandleBind | DealerInspireLaravelCodingStandard/Sniffs/Providers/DeferredProvidersSniff.php:244-262 | the new fields are those of `BindStep` |
| DeferredSniff.DeferredProvidersSniff.CaptureBound | DealerInspireLaravelCodingStandard/Sniffs/Providers/DeferredProvidersSniff.php:258-261 | a truthy name is stored under its index and disarms the capture; otherwise the capture stays armed |
| DeferredSniff.DeferredProvidersSniff.HandleProvides | DealerInspireLaravelCodingStandard/Sniffs/Providers/DeferredProvidersSniff.php:271-304 | the new fields are those of `ProvidesStep`: the region opens on `provides`, a truthy name is captured while the in-array flag is set, and the brackets move the depth and flags as `TrackProvides` states |
| DeferredSniff.DeferredProvidersSniff.CaptureProvided | DealerInspireLaravelCodingStandard/Sniffs/Providers/DeferredProvidersSniff.php:281-283 | a truthy name is stored in the provides map under its index; nothing else changes |
| DeferredSniff.DeferredProvidersSniff.TrackBrackets | DealerInspireLaravelCodingStandard/Sniffs/Providers/DeferredProvidersSniff.php:285-303 | the new fields are those of the `switch` (`TrackProvides`): depth moved by `{` and `}`, the in-array flag set by `[`/`array` and cleared by `]`/`)`, the region closed by `}` at depth 1 |
| DeferredSniff.DeferredProvidersSniff.HandleErrors | DealerInspireLaravelCodingStandard/Sniffs/Providers/DeferredProvidersSniff.php:333-347 | the errors are the unbound-provided ones, then the bound-not-provided ones (`Reconcile`) |
| DeferredSniff.DeferredProvidersSniff.AddErrors | DealerInspireLaravelCodingStandard/Sniffs/Providers/DeferredProvidersSniff.php:338-340 | the loop appends one error per entry, in array order |
| DeferredSniff.DeferredProvidersSniff.Reset | DealerInspireLaravelCodingStandard/Sniffs/Providers/DeferredProvidersSniff.php:356-366 | maps, bind and provides flags, depth and the `$defer` watch are cleared; the `extends` and `implements` watches are kept |
| DeferredFacts.PassKeepsDecisions | DealerInspireLaravelCodingStandard/Sniffs/Providers/DeferredProvidersSniff.php:99-105 | once an answer is true or false, the rest of the pass keeps it |
| DeferredFacts.ExtractKeepsWatches | DealerInspireLaravelCodingStandard/Sniffs/Providers/DeferredProvidersSniff.php:111-113 | the extractors never touch the three watches |
| DeferredFacts.BindStepEffect | DealerInspireLaravelCodingStandard/Sniffs/Providers/DeferredProvidersSniff.php:244-262 | the capture stays armed exactly when it was armed (or a binding-method name arms it) and the token is neither a comma nor a truthy name; such a name is stored under its own index; nothing else is added and no other key is lost |
| DeferredFacts.ProvidesStepRegion | DealerInspireLaravelCodingStandard/Sniffs/Providers/DeferredProvidersSniff.php:271-304 | outside the region only the text `provides` acts; only the provides fields change; inside, the region closes exactly on a `}` at depth 1 |
| DeferredFacts.ProvidesStepCapture | DealerInspireLaravelCodingStandard/Sniffs/Providers/DeferredProvidersSniff.php:281-283 | a truthy name is stored exactly when the in-array flag was already set before the token, inside the region; nothing else is added |
| DeferredFacts.ProvidesStepBrackets | DealerInspireLaravelCodingStandard/Sniffs/Providers/DeferredProvidersSniff.php:285-303 | inside the region, or on `provides`, `{` and `}` move the depth by one, `[` or `array` set the in-array flag, `]` or `)` clear it, and other tokens keep the flag |
| DeferredFacts.BreakSkipsExtractors | DealerInspireLaravelCodingStandard/Sniffs/Providers/DeferredProvidersSniff.php:107-109 | a token after whose classification either answer is false ends the pass there: the result is the classified state, no extractor runs, and every field but the three watches is as before |
| DeferredFacts.ProviderNeedsExtends | DealerInspireLaravelCodingStandard/Sniffs/Providers/DeferredProvidersSniff.php:129-149 | a pass that decides "provider" meets the identifier `ServiceProvider` with an `extends` before it, or with the watch already on |
| DeferredFacts.DeferredNeedsMarker | DealerInspireLaravelCodingStandard/Sniffs/Providers/DeferredProvidersSniff.php:158-193 | a pass that decides "deferred" meets `DeferrableProvider` with an `implements` before it and no `{` in between (or the watch on from the start and no `{` since), or `true` with a `$defer` before it and no boolean in between (or that watch on from the start and no boolean since) |
| DeferredFacts.ReportNeedsMarkers | DealerInspireLaravelCodingStandard/Sniffs/Providers/DeferredProvidersSniff.php:116-118 | errors are only reported for a file with `ServiceProvider` and with `DeferrableProvider` or `true` |
| DeferredFacts.FreshReportNeedsExtends | DealerInspireLaravelCodingStandard/Sniffs/Providers/DeferredProvidersSniff.php:116-118 | with the `extends` watch off, errors need `extends` followed by `ServiceProvider` |
| DeferredFacts.CaptureContents | DealerInspireLaravelCodingStandard/Sniffs/Providers/DeferredProvidersSniff.php:258-259 | a capture site adds at most its own index with the name resolved there, and keeps the other keys |
| DeferredFacts.CaptureKeepsSound | DealerInspireLaravelCodingStandard/Sniffs/Providers/DeferredProvidersSniff.php:313-325 | after a capture, every entry still holds the name resolved at its own key |
| DeferredFacts.ExtractBindingsSound | DealerInspireLaravelCodingStandard/Sniffs/Providers/DeferredProvidersSniff.php:219-235 | the `$bindings` walk adds only names resolved at array keys (`=>` four tokens on) at or after its start |
| DeferredFacts.ExtractBindingsKeepsEarlier | DealerInspireLaravelCodingStandard/Sniffs/Providers/DeferredProvidersSniff.php:219-230 | entries under keys before the walk's position are kept |
| DeferredFacts.ExtractBindingsComplete | DealerInspireLaravelCodingStandard/Sniffs/Providers/DeferredProvidersSniff.php:221-226 | every truthy array key before the first `]` is stored under its index |
| DeferredFacts.ExtractBindingsStopsAtClose | DealerInspireLaravelCodingStandard/Sniffs/Providers/DeferredProvidersSniff.php:221 | nothing at or after the first `]` is stored |
| DeferredFacts.ExtractBindingsSingleKey | DealerInspireLaravelCodingStandard/Sniffs/Providers/DeferredProvidersSniff.php:219-235 | an array with one key before its `]` yields exactly that key's entry |
| DeferredFacts.BindKeepsSound | DealerInspireLaravelCodingStandard/Sniffs/Providers/DeferredProvidersSniff.php:244-262 | `handleBind` keeps the bound map sound |
| DeferredFacts.ProvidesKeepsSound | DealerInspireLaravelCodingStandard/Sniffs/Providers/DeferredProvidersSniff.php:271-304 | `handleProvides` keeps the provides map sound |
| DeferredFacts.ExtractKeepsSound | DealerInspireLaravelCodingStandard/Sniffs/Providers/DeferredProvidersSniff.php:111-113 | one token's extractors keep both maps sound |
| DeferredFacts.PassKeepsSound | DealerInspireLaravelCodingStandard/Sniffs/Providers/DeferredProvidersSniff.php:98-114 | the whole pass keeps both maps sound |
| DeferredFacts.MessageInjective | DealerInspireLaravelCodingStandard/Sniffs/Providers/DeferredProvidersSniff.php:339 | a message determines the name it quotes |
| DeferredFacts.MessagesDiffer | DealerInspireLaravelCodingStandard/Sniffs/Providers/DeferredProvidersSniff.php:339-344 | an "unbound" message never equals a "not in provides" message |
| DeferredFacts.ErrorsForMembership | DealerInspireLaravelCodingStandard/Sniffs/Providers/DeferredProvidersSniff.php:338-345 | an error for `k => v` is emitted exactly when `k => v` is an entry |
| DeferredFacts.ReconcileMembership | DealerInspireLaravelCodingStandard/Sniffs/Providers/DeferredProvidersSniff.php:333-347 | "unbound" for `k => v` exactly when it is provided and `v` is not bound; "not in provides" exactly when it is bound and `v` is not provided |
| DeferredFacts.ReconcileShape | DealerInspireLaravelCodingStandard/Sniffs/Providers/DeferredProvidersSniff.php:333-347 | every error has code `Found` and comes from an entry of one map whose value the other lacks |
| DeferredFacts.ReconcileEmptyIff | DealerInspireLaravelCodingStandard/Sniffs/Providers/DeferredProvidersSniff.php:333-347 | nothing is reported exactly when both maps hold the same set of names |
| DeferredFacts.ReportAnchored | DealerInspireLaravelCodingStandard/Sniffs/Providers/DeferredProvidersSniff.php:93-120 | from empty maps, every error sits on a token resolving to a truthy name and quotes that name as unbound or not provided |
| DeferredScenarios.OnlyBindActs | DealerInspireLaravelCodingStandard/Sniffs/Providers/DeferredProvidersSniff.php:111-113 | outside the provides region, a token that is neither `public` nor `provides` reaches `handleBind` only |
| DeferredScenarios.InertExtract | DealerInspireLaravelCodingStandard/Sniffs/Providers/DeferredProvidersSniff.php:111-113 | with no capture armed and no region open, an ordinary token changes nothing |
| DeferredScenarios.BindArms | DealerInspireLaravelCodingStandard/Sniffs/Providers/DeferredProvidersSniff.php:246-249 | `bind` arms the capture |
| DeferredScenarios.ArmedStoresName | DealerInspireLaravelCodingStandard/Sniffs/Providers/DeferredProvidersSniff.php:258-260 | while armed, `'name'` is stored as `name` under its index and disarms |
| DeferredScenarios.ReentryFirstPass | DealerInspireLaravelCodingStandard/Sniffs/Providers/DeferredProvidersSniff.php:93-114 | a new sniff ends that file deferred, undecided as a provider, the name bound and the `extends` watch on |
| DeferredScenarios.ReentrySecondPass | DealerInspireLaravelCodingStandard/Sniffs/Providers/DeferredProvidersSniff.php:129-146 | with the `extends` watch on, the leading `ServiceProvider` decides "provider" |
| DeferredScenarios.ReentryReports | DealerInspireLaravelCodingStandard/Sniffs/Providers/DeferredProvidersSniff.php:356-366 | the first report is empty, `reset` leaves the `extends` watch on, and the second report names the bound class as not provided |
| DeferredScenarios.ModelFileLeavesWatch | DealerInspireLaravelCodingStandard/Sniffs/Providers/DeferredProvidersSniff.php:160-163 | a non-provider is rejected at `implements`, which has already turned the `implements` watch on; `reset` keeps it |
| DeferredScenarios.ImporterPass | DealerInspireLaravelCodingStandard/Sniffs/Providers/DeferredProvidersSniff.php:170-179 | a leading `DeferrableProvider` decides "deferred" only if the `implements` watch is on |
| DeferredScenarios.WatchLeaksIntoNextFile | DealerInspireLaravelCodingStandard/Sniffs/Providers/DeferredProvidersSniff.php:356-366 | a new sniff reports nothing for the importing provider; a sniff reused after the rejected file reports its bound name |
| DeferredScenarios.BindingsFileKeys | DealerInspireLaravelCodingStandard/Sniffs/Providers/DeferredProvidersSniff.php:232-235 | in `[Key::class => Value::class]` only the key has `=>` four tokens on |
| DeferredScenarios.BindingsFileName | DealerInspireLaravelCodingStandard/Sniffs/Providers/DeferredProvidersSniff.php:313-318 | the key is captured as `Key::class` |
| DeferredScenarios.BindingsFileTriggers | DealerInspireLaravelCodingStandard/Sniffs/Providers/DeferredProvidersSniff.php:195-216 | `public $bindings` starts the walk at the `public` token |
| DeferredScenarios.BindingsKeyNotValue | DealerInspireLaravelCodingStandard/Sniffs/Providers/DeferredProvidersSniff.php:195-235 | the bound map holds exactly the key `Key::class`, not the value |
| DeferredScenarios.DecidedStep | DealerInspireLaravelCodingStandard/Sniffs/Providers/DeferredProvidersSniff.php:98-114 | once both answers are true, a token only runs the extractors and the pass moves on |
| DeferredScenarios.RegionStep | DealerInspireLaravelCodingStandard/Sniffs/Providers/DeferredProvidersSniff.php:111-113 | with the bind capture off, a token that is neither a binding-method name nor `public` reaches only `handleProvides` |
| DeferredScenarios.ProvidesOpensRegion | DealerInspireLaravelCodingStandard/Sniffs/Providers/DeferredProvidersSniff.php:273-275 | the text `provides` opens the region and changes nothing else |
| DeferredScenarios.BraceDeepens | DealerInspireLaravelCodingStandard/Sniffs/Providers/DeferredProvidersSniff.php:286-288 | inside the region, `{` adds one to the depth and changes nothing else |
| DeferredScenarios.BracketOpensArray | DealerInspireLaravelCodingStandard/Sniffs/Providers/DeferredProvidersSniff.php:295-298 | inside the region, `[` sets the in-array flag and changes nothing else |
| DeferredScenarios.QuotedSlotCaptured | DealerInspireLaravelCodingStandard/Sniffs/Providers/DeferredProvidersSniff.php:281-283 | inside the array, a quoted name is stored unquoted under its own index |
| DeferredScenarios.BlankSlotIgnored | DealerInspireLaravelCodingStandard/Sniffs/Providers/DeferredProvidersSniff.php:281-283 | whitespace inside the region changes nothing |
| DeferredScenarios.BracketClosesArray | DealerInspireLaravelCodingStandard/Sniffs/Providers/DeferredProvidersSniff.php:299-302 | inside the region, `]` clears the in-array flag and changes nothing else |
| DeferredScenarios.BraceClosesRegion | DealerInspireLaravelCodingStandard/Sniffs/Providers/DeferredProvidersSniff.php:289-294 | `}` at depth 1 brings the depth to 0 and closes the region |
| DeferredScenarios.ProvidesFilePass | DealerInspireLaravelCodingStandard/Sniffs/Providers/DeferredProvidersSniff.php:93-114 | a deferrable provider binding `K` and returning `[K]` (or `[]`) ends the pass with `K` bound and `K` provided (or nothing provided), the region closed |
| DeferredScenarios.ProvidedBindingReportsNothing | tests/Sniffs/Providers/DeferredProvidersSniffTest.php:59-63 | a provider that binds `K` and lists `K` in `provides()` reports nothing |
| DeferredScenarios.MissingProvideReported | tests/Sniffs/Providers/DeferredProvidersSniffTest.php:111-117 | a provider that binds `K` and returns an empty `provides()` array reports exactly one "not in provides" error for `K`, at the bound token |
| DeferredScenarios.ProcessTwice | DealerInspireLaravelCodingStandard/Sniffs/Providers/DeferredProvidersSniff.php:93-120 | one sniff object processing the same file twice: no errors, then one |
| NoGuardedAttributes.InspectedIndex | DealerInspireLaravelCodingStandard/Sniffs/Models/NoGuardedAttributesSniff.php:37-38 | the first variable at or after the trigger, or token 0 when there is none |
| NoGuardedAttributes.Process | DealerInspireLaravelCodingStandard/Sniffs/Models/NoGuardedAttributesSniff.php:33-41 | an error carries message `Uses $guarded attributes` and code `GuardedAttributes` and sits on a `$guarded` token that is the first variable after the trigger (or token 0) |
| NoGuardedAttributes.ProcessReportsFirstVariable | DealerInspireLaravelCodingStandard/Sniffs/Models/NoGuardedAttributesSniff.php:37-40 | with a variable ahead, an error is raised exactly when the first one is `$guarded`, anchored at it; later variables do not matter |
| NoGuardedAttributes.ProcessWithoutVariable | DealerInspireLaravelCodingStandard/Sniffs/Models/NoGuardedAttributesSniff.php:37-38 | with no variable ahead, the file's first token is read instead |
| NoGuardedAttributes.FileErrorsSound | DealerInspireLaravelCodingStandard/Sniffs/Models/NoGuardedAttributesSniff.php:38-39 | every error of a file has the sniff's message and code and sits on a `$guarded` token |
| NoGuardedAttributes.NoGuardedNoErrors | DealerInspireLaravelCodingStandard/Sniffs/Models/NoGuardedAttributesSniff.php:38 | a file without `$guarded` has no errors |
| NoGuardedAttributes.FileErrorsComplete | DealerInspireLaravelCodingStandard/Sniffs/Models/NoGuardedAttributesSniff.php:21-24 | every `protected` whose first variable is `$guarded` yields an error at that variable |
| NoGuardedAttributes.SkipUnregistered | DealerInspireLaravelCodingStandard/Sniffs/Models/NoGuardedAttributesSniff.php:21-24 | tokens other than `protected` add no errors |
| NoGuardedAttributes.ReportedAt | DealerInspireLaravelCodingStandard/Sniffs/Models/NoGuardedAttributesSniff.php:37-40 | a `protected` before `$guarded` adds exactly one error |
| NoGuardedAttributes.PassedAt | DealerInspireLaravelCodingStandard/Sniffs/Models/NoGuardedAttributesSniff.php:37-38 | a `protected` before another variable adds none |
| NoGuardedAttributes.GuardedPropertyReported | tests/Sniffs/Models/data/GuardedAttributesModel.php:8-12 | `protected $attribute; protected $guarded` gives exactly one error, at `$guarded` |
| NoGuardedAttributes.SharedVariableReportedTwice | DealerInspireLaravelCodingStandard/Sniffs/Models/NoGuardedAttributesSniff.php:33-41 | two `protected` tokens reaching the same `$guarded` report it twice |

## Left out

- PHP_CodeSniffer plumbing is not modelled: the `File` object,
  `getTokens`, the tokenizer, and the line and column of an error. `process`
  returns its errors instead of calling `addError`, and the `$data` argument
  of `addError` in `handleErrors` is dropped.
- `register` of DeferredProvidersSniff is not a member. It registers
  `T_OPEN_TAG` (DeferredProvidersSniff.php:80-84), so `process` runs once per
  open tag, not once per file: a file with several `<?php` tags is scanned
  several times by the same object. `Process` models one such call over the
  whole token list, and the unused `$stackPtr` is omitted.
- Token kinds the sniffs never test (whitespace, comments, `(`, `=` and so
  on) are all `Other`. A token's text is kept as it is.
- The write to the undeclared property `isDeferred` in `reset`
  (DeferredProvidersSniff.php:365) is left out: nothing ever reads it.
- DeferredScan.ExtractBindings: stops at the end of the token list. The
  `while` at DeferredProvidersSniff.php:221 has no such bound, so with no
  `]` after a `$bindings` property the PHP loop would run past the last
  token and never end.
- DeferredSniff.DeferredProvidersSniff.ExtractServicesFromBindingsProperty:
  the same bound as `ExtractBindings`.
- PHP integers are unbounded here. The only counter, the provides depth, is
  not clamped, and it can go negative when `provides` occurs without a
  following `{`.
- NoGuardedAttributes.InspectedIndex: when no variable follows, `findNext`
  returns `false` and the sniff reads `$tokens[false]`, which is token 0.
  The model reads token 0 and anchors a possible error there.
