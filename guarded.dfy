/**
 * NoGuardedAttributesSniff: on every `protected` token, the first variable at
 * or after it is inspected, and a variable spelled `$guarded` is reported.
 * The check reads tokens only; it keeps no state between calls.
 */
module NoGuardedAttributes {
  import opened Tokens

  const GuardedVariable := "$guarded"
  const GuardedMessage := "Uses $guarded attributes"
  const GuardedCode := "GuardedAttributes"

  /** `register`: the token kinds the sniff is called on. */
  const Registered: set<TokenCode> := {Protected}

  /** The error the sniff raises, anchored at the inspected variable. */
  function GuardedError(index: nat): Error
  {
    Error(index, GuardedMessage, GuardedCode)
  }

  /** `v` is the first variable at or after `from`. */
  predicate FirstVariableFrom(tokens: seq<Token>, from: nat, v: nat)
  {
    from <= v < |tokens| && tokens[v].code == Variable &&
    forall j :: from <= j < v ==> tokens[j].code != Variable
  }

  /** The token index `process` reads: `findNext([T_VARIABLE], stackPtr)`;
      when there is no variable `findNext` answers false, and `$tokens[false]`
      is the token at index 0. */
  function InspectedIndex(tokens: seq<Token>, stackPtr: nat): (v: nat)
    requires stackPtr < |tokens|
    ensures v < |tokens|
    ensures FirstVariableFrom(tokens, stackPtr, v) ||
      (v == 0 && forall j :: stackPtr <= j < |tokens| ==> tokens[j].code != Variable)
  {
    match FindNext(tokens, {Variable}, stackPtr)
    case Some(v) => v
    case None => 0
  }

  /** `process`: the error for the inspected token when its text is exactly
      `$guarded`, nothing otherwise. */
  function Process(tokens: seq<Token>, stackPtr: nat): (r: Option<Error>)
    requires stackPtr < |tokens|
    ensures r.Some? ==> r.value.message == GuardedMessage && r.value.code == GuardedCode
    ensures r.Some? ==> r.value.index < |tokens| && tokens[r.value.index].content == GuardedVariable
    ensures r.Some? ==> FirstVariableFrom(tokens, stackPtr, r.value.index) || r.value.index == 0
  {
    var v := InspectedIndex(tokens, stackPtr);
    if tokens[v].content == GuardedVariable then Some(GuardedError(v)) else None
  }

  /** With a variable ahead, the verdict depends on that first variable alone:
      a later `$guarded` is not looked at. */
  lemma ProcessReportsFirstVariable(tokens: seq<Token>, stackPtr: nat, v: nat)
    requires stackPtr < |tokens|
    requires FirstVariableFrom(tokens, stackPtr, v)
    ensures Process(tokens, stackPtr) ==
      if tokens[v].content == GuardedVariable then Some(GuardedError(v)) else None
  {
  }

  /** With no variable ahead, the sniff reads the file's first token. */
  lemma ProcessWithoutVariable(tokens: seq<Token>, stackPtr: nat)
    requires stackPtr < |tokens|
    requires forall j :: stackPtr <= j < |tokens| ==> tokens[j].code != Variable
    ensures Process(tokens, stackPtr) ==
      if tokens[0].content == GuardedVariable then Some(GuardedError(0)) else None
  {
  }

  /** The errors of one file: `process` called on every registered token from
      `from` on, in token order. */
  function FileErrors(tokens: seq<Token>, from: nat): seq<Error>
    decreases |tokens| - from
  {
    if from >= |tokens| then []
    else
      var here := if tokens[from].code in Registered then Process(tokens, from) else None;
      (match here case Some(e) => [e] case None => []) + FileErrors(tokens, from + 1)
  }

  /** Every error of a file carries the sniff's message and code and sits on a
      token spelled `$guarded`. */
  lemma {:induction false} FileErrorsSound(tokens: seq<Token>, from: nat)
    ensures forall e :: e in FileErrors(tokens, from) ==>
      e.message == GuardedMessage && e.code == GuardedCode &&
      e.index < |tokens| && tokens[e.index].content == GuardedVariable
    decreases |tokens| - from
  {
    if from < |tokens| {
      FileErrorsSound(tokens, from + 1);
    }
  }

  /** A file in which no token from `from` on is spelled `$guarded` has no
      errors from there on. */
  lemma {:induction false} NoGuardedNoErrors(tokens: seq<Token>, from: nat)
    requires forall j :: 0 <= j < |tokens| ==> tokens[j].content != GuardedVariable
    ensures FileErrors(tokens, from) == []
    decreases |tokens| - from
  {
    if from < |tokens| {
      NoGuardedNoErrors(tokens, from + 1);
    }
  }

  /** Every `protected` whose first following variable is `$guarded` yields an
      error at that variable. */
  lemma {:induction false} FileErrorsComplete(tokens: seq<Token>, from: nat, k: nat, v: nat)
    requires from <= k < |tokens| && tokens[k].code == Protected
    requires FirstVariableFrom(tokens, k, v) && tokens[v].content == GuardedVariable
    ensures GuardedError(v) in FileErrors(tokens, from)
    decreases k - from
  {
    ProcessReportsFirstVariable(tokens, k, v);
    if from < k {
      FileErrorsComplete(tokens, from + 1, k, v);
    }
  }

  /** A token the sniff is not registered for adds nothing. */
  lemma SkipUnregistered(tokens: seq<Token>, from: nat)
    requires from < |tokens| && tokens[from].code !in Registered
    ensures FileErrors(tokens, from) == FileErrors(tokens, from + 1)
  {
  }

  /** A `protected` whose first following variable is `$guarded` adds exactly
      one error, in front of those of the later tokens. */
  lemma ReportedAt(tokens: seq<Token>, from: nat, v: nat)
    requires from < |tokens| && tokens[from].code == Protected
    requires FirstVariableFrom(tokens, from, v) && tokens[v].content == GuardedVariable
    ensures FileErrors(tokens, from) == [GuardedError(v)] + FileErrors(tokens, from + 1)
  {
    ProcessReportsFirstVariable(tokens, from, v);
  }

  /** A `protected` whose first following variable is not `$guarded` adds nothing. */
  lemma PassedAt(tokens: seq<Token>, from: nat, v: nat)
    requires from < |tokens| && tokens[from].code == Protected
    requires FirstVariableFrom(tokens, from, v) && tokens[v].content != GuardedVariable
    ensures FileErrors(tokens, from) == FileErrors(tokens, from + 1)
  {
    ProcessReportsFirstVariable(tokens, from, v);
  }

  /** The tokens of `protected $attribute = 'value'; protected $guarded = [...]`. */
  const AttributeThenGuarded := [Token(Protected, "protected"), Token(Variable, "$attribute"),
                                 Token(Protected, "protected"), Token(Variable, "$guarded")]

  /** One error, at the second property's variable. */
  lemma GuardedPropertyReported()
    ensures FileErrors(AttributeThenGuarded, 0) == [GuardedError(3)]
  {
    var tokens := AttributeThenGuarded;
    PassedAt(tokens, 0, 1);
    SkipUnregistered(tokens, 1);
    ReportedAt(tokens, 2, 3);
    SkipUnregistered(tokens, 3);
  }

  /** The tokens of a parameterless `protected function boot() {}` followed
      by `protected $guarded`. */
  const TwoProtected := [Token(Protected, "protected"), Token(Other, "function"), Token(String, "boot"),
                         Token(OpenCurly, "{"), Token(CloseCurly, "}"),
                         Token(Protected, "protected"), Token(Variable, "$guarded")]

  /** The first `protected` reaches the variable six tokens on. */
  lemma TwoProtectedHead()
    ensures FileErrors(TwoProtected, 0) == [GuardedError(6)] + FileErrors(TwoProtected, 1)
  {
    ReportedAt(TwoProtected, 0, 6);
  }

  /** From the function's body on, only the second `protected` reports. */
  lemma TwoProtectedTail()
    ensures FileErrors(TwoProtected, 1) == [GuardedError(6)]
  {
    var tokens := TwoProtected;
    SkipUnregistered(tokens, 1);
    SkipUnregistered(tokens, 2);
    SkipUnregistered(tokens, 3);
    SkipUnregistered(tokens, 4);
    ReportedAt(tokens, 5, 6);
    SkipUnregistered(tokens, 6);
  }

  /** Both `protected` tokens reach the same variable, so it is reported twice. */
  lemma SharedVariableReportedTwice()
    ensures FileErrors(TwoProtected, 0) == [GuardedError(6), GuardedError(6)]
  {
    TwoProtectedHead();
    TwoProtectedTail();
  }
}
